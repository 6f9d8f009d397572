/** The amenity endpoints. updateAmenity overwrites the mapped DTO's amenity id with the
    one from the path before handing the DTO to the service; the DTO is a mutable object
    and the service records what it was asked to update. */
module AmenityController {
  import opened Wrappers
  import opened Domain
  import opened Http

  /** The amenity entity and REST model types the controller passes through. */
  type Amenity(==)
  type AmenityDetailsResponse(==)
  type UpdateAmenityRequest(==)

  /** The contents of an AmenityDto: every field is nullable. */
  datatype AmenityFields = AmenityFields(
    id: Option<int>,
    amenityId: Option<string>,
    name: Option<string>,
    description: Option<string>,
    price: Option<Decimal>,
    communityId: Option<string>)

  /** The REST model's AmenityDto, updated in place by its setters. */
  class AmenityDto {
    var id: Option<int>
    var amenityId: Option<string>
    var name: Option<string>
    var description: Option<string>
    var price: Option<Decimal>
    var communityId: Option<string>

    function Fields(): AmenityFields
      reads this
    {
      AmenityFields(id, amenityId, name, description, price, communityId)
    }

    constructor(fields: AmenityFields)
      ensures Fields() == fields
    {
      id := fields.id;
      amenityId := fields.amenityId;
      name := fields.name;
      description := fields.description;
      price := fields.price;
      communityId := fields.communityId;
    }

    /** setAmenityId */
    method SetAmenityId(amenityId: string)
      modifies this
      ensures Fields() == old(Fields()).(amenityId := Some(amenityId))
    {
      this.amenityId := Some(amenityId);
    }
  }

  datatype AmenityApiMapper = AmenityApiMapper(
    amenityToAmenityDetailsResponse: Amenity -> AmenityDetailsResponse,
    amenitiesSetToAmenityDetailsResponseSet: set<Amenity> -> set<AmenityDetailsResponse>,
    updateAmenityRequestToAmenityDto: UpdateAmenityRequest -> AmenityFields)

  /** The amenity service. Lookups are fixed functions; updates are recorded with the
      DTO contents they were given, and answered by updateOutcome. */
  class AmenityService {
    const getAmenityDetails: string -> Option<Amenity>
    const listAllAmenities: string -> set<Amenity>
    const createAmenities: (seq<AmenityFields>, string) -> Option<seq<AmenityFields>>
    const deleteAmenity: string -> bool
    const updateOutcome: AmenityFields -> bool
    var updates: seq<AmenityFields>

    constructor(getAmenityDetails: string -> Option<Amenity>, listAllAmenities: string -> set<Amenity>,
                createAmenities: (seq<AmenityFields>, string) -> Option<seq<AmenityFields>>,
                deleteAmenity: string -> bool, updateOutcome: AmenityFields -> bool)
      ensures this.getAmenityDetails == getAmenityDetails && this.listAllAmenities == listAllAmenities
      ensures this.createAmenities == createAmenities && this.deleteAmenity == deleteAmenity
      ensures this.updateOutcome == updateOutcome
      ensures updates == []
    {
      this.getAmenityDetails := getAmenityDetails;
      this.listAllAmenities := listAllAmenities;
      this.createAmenities := createAmenities;
      this.deleteAmenity := deleteAmenity;
      this.updateOutcome := updateOutcome;
      updates := [];
    }

    /** updateAmenity */
    method UpdateAmenity(amenityDto: AmenityDto) returns (updated: bool)
      modifies this
      ensures updated == updateOutcome(amenityDto.Fields())
      ensures updates == old(updates) + [amenityDto.Fields()]
    {
      updates := updates + [amenityDto.Fields()];
      updated := updateOutcome(amenityDto.Fields());
    }
  }

  datatype AddAmenityResponse = AddAmenityResponse(amenities: seq<AmenityFields>)

  /** getAmenityDetails: 200 with the mapped amenity, or 404 with no body. */
  function GetAmenityDetails(amenityId: string, service: AmenityService, mapper: AmenityApiMapper)
    : (r: Response<AmenityDetailsResponse>)
    ensures r.status == Ok <==> service.getAmenityDetails(amenityId).Some?
    ensures r.status == Ok ==> r.body == Some(mapper.amenityToAmenityDetailsResponse(service.getAmenityDetails(amenityId).value))
    ensures r.status != Ok ==> r == Empty(NotFound)
  {
    service.getAmenityDetails(amenityId)
      .Map(mapper.amenityToAmenityDetailsResponse)
      .Map((body: AmenityDetailsResponse) => WithBody(Ok, body))
      .OrElse(Empty(NotFound))
  }

  /** An unknown amenity is answered without the mapper: any other mapping gives the same answer. */
  lemma UnknownAmenityIsNotMapped(amenityId: string, service: AmenityService, mapper: AmenityApiMapper,
                                  toResponse: Amenity -> AmenityDetailsResponse)
    requires service.getAmenityDetails(amenityId).None?
    ensures GetAmenityDetails(amenityId, service, mapper.(amenityToAmenityDetailsResponse := toResponse))
         == GetAmenityDetails(amenityId, service, mapper)
  {
  }

  /** listAllAmenities */
  function ListAllAmenities(communityId: string, service: AmenityService, mapper: AmenityApiMapper)
    : (r: Response<set<AmenityDetailsResponse>>)
    ensures r.status == Ok
    ensures r.body == Some(mapper.amenitiesSetToAmenityDetailsResponseSet(service.listAllAmenities(communityId)))
  {
    var amenities := service.listAllAmenities(communityId);
    WithBody(Ok, mapper.amenitiesSetToAmenityDetailsResponseSet(amenities))
  }

  /** addAmenityToCommunity: 200 with the created amenities, or 404 when the community is unknown. */
  function AddAmenityToCommunity(communityId: string, amenities: seq<AmenityFields>, service: AmenityService)
    : (r: Response<AddAmenityResponse>)
    ensures r.status == Ok <==> service.createAmenities(amenities, communityId).Some?
    ensures r.status == Ok ==> r.body == Some(AddAmenityResponse(service.createAmenities(amenities, communityId).value))
    ensures r.status != Ok ==> r == Empty(NotFound)
  {
    service.createAmenities(amenities, communityId)
      .Map((amenityList: seq<AmenityFields>) => AddAmenityResponse(amenityList))
      .Map((body: AddAmenityResponse) => WithBody(Ok, body))
      .OrElse(Empty(NotFound))
  }

  /** deleteAmenity */
  function DeleteAmenity(amenityId: string, service: AmenityService)
    : (r: Response<()>)
    ensures r.body == None
    ensures r.status == NoContent <==> service.deleteAmenity(amenityId)
    ensures r.status != NoContent ==> r.status == NotFound
  {
    var isAmenityDeleted := service.deleteAmenity(amenityId);
    if isAmenityDeleted then Empty(NoContent) else Empty(NotFound)
  }

  /** What updateAmenity hands to the service: the mapped request with the path's amenity id,
      whatever id the mapper produced, and every other field as mapped. */
  function AmenityToUpdate(amenityId: string, request: UpdateAmenityRequest, mapper: AmenityApiMapper): (f: AmenityFields)
    ensures f.amenityId == Some(amenityId)
    ensures var mapped := mapper.updateAmenityRequestToAmenityDto(request);
      f.(amenityId := mapped.amenityId) == mapped
  {
    mapper.updateAmenityRequestToAmenityDto(request).(amenityId := Some(amenityId))
  }

  /** Two requests that map to the same DTO up to its amenity id update the same amenity the same way. */
  lemma MappedAmenityIdIgnored(amenityId: string, r1: UpdateAmenityRequest, r2: UpdateAmenityRequest, mapper: AmenityApiMapper)
    requires mapper.updateAmenityRequestToAmenityDto(r1).(amenityId := None)
          == mapper.updateAmenityRequestToAmenityDto(r2).(amenityId := None)
    ensures AmenityToUpdate(amenityId, r1, mapper) == AmenityToUpdate(amenityId, r2, mapper)
  {
    var m1 := mapper.updateAmenityRequestToAmenityDto(r1);
    var m2 := mapper.updateAmenityRequestToAmenityDto(r2);
    assert m1.(amenityId := Some(amenityId)) == m1.(amenityId := None).(amenityId := Some(amenityId));
    assert m2.(amenityId := Some(amenityId)) == m2.(amenityId := None).(amenityId := Some(amenityId));
  }

  /** updateAmenity: the service is asked once, with the path's amenity id; 204 when it
      reports the update, else 404. */
  method UpdateAmenity(amenityId: string, request: UpdateAmenityRequest, service: AmenityService, mapper: AmenityApiMapper)
    returns (r: Response<()>)
    modifies service
    ensures service.updates == old(service.updates) + [AmenityToUpdate(amenityId, request, mapper)]
    ensures r.body == None
    ensures r.status == NoContent <==> service.updateOutcome(AmenityToUpdate(amenityId, request, mapper))
    ensures r.status != NoContent ==> r.status == NotFound
  {
    var amenityDto := new AmenityDto(mapper.updateAmenityRequestToAmenityDto(request));
    amenityDto.SetAmenityId(amenityId);
    var isUpdated := service.UpdateAmenity(amenityDto);
    if isUpdated {
      r := Empty(NoContent);
    } else {
      r := Empty(NotFound);
    }
  }
}
