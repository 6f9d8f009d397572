/** The community endpoints: how the community service's answers become status codes
    and bodies. The service and the generated mapper are parameters. */
module CommunityController {
  import opened Wrappers
  import opened Domain
  import opened Http
  import opened Paging

  /** REST model types and DTOs the controller passes through without inspecting. */
  type CreateCommunityRequest(==)
  type CommunityDto(==)
  type CreateCommunityResponse(==)
  type CommunityDetails(==)
  type CommunityAdmin(==)
  type HouseDetails(==)
  type CommunityHouseName(==)

  datatype CommunityService = CommunityService(
    createCommunity: CommunityDto -> Community,
    listAll: Pageable -> set<Community>,
    getCommunityDetailsById: string -> Option<Community>,
    findCommunityAdminsById: (string, Pageable) -> Option<seq<User>>,
    findCommunityHousesById: (string, Pageable) -> Option<seq<CommunityHouse>>,
    addAdminsToCommunity: (string, set<string>) -> Option<Community>,
    addHousesToCommunity: (string, set<CommunityHouse>) -> set<string>,
    removeHouseFromCommunityByHouseId: (Community, string) -> bool,
    removeAdminFromCommunity: (string, string) -> bool,
    deleteCommunity: string -> bool)

  datatype CommunityApiMapper = CommunityApiMapper(
    createCommunityRequestToCommunityDto: CreateCommunityRequest -> CommunityDto,
    communityToCreateCommunityResponse: Community -> CreateCommunityResponse,
    communitySetToRestApiResponseCommunitySet: set<Community> -> set<CommunityDetails>,
    communityToRestApiResponseCommunity: Community -> CommunityDetails,
    communityAdminSetToRestApiResponseCommunityAdminSet: set<User> -> set<CommunityAdmin>,
    communityHouseSetToRestApiResponseCommunityHouseSet: set<CommunityHouse> -> set<HouseDetails>,
    communityHouseNamesSetToCommunityHouseSet: set<CommunityHouseName> -> set<CommunityHouse>)

  datatype GetCommunityDetailsResponse = GetCommunityDetailsResponse(communities: set<CommunityDetails>)
  datatype ListCommunityAdminsResponse = ListCommunityAdminsResponse(admins: set<CommunityAdmin>)
  datatype GetHouseDetailsResponse = GetHouseDetailsResponse(houses: set<HouseDetails>)
  datatype AddCommunityAdminResponse = AddCommunityAdminResponse(admins: set<string>)
  datatype AddCommunityHouseResponse = AddCommunityHouseResponse(houses: set<string>)

  /** createCommunity */
  function CreateCommunity(request: CreateCommunityRequest, service: CommunityService, mapper: CommunityApiMapper)
    : (r: Response<CreateCommunityResponse>)
    ensures r.status == Created
    ensures r.body == Some(mapper.communityToCreateCommunityResponse(
      service.createCommunity(mapper.createCommunityRequestToCommunityDto(request))))
  {
    var requestCommunityDto := mapper.createCommunityRequestToCommunityDto(request);
    var createdCommunity := service.createCommunity(requestCommunityDto);
    WithBody(Created, mapper.communityToCreateCommunityResponse(createdCommunity))
  }

  /** listAllCommunity */
  function ListAllCommunity(pageable: Pageable, service: CommunityService, mapper: CommunityApiMapper)
    : (r: Response<GetCommunityDetailsResponse>)
    ensures r.status == Ok
    ensures r.body == Some(GetCommunityDetailsResponse(mapper.communitySetToRestApiResponseCommunitySet(service.listAll(pageable))))
  {
    var communityDetails := service.listAll(pageable);
    var communityDetailsResponse := mapper.communitySetToRestApiResponseCommunitySet(communityDetails);
    WithBody(Ok, GetCommunityDetailsResponse(communityDetailsResponse))
  }

  /** listCommunityDetails: the single community found, or 404. */
  function ListCommunityDetails(communityId: string, service: CommunityService, mapper: CommunityApiMapper)
    : (r: Response<GetCommunityDetailsResponse>)
    ensures r.status == Ok <==> service.getCommunityDetailsById(communityId).Some?
    ensures r.status == Ok ==>
      && r.body.Some? && |r.body.value.communities| == 1
      && mapper.communityToRestApiResponseCommunity(service.getCommunityDetailsById(communityId).value) in r.body.value.communities
    ensures r.status != Ok ==> r == Empty(NotFound)
  {
    service.getCommunityDetailsById(communityId)
      .Map(mapper.communityToRestApiResponseCommunity)
      .Map((details: CommunityDetails) => {details})
      .Map((communities: set<CommunityDetails>) => GetCommunityDetailsResponse(communities))
      .Map((body: GetCommunityDetailsResponse) => WithBody(Ok, body))
      .OrElse(Empty(NotFound))
  }

  /** listCommunityAdmins */
  function ListCommunityAdmins(communityId: string, pageable: Pageable, service: CommunityService, mapper: CommunityApiMapper)
    : (r: Response<ListCommunityAdminsResponse>)
    ensures r.status == Ok <==> service.findCommunityAdminsById(communityId, pageable).Some?
    ensures r.status == Ok ==> r.body == Some(ListCommunityAdminsResponse(
      mapper.communityAdminSetToRestApiResponseCommunityAdminSet(Elements(service.findCommunityAdminsById(communityId, pageable).value))))
    ensures r.status != Ok ==> r == Empty(NotFound)
  {
    service.findCommunityAdminsById(communityId, pageable)
      .Map(Elements)
      .Map(mapper.communityAdminSetToRestApiResponseCommunityAdminSet)
      .Map((admins: set<CommunityAdmin>) => ListCommunityAdminsResponse(admins))
      .Map((body: ListCommunityAdminsResponse) => WithBody(Ok, body))
      .OrElse(Empty(NotFound))
  }

  /** listCommunityHouses */
  function ListCommunityHouses(communityId: string, pageable: Pageable, service: CommunityService, mapper: CommunityApiMapper)
    : (r: Response<GetHouseDetailsResponse>)
    ensures r.status == Ok <==> service.findCommunityHousesById(communityId, pageable).Some?
    ensures r.status == Ok ==> r.body == Some(GetHouseDetailsResponse(
      mapper.communityHouseSetToRestApiResponseCommunityHouseSet(Elements(service.findCommunityHousesById(communityId, pageable).value))))
    ensures r.status != Ok ==> r == Empty(NotFound)
  {
    service.findCommunityHousesById(communityId, pageable)
      .Map(Elements)
      .Map(mapper.communityHouseSetToRestApiResponseCommunityHouseSet)
      .Map((houses: set<HouseDetails>) => GetHouseDetailsResponse(houses))
      .Map((body: GetHouseDetailsResponse) => WithBody(Ok, body))
      .OrElse(Empty(NotFound))
  }

  /** The user ids of a community's admins. */
  function AdminUserIds(community: Community): (ids: set<string>)
    ensures forall id :: id in ids <==> exists admin :: admin in community.admins && admin.userId == id
  {
    set admin | admin in community.admins :: admin.userId
  }

  /** addCommunityAdmins: 201 with the user ids of the updated community's admins, or 404. */
  function AddCommunityAdmins(communityId: string, admins: set<string>, service: CommunityService)
    : (r: Response<AddCommunityAdminResponse>)
    ensures r.status == Created <==> service.addAdminsToCommunity(communityId, admins).Some?
    ensures r.status == Created ==>
      && r.body.Some?
      && forall id :: id in r.body.value.admins <==>
        exists admin :: admin in service.addAdminsToCommunity(communityId, admins).value.admins && admin.userId == id
    ensures r.status != Created ==> r == Empty(NotFound)
  {
    service.addAdminsToCommunity(communityId, admins)
      .Map((community: Community) => WithBody(Created, AddCommunityAdminResponse(AdminUserIds(community))))
      .OrElse(Empty(NotFound))
  }

  /** addCommunityHouses: 201 only when houses were requested and some were added. */
  function AddCommunityHouses(communityId: string, houseNames: set<CommunityHouseName>, service: CommunityService, mapper: CommunityApiMapper)
    : (r: Response<AddCommunityHouseResponse>)
    ensures var houseIds := service.addHousesToCommunity(communityId, mapper.communityHouseNamesSetToCommunityHouseSet(houseNames));
      && (r.status == Created <==> houseIds != {} && houseNames != {})
      && (r.status == Created ==> r.body == Some(AddCommunityHouseResponse(houseIds)))
      && (r.status != Created ==> r == Empty(BadRequest))
  {
    var communityHouses := mapper.communityHouseNamesSetToCommunityHouseSet(houseNames);
    var houseIds := service.addHousesToCommunity(communityId, communityHouses);
    if |houseIds| != 0 && |houseNames| != 0 then
      WithBody(Created, AddCommunityHouseResponse(houseIds))
    else
      Empty(BadRequest)
  }

  /** An empty request is refused whatever the service adds. */
  lemma EmptyHouseRequestRefused(communityId: string, service: CommunityService, mapper: CommunityApiMapper)
    ensures AddCommunityHouses(communityId, {}, service, mapper) == Empty(BadRequest)
  {
  }

  /** removeCommunityHouse: 204 when the community exists and the removal succeeds, otherwise 404. */
  function RemoveCommunityHouse(communityId: string, houseId: string, service: CommunityService)
    : (r: Response<()>)
    ensures r.body == None
    ensures r.status == NoContent <==>
      var community := service.getCommunityDetailsById(communityId);
      community.Some? && service.removeHouseFromCommunityByHouseId(community.value, houseId)
    ensures r.status != NoContent ==> r.status == NotFound
  {
    service.getCommunityDetailsById(communityId)
      .Filter((community: Community) => service.removeHouseFromCommunityByHouseId(community, houseId))
      .Map((removed: Community) => Empty<()>(NoContent))
      .OrElse(Empty(NotFound))
  }

  /** Without the community no removal is attempted: the removal service cannot change the answer. */
  lemma AbsentCommunityAttemptsNoRemoval(communityId: string, houseId: string, service: CommunityService,
                                         remove: (Community, string) -> bool)
    requires service.getCommunityDetailsById(communityId).None?
    ensures RemoveCommunityHouse(communityId, houseId, service.(removeHouseFromCommunityByHouseId := remove))
         == RemoveCommunityHouse(communityId, houseId, service)
         == Empty(NotFound)
  {
  }

  /** The removal is asked about the community that was found, and about nothing else. */
  lemma RemovalAsksOnlyAboutFoundCommunity(communityId: string, houseId: string, service: CommunityService,
                                           remove: (Community, string) -> bool)
    requires service.getCommunityDetailsById(communityId).Some?
    requires remove(service.getCommunityDetailsById(communityId).value, houseId)
          == service.removeHouseFromCommunityByHouseId(service.getCommunityDetailsById(communityId).value, houseId)
    ensures RemoveCommunityHouse(communityId, houseId, service.(removeHouseFromCommunityByHouseId := remove))
         == RemoveCommunityHouse(communityId, houseId, service)
  {
  }

  /** removeAdminFromCommunity */
  function RemoveAdminFromCommunity(communityId: string, adminId: string, service: CommunityService)
    : (r: Response<()>)
    ensures r.body == None
    ensures r.status == NoContent <==> service.removeAdminFromCommunity(communityId, adminId)
    ensures r.status != NoContent ==> r.status == NotFound
  {
    var adminRemoved := service.removeAdminFromCommunity(communityId, adminId);
    if adminRemoved then Empty(NoContent) else Empty(NotFound)
  }

  /** deleteCommunity */
  function DeleteCommunity(communityId: string, service: CommunityService)
    : (r: Response<()>)
    ensures r.body == None
    ensures r.status == NoContent <==> service.deleteCommunity(communityId)
    ensures r.status != NoContent ==> r.status == NotFound
  {
    var isDeleted := service.deleteCommunity(communityId);
    if isDeleted then Empty(NoContent) else Empty(NotFound)
  }
}
