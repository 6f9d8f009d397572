/** The house endpoints: how the house service's answers become status codes and bodies.
    The service and the generated mappers are parameters. */
module HouseController {
  import opened Wrappers
  import opened Domain
  import opened Http
  import opened Paging

  /** REST model types the controller passes through without inspecting. */
  type HouseDetails(==)
  type HouseMemberRequest(==)
  type MemberDetails(==)
  type AddedMember(==)

  datatype HouseService = HouseService(
    listAllHouses: Pageable -> set<CommunityHouse>,
    getHouseDetailsById: string -> Option<CommunityHouse>,
    getHouseMembersById: (string, Pageable) -> Option<seq<HouseMember>>,
    addHouseMembers: (string, set<HouseMember>) -> set<HouseMember>,
    deleteMemberFromHouse: (string, string) -> bool,
    // A house-service lookup, although only UserController's listAllHousemates calls it.
    listHouseMembersForHousesOfUserId: (string, Pageable) -> Option<seq<HouseMember>>)

  datatype HouseMappers = HouseMappers(
    communityHouseSetToRestApiResponseCommunityHouseSet: set<CommunityHouse> -> set<HouseDetails>,
    communityHouseToRestApiResponseCommunityHouse: CommunityHouse -> HouseDetails,
    houseMemberSetToRestApiResponseHouseMemberSet: set<HouseMember> -> set<MemberDetails>,
    houseMemberDtoSetToHouseMemberSet: set<HouseMemberRequest> -> set<HouseMember>,
    houseMemberSetToRestApiResponseAddHouseMemberSet: set<HouseMember> -> set<AddedMember>)

  datatype GetHouseDetailsResponse = GetHouseDetailsResponse(houses: set<HouseDetails>)
  datatype ListHouseMembersResponse = ListHouseMembersResponse(members: set<MemberDetails>)
  datatype AddHouseMemberResponse = AddHouseMemberResponse(members: set<AddedMember>)

  /** listAllHouses */
  function ListAllHouses(pageable: Pageable, service: HouseService, mappers: HouseMappers)
    : (r: Response<GetHouseDetailsResponse>)
    ensures r.status == Ok
    ensures r.body == Some(GetHouseDetailsResponse(
      mappers.communityHouseSetToRestApiResponseCommunityHouseSet(service.listAllHouses(pageable))))
  {
    var houseDetails := service.listAllHouses(pageable);
    WithBody(Ok, GetHouseDetailsResponse(mappers.communityHouseSetToRestApiResponseCommunityHouseSet(houseDetails)))
  }

  /** getHouseDetails: the single house found, or 404. */
  function GetHouseDetails(houseId: string, service: HouseService, mappers: HouseMappers)
    : (r: Response<GetHouseDetailsResponse>)
    ensures r.status == Ok <==> service.getHouseDetailsById(houseId).Some?
    ensures r.status == Ok ==>
      && r.body.Some? && |r.body.value.houses| == 1
      && mappers.communityHouseToRestApiResponseCommunityHouse(service.getHouseDetailsById(houseId).value) in r.body.value.houses
    ensures r.status != Ok ==> r == Empty(NotFound)
  {
    service.getHouseDetailsById(houseId)
      .Map(mappers.communityHouseToRestApiResponseCommunityHouse)
      .Map((details: HouseDetails) => {details})
      .Map((houses: set<HouseDetails>) => GetHouseDetailsResponse(houses))
      .Map((body: GetHouseDetailsResponse) => WithBody(Ok, body))
      .OrElse(Empty(NotFound))
  }

  /** listAllMembersOfHouse */
  function ListAllMembersOfHouse(houseId: string, pageable: Pageable, service: HouseService, mappers: HouseMappers)
    : (r: Response<ListHouseMembersResponse>)
    ensures r.status == Ok <==> service.getHouseMembersById(houseId, pageable).Some?
    ensures r.status == Ok ==> r.body == Some(ListHouseMembersResponse(
      mappers.houseMemberSetToRestApiResponseHouseMemberSet(Elements(service.getHouseMembersById(houseId, pageable).value))))
    ensures r.status != Ok ==> r == Empty(NotFound)
  {
    service.getHouseMembersById(houseId, pageable)
      .Map(Elements)
      .Map(mappers.houseMemberSetToRestApiResponseHouseMemberSet)
      .Map((members: set<MemberDetails>) => ListHouseMembersResponse(members))
      .Map((body: ListHouseMembersResponse) => WithBody(Ok, body))
      .OrElse(Empty(NotFound))
  }

  /** addHouseMembers: 404 exactly when members were requested and none was saved;
      otherwise 201 with the saved members. */
  function AddHouseMembers(houseId: string, requested: set<HouseMemberRequest>, service: HouseService, mappers: HouseMappers)
    : (r: Response<AddHouseMemberResponse>)
    ensures var saved := service.addHouseMembers(houseId, mappers.houseMemberDtoSetToHouseMemberSet(requested));
      && (r.status == NotFound <==> saved == {} && requested != {})
      && (r.status == NotFound ==> r.body == None)
      && (r.status != NotFound ==>
            r == WithBody(Created, AddHouseMemberResponse(mappers.houseMemberSetToRestApiResponseAddHouseMemberSet(saved))))
  {
    var members := mappers.houseMemberDtoSetToHouseMemberSet(requested);
    var savedHouseMembers := service.addHouseMembers(houseId, members);
    if |savedHouseMembers| == 0 && |requested| != 0 then
      Empty(NotFound)
    else
      WithBody(Created, AddHouseMemberResponse(mappers.houseMemberSetToRestApiResponseAddHouseMemberSet(savedHouseMembers)))
  }

  /** The rule is asymmetric: a request without members is answered 201, with the
      mapping of whatever the service saved, never 404. */
  lemma EmptyMemberRequestCreated(houseId: string, service: HouseService, mappers: HouseMappers)
    ensures AddHouseMembers(houseId, {}, service, mappers).status == Created
  {
  }

  /** deleteHouseMember */
  function DeleteHouseMember(houseId: string, memberId: string, service: HouseService)
    : (r: Response<()>)
    ensures r.body == None
    ensures r.status == NoContent <==> service.deleteMemberFromHouse(houseId, memberId)
    ensures r.status != NoContent ==> r.status == NotFound
  {
    var isMemberDeleted := service.deleteMemberFromHouse(houseId, memberId);
    if isMemberDeleted then Empty(NoContent) else Empty(NotFound)
  }
}
