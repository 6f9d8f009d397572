/** The payment endpoints: who may schedule a payment for whom, and how lookups turn
    into 201, 200, 404 or a raised error. Services and generated mappers are parameters. */
module PaymentController {
  import opened Wrappers
  import opened Domain
  import opened Http
  import opened Paging
  import opened SchedulePaymentApiMapper

  /** REST model types built by generated mappers. */
  type SchedulePaymentResponse(==)
  type MemberPayment(==)
  type AdminPayment(==)

  datatype PaymentService = PaymentService(
    getHouseMember: string -> Option<HouseMember>,
    schedulePayment: PaymentDto -> PaymentDto,
    getPaymentDetails: string -> Option<PaymentDto>,
    getPaymentsByMember: string -> set<Payment>,
    getPaymentsByAdmin: (string, Pageable) -> Page<Payment>)

  datatype CommunityService = CommunityService(
    findCommunityAdminById: string -> Option<User>,
    getCommunityDetailsByIdWithAdmins: string -> Option<Community>)

  /** The generated methods of the mapper. */
  datatype GeneratedMapper = GeneratedMapper(
    enrichedRequestToPaymentDto: EnrichedSchedulePaymentRequest -> PaymentDto,
    paymentToSchedulePaymentResponse: PaymentDto -> SchedulePaymentResponse,
    memberPaymentSet: set<Payment> -> set<MemberPayment>,
    adminPaymentSet: set<Payment> -> set<AdminPayment>)

  datatype ListMemberPaymentsResponse = ListMemberPaymentsResponse(payments: set<MemberPayment>)
  datatype ListAdminPaymentsResponse = ListAdminPaymentsResponse(payments: set<AdminPayment>, pageInfo: PageInfo)

  /** User equality is not visible in the source, so it is a parameter. */
  type UserEquality = (User, User) -> bool

  /** isUserAdminOfCommunityHouse: the admin is among the admins of the house's community.
      Dereferencing a null house or a null community raises a NullPointerException. */
  function IsUserAdminOfCommunityHouse(house: Option<CommunityHouse>, admin: User, sameUser: UserEquality)
    : (r: Result<bool, Exception>)
    ensures r.Failure? <==> house.None? || house.value.community.None?
    ensures r.Failure? ==> r.error == NullPointerException
    ensures r.Success? ==> (r.value <==> exists a | a in house.value.community.value.admins :: sameUser(a, admin))
  {
    match house
    case None => Failure(NullPointerException)
    case Some(h) =>
      match h.community
      case None => Failure(NullPointerException)
      case Some(community) => Success(exists a | a in community.admins :: sameUser(a, admin))
  }

  function MemberNotFound(memberId: string): Exception {
    RuntimeException("House member with given id not exists: " + memberId)
  }

  function AdminNotFound(adminId: string): Exception {
    RuntimeException("Admin with given id not exists: " + adminId)
  }

  function CommunityNotFound(communityId: string): Exception {
    RuntimeException("Community with given id not exists: " + communityId)
  }

  /** The request may be scheduled: member and admin exist, the member's house and its
      community exist, and the admin administers that community. */
  predicate MayScheduleFor(request: SchedulePaymentRequest, payments: PaymentService, communities: CommunityService, sameUser: UserEquality) {
    var member := payments.getHouseMember(request.memberId);
    var admin := communities.findCommunityAdminById(request.adminId);
    && member.Some? && admin.Some?
    && IsUserAdminOfCommunityHouse(member.value.communityHouse, admin.value, sameUser) == Success(true)
  }

  /** The payment handed to the payment service when scheduling is allowed. */
  function ScheduledPayment(request: SchedulePaymentRequest, payments: PaymentService, communities: CommunityService, mapper: GeneratedMapper): PaymentDto
    requires payments.getHouseMember(request.memberId).Some? && communities.findCommunityAdminById(request.adminId).Some?
  {
    var e := EnrichSchedulePaymentRequest(request, communities.findCommunityAdminById(request.adminId).value,
                                          payments.getHouseMember(request.memberId).value);
    EnrichedRequestToPaymentDto(mapper.enrichedRequestToPaymentDto, e)
  }

  /** schedulePayment */
  function SchedulePayment(request: SchedulePaymentRequest, payments: PaymentService, communities: CommunityService,
                           mapper: GeneratedMapper, sameUser: UserEquality)
    : (r: Result<Response<SchedulePaymentResponse>, Exception>)
    ensures payments.getHouseMember(request.memberId).None? ==> r == Failure(MemberNotFound(request.memberId))
    ensures payments.getHouseMember(request.memberId).Some? && communities.findCommunityAdminById(request.adminId).None? ==>
      r == Failure(AdminNotFound(request.adminId))
    ensures payments.getHouseMember(request.memberId).Some? && communities.findCommunityAdminById(request.adminId).Some? ==>
      var house := payments.getHouseMember(request.memberId).value.communityHouse;
      && (r.Failure? <==> house.None? || house.value.community.None?)
      && (r.Failure? ==> r.error == NullPointerException)
    ensures r.Success? ==> (r.value.status == Created <==> MayScheduleFor(request, payments, communities, sameUser))
    ensures r.Success? && r.value.status != Created ==> r.value == Empty(NotFound)
    ensures r.Success? && r.value.status == Created ==>
      r.value.body == Some(mapper.paymentToSchedulePaymentResponse(payments.schedulePayment(ScheduledPayment(request, payments, communities, mapper))))
  {
    match payments.getHouseMember(request.memberId).OrElseThrow(MemberNotFound(request.memberId))
    case Failure(e) => Failure(e)
    case Success(houseMember) =>
      match communities.findCommunityAdminById(request.adminId).OrElseThrow(AdminNotFound(request.adminId))
      case Failure(e) => Failure(e)
      case Success(admin) =>
        match IsUserAdminOfCommunityHouse(houseMember.communityHouse, admin, sameUser)
        case Failure(e) => Failure(e)
        case Success(isAdmin) =>
          if isAdmin then
            var paymentRequest := EnrichSchedulePaymentRequest(request, admin, houseMember);
            var paymentDto := EnrichedRequestToPaymentDto(mapper.enrichedRequestToPaymentDto, paymentRequest);
            var processedPayment := payments.schedulePayment(paymentDto);
            var paymentResponse := mapper.paymentToSchedulePaymentResponse(processedPayment);
            Success(WithBody(Created, paymentResponse))
          else
            Success(Empty(NotFound))
  }

  /** An unknown member is reported before the admin is looked up: the admin lookup
      cannot change the outcome. */
  lemma UnknownMemberBeforeAdminLookup(request: SchedulePaymentRequest, payments: PaymentService, communities: CommunityService,
                                       mapper: GeneratedMapper, sameUser: UserEquality, findAdmin: string -> Option<User>)
    requires payments.getHouseMember(request.memberId).None?
    ensures SchedulePayment(request, payments, communities.(findCommunityAdminById := findAdmin), mapper, sameUser)
         == SchedulePayment(request, payments, communities, mapper, sameUser)
  {
  }

  /** Unless the answer is 201, the payment service's schedulePayment plays no part:
      nothing is scheduled. */
  lemma NothingScheduledUnlessCreated(request: SchedulePaymentRequest, payments: PaymentService, communities: CommunityService,
                                      mapper: GeneratedMapper, sameUser: UserEquality, schedule: PaymentDto -> PaymentDto)
    requires !MayScheduleFor(request, payments, communities, sameUser)
    ensures SchedulePayment(request, payments.(schedulePayment := schedule), communities, mapper, sameUser)
         == SchedulePayment(request, payments, communities, mapper, sameUser)
  {
  }

  /** The payment that is scheduled names the requested admin and the looked-up member:
      its admin carries the request's admin id and the admin's details, its member the
      member's ids and name. */
  lemma ScheduledPaymentParties(request: SchedulePaymentRequest, payments: PaymentService, communities: CommunityService, mapper: GeneratedMapper)
    requires payments.getHouseMember(request.memberId).Some? && communities.findCommunityAdminById(request.adminId).Some?
    ensures var dto := ScheduledPayment(request, payments, communities, mapper);
      var admin := communities.findCommunityAdminById(request.adminId).value;
      var member := payments.getHouseMember(request.memberId).value;
      && dto.admin == Some(EmptyUserDto.(userId := Some(request.adminId), id := Some(admin.id), name := Some(admin.name),
                                         email := Some(admin.email), encryptedPassword := Some(admin.encryptedPassword)))
      && dto.member == Some(HouseMemberDto(Some(member.id), Some(member.memberId), Some(member.name)))
  {
    var admin := communities.findCommunityAdminById(request.adminId).value;
    var member := payments.getHouseMember(request.memberId).value;
    EnrichedAdminRoundTrip(request, admin, member);
    EnrichedMemberRoundTrip(request, admin, member);
  }

  /** listPaymentDetails */
  function ListPaymentDetails(paymentId: string, payments: PaymentService, mapper: GeneratedMapper)
    : (r: Response<SchedulePaymentResponse>)
    ensures r.status == Ok <==> payments.getPaymentDetails(paymentId).Some?
    ensures r.status == Ok ==> r.body == Some(mapper.paymentToSchedulePaymentResponse(payments.getPaymentDetails(paymentId).value))
    ensures r.status != Ok ==> r == Empty(NotFound)
  {
    payments.getPaymentDetails(paymentId)
      .Map(mapper.paymentToSchedulePaymentResponse)
      .Map(body => WithBody(Ok, body))
      .OrElse(Empty(NotFound))
  }

  /** listAllMemberPayments */
  function ListAllMemberPayments(memberId: string, payments: PaymentService, mapper: GeneratedMapper)
    : (r: Response<ListMemberPaymentsResponse>)
    ensures r.status == Ok <==> payments.getHouseMember(memberId).Some?
    ensures r.status == Ok ==> r.body == Some(ListMemberPaymentsResponse(mapper.memberPaymentSet(payments.getPaymentsByMember(memberId))))
    ensures r.status != Ok ==> r == Empty(NotFound)
  {
    payments.getHouseMember(memberId)
      .Map(member => payments.getPaymentsByMember(memberId))
      .Map(mapper.memberPaymentSet)
      .Map(memberPayments => ListMemberPaymentsResponse(memberPayments))
      .Map(body => WithBody(Ok, body))
      .OrElse(Empty(NotFound))
  }

  /** For an unknown member no payments are fetched: the payments lookup cannot change the outcome. */
  lemma UnknownMemberFetchesNoPayments(memberId: string, payments: PaymentService, mapper: GeneratedMapper, byMember: string -> set<Payment>)
    requires payments.getHouseMember(memberId).None?
    ensures ListAllMemberPayments(memberId, payments.(getPaymentsByMember := byMember), mapper)
         == ListAllMemberPayments(memberId, payments, mapper)
  {
  }

  /** isAdminInGivenCommunity: raises for an unknown community, otherwise tells whether
      some admin of it has the given user id. */
  function IsAdminInGivenCommunity(communityId: string, adminId: string, communities: CommunityService)
    : (r: Result<bool, Exception>)
    ensures communities.getCommunityDetailsByIdWithAdmins(communityId).None? <==> r.Failure?
    ensures r.Failure? ==> r.error == CommunityNotFound(communityId)
    ensures r.Success? ==> (r.value <==>
      exists admin :: admin in communities.getCommunityDetailsByIdWithAdmins(communityId).value.admins && admin.userId == adminId)
  {
    communities.getCommunityDetailsByIdWithAdmins(communityId)
      .Map((community: Community) => community.admins)
      .Map((admins: set<User>) => exists admin | admin in admins :: admin.userId == adminId)
      .OrElseThrow(CommunityNotFound(communityId))
  }

  /** listAllAdminScheduledPayments */
  function ListAllAdminScheduledPayments(communityId: string, adminId: string, pageable: Pageable,
                                         payments: PaymentService, communities: CommunityService, mapper: GeneratedMapper)
    : (r: Result<Response<ListAdminPaymentsResponse>, Exception>)
    ensures IsAdminInGivenCommunity(communityId, adminId, communities).Failure? ==>
      r == Failure(CommunityNotFound(communityId))
    ensures IsAdminInGivenCommunity(communityId, adminId, communities) == Success(false) ==>
      r == Success(Empty(NotFound))
    ensures IsAdminInGivenCommunity(communityId, adminId, communities) == Success(true) ==>
      var page := payments.getPaymentsByAdmin(adminId, pageable);
      && r.Success? && r.value.status == Ok && r.value.body.Some?
      && r.value.body.value.pageInfo == PageInfo.Of(pageable, page)
      && r.value.body.value.payments == mapper.adminPaymentSet(Elements(page.content))
  {
    match IsAdminInGivenCommunity(communityId, adminId, communities)
    case Failure(e) => Failure(e)
    case Success(isAdmin) =>
      if isAdmin then
        var paymentsForAdmin := payments.getPaymentsByAdmin(adminId, pageable);
        var adminPayments := mapper.adminPaymentSet(Elements(paymentsForAdmin.content));
        var response := ListAdminPaymentsResponse(adminPayments, PageInfo.Of(pageable, paymentsForAdmin));
        Success(WithBody(Ok, response))
      else
        Success(Empty(NotFound))
  }

  /** When the admin does not administer the community, payments are not fetched. */
  lemma NonAdminFetchesNoPayments(communityId: string, adminId: string, pageable: Pageable, payments: PaymentService,
                                  communities: CommunityService, mapper: GeneratedMapper, byAdmin: (string, Pageable) -> Page<Payment>)
    requires IsAdminInGivenCommunity(communityId, adminId, communities) == Success(false)
    ensures ListAllAdminScheduledPayments(communityId, adminId, pageable, payments.(getPaymentsByAdmin := byAdmin), communities, mapper)
         == ListAllAdminScheduledPayments(communityId, adminId, pageable, payments, communities, mapper)
  {
  }
}
