/** The hand-written part of the schedule-payment mapper: id <-> DTO helpers, the
    enrichment of a request with admin and member details, and the after-mapping step
    that fills a payment's admin and member. */
module SchedulePaymentApiMapper {
  import opened Wrappers
  import opened Domain

  /** adminIdToAdminDto: a DTO that carries only the admin's user id. */
  function AdminIdToAdminDto(adminId: string): (dto: UserDto)
    ensures dto.userId == Some(adminId)
    ensures dto.(userId := None) == EmptyUserDto
  {
    EmptyUserDto.(userId := Some(adminId))
  }

  /** memberIdToMemberDto: a DTO that carries only the member id. */
  function MemberIdToMemberDto(memberId: string): (dto: HouseMemberDto)
    ensures dto.memberId == Some(memberId)
    ensures dto.(memberId := None) == EmptyHouseMemberDto
  {
    EmptyHouseMemberDto.(memberId := Some(memberId))
  }

  /** adminToAdminId: the user id of any DTO, null when it has none; in particular the
      DTO built from an admin id gives that id back. */
  function AdminToAdminId(dto: UserDto): (r: Option<string>)
    ensures r.None? <==> dto.userId.None?
    ensures dto.userId.Some? ==> r == Some(dto.userId.value)
    ensures forall adminId :: dto == AdminIdToAdminDto(adminId) ==> r == Some(adminId)
  {
    dto.userId
  }

  /** memberToMemberId: the member id of any DTO, null when it has none; in particular
      the DTO built from a member id gives that id back. */
  function MemberToMemberId(dto: HouseMemberDto): (r: Option<string>)
    ensures r.None? <==> dto.memberId.None?
    ensures dto.memberId.Some? ==> r == Some(dto.memberId.value)
    ensures forall memberId :: dto == MemberIdToMemberDto(memberId) ==> r == Some(memberId)
  {
    dto.memberId
  }

  /** A DTO with nothing but a user id survives the trip to an id and back. */
  lemma AdminDtoRoundTrip(dto: UserDto)
    requires dto.(userId := None) == EmptyUserDto && dto.userId.Some?
    ensures AdminIdToAdminDto(AdminToAdminId(dto).value) == dto
  {
  }

  lemma MemberDtoRoundTrip(dto: HouseMemberDto)
    requires dto.(memberId := None) == EmptyHouseMemberDto && dto.memberId.Some?
    ensures MemberIdToMemberDto(MemberToMemberId(dto).value) == dto
  {
  }

  /** The ids of the communities a user administers, collected into a set. */
  function CommunityIds(admin: User): (ids: set<string>)
    ensures forall id :: id in ids <==> exists c :: c in admin.communities && c.communityId == id
    ensures |ids| <= |admin.communities|
  {
    ImageSize(admin.communities);
    set c | c in admin.communities :: c.communityId
  }

  /** Collecting ids loses nothing but duplicates: at most one id per community. */
  lemma {:induction false} ImageSize(cs: set<Community>)
    ensures |set c | c in cs :: c.communityId| <= |cs|
  {
    if cs != {} {
      var c :| c in cs;
      var rest := cs - {c};
      ImageSize(rest);
      assert (set x | x in cs :: x.communityId) == (set x | x in rest :: x.communityId) + {c.communityId};
    }
  }

  /** enrichSchedulePaymentRequest: the payment fields and the admin id come from the
      request, the member id from the member itself; a missing document or house
      becomes the empty string. */
  function EnrichSchedulePaymentRequest(request: SchedulePaymentRequest, admin: User, member: HouseMember)
    : (e: EnrichedSchedulePaymentRequest)
    ensures e.paymentType == request.paymentType && e.description == request.description
    ensures e.recurring == request.recurring && e.charge == request.charge
    ensures e.dueDate == request.dueDate && e.adminId == request.adminId
    ensures e.adminEntityId == admin.id && e.adminName == admin.name
    ensures e.adminEmail == admin.email && e.adminEncryptedPassword == admin.encryptedPassword
    ensures e.memberId == member.memberId && e.memberEntityId == member.id && e.houseMemberName == member.name
    ensures forall id :: id in e.adminCommunityIds <==> exists c :: c in admin.communities && c.communityId == id
    ensures e.houseMemberDocumentName == (if member.houseMemberDocument.Some? then member.houseMemberDocument.value.documentFilename else "")
    ensures e.houseMemberHouseID == (if member.communityHouse.Some? then member.communityHouse.value.houseId else "")
  {
    var communityIds := CommunityIds(admin);
    EnrichedSchedulePaymentRequest(
      request.paymentType,
      request.description,
      request.recurring,
      request.charge,
      request.dueDate,
      request.adminId,
      admin.id,
      admin.name,
      admin.email,
      admin.encryptedPassword,
      communityIds,
      member.memberId,
      member.id,
      if member.houseMemberDocument.Some? then member.houseMemberDocument.value.documentFilename else "",
      member.name,
      if member.communityHouse.Some? then member.communityHouse.value.houseId else "")
  }

  /** getEnrichedRequestAdmin: a user DTO with the admin's user id, entity id, name, email
      and password hash; nothing else is set. */
  function GetEnrichedRequestAdmin(e: EnrichedSchedulePaymentRequest): (dto: UserDto)
    ensures AdminToAdminId(dto) == Some(e.adminId)
    ensures dto.id == Some(e.adminEntityId) && dto.name == Some(e.adminName)
    ensures dto.email == Some(e.adminEmail) && dto.encryptedPassword == Some(e.adminEncryptedPassword)
    ensures dto.(userId := None, id := None, name := None, email := None, encryptedPassword := None) == EmptyUserDto
  {
    EmptyUserDto.(userId := Some(e.adminId), id := Some(e.adminEntityId), name := Some(e.adminName),
                  email := Some(e.adminEmail), encryptedPassword := Some(e.adminEncryptedPassword))
  }

  /** getEnrichedRequestMember: a member DTO with the member's entity id, member id and
      name. */
  function GetEnrichedRequestMember(e: EnrichedSchedulePaymentRequest): (dto: HouseMemberDto)
    ensures MemberToMemberId(dto) == Some(e.memberId)
    ensures dto.id == Some(e.memberEntityId) && dto.name == Some(e.houseMemberName)
  {
    EmptyHouseMemberDto.(id := Some(e.memberEntityId), memberId := Some(e.memberId), name := Some(e.houseMemberName))
  }

  /** Enriching and reading the admin back gives the request's admin id with the
      admin's own entity id, name, email and password hash. */
  lemma EnrichedAdminRoundTrip(request: SchedulePaymentRequest, admin: User, member: HouseMember)
    ensures var dto := GetEnrichedRequestAdmin(EnrichSchedulePaymentRequest(request, admin, member));
      && dto.userId == Some(request.adminId)
      && dto.id == Some(admin.id)
      && dto.name == Some(admin.name)
      && dto.email == Some(admin.email)
      && dto.encryptedPassword == Some(admin.encryptedPassword)
  {
  }

  /** Enriching and reading the member back gives the member's entity id, member id and name. */
  lemma EnrichedMemberRoundTrip(request: SchedulePaymentRequest, admin: User, member: HouseMember)
    ensures GetEnrichedRequestMember(EnrichSchedulePaymentRequest(request, admin, member))
      == HouseMemberDto(Some(member.id), Some(member.memberId), Some(member.name))
  {
  }

  /** What setUserFields does to the payment being built: member and admin are taken
      from the enriched request, nothing else changes. */
  function WithUserFields(dto: PaymentDto, e: EnrichedSchedulePaymentRequest): (r: PaymentDto)
    ensures r.member == Some(GetEnrichedRequestMember(e))
    ensures r.admin == Some(GetEnrichedRequestAdmin(e))
    ensures r.(member := dto.member, admin := dto.admin) == dto
  {
    dto.(member := Some(GetEnrichedRequestMember(e)), admin := Some(GetEnrichedRequestAdmin(e)))
  }

  /** enrichedSchedulePaymentRequestToPaymentDto: the generated field-by-field mapping,
      followed by the after-mapping step. Whatever the generated part produces, the
      admin and member are the enriched request's. */
  function EnrichedRequestToPaymentDto(generated: EnrichedSchedulePaymentRequest -> PaymentDto, e: EnrichedSchedulePaymentRequest)
    : (dto: PaymentDto)
    ensures dto.admin == Some(GetEnrichedRequestAdmin(e)) && dto.member == Some(GetEnrichedRequestMember(e))
    ensures dto.(admin := None, member := None) == generated(e).(admin := None, member := None)
  {
    WithUserFields(generated(e), e)
  }

  /** PaymentDto.PaymentDtoBuilder: each setter overwrites one field. */
  class PaymentDtoBuilder {
    var paymentId: Option<string>
    var charge: Option<Decimal>
    var paymentType: Option<string>
    var description: Option<string>
    var recurring: bool
    var dueDate: Option<string>
    var admin: Option<UserDto>
    var member: Option<HouseMemberDto>

    /** build() */
    function Build(): PaymentDto
      reads this
    {
      PaymentDto(paymentId, charge, paymentType, description, recurring, dueDate, admin, member)
    }

    /** A builder holding the fields of dto. */
    constructor (dto: PaymentDto)
      ensures Build() == dto
    {
      paymentId, charge, paymentType, description := dto.paymentId, dto.charge, dto.paymentType, dto.description;
      recurring, dueDate, admin, member := dto.recurring, dto.dueDate, dto.admin, dto.member;
    }

    method Member(m: HouseMemberDto)
      modifies this
      ensures Build() == old(Build()).(member := Some(m))
    {
      member := Some(m);
    }

    method Admin(a: UserDto)
      modifies this
      ensures Build() == old(Build()).(admin := Some(a))
    {
      admin := Some(a);
    }
  }

  /** setUserFields: fills the builder's member, then its admin, from the enriched request. */
  method SetUserFields(paymentDto: PaymentDtoBuilder, e: EnrichedSchedulePaymentRequest)
    modifies paymentDto
    ensures paymentDto.Build() == WithUserFields(old(paymentDto.Build()), e)
  {
    paymentDto.Member(GetEnrichedRequestMember(e));
    paymentDto.Admin(GetEnrichedRequestAdmin(e));
  }
}
