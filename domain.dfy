/** The entities and transfer objects the core reads and builds, as plain values. JPA
    associations become fields holding the associated values. */
module Domain {
  import opened Wrappers

  /** BigDecimal amounts and LocalDate dates are carried, never computed with. */
  type Decimal(==)
  type Date(==)

  /** A user; `communities` are the communities the user administers. */
  datatype User = User(
    id: int,
    userId: string,
    name: string,
    email: string,
    encryptedPassword: string,
    communities: set<Community>)

  /** A community with its admins. */
  datatype Community = Community(
    communityId: string,
    name: string,
    district: string,
    admins: set<User>)

  /** A house; its community is a nullable association. */
  datatype CommunityHouse = CommunityHouse(houseId: string, name: string, community: Option<Community>)

  datatype HouseMemberDocument = HouseMemberDocument(documentFilename: string)

  /** A house member; the document and the house are nullable associations. */
  datatype HouseMember = HouseMember(
    id: int,
    memberId: string,
    name: string,
    houseMemberDocument: Option<HouseMemberDocument>,
    communityHouse: Option<CommunityHouse>)

  datatype Payment = Payment(
    paymentId: string,
    charge: Decimal,
    paymentType: string,
    description: string,
    recurring: bool,
    dueDate: Date,
    admin: User,
    member: HouseMember)

  /** What a successful login hands back. */
  datatype AuthenticationData = AuthenticationData(jwtToken: string, userId: string)

  /** UserDto: built field by field, so every field a builder does not set is null
      (false for the flag). */
  datatype UserDto = UserDto(
    id: Option<int>,
    userId: Option<string>,
    name: Option<string>,
    email: Option<string>,
    password: Option<string>,
    encryptedPassword: Option<string>,
    communityIds: Option<set<string>>,
    emailConfirmed: bool)

  /** UserDto.builder().build() */
  const EmptyUserDto := UserDto(None, None, None, None, None, None, None, false)

  /** The REST model's house member: a fresh one has every field null. */
  datatype HouseMemberDto = HouseMemberDto(id: Option<int>, memberId: Option<string>, name: Option<string>)

  /** new HouseMemberDto() */
  const EmptyHouseMemberDto := HouseMemberDto(None, None, None)

  /** The REST request to schedule a payment. */
  datatype SchedulePaymentRequest = SchedulePaymentRequest(
    paymentType: string,
    description: string,
    recurring: bool,
    charge: Decimal,
    dueDate: string,
    adminId: string,
    memberId: string)

  /** A schedule request together with the admin's and the member's details. */
  datatype EnrichedSchedulePaymentRequest = EnrichedSchedulePaymentRequest(
    paymentType: string,
    description: string,
    recurring: bool,
    charge: Decimal,
    dueDate: string,
    adminId: string,
    adminEntityId: int,
    adminName: string,
    adminEmail: string,
    adminEncryptedPassword: string,
    adminCommunityIds: set<string>,
    memberId: string,
    memberEntityId: int,
    houseMemberDocumentName: string,
    houseMemberName: string,
    houseMemberHouseID: string)

  /** The payment handed to the payment service; admin and member are null until the
      mapper fills them in. */
  datatype PaymentDto = PaymentDto(
    paymentId: Option<string>,
    charge: Option<Decimal>,
    paymentType: Option<string>,
    description: Option<string>,
    recurring: bool,
    dueDate: Option<string>,
    admin: Option<UserDto>,
    member: Option<HouseMemberDto>)
}
