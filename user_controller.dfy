/** The user endpoints: sign-up, lookups, e-mail confirmation and the password-action
    dispatch. The user service is an object whose password calls are recorded; its
    lookups are fixed functions. */
module UserController {
  import opened Wrappers
  import opened Domain
  import opened Http
  import opened Paging
  import HouseController

  /** REST model types the controller passes through without inspecting. */
  type CreateUserRequest(==)
  type CreateUserResponse(==)
  type UserSummary(==)
  type UserDetailsResponse(==)

  datatype ForgotPasswordRequest = ForgotPasswordRequest(email: string, token: string, newPassword: string)

  /** The constants of PasswordActionType that the controller dispatches on. */
  datatype PasswordActionType = Forgot | Reset {
    function Name(): (name: string)
      ensures name == "FORGOT" || name == "RESET"
    {
      match this
      case Forgot => "FORGOT"
      case Reset => "RESET"
    }
  }

  const PasswordActionTypeClassName := "com.myhome.domain.PasswordActionType"

  /** Enum.valueOf: the constant with exactly that name, or IllegalArgumentException. */
  function ValueOf(name: string): (r: Result<PasswordActionType, Exception>)
    ensures r.Success? <==> name == "FORGOT" || name == "RESET"
    ensures r.Success? ==> r.value.Name() == name
    ensures r.Failure? ==> r.error == IllegalArgumentException("No enum constant " + PasswordActionTypeClassName + "." + name)
  {
    if name == "FORGOT" then Success(Forgot)
    else if name == "RESET" then Success(Reset)
    else Failure(IllegalArgumentException("No enum constant " + PasswordActionTypeClassName + "." + name))
  }

  /** Every constant is found again by its name. */
  lemma ValueOfName(action: PasswordActionType)
    ensures ValueOf(action.Name()) == Success(action)
  {
  }

  datatype UserApiMapper = UserApiMapper(
    createUserRequestToUserDto: CreateUserRequest -> UserDto,
    userDtoToCreateUserResponse: UserDto -> CreateUserResponse,
    userSetToRestApiResponseUserSet: set<User> -> set<UserSummary>,
    userDtoToGetUserDetailsResponse: UserDto -> UserDetailsResponse)

  datatype GetUserDetailsResponse = GetUserDetailsResponse(users: set<UserSummary>)

  /** The user service. Lookups are fixed functions; the two password operations are
      recorded in the order they are called, and resetPassword answers with resetOutcome. */
  class UserService {
    const createUser: UserDto -> Option<UserDto>
    const listAll: Pageable -> set<User>
    const getUserDetails: string -> Option<UserDto>
    const confirmEmail: (string, string) -> bool
    const resendEmailConfirm: string -> bool
    const resetOutcome: ForgotPasswordRequest -> bool
    var resetRequests: seq<ForgotPasswordRequest>
    var resetAttempts: seq<ForgotPasswordRequest>

    constructor(createUser: UserDto -> Option<UserDto>, listAll: Pageable -> set<User>,
                getUserDetails: string -> Option<UserDto>, confirmEmail: (string, string) -> bool,
                resendEmailConfirm: string -> bool, resetOutcome: ForgotPasswordRequest -> bool)
      ensures this.createUser == createUser && this.listAll == listAll && this.getUserDetails == getUserDetails
      ensures this.confirmEmail == confirmEmail && this.resendEmailConfirm == resendEmailConfirm
      ensures this.resetOutcome == resetOutcome
      ensures resetRequests == [] && resetAttempts == []
    {
      this.createUser := createUser;
      this.listAll := listAll;
      this.getUserDetails := getUserDetails;
      this.confirmEmail := confirmEmail;
      this.resendEmailConfirm := resendEmailConfirm;
      this.resetOutcome := resetOutcome;
      resetRequests := [];
      resetAttempts := [];
    }

    /** requestResetPassword */
    method RequestResetPassword(request: ForgotPasswordRequest)
      modifies this
      ensures resetRequests == old(resetRequests) + [request]
      ensures resetAttempts == old(resetAttempts)
    {
      resetRequests := resetRequests + [request];
    }

    /** resetPassword */
    method ResetPassword(request: ForgotPasswordRequest) returns (reset: bool)
      modifies this
      ensures reset == resetOutcome(request)
      ensures resetAttempts == old(resetAttempts) + [request]
      ensures resetRequests == old(resetRequests)
    {
      resetAttempts := resetAttempts + [request];
      reset := resetOutcome(request);
    }
  }

  /** signUp: 201 with the created user, or 409 when the service creates none. */
  function SignUp(request: CreateUserRequest, service: UserService, mapper: UserApiMapper)
    : (r: Response<CreateUserResponse>)
    ensures var created := service.createUser(mapper.createUserRequestToUserDto(request));
      && (r.status == Created <==> created.Some?)
      && (r.status == Created ==> r.body == Some(mapper.userDtoToCreateUserResponse(created.value)))
      && (r.status != Created ==> r == Empty(Conflict))
  {
    var requestUserDto := mapper.createUserRequestToUserDto(request);
    service.createUser(requestUserDto)
      .Map((userDto: UserDto) => WithBody(Created, mapper.userDtoToCreateUserResponse(userDto)))
      .OrElse(Empty(Conflict))
  }

  /** listAllUsers */
  function ListAllUsers(pageable: Pageable, service: UserService, mapper: UserApiMapper)
    : (r: Response<GetUserDetailsResponse>)
    ensures r.status == Ok
    ensures r.body == Some(GetUserDetailsResponse(mapper.userSetToRestApiResponseUserSet(service.listAll(pageable))))
  {
    var userDetails := service.listAll(pageable);
    WithBody(Ok, GetUserDetailsResponse(mapper.userSetToRestApiResponseUserSet(userDetails)))
  }

  /** getUserDetails */
  function GetUserDetails(userId: string, service: UserService, mapper: UserApiMapper)
    : (r: Response<UserDetailsResponse>)
    ensures r.status == Ok <==> service.getUserDetails(userId).Some?
    ensures r.status == Ok ==> r.body == Some(mapper.userDtoToGetUserDetailsResponse(service.getUserDetails(userId).value))
    ensures r.status != Ok ==> r == Empty(NotFound)
  {
    service.getUserDetails(userId)
      .Map(mapper.userDtoToGetUserDetailsResponse)
      .Map((response: UserDetailsResponse) => WithBody(Ok, response))
      .OrElse(Empty(NotFound))
  }

  /** usersPasswordPost: FORGOT always answers 200 after requesting a reset; RESET answers
      200 exactly when the reset succeeds, 400 otherwise; an unknown action name raises
      before the service is called. */
  method UsersPasswordPost(action: string, forgotPasswordRequest: ForgotPasswordRequest, userService: UserService)
    returns (r: Result<Response<()>, Exception>)
    modifies userService
    ensures ValueOf(action).Failure? ==>
      && r == Failure(ValueOf(action).error)
      && userService.resetRequests == old(userService.resetRequests)
      && userService.resetAttempts == old(userService.resetAttempts)
    ensures ValueOf(action) == Success(Forgot) ==>
      && r == Success(Empty(Ok))
      && userService.resetRequests == old(userService.resetRequests) + [forgotPasswordRequest]
      && userService.resetAttempts == old(userService.resetAttempts)
    ensures ValueOf(action) == Success(Reset) ==>
      && r.Success? && r.value.body == None
      && (r.value.status == Ok <==> userService.resetOutcome(forgotPasswordRequest))
      && (r.value.status != Ok ==> r.value.status == BadRequest)
      && userService.resetAttempts == old(userService.resetAttempts) + [forgotPasswordRequest]
      && userService.resetRequests == old(userService.resetRequests)
  {
    var result := false;
    var parsed := ValueOf(action);
    if parsed.Failure? {
      return Failure(parsed.error);
    }
    var parsedAction := parsed.value;
    if parsedAction == Forgot {
      result := true;
      userService.RequestResetPassword(forgotPasswordRequest);
    } else if parsedAction == Reset {
      result := userService.ResetPassword(forgotPasswordRequest);
    }
    if result {
      r := Success(Empty(Ok));
    } else {
      r := Success(Empty(BadRequest));
    }
  }

  /** listAllHousemates */
  function ListAllHousemates(userId: string, pageable: Pageable, houses: HouseController.HouseService,
                             mappers: HouseController.HouseMappers)
    : (r: Response<HouseController.ListHouseMembersResponse>)
    ensures r.status == Ok <==> houses.listHouseMembersForHousesOfUserId(userId, pageable).Some?
    ensures r.status == Ok ==> r.body == Some(HouseController.ListHouseMembersResponse(
      mappers.houseMemberSetToRestApiResponseHouseMemberSet(Elements(houses.listHouseMembersForHousesOfUserId(userId, pageable).value))))
    ensures r.status != Ok ==> r == Empty(NotFound)
  {
    houses.listHouseMembersForHousesOfUserId(userId, pageable)
      .Map(Elements)
      .Map(mappers.houseMemberSetToRestApiResponseHouseMemberSet)
      .Map((members: set<HouseController.MemberDetails>) => HouseController.ListHouseMembersResponse(members))
      .Map((body: HouseController.ListHouseMembersResponse) => WithBody(Ok, body))
      .OrElse(Empty(NotFound))
  }

  /** confirmEmail */
  function ConfirmEmail(userId: string, emailConfirmToken: string, service: UserService)
    : (r: Response<()>)
    ensures r.body == None
    ensures r.status == Ok <==> service.confirmEmail(userId, emailConfirmToken)
    ensures r.status != Ok ==> r.status == BadRequest
  {
    var emailConfirmed := service.confirmEmail(userId, emailConfirmToken);
    if emailConfirmed then Empty(Ok) else Empty(BadRequest)
  }

  /** resendConfirmEmailMail */
  function ResendConfirmEmailMail(userId: string, service: UserService)
    : (r: Response<()>)
    ensures r.body == None
    ensures r.status == Ok <==> service.resendEmailConfirm(userId)
    ensures r.status != Ok ==> r.status == BadRequest
  {
    var emailConfirmResend := service.resendEmailConfirm(userId);
    if emailConfirmResend then Empty(Ok) else Empty(BadRequest)
  }

  /** A client: a FORGOT request answers 200, a failing RESET 400, and a lower-case action
      raises; one call of each kind is recorded. */
  method ScenarioForgotThenReset(request: ForgotPasswordRequest, service: UserService)
    returns (forgot: Result<Response<()>, Exception>, reset: Result<Response<()>, Exception>,
             unknown: Result<Response<()>, Exception>)
    requires !service.resetOutcome(request)
    modifies service
    ensures forgot == Success(Empty(Ok)) && reset == Success(Empty(BadRequest)) && unknown.Failure?
    ensures service.resetRequests == old(service.resetRequests) + [request]
    ensures service.resetAttempts == old(service.resetAttempts) + [request]
  {
    forgot := UsersPasswordPost("FORGOT", request, service);
    reset := UsersPasswordPost("RESET", request, service);
    unknown := UsersPasswordPost("forgot", request, service);
  }
}
