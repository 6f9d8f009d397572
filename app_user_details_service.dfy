/** The Spring Security user-details lookup: users are found by e-mail, and a miss raises
    UsernameNotFoundException carrying the name that was asked for. */
module AppUserDetailsService {
  import opened Wrappers
  import opened Domain
  import opened Http

  /** UserRepository.findByEmail: the user with that e-mail, or null. */
  type FindByEmail = string -> Option<User>

  /** The security framework's User: name, password, the four account flags, authorities. */
  datatype UserDetails = UserDetails(
    username: string,
    password: string,
    enabled: bool,
    accountNonExpired: bool,
    credentialsNonExpired: bool,
    accountNonLocked: bool,
    authorities: seq<string>)

  /** loadUserByUsername */
  function LoadUserByUsername(username: string, findByEmail: FindByEmail): (r: Result<UserDetails, Exception>)
    ensures r.Failure? <==> findByEmail(username).None?
    ensures r.Failure? ==> r.error == UsernameNotFoundException(username)
    ensures r.Success? ==>
      var user := findByEmail(username).value;
      && r.value.username == user.email
      && r.value.password == user.encryptedPassword
      && r.value.enabled && r.value.accountNonExpired && r.value.credentialsNonExpired && r.value.accountNonLocked
      && r.value.authorities == []
  {
    match findByEmail(username)
    case None => Failure(UsernameNotFoundException(username))
    case Some(user) => Success(UserDetails(user.email, user.encryptedPassword, true, true, true, true, []))
  }

  /** getUserDetailsByUsername */
  function GetUserDetailsByUsername(username: string, findByEmail: FindByEmail, userToUserDto: User -> UserDto)
    : (r: Result<UserDto, Exception>)
    ensures r.Failure? <==> findByEmail(username).None?
    ensures r.Failure? ==> r.error == UsernameNotFoundException(username)
    ensures r.Success? ==> r.value == userToUserDto(findByEmail(username).value)
  {
    match findByEmail(username)
    case None => Failure(UsernameNotFoundException(username))
    case Some(user) => Success(userToUserDto(user))
  }

  /** The two lookups succeed for the same names, and fail with the same error. */
  lemma LookupsAgree(username: string, findByEmail: FindByEmail, userToUserDto: User -> UserDto)
    ensures LoadUserByUsername(username, findByEmail).Success?
        <==> GetUserDetailsByUsername(username, findByEmail, userToUserDto).Success?
    ensures LoadUserByUsername(username, findByEmail).Failure? ==>
      LoadUserByUsername(username, findByEmail).error == GetUserDetailsByUsername(username, findByEmail, userToUserDto).error
  {
  }

  /** When the repository only answers with the user whose e-mail was asked for, the
      details carry the name that was asked for. */
  lemma DetailsNameTheRequestedUser(username: string, findByEmail: FindByEmail)
    requires findByEmail(username).Some? ==> findByEmail(username).value.email == username
    ensures LoadUserByUsername(username, findByEmail).Success? ==>
      LoadUserByUsername(username, findByEmail).value.username == username
  {
  }
}
