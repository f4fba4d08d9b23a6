/**
 * Sign-in: find the user by email, then check the password against the
 * stored one-way hash. Both the user table and the hash comparison are
 * supplied by the caller; sign-in is a function of them and changes nothing.
 */
module Auth {
  import opened Results

  /** A user record as stored: `password` is the one-way hash, never the plain text. */
  datatype User = User(id: int, email: string, password: string)

  /** What sign-in returns: the user record without its password hash. */
  datatype UserDTO = UserDTO(id: int, email: string)

  /** The two failure messages; which one is thrown is the only difference between them. */
  datatype SignInMessage = UserNotFound | PasswordMismatch

  /** The single exception type both failures are thrown as. */
  datatype SignInFailedException = SignInFailed(message: SignInMessage)

  /** `userRepository.findByEmail`: the first user in the table with that email, if any. */
  function FindByEmail(users: seq<User>, email: string): (r: Option<User>)
    ensures r.Some? ==> r.value in users && r.value.email == email
    ensures r.None? <==> forall u :: u in users ==> u.email != email
  {
    if users == [] then None
    else if users[0].email == email then Some(users[0])
    else FindByEmail(users[1..], email)
  }

  function ToUserDTO(u: User): (d: UserDTO)
    ensures d.id == u.id && d.email == u.email
  {
    UserDTO(u.id, u.email)
  }

  /**
   * `signIn`: the found user's projection when the matcher accepts the
   * password against that user's hash; otherwise SignInFailedException.
   * `matches(raw, encoded)` is the injected password encoder.
   */
  function SignIn(users: seq<User>, matches: (string, string) -> bool, email: string, password: string)
    : (r: Result<UserDTO, SignInFailedException>)
    ensures r == Err(SignInFailed(UserNotFound)) <==> forall u :: u in users ==> u.email != email
    ensures r.Ok? <==> FindByEmail(users, email).Some? && matches(password, FindByEmail(users, email).value.password)
    ensures r.Ok? ==> r.value == ToUserDTO(FindByEmail(users, email).value)
    ensures r == Err(SignInFailed(PasswordMismatch)) ==>
              exists u :: u in users && u.email == email && !matches(password, u.password)
    ensures (forall u :: u in users && u.email == email ==> !matches(password, u.password)) ==> r.Err?
    ensures r.Ok? ==> exists u :: u in users && u.email == email && matches(password, u.password) && r.value == ToUserDTO(u)
  {
    match FindByEmail(users, email)
    case None => Err(SignInFailed(UserNotFound))
    case Some(loginUser) =>
      if !matches(password, loginUser.password) then Err(SignInFailed(PasswordMismatch))
      else Ok(ToUserDTO(loginUser))
  }

  /** For an unknown email the password matcher is never consulted: any two matchers give the same outcome. */
  lemma MatcherUnusedForUnknownEmail(users: seq<User>, m1: (string, string) -> bool, m2: (string, string) -> bool,
                                     email: string, password: string)
    requires forall u :: u in users ==> u.email != email
    ensures SignIn(users, m1, email, password) == SignIn(users, m2, email, password)
  {
  }

  /**
   * Once a user is found, the matcher is asked about that user's hash alone:
   * two matchers that agree on it give the same outcome.
   */
  lemma MatcherAskedOnlyAboutFoundUser(users: seq<User>, m1: (string, string) -> bool, m2: (string, string) -> bool,
                                       email: string, password: string)
    requires FindByEmail(users, email).Some?
    requires m1(password, FindByEmail(users, email).value.password) == m2(password, FindByEmail(users, email).value.password)
    ensures SignIn(users, m1, email, password) == SignIn(users, m2, email, password)
  {
  }

  /**
   * Unknown email and wrong password fail with the same exception type; only
   * the message tells them apart.
   */
  lemma FailuresShareOneType(users: seq<User>, matches: (string, string) -> bool,
                             unknown: string, known: string, wrong: string, password: string)
    requires forall u :: u in users ==> u.email != unknown
    requires forall u :: u in users && u.email == known ==> !matches(wrong, u.password)
    requires exists u :: u in users && u.email == known
    ensures SignIn(users, matches, unknown, password) == Err(SignInFailed(UserNotFound))
    ensures SignIn(users, matches, known, wrong) == Err(SignInFailed(PasswordMismatch))
  {
  }
}
