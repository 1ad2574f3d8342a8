/**
 * The authentication endpoints (`AuthController`). Registration checks the
 * username, then the email, then saves a new user with role "ROLE_USER";
 * login hands back the service's token. Any exception on the way becomes
 * 500 with the exception's message appended to a fixed prefix (Java string
 * concatenation writes a null message as "null"). The user store is a
 * sequence of saved users; where the store throws is an input.
 */
module Auth {
  import opened Common

  const UsernameTaken: string := "Username already exists!"
  const EmailTaken: string := "Email already exists!"
  const Registered: string := "User registered successfully!"
  const RegistrationFailedPrefix: string := "Registration failed: "
  const LoginFailedPrefix: string := "Login failed: "
  const UserRole: string := "ROLE_USER"

  datatype UserRecord = UserRecord(username: string, password: string, email: string, role: string)

  datatype RegisterRequest = RegisterRequest(username: string, email: string, password: string)

  /** A response: its status and its body, a text or a token holder (`JwtAuthenticationResponse`). */
  datatype Body = Text(text: string) | TokenHolder(token: string)
  datatype Response = Response(status: int, body: Body)

  /** Where the user store throws, if it does: in one of the two checks or in the save. */
  datatype Stage = UsernameCheck | EmailCheck | Save
  datatype Fault = NoFault | ThrowsAt(stage: Stage, message: Option<string>)

  /** `"..." + e.getMessage()`: a null message is written "null". */
  function JavaConcat(prefix: string, message: Option<string>): (s: string)
    ensures |s| >= |prefix| && s[..|prefix|] == prefix
    ensures s[|prefix|..] == if message.Some? then message.value else "null"
    ensures |s| > |prefix| || message == Some("")
  {
    prefix + (if message.Some? then message.value else "null")
  }

  predicate UsernameExists(users: seq<UserRecord>, username: string) {
    exists i :: 0 <= i < |users| && users[i].username == username
  }

  predicate EmailExists(users: seq<UserRecord>, email: string) {
    exists i :: 0 <= i < |users| && users[i].email == email
  }

  /** `registerUser`: the response and the user store afterwards. */
  function Register(users: seq<UserRecord>, req: RegisterRequest, fault: Fault): (Response, seq<UserRecord>) {
    if fault.ThrowsAt? && fault.stage == UsernameCheck then
      (Response(500, Text(JavaConcat(RegistrationFailedPrefix, fault.message))), users)
    else if UsernameExists(users, req.username) then
      (Response(400, Text(UsernameTaken)), users)
    else if fault.ThrowsAt? && fault.stage == EmailCheck then
      (Response(500, Text(JavaConcat(RegistrationFailedPrefix, fault.message))), users)
    else if EmailExists(users, req.email) then
      (Response(400, Text(EmailTaken)), users)
    else if fault.ThrowsAt? && fault.stage == Save then
      (Response(500, Text(JavaConcat(RegistrationFailedPrefix, fault.message))), users)
    else
      (Response(200, Text(Registered)), users + [UserRecord(req.username, req.password, req.email, UserRole)])
  }

  /**
   * A taken username is refused with 400 before the email is looked at,
   * so it wins over a taken email too; nothing is saved.
   */
  lemma UsernameCheckedFirst(users: seq<UserRecord>, req: RegisterRequest, fault: Fault)
    requires UsernameExists(users, req.username) && !(fault.ThrowsAt? && fault.stage == UsernameCheck)
    ensures Register(users, req, fault) == (Response(400, Text(UsernameTaken)), users)
  {
  }

  /** A new username with a taken email is refused with 400; nothing is saved. */
  lemma EmailCheckedSecond(users: seq<UserRecord>, req: RegisterRequest, fault: Fault)
    requires !UsernameExists(users, req.username) && EmailExists(users, req.email)
    requires !(fault.ThrowsAt? && fault.stage in {UsernameCheck, EmailCheck})
    ensures Register(users, req, fault) == (Response(400, Text(EmailTaken)), users)
  {
  }

  /**
   * With both new and no exception, exactly one user is saved, with the
   * request's username, password and email and role "ROLE_USER", and the
   * answer is 200; after that the username and the email are taken.
   */
  lemma RegisterSaves(users: seq<UserRecord>, req: RegisterRequest)
    requires !UsernameExists(users, req.username) && !EmailExists(users, req.email)
    ensures var (resp, after) := Register(users, req, NoFault);
      && resp == Response(200, Text(Registered))
      && after == users + [UserRecord(req.username, req.password, req.email, UserRole)]
      && UsernameExists(after, req.username) && EmailExists(after, req.email)
  {
    var after := users + [UserRecord(req.username, req.password, req.email, UserRole)];
    assert after[|users|].username == req.username && after[|users|].email == req.email;
  }

  /**
   * Every answer is 200, 400 or 500; a user is saved only on 200, and an
   * exception anywhere gives 500 with "Registration failed: " and its
   * message.
   */
  lemma RegisterOutcomes(users: seq<UserRecord>, req: RegisterRequest, fault: Fault)
    ensures var (resp, after) := Register(users, req, fault);
      && resp.status in {200, 400, 500}
      && (resp.status != 200 ==> after == users)
      && (resp.status == 200 ==> |after| == |users| + 1 && after[..|users|] == users)
      && (resp.status == 500 <==>
            fault.ThrowsAt?
            && (fault.stage == UsernameCheck
                || (!UsernameExists(users, req.username)
                    && (fault.stage == EmailCheck || !EmailExists(users, req.email)))))
      && (resp.status == 500 ==> resp.body == Text(JavaConcat(RegistrationFailedPrefix, fault.message)))
  {
  }

  /** A second registration of the same request, once the first succeeded, is refused. */
  lemma RegisterTwiceRefused(users: seq<UserRecord>, req: RegisterRequest)
    requires !UsernameExists(users, req.username) && !EmailExists(users, req.email)
    ensures var after := Register(users, req, NoFault).1;
      Register(after, req, NoFault) == (Response(400, Text(UsernameTaken)), after)
  {
    RegisterSaves(users, req);
  }

  /** What `authenticateUser` produced: a token, or an exception with its message. */
  datatype Authentication = Authenticated(token: string) | AuthThrew(message: Option<string>)

  /** `loginUser`: 200 with the token holder, or 500 (never 401) with "Login failed: " and the message. */
  function Login(outcome: Authentication): (resp: Response)
    ensures resp.status == 200 <==> outcome.Authenticated?
    ensures outcome.Authenticated? ==> resp.body == TokenHolder(outcome.token)
    ensures outcome.AuthThrew? ==>
              && resp.status == 500 && resp.body.Text?
              && |resp.body.text| >= |LoginFailedPrefix|
              && resp.body.text[..|LoginFailedPrefix|] == LoginFailedPrefix
              && resp.body == Text(JavaConcat(LoginFailedPrefix, outcome.message))
    ensures resp.status != 401
  {
    match outcome
    case Authenticated(token) => Response(200, TokenHolder(token))
    case AuthThrew(message) => Response(500, Text(JavaConcat(LoginFailedPrefix, message)))
  }

  /** The controller over its user store. */
  class AuthController {
    var users: seq<UserRecord>

    constructor (users: seq<UserRecord>)
      ensures this.users == users
    {
      this.users := users;
    }

    /** `registerUser`: answers and updates the store as `Register` says. */
    method RegisterUser(req: RegisterRequest, fault: Fault) returns (resp: Response)
      modifies this
      ensures (resp, users) == Register(old(users), req, fault)
    {
      if fault.ThrowsAt? && fault.stage == UsernameCheck {
        return Response(500, Text(JavaConcat(RegistrationFailedPrefix, fault.message)));
      }
      var usernameExists := UsernameExists(users, req.username);
      if usernameExists {
        return Response(400, Text(UsernameTaken));
      }
      if fault.ThrowsAt? && fault.stage == EmailCheck {
        return Response(500, Text(JavaConcat(RegistrationFailedPrefix, fault.message)));
      }
      var emailExists := EmailExists(users, req.email);
      if emailExists {
        return Response(400, Text(EmailTaken));
      }
      var user := UserRecord(req.username, req.password, req.email, UserRole);
      if fault.ThrowsAt? && fault.stage == Save {
        return Response(500, Text(JavaConcat(RegistrationFailedPrefix, fault.message)));
      }
      users := users + [user];
      resp := Response(200, Text(Registered));
    }
  }
}
