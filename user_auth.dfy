/** Registration and login of the authentication service: a credential check by exact
    (user id, password) pair, the claims of the issued token, and the shared response
    map that login clears and refills. */
module UserAuth {
  import opened Common

  /** The request body of register and login; either field may be null. */
  datatype User = User(userId: Option<string>, password: Option<string>)

  /** What the issued token asserts: who, when issued, when it expires. */
  datatype Claims = Claims(subject: string, issuedAt: Instant, expiration: Instant)

  /** The two ways a token request fails: both are a `ServletException`, told apart by their message. */
  datatype AuthError = MissingCredentials | InvalidCredentials

  /** Lifetime of a token, in milliseconds. */
  const EXPIRATION_TIME: int := 300000

  /** The symmetric key the token is signed with (HS256). */
  const SECRET_KEY: string := "secretkey"

  const LOGIN_MESSAGE: string := "user successfully logged in"

  const HTTP_OK: int := 200
  const HTTP_CREATED: int := 201
  const HTTP_UNAUTHORIZED: int := 401
  const HTTP_CONFLICT: int := 409

  /** The exception message that login puts into its response. */
  function Message(e: AuthError): (r: string)
    ensures r != LOGIN_MESSAGE
    ensures e.MissingCredentials? ==> r == "Please fill in username and password."
    ensures e.InvalidCredentials? ==> r == "Invalid Credentials."
  {
    match e
    case MissingCredentials => "Please fill in username and password."
    case InvalidCredentials => "Invalid Credentials."
  }

  /** The credential store behind the controller. */
  class UserAuthService {
    var users: set<User>

    constructor (initial: set<User>)
      ensures users == initial
    {
      users := initial;
    }

    /** The stored user with exactly this id and this password, or null. */
    function FindByUserIdAndPassword(userId: Option<string>, password: Option<string>): (r: Option<User>)
      reads this
      ensures r.Some? <==> User(userId, password) in users
      ensures r.Some? ==> r.value.userId == userId && r.value.password == password
    {
      if User(userId, password) in users then Some(User(userId, password)) else None
    }

    method SaveUser(user: User)
      modifies this
      ensures users == old(users) + {user}
    {
      users := users + {user};
    }
  }

  class UserAuthController {
    const userAuthService: UserAuthService
    /** Signing and compaction of a token: claims and key to the token string. */
    const sign: (Claims, string) -> string
    /** The response map shared by every login call. */
    var responseMap: map<string, Option<string>>

    constructor (userAuthService: UserAuthService, sign: (Claims, string) -> string)
      ensures this.userAuthService == userAuthService && this.sign == sign
      ensures responseMap == map[]
    {
      this.userAuthService := userAuthService;
      this.sign := sign;
      responseMap := map[];
    }

    /** The claims of the token issued at clock reading `now`. A null field fails with
        `MissingCredentials` whatever the store holds; a pair the store does not hold
        fails with `InvalidCredentials`; otherwise the subject is the user name and the
        token expires `EXPIRATION_TIME` after it is issued. */
    function GetToken(userName: Option<string>, password: Option<string>, now: Instant): (r: Result<Claims, AuthError>)
      reads userAuthService
      ensures userName.None? || password.None? ==> r == Failure(MissingCredentials)
      ensures userName.Some? && password.Some? && User(userName, password) !in userAuthService.users ==>
                r == Failure(InvalidCredentials)
      ensures r.Success? <==> userName.Some? && password.Some? && User(userName, password) in userAuthService.users
      ensures r.Success? ==> r.value.subject == userName.value
      ensures r.Success? ==> r.value.issuedAt == now && r.value.expiration == now + EXPIRATION_TIME
    {
      if userName.None? || password.None? then Failure(MissingCredentials)
      else if userAuthService.FindByUserIdAndPassword(userName, password).None? then Failure(InvalidCredentials)
      else Success(Claims(userName.value, now, now + EXPIRATION_TIME))
    }

    /** The response map and status login leaves for a token request's outcome: exactly
        the keys "message" and "token", the signed token and 200 on success, a null token,
        the failure's message and 401 otherwise. */
    function LoginResponse(outcome: Result<Claims, AuthError>): (r: (map<string, Option<string>>, int))
      ensures r.0.Keys == {"message", "token"}
      ensures r.1 == (if outcome.Success? then HTTP_OK else HTTP_UNAUTHORIZED)
      ensures outcome.Success? ==> r.0["message"] == Some(LOGIN_MESSAGE) && r.0["token"] == Some(sign(outcome.value, SECRET_KEY))
      ensures outcome.Failure? ==> r.0["message"] == Some(Message(outcome.error)) && r.0["token"] == None
    {
      match outcome
      case Success(claims) =>
        (map[]["message" := Some(LOGIN_MESSAGE)]["token" := Some(sign(claims, SECRET_KEY))], HTTP_OK)
      case Failure(e) =>
        (map[]["token" := None]["message" := Some(Message(e))], HTTP_UNAUTHORIZED)
    }

    /** Clears the shared map and refills it, so nothing from an earlier call survives. */
    method Login(user: User, now: Instant) returns (body: map<string, Option<string>>, status: int)
      modifies this
      ensures (responseMap, status) == LoginResponse(GetToken(user.userId, user.password, now))
      ensures body == responseMap
    {
      var outcome := GetToken(user.userId, user.password, now);
      match outcome {
        case Success(claims) =>
          var jwtToken := sign(claims, SECRET_KEY);
          responseMap := map[];
          responseMap := responseMap["message" := Some(LOGIN_MESSAGE)];
          responseMap := responseMap["token" := Some(jwtToken)];
          status := HTTP_OK;
        case Failure(e) =>
          responseMap := map[];
          responseMap := responseMap["token" := None];
          responseMap := responseMap["message" := Some(Message(e))];
          status := HTTP_UNAUTHORIZED;
      }
      body := responseMap;
    }

    /** Saves the user and answers 201 with it when the store holds no user with the same
        (id, password) pair and the save goes through; otherwise 409 and nothing is saved.
        `saveRejected` says whether the service's save throws `UserAlreadyExistsException`. */
    method RegisterUser(user: User, saveRejected: bool) returns (status: int, body: Option<User>)
      modifies userAuthService
      ensures var isNew := user !in old(userAuthService.users) && !saveRejected;
        && (isNew ==> status == HTTP_CREATED && body == Some(user) && userAuthService.users == old(userAuthService.users) + {user})
        && (!isNew ==> status == HTTP_CONFLICT && body == None && userAuthService.users == old(userAuthService.users))
    {
      var userById := userAuthService.FindByUserIdAndPassword(user.userId, user.password);
      if userById.None? {
        if saveRejected {
          return HTTP_CONFLICT, None;
        }
        userAuthService.SaveUser(user);
        return HTTP_CREATED, Some(user);
      }
      return HTTP_CONFLICT, None;
    }
  }
}
