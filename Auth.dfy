/** The auth service's handlers: binding a login payload, the three-step
    login decision (bind, look the user up, compare the password hash) and
    token verification. The user store and bcrypt's comparison are oracles;
    the package-level collection and secret are the fields of a class. */
module AuthService {
  import opened Base

  /** `models.User`: a username and, in the store, a bcrypt hash. */
  datatype User = User(username: string, password: string)

  /** One JSON member as the decoder meets it. */
  datatype Field = Absent | Null | Str(s: string) | WrongType

  /** A request body: one the decoder refuses (empty, malformed, an array, a
      number, ...), the literal `null` (which decoding into a struct accepts
      and leaves alone), or an object with the two members `models.User`
      declares. */
  datatype Payload = Malformed | NullBody | Object(username: Field, password: Field)

  /** What `encoding/json` stores in a string field: an absent member or a
      null leave the zero value "", a string is copied, anything else is an
      error. */
  function BindField(f: Field): (r: Option<string>)
    ensures r.None? <==> f.WrongType?
    ensures f.Absent? || f.Null? ==> r == Some("")
    ensures f.Str? ==> r == Some(f.s)
  {
    match f
    case Absent => Some("")
    case Null => Some("")
    case Str(s) => Some(s)
    case WrongType => None
  }

  /** `c.ShouldBindJSON(&user)` into `models.User`, whose fields carry no
      `binding:"required"` tag, so missing members are not an error. */
  function BindUser(p: Payload): (r: Option<User>)
    ensures r.None? <==> p.Malformed? || (p.Object? && (p.username.WrongType? || p.password.WrongType?))
    ensures p.NullBody? ==> r == Some(User("", ""))
    ensures r.Some? && p.Object? ==>
      BindField(p.username) == Some(r.value.username) && BindField(p.password) == Some(r.value.password)
  {
    match p
    case Malformed => None
    case NullBody => Some(User("", ""))
    case Object(u, w) =>
      match (BindField(u), BindField(w))
      case (Some(name), Some(password)) => Some(User(name, password))
      case _ => None
  }

  /** Serialising a user and binding it back gives the same user. */
  lemma BindRoundTrip(u: User)
    ensures BindUser(Object(Str(u.username), Str(u.password))) == Some(u)
  {
  }

  /** An empty JSON object, or a `null` body, binds: it yields the user with
      empty name and password rather than a 400. */
  lemma EmptyObjectBinds()
    ensures BindUser(Object(Absent, Absent)) == Some(User("", ""))
    ensures BindUser(Object(Null, Absent)) == Some(User("", ""))
    ensures BindUser(NullBody) == Some(User("", ""))
  {
  }

  /** The users collection as `FindOne(...).Decode(...)` sees it: the stored
      user with that username, or None for any error (no document, a driver
      failure, a document that does not decode). */
  datatype Collection = Collection(findOne: string -> Option<User>)

  /** `bcrypt.CompareHashAndPassword(hash, password) == nil`. */
  type Compare = (string, string) -> bool

  /** The work a login performs, in order. */
  datatype Step = Lookup(username: string) | CompareHash(hash: string, password: string)

  datatype AuthBody = Token(token: string) | Error(error: string) | Message(message: string) | Empty

  datatype AuthResponse = AuthResponse(status: int, body: AuthBody)

  datatype LoginExchange = LoginExchange(response: AuthResponse, steps: seq<Step>)

  const BAD_PAYLOAD := AuthResponse(400, Error("Invalid request payload"))
  const BAD_CREDENTIALS := AuthResponse(401, Error("Invalid username or password"))
  const TOKEN := "example-jwt-token"
  /** gin's Recovery middleware answering a panic. */
  const PANIC := AuthResponse(500, Empty)

  /** `HandleLogin`. With no collection installed, `FindOne` dereferences a
      nil pointer and the panic becomes a 500. */
  function Login(p: Payload, collection: Option<Collection>, compare: Compare): (x: LoginExchange)
    ensures BindUser(p).None? ==> x == LoginExchange(BAD_PAYLOAD, [])
    ensures BindUser(p).Some? ==> |x.steps| >= 1 && x.steps[0] == Lookup(BindUser(p).value.username)
    ensures x.response.status == 200 <==>
      && BindUser(p).Some? && collection.Some?
      && var u := BindUser(p).value;
         collection.value.findOne(u.username).Some?
         && compare(collection.value.findOne(u.username).value.password, u.password)
    ensures x.response.status == 200 ==> x.response == AuthResponse(200, Token(TOKEN))
    ensures BindUser(p).Some? && collection.Some? && collection.value.findOne(BindUser(p).value.username).None? ==>
      x == LoginExchange(BAD_CREDENTIALS, [Lookup(BindUser(p).value.username)])
    ensures BindUser(p).Some? && collection.Some? && collection.value.findOne(BindUser(p).value.username).Some? ==>
      var u := BindUser(p).value;
      var stored := collection.value.findOne(u.username).value;
      x.steps == [Lookup(u.username), CompareHash(stored.password, u.password)]
      && (!compare(stored.password, u.password) ==> x.response == BAD_CREDENTIALS)
    ensures BindUser(p).Some? && collection.None? ==>
      x == LoginExchange(PANIC, [Lookup(BindUser(p).value.username)])
    ensures x.response.status in {200, 400, 401, 500}
  {
    match BindUser(p)
    case None => LoginExchange(BAD_PAYLOAD, [])
    case Some(user) =>
      var lookup := [Lookup(user.username)];
      match collection
      case None => LoginExchange(PANIC, lookup)
      case Some(c) =>
        match c.findOne(user.username)
        case None => LoginExchange(BAD_CREDENTIALS, lookup)
        case Some(dbUser) =>
          var steps := lookup + [CompareHash(dbUser.password, user.password)];
          if !compare(dbUser.password, user.password) then LoginExchange(BAD_CREDENTIALS, steps)
          else LoginExchange(AuthResponse(200, Token(TOKEN)), steps)
  }

  /** An unknown user and a wrong password are answered identically, so a
      caller cannot tell which check failed. */
  lemma CredentialFailuresIndistinguishable(p1: Payload, p2: Payload, collection: Collection, compare: Compare)
    requires BindUser(p1).Some? && collection.findOne(BindUser(p1).value.username).None?
    requires BindUser(p2).Some? && collection.findOne(BindUser(p2).value.username).Some?
    requires !compare(collection.findOne(BindUser(p2).value.username).value.password, BindUser(p2).value.password)
    ensures Login(p1, Some(collection), compare).response == Login(p2, Some(collection), compare).response
  {
  }

  /** Every successful login returns the same constant token, whoever logs
      in and whatever the store holds. */
  lemma TokenIsConstant(p1: Payload, c1: Collection, compare1: Compare,
                        p2: Payload, c2: Collection, compare2: Compare)
    requires Login(p1, Some(c1), compare1).response.status == 200
    requires Login(p2, Some(c2), compare2).response.status == 200
    ensures Login(p1, Some(c1), compare1).response == Login(p2, Some(c2), compare2).response
  {
  }

  /** A payload that does not bind is refused whatever the store and the
      hash comparison would say: they are never consulted. */
  lemma BadPayloadIgnoresStore(p: Payload, c1: Option<Collection>, compare1: Compare,
                               c2: Option<Collection>, compare2: Compare)
    requires BindUser(p).None?
    ensures Login(p, c1, compare1) == Login(p, c2, compare2)
  {
  }

  /** An empty object or a `null` body is not a 400: the store is asked for
      the user named "". */
  lemma EmptyObjectReachesStore(collection: Collection, compare: Compare)
    ensures var x := Login(Object(Absent, Absent), Some(collection), compare);
      x.response != BAD_PAYLOAD && x.steps[0] == Lookup("")
    ensures var x := Login(NullBody, Some(collection), compare);
      x.response != BAD_PAYLOAD && x.steps[0] == Lookup("")
  {
    EmptyObjectBinds();
  }

  const MISSING_TOKEN := AuthResponse(401, Error("Missing authorization token"))
  const INVALID_TOKEN := AuthResponse(401, Error("Invalid token"))
  const TOKEN_VALID := AuthResponse(200, Message("Token is valid"))

  /** `HandleVerify`: only the presence of the Authorization header is
      checked; the verification result is the constant true. */
  function HandleVerify(authorization: string): (r: AuthResponse)
    ensures authorization == "" ==> r == MISSING_TOKEN
    ensures authorization != "" ==> r == TOKEN_VALID
  {
    if authorization == "" then MISSING_TOKEN
    else
      var isValid := true;
      if !isValid then INVALID_TOKEN else TOKEN_VALID
  }

  /** The 'Invalid token' answer is never given. */
  lemma InvalidTokenUnreachable(authorization: string)
    ensures HandleVerify(authorization) != INVALID_TOKEN
    ensures HandleVerify(authorization).status == 200 <==> authorization != ""
  {
  }

  /** The package-level state of `handlers`: the collection (nil until
      InitHandlers runs) and the JWT secret, which no handler reads. */
  class AuthHandlers {
    var collection: Option<Collection>
    var jwtSecret: seq<bv8>

    constructor ()
      ensures collection == None && jwtSecret == []
    {
      collection := None;
      jwtSecret := [];
    }

    /** `InitHandlers(c, secret)`: replaces both variables. */
    method InitHandlers(c: Collection, secret: seq<bv8>)
      modifies this
      ensures collection == Some(c) && jwtSecret == secret
    {
      collection := Some(c);
      jwtSecret := secret;
    }

    /** `HandleLogin` run against the current state, which it leaves alone. */
    method HandleLogin(p: Payload, compare: Compare) returns (x: LoginExchange)
      ensures x == Login(p, collection, compare)
    {
      x := Login(p, collection, compare);
    }
  }
}
