/**
 * The session lifecycle of src/user.ts. `create`, `auth` and `logout` are
 * the only operations that write the `"userSession"` slot; `create`, `auth`,
 * `logout`, `recall` and `pair` (through `recall`) rebind the registry;
 * `recall`, `pair`, `get`, `is.pub`, `exists` and `addWriteAcess` only read
 * the slot.
 *
 * Key derivation (`generateKeyPairFromSeed(alias, pass)` followed by base64)
 * is a function parameter applied to `alias + pass`; the randomized bcrypt
 * hash is an input; each backend hop is an oracle outcome.
 */
module User {

  import opened Wrappers
  import opened Js
  import opened Http
  import opened Browser
  import opened DbClient
  import opened GlobalOrbit

  const TokenFailure := "Failed to obtain temporary token."
  const RegisterFailure := "Registration failed."
  const AuthFailure := "Authentication failed."
  const NotLoggedIn := "User is not logged in"
  const NoActiveSession := "No active session found"

  /** `${process.env.NEXT_PUBLIC_BACKEND_URL}`: unlike the registry, user.ts
      has no `|| ""`, so an unset variable prints as "undefined". */
  function EnvText(env: Option<string>): (t: string)
    ensures env.Some? ==> t == env.value
    ensures env.None? ==> t == "undefined"
    ensures t == BackendUrl(env) <==> env.Some?
  {
    match env
    case None => "undefined"
    case Some(url) => url
  }

  /** The bootstrap request: it carries the alias only, and no authorization. */
  function TokenRequest(base: string, alias: string): (req: Request)
    ensures req.verb == POST && req.url == base + "/request-token"
    ensures req.headers == JsonContentType && "Authorization" !in req.headers
    ensures req.body == Some(Obj(map["alias" := Str(alias)]))
  {
    Request(POST, base + "/request-token", JsonContentType, Some(Obj(map["alias" := Str(alias)])))
  }

  /** The registration request, authorized with the bootstrap token. */
  function RegisterRequest(base: string, bearer: Value, alias: string, publicKey: string, hashedPassword: string): (req: Request)
    ensures req.verb == POST && req.url == base + "/register"
    ensures req.headers == AuthorizedJson(bearer)
    ensures req.body == Some(Obj(map["alias" := Str(alias), "publicKey" := Str(publicKey), "hashedPassword" := Str(hashedPassword)]))
  {
    Request(POST, base + "/register", AuthorizedJson(bearer),
            Some(Obj(map["alias" := Str(alias), "publicKey" := Str(publicKey), "hashedPassword" := Str(hashedPassword)])))
  }

  /** The authentication request, authorized with the bootstrap token; it
      carries the password itself, not its hash. */
  function AuthRequest(base: string, bearer: Value, alias: string, pass: string): (req: Request)
    ensures req.verb == POST && req.url == base + "/authenticate"
    ensures req.headers == AuthorizedJson(bearer)
    ensures req.body == Some(Obj(map["alias" := Str(alias), "pass" := Str(pass)]))
  {
    Request(POST, base + "/authenticate", AuthorizedJson(bearer),
            Some(Obj(map["alias" := Str(alias), "pass" := Str(pass)])))
  }

  /** The existence check: a GET without a body, authorized with the slot's token. */
  function AclRequest(base: string, token: Value, alias: string): (req: Request)
    ensures req.verb == GET && req.url == base + "/acl/" + alias
    ensures req.headers == AuthorizedJson(token) && req.body.None?
  {
    Request(GET, base + "/acl/" + alias, AuthorizedJson(token), None)
  }

  /** The write-access grant, authorized with the slot's token. */
  function WriteAccessRequest(base: string, token: Value, path: string, publicKey: string): (req: Request)
    ensures req.verb == POST && req.url == base + "/add-write-access"
    ensures req.headers == AuthorizedJson(token)
    ensures req.body == Some(Obj(map["path" := Str(path), "publicKey" := Str(publicKey)]))
  {
    Request(POST, base + "/add-write-access", AuthorizedJson(token),
            Some(Obj(map["path" := Str(path), "publicKey" := Str(publicKey)])))
  }

  /** `const data = await response.json(); if (!response.ok) throw new Error(data.message || fallback);` */
  function CheckedBody(o: Outcome, fallback: string): (r: Result<Value, Error>)
    ensures r.Success? <==> o.Response? && o.Ok() && o.body.Parsed?
    ensures r.Success? ==> r.value == o.body.value
    ensures o.Response? && !o.Ok() && o.body.Parsed? && !Nullish(o.body.value) ==>
              r == Failure(Raised(MessageOr(Prop(o.body.value, "message"), fallback)))
  {
    match o
    case NetworkFailure(d) => Failure(Transport(d))
    case Response(_, _, body) =>
      match body
      case Unparsable(d) => Failure(Syntax(d))
      case Parsed(v) =>
        if o.Ok() then Success(v)
        else
          match Member(v, "message")
          case Failure(e) => Failure(e)
          case Success(m) => Failure(Raised(if Truthy(m) then ToStr(m) else fallback))
  }

  /** The first hop: the bootstrap token the second hop is authorized with. */
  function Bootstrap(tokenReply: Outcome): (r: Result<Value, Error>)
    ensures r.Success? <==> tokenReply.Response? && tokenReply.Ok() && tokenReply.body.Parsed?
                            && !Nullish(tokenReply.body.value)
    ensures r.Success? ==> r.value == Prop(tokenReply.body.value, "token")
  {
    match CheckedBody(tokenReply, TokenFailure)
    case Failure(e) => Failure(e)
    case Success(data) => Member(data, "token")
  }

  /** What `cb` receives: `cb(error)` or `cb(null, {token, keys: {pub, priv}})`. */
  datatype Reply = Failed(error: Error) | Succeeded(token: Value, pub: Value, priv: Value)

  /** The effects of one `create` or `auth` call: the requests sent, the
      session written with `setItem` (None: the slot is not written), the
      argument of `updateDbClient` (None: not called), and the reply. */
  datatype Flow = Flow(sent: seq<Request>, stored: Option<Session>, rebound: Option<Value>, reply: Reply)

  /** `user.create(alias, pass, cb)` once the keys are derived and the password hashed. */
  function CreateFlow(base: string, alias: string, keys: Keys, hashedPassword: string,
                      tokenReply: Outcome, registerReply: Outcome): (f: Flow)
    ensures f.reply.Failed? <==> f.stored.None?
    ensures f.stored.None? <==> f.rebound.None?
    ensures 1 <= |f.sent| <= 2 && f.sent[0] == TokenRequest(base, alias)
    ensures |f.sent| == 2 <==> Bootstrap(tokenReply).Success?
    ensures |f.sent| == 2 ==>
              f.sent[1] == RegisterRequest(base, Bootstrap(tokenReply).value, alias, keys.pub, hashedPassword)
    ensures Bootstrap(tokenReply).Failure? ==> f.reply == Failed(Bootstrap(tokenReply).error)
    ensures Bootstrap(tokenReply).Success? && CheckedBody(registerReply, RegisterFailure).Failure? ==>
              f.reply == Failed(CheckedBody(registerReply, RegisterFailure).error)
    ensures (Bootstrap(tokenReply).Success? && CheckedBody(registerReply, RegisterFailure).Success?
             && Nullish(registerReply.body.value)) ==> f.reply == Failed(TypeError)
    ensures (Bootstrap(tokenReply).Success? && CheckedBody(registerReply, RegisterFailure).Success?
             && !Nullish(registerReply.body.value)) ==> f.reply.Succeeded?
    ensures f.reply.Succeeded? ==>
              && |f.sent| == 2
              && CheckedBody(registerReply, RegisterFailure).Success?
              && f.reply.token == Prop(registerReply.body.value, "token")
              && f.stored == Some(Session(alias, f.reply.token, keys))
              && f.rebound == Some(Str(keys.pub))
              && f.reply.pub == Str(keys.pub) && f.reply.priv == Str(keys.priv)
  {
    var first := TokenRequest(base, alias);
    match Bootstrap(tokenReply)
    case Failure(e) => Flow([first], None, None, Failed(e))
    case Success(bearer) =>
      var second := RegisterRequest(base, bearer, alias, keys.pub, hashedPassword);
      match CheckedBody(registerReply, RegisterFailure)
      case Failure(e) => Flow([first, second], None, None, Failed(e))
      case Success(data) =>
        match Member(data, "token")
        case Failure(e) => Flow([first, second], None, None, Failed(e))
        case Success(token) =>
          Flow([first, second], Some(Session(alias, token, keys)), Some(Str(keys.pub)),
               Succeeded(token, Str(keys.pub), Str(keys.priv)))
  }

  /** `user.auth(alias, pass, cb)` once the keys are derived: the slot gets the
      LOCAL keys, the registry and `cb` get the BACKEND's `publicKey`. */
  function AuthFlow(base: string, alias: string, pass: string, keys: Keys,
                    tokenReply: Outcome, authReply: Outcome): (f: Flow)
    ensures f.reply.Failed? <==> f.stored.None?
    ensures f.stored.None? <==> f.rebound.None?
    ensures 1 <= |f.sent| <= 2 && f.sent[0] == TokenRequest(base, alias)
    ensures |f.sent| == 2 <==> Bootstrap(tokenReply).Success?
    ensures |f.sent| == 2 ==> f.sent[1] == AuthRequest(base, Bootstrap(tokenReply).value, alias, pass)
    ensures Bootstrap(tokenReply).Failure? ==> f.reply == Failed(Bootstrap(tokenReply).error)
    ensures Bootstrap(tokenReply).Success? && CheckedBody(authReply, AuthFailure).Failure? ==>
              f.reply == Failed(CheckedBody(authReply, AuthFailure).error)
    ensures (Bootstrap(tokenReply).Success? && CheckedBody(authReply, AuthFailure).Success?
             && Nullish(authReply.body.value)) ==> f.reply == Failed(TypeError)
    ensures (Bootstrap(tokenReply).Success? && CheckedBody(authReply, AuthFailure).Success?
             && !Nullish(authReply.body.value)) ==> f.reply.Succeeded?
    ensures f.reply.Succeeded? ==>
              && |f.sent| == 2 && Bootstrap(tokenReply).Success?
              && CheckedBody(authReply, AuthFailure).Success?
              && var data := authReply.body.value;
              && f.reply.token == Prop(data, "token")
              && f.stored == Some(Session(alias, f.reply.token, keys))
              && f.rebound == Some(Prop(data, "publicKey"))
              && f.reply.pub == Prop(data, "publicKey") && f.reply.priv == Prop(data, "privateKey")
  {
    var first := TokenRequest(base, alias);
    match Bootstrap(tokenReply)
    case Failure(e) => Flow([first], None, None, Failed(e))
    case Success(bearer) =>
      var second := AuthRequest(base, bearer, alias, pass);
      match CheckedBody(authReply, AuthFailure)
      case Failure(e) => Flow([first, second], None, None, Failed(e))
      case Success(data) =>
        match Member(data, "token")
        case Failure(e) => Flow([first, second], None, None, Failed(e))
        case Success(token) =>
          Flow([first, second], Some(Session(alias, token, keys)), Some(Prop(data, "publicKey")),
               Succeeded(token, Prop(data, "publicKey"), Prop(data, "privateKey")))
  }

  /** The key the registry should be scoped to for a slot: the session's `keys.pub`, or none. */
  function SessionPub(slot: Option<Session>): Value {
    match slot
    case None => Undefined
    case Some(s) => Str(s.keys.pub)
  }

  /** The registry's scope matches the slot (the root when there is no session). */
  ghost predicate InSync(tab: Tab, reg: Registry)
    reads tab, reg
  {
    reg.dbClient.basePath == BasePath(SessionPub(tab.userSession))
  }

  /** `user.create(alias, pass, cb)`; `cb` is assumed not to throw. */
  method Create(alias: string, pass: string, deriveKeys: string -> Keys, hashedPassword: string,
                tab: Tab, reg: Registry, tokenReply: Outcome, registerReply: Outcome) returns (reply: Reply)
    modifies tab, reg
    ensures var f := CreateFlow(EnvText(reg.env), alias, deriveKeys(alias + pass), hashedPassword, tokenReply, registerReply);
            && reply == f.reply
            && tab.requests == old(tab.requests) + f.sent
            && tab.userSession == (if f.stored.Some? then f.stored else old(tab.userSession))
            && reg.dbClient == (if f.rebound.Some? then CreateDBClient(BackendUrl(reg.env), f.rebound.value) else old(reg.dbClient))
    ensures reply.Failed? ==> tab.userSession == old(tab.userSession) && reg.dbClient == old(reg.dbClient)
    ensures reply.Succeeded? ==> InSync(tab, reg) && tab.userSession.value.keys == deriveKeys(alias + pass)
  {
    var keys := deriveKeys(alias + pass);
    var base := EnvText(reg.env);
    tab.requests := tab.requests + [TokenRequest(base, alias)];
    var tokenData := CheckedBody(tokenReply, TokenFailure);
    if tokenData.Failure? {
      reply := Failed(tokenData.error);
      return;
    }
    var bearer := Member(tokenData.value, "token");
    if bearer.Failure? {
      reply := Failed(bearer.error);
      return;
    }
    tab.requests := tab.requests + [RegisterRequest(base, bearer.value, alias, keys.pub, hashedPassword)];
    var registerData := CheckedBody(registerReply, RegisterFailure);
    if registerData.Failure? {
      reply := Failed(registerData.error);
      return;
    }
    var token := Member(registerData.value, "token");
    if token.Failure? {
      reply := Failed(token.error);
      return;
    }
    tab.userSession := Some(Session(alias, token.value, keys));
    reply := Succeeded(token.value, Str(keys.pub), Str(keys.priv));
    reg.UpdateDbClient(Str(keys.pub));
  }

  /** `user.auth(alias, pass, cb)`; `cb` is assumed not to throw. */
  method Auth(alias: string, pass: string, deriveKeys: string -> Keys,
              tab: Tab, reg: Registry, tokenReply: Outcome, authReply: Outcome) returns (reply: Reply)
    modifies tab, reg
    ensures var f := AuthFlow(EnvText(reg.env), alias, pass, deriveKeys(alias + pass), tokenReply, authReply);
            && reply == f.reply
            && tab.requests == old(tab.requests) + f.sent
            && tab.userSession == (if f.stored.Some? then f.stored else old(tab.userSession))
            && reg.dbClient == (if f.rebound.Some? then CreateDBClient(BackendUrl(reg.env), f.rebound.value) else old(reg.dbClient))
    ensures reply.Failed? ==> tab.userSession == old(tab.userSession) && reg.dbClient == old(reg.dbClient)
    ensures reply.Succeeded? ==>
              && tab.userSession.value.keys == deriveKeys(alias + pass)
              && reg.dbClient.basePath == BasePath(reply.pub)
  {
    var keys := deriveKeys(alias + pass);
    var base := EnvText(reg.env);
    tab.requests := tab.requests + [TokenRequest(base, alias)];
    var tokenData := CheckedBody(tokenReply, TokenFailure);
    if tokenData.Failure? {
      reply := Failed(tokenData.error);
      return;
    }
    var bearer := Member(tokenData.value, "token");
    if bearer.Failure? {
      reply := Failed(bearer.error);
      return;
    }
    tab.requests := tab.requests + [AuthRequest(base, bearer.value, alias, pass)];
    var authData := CheckedBody(authReply, AuthFailure);
    if authData.Failure? {
      reply := Failed(authData.error);
      return;
    }
    var token := Member(authData.value, "token");
    if token.Failure? {
      reply := Failed(token.error);
      return;
    }
    tab.userSession := Some(Session(alias, token.value, keys));
    reg.UpdateDbClient(Prop(authData.value, "publicKey"));
    reply := Succeeded(token.value, Prop(authData.value, "publicKey"), Prop(authData.value, "privateKey"));
  }

  /** `user.get(path)`: a node under `users/<keys.pub>` of the stored session,
      whatever the registry is currently scoped to. */
  function Get(tab: Tab, reg: Registry, path: string): (r: Result<Node, Error>)
    reads tab, reg
    ensures r.Failure? <==> tab.userSession.None?
    ensures r.Failure? ==> r.error == Raised(NotLoggedIn)
    ensures r.Success? ==>
              && r.value.client.baseUrl == reg.dbClient.baseUrl
              && r.value.client.basePath == BasePath(Str(tab.userSession.value.keys.pub))
              && r.value.fullPath == Resolve(BasePath(Str(tab.userSession.value.keys.pub)), path)
  {
    match tab.userSession
    case Some(s) => Success(reg.dbClient.User(Str(s.keys.pub)).Get(path))
    case None => Failure(Raised(NotLoggedIn))
  }

  /** `user.logout()`. */
  method Logout(tab: Tab, reg: Registry)
    modifies tab`userSession, reg
    ensures tab.userSession == None
    ensures reg.dbClient == CreateDBClient(BackendUrl(reg.env), Undefined)
    ensures reg.dbClient.basePath == "" && InSync(tab, reg)
  {
    tab.userSession := None;
    reg.ResetDbClient();
  }

  /** `user.recall()`: returns the stored session and scopes the registry to it. */
  method Recall(tab: Tab, reg: Registry) returns (session: Option<Session>)
    modifies reg
    ensures session == tab.userSession
    ensures reg.dbClient == CreateDBClient(BackendUrl(reg.env), SessionPub(tab.userSession))
    ensures InSync(tab, reg)
  {
    if tab.userSession.Some? {
      session := tab.userSession;
      reg.UpdateDbClient(Str(session.value.keys.pub));
      return;
    }
    reg.ResetDbClient();
    session := None;
  }

  /** `user.pair()`: the keys of `recall()`, with its effect on the registry. */
  method Pair(tab: Tab, reg: Registry) returns (keys: Option<Keys>)
    modifies reg
    ensures keys.Some? <==> tab.userSession.Some?
    ensures keys.Some? ==> keys.value == tab.userSession.value.keys
    ensures reg.dbClient == CreateDBClient(BackendUrl(reg.env), SessionPub(tab.userSession))
  {
    var session := Recall(tab, reg);
    keys := if session.Some? then Some(session.value.keys) else None;
  }

  /** `user.exists(alias)`: the value of `response.ok && aclData.exists`, or
      `false` for anything thrown; the slot is only read. */
  method Exists(alias: string, tab: Tab, reg: Registry, aclReply: Outcome) returns (found: Value)
    modifies tab`requests
    ensures tab.requests == old(tab.requests) + [AclRequest(EnvText(reg.env), SlotToken(tab.userSession), alias)]
    ensures Truthy(found) <==>
              aclReply.Response? && aclReply.Ok() && aclReply.body.Parsed?
              && Truthy(Prop(aclReply.body.value, "exists"))
    ensures found == if aclReply.Response? && aclReply.Ok() && aclReply.body.Parsed? && !Nullish(aclReply.body.value)
                     then Prop(aclReply.body.value, "exists") else Bool(false)
  {
    var token := SlotToken(tab.userSession);
    tab.requests := tab.requests + [AclRequest(EnvText(reg.env), token, alias)];
    match aclReply {
      case NetworkFailure(_) =>
        found := Bool(false);
      case Response(status, _, body) =>
        if body.Unparsable? {
          found := Bool(false);
        } else if !(200 <= status <= 299) {
          found := Bool(false);
        } else {
          var flag := Member(body.value, "exists");
          found := if flag.Success? then flag.value else Bool(false);
        }
    }
  }

  /** `user.addWriteAcess(path, publicKey)`: never rejects; returns what it logs. */
  method AddWriteAcess(path: string, publicKey: string, tab: Tab, reg: Registry, reply: Outcome)
    returns (logged: Option<Error>)
    modifies tab`requests
    ensures tab.requests == old(tab.requests) + [WriteAccessRequest(EnvText(reg.env), SlotToken(tab.userSession), path, publicKey)]
    ensures logged.None? <==> reply.Response? && reply.Ok()
    ensures reply.Response? && !reply.Ok() ==> logged == Some(Raised("HTTP error! status: " + Decimal(reply.status)))
    ensures reply.NetworkFailure? ==> logged == Some(Transport(reply.detail))
  {
    tab.requests := tab.requests + [WriteAccessRequest(EnvText(reg.env), SlotToken(tab.userSession), path, publicKey)];
    match reply {
      case NetworkFailure(detail) =>
        logged := Some(Transport(detail));
      case Response(status, _, _) =>
        logged := if 200 <= status <= 299 then None else Some(Raised("HTTP error! status: " + Decimal(status)));
    }
  }

  /** `user.is.pub`: the session's public key, or the error the getter throws. */
  function IsPub(tab: Tab): (r: Result<string, Error>)
    reads tab
    ensures r.Success? <==> tab.userSession.Some?
    ensures r.Success? ==> r.value == tab.userSession.value.keys.pub
    ensures r.Failure? ==> r.error == Raised(NoActiveSession)
  {
    match tab.userSession
    case Some(s) => Success(s.keys.pub)
    case None => Failure(Raised(NoActiveSession))
  }
}
