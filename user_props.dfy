/**
 * Properties of the session lifecycle: the scenarios a caller runs through
 * (create then recall, logout then recall, recall twice), the asymmetry of
 * `auth`, and the fact that a store write is never refused for want of a
 * session.
 */
module UserProperties {

  import opened Wrappers
  import opened Js
  import opened Http
  import opened Browser
  import opened DbClient
  import opened GlobalOrbit
  import opened User

  /** `auth` can leave the registry scoped to a key other than the one it
      stores: the backend's `publicKey` need not be the locally derived one. */
  lemma AuthCanDesyncScope(base: string)
    ensures var keys := Keys("LOCAL", "lp");
            var tokenReply := Response(200, "", Parsed(Obj(map["token" := Str("B")])));
            var authReply := Response(200, "", Parsed(Obj(map["token" := Str("T"), "publicKey" := Str("REMOTE")])));
            var f := AuthFlow(base, "alice", "pw", keys, tokenReply, authReply);
            && f.reply.Succeeded?
            && f.stored == Some(Session("alice", Str("T"), keys))
            && f.rebound == Some(Str("REMOTE"))
            && BasePath(f.rebound.value) != BasePath(SessionPub(f.stored))
  {
    var keys := Keys("LOCAL", "lp");
    var authData := Obj(map["token" := Str("T"), "publicKey" := Str("REMOTE")]);
    assert Prop(authData, "token") == Str("T");
    assert Prop(authData, "publicKey") == Str("REMOTE");
    assert BasePath(Str("REMOTE")) == "users/REMOTE";
    assert BasePath(Str("LOCAL")) == "users/LOCAL";
    assert "users/REMOTE"[6] != "users/LOCAL"[6];
  }

  /** `auth`'s flow keeps the registry in step with the slot exactly when the
      backend's key is the locally derived one (as a truthy string). */
  lemma AuthInSyncIff(base: string, alias: string, pass: string, keys: Keys, tokenReply: Outcome, authReply: Outcome)
    requires AuthFlow(base, alias, pass, keys, tokenReply, authReply).reply.Succeeded?
    requires keys.pub != ""
    ensures var f := AuthFlow(base, alias, pass, keys, tokenReply, authReply);
            BasePath(f.rebound.value) == BasePath(SessionPub(f.stored))
            <==> Truthy(f.reply.pub) && ToStr(f.reply.pub) == keys.pub
  {
    var f := AuthFlow(base, alias, pass, keys, tokenReply, authReply);
    var p := f.reply.pub;
    if Truthy(p) && BasePath(p) == BasePath(Str(keys.pub)) {
      assert ("users/" + ToStr(p))[6..] == ToStr(p);
      assert ("users/" + keys.pub)[6..] == keys.pub;
    }
  }

  /** The backend answers `create("alice", "pw1")` with token T1: the slot then
      holds alice's session with token T1 and the derived keys. */
  lemma CreateScenario(base: string, keys: Keys, hashedPassword: string)
    ensures var tokenReply := Response(200, "", Parsed(Obj(map["token" := Str("B")])));
            var registerReply := Response(201, "", Parsed(Obj(map["token" := Str("T1")])));
            var f := CreateFlow(base, "alice", keys, hashedPassword, tokenReply, registerReply);
            && f.stored == Some(Session("alice", Str("T1"), keys))
            && f.sent == [TokenRequest(base, "alice"), RegisterRequest(base, Str("B"), "alice", keys.pub, hashedPassword)]
  {
    assert Prop(Obj(map["token" := Str("B")]), "token") == Str("B");
    assert Prop(Obj(map["token" := Str("T1")]), "token") == Str("T1");
  }

  /** A rejected bootstrap hop sends nothing further and reports the
      backend's `message`, or the bootstrap fallback when it is falsy. */
  lemma RejectedBootstrapStopsCreate(base: string, alias: string, keys: Keys, hashedPassword: string,
                                     status: int, text: string, v: Value, registerReply: Outcome)
    requires !(200 <= status <= 299) && !Nullish(v)
    ensures var f := CreateFlow(base, alias, keys, hashedPassword, Response(status, text, Parsed(v)), registerReply);
            && f.sent == [TokenRequest(base, alias)]
            && f.stored.None? && f.rebound.None?
            && f.reply == Failed(Raised(MessageOr(Prop(v, "message"), TokenFailure)))
  {
  }

  /** `auth` too stops at a rejected bootstrap: the second request is never
      sent, nothing is written and the backend's message is reported. */
  lemma RejectedBootstrapStopsAuth(base: string, alias: string, pass: string, keys: Keys,
                                   status: int, text: string, v: Value, authReply: Outcome)
    requires !(200 <= status <= 299) && !Nullish(v)
    ensures var f := AuthFlow(base, alias, pass, keys, Response(status, text, Parsed(v)), authReply);
            && f.sent == [TokenRequest(base, alias)]
            && f.stored.None? && f.rebound.None?
            && f.reply == Failed(Raised(MessageOr(Prop(v, "message"), TokenFailure)))
  {
  }

  /** A rejected `/register` hop after a good bootstrap: both requests were
      sent, nothing is written, and `cb` gets the backend's `message` or
      "Registration failed.". */
  lemma RejectedRegisterStopsCreate(base: string, alias: string, keys: Keys, hashedPassword: string,
                                    tokenReply: Outcome, status: int, text: string, v: Value)
    requires Bootstrap(tokenReply).Success?
    requires !(200 <= status <= 299) && !Nullish(v)
    ensures var f := CreateFlow(base, alias, keys, hashedPassword, tokenReply, Response(status, text, Parsed(v)));
            && |f.sent| == 2
            && f.stored.None? && f.rebound.None?
            && f.reply == Failed(Raised(MessageOr(Prop(v, "message"), RegisterFailure)))
  {
  }

  /** A rejected `/authenticate` hop after a good bootstrap: both requests
      were sent, nothing is written, and `cb` gets the backend's `message` or
      "Authentication failed.". */
  lemma RejectedAuthenticateStopsAuth(base: string, alias: string, pass: string, keys: Keys,
                                      tokenReply: Outcome, status: int, text: string, v: Value)
    requires Bootstrap(tokenReply).Success?
    requires !(200 <= status <= 299) && !Nullish(v)
    ensures var f := AuthFlow(base, alias, pass, keys, tokenReply, Response(status, text, Parsed(v)));
            && |f.sent| == 2
            && f.stored.None? && f.rebound.None?
            && f.reply == Failed(Raised(MessageOr(Prop(v, "message"), AuthFailure)))
  {
  }

  /** After a successful `create`, `recall` returns the stored session, whose
      keys are the ones derived from `alias + pass`, and keeps the registry on them. */
  method CreateThenRecall(alias: string, pass: string, deriveKeys: string -> Keys, hashedPassword: string,
                          tab: Tab, reg: Registry, tokenReply: Outcome, registerReply: Outcome)
    returns (reply: Reply, session: Option<Session>)
    modifies tab, reg
    ensures reply.Succeeded? ==>
              && session == Some(Session(alias, reply.token, deriveKeys(alias + pass)))
              && reg.dbClient.basePath == BasePath(Str(deriveKeys(alias + pass).pub))
  {
    reply := Create(alias, pass, deriveKeys, hashedPassword, tab, reg, tokenReply, registerReply);
    session := Recall(tab, reg);
  }

  /** After `logout`, `recall` returns null and the registry is anonymous. */
  method LogoutThenRecall(tab: Tab, reg: Registry) returns (session: Option<Session>)
    modifies tab, reg
    ensures session.None? && tab.userSession.None?
    ensures reg.dbClient.basePath == "" && reg.dbClient.baseUrl == BackendUrl(reg.env)
  {
    Logout(tab, reg);
    session := Recall(tab, reg);
  }

  /** Calling `recall` twice with no write in between gives the same result and the same scope. */
  method RecallTwice(tab: Tab, reg: Registry)
    returns (first: Option<Session>, second: Option<Session>, firstScope: Client)
    modifies reg
    ensures first == second == tab.userSession
    ensures firstScope == reg.dbClient
    ensures reg.dbClient == CreateDBClient(BackendUrl(reg.env), SessionPub(tab.userSession))
  {
    first := Recall(tab, reg);
    firstScope := reg.dbClient;
    second := Recall(tab, reg);
  }

  /** `get("users/<pub>").get("nfts").put({id: "1000"})` with no session still
      sends the write, authorized as `Bearer null`. */
  method PutWithoutSession(pub: string, tab: Tab, reg: Registry, outcome: Outcome) returns (report: Report)
    requires tab.userSession.None?
    modifies tab`requests
    ensures |tab.requests| == |old(tab.requests)| + 1
    ensures "Authorization" in Last(tab.requests).headers && Last(tab.requests).headers["Authorization"] == "Bearer null"
    ensures Last(tab.requests).body == Some(Obj(map["id" := Str("1000")]))
    ensures report == PutReport(outcome)
  {
    var node := reg.dbClient.Get("users/" + pub).Get("nfts");
    report := node.Put(Obj(map["id" := Str("1000")]), tab, outcome);
  }

  function Last(requests: seq<Request>): Request
    requires |requests| > 0
  {
    requests[|requests| - 1]
  }
}
