/**
 * The path-addressed store client of src/utils/createtDBClient.ts.
 *
 * `createDBClient(baseUrl, userPub)` fixes a base path (`""` or
 * `users/<userPub>`); `get(path)` resolves a path against it with a plain
 * string-prefix test and returns a Node, an immutable accessor for one
 * resolved path. The path logic is pure; `put`, `set`, `load` and `once`
 * read the tab's session slot, issue one request and report its outcome.
 */
module DbClient {

  import opened Wrappers
  import opened Js
  import opened Http
  import opened Browser

  /** `s.startsWith(prefix)`. */
  predicate StartsWith(s: string, prefix: string) {
    |prefix| <= |s| && s[..|prefix|] == prefix
  }

  /** A base path of the shape `createDBClient` builds: the root, or one under `users/`. */
  predicate Scoped(basePath: string) {
    basePath == "" || StartsWith(basePath, "users/")
  }

  /** A SHA-256 digest in lowercase hexadecimal (all the model assumes of it). */
  predicate IsLowerHex(s: string) {
    forall i :: 0 <= i < |s| ==> s[i] in "0123456789abcdef"
  }

  type HexDigest = s: string | IsLowerHex(s)

  /** `userPub ? `users/${userPub}` : ""`. */
  function BasePath(userPub: Value): (p: string)
    ensures Scoped(p)
    ensures p != "" <==> Truthy(userPub)
  {
    if Truthy(userPub) then "users/" + ToStr(userPub) else ""
  }

  /** `path.startsWith(basePath) ? path : `${basePath}/${path}``: the resolved
      path always lies under the base path (as a string, not by segments). */
  function Resolve(basePath: string, path: string): (fullPath: string)
    ensures StartsWith(fullPath, basePath)
    ensures fullPath == path || fullPath == basePath + "/" + path
  {
    if StartsWith(path, basePath) then path
    else
      StartsWithConcat(basePath, "/" + path);
      basePath + "/" + path
  }

  lemma StartsWithConcat(s: string, t: string)
    ensures StartsWith(s + t, s)
  {
    assert (s + t)[..|s|] == s;
  }

  lemma StartsWithExtend(s: string, prefix: string, t: string)
    requires StartsWith(s, prefix)
    ensures StartsWith(s + t, prefix)
  {
    assert (s + t)[..|prefix|] == s[..|prefix|];
  }

  /** The object `createDBClient` returns: its two closures read only these constants. */
  datatype Client = Client(baseUrl: string, basePath: string)
  {
    /** `get(path)`: a Node for the resolved path. */
    function Get(path: string): (n: Node)
      ensures n.client == this
      ensures StartsWith(n.fullPath, basePath)
      ensures StartsWith(path, basePath) ==> n.fullPath == path
    {
      Node(this, Resolve(basePath, path))
    }

    /** `user(userPub)`: a fresh client on the same base URL. */
    function User(userPub: Value): (c: Client)
      ensures c.baseUrl == baseUrl
      ensures c.basePath == BasePath(userPub)
    {
      CreateDBClient(baseUrl, userPub)
    }
  }

  /** `createDBClient(baseUrl, userPub)`. */
  function CreateDBClient(baseUrl: string, userPub: Value): (c: Client)
    ensures c.baseUrl == baseUrl && Scoped(c.basePath)
    ensures c.basePath == "" <==> !Truthy(userPub)
  {
    Client(baseUrl, BasePath(userPub))
  }

  /** What `put`, or `set` through `put`, hands to its callbacks. */
  datatype Report =
    | OnSuccess               // onSuccess({err: undefined})
    | OnError(err: Error)     // onError({err})
    | OnErrorBare(e: Error)   // set's own catch: onError(error), not wrapped

  /** What `put` reports for the outcome of its request. */
  function PutReport(o: Outcome): (r: Report)
    ensures r.OnSuccess? <==> o.Response? && o.Ok() && o.body.Parsed?
    ensures o.Response? && !o.Ok() ==> r == OnError(Raised(MessageOr(Str(o.text), "Unknown error")))
    ensures !r.OnErrorBare?
  {
    match o
    case NetworkFailure(d) => OnError(Transport(d))
    case Response(_, text, body) =>
      if !o.Ok() then OnError(Raised(if text != "" then text else "Unknown error"))
      else if body.Unparsable? then OnError(Syntax(body.detail))
      else OnSuccess
  }

  /** What the promise of `load` settles to. */
  function LoadResult(o: Outcome): (r: Result<Value, Error>)
    ensures r.Success? <==> o.Response? && o.Ok() && o.body.Parsed?
    ensures r.Success? ==> r.value == o.body.value
    ensures o.Response? && !o.Ok() ==> r == Failure(Raised("Failed to fetch data"))
    ensures o.Response? && o.Ok() && o.body.Unparsable? ==> r == Failure(Raised("Failed to parse response"))
  {
    match o
    case NetworkFailure(d) => Failure(Transport(d))
    case Response(_, _, body) =>
      if !o.Ok() then Failure(Raised("Failed to fetch data"))
      else if body.Unparsable? then Failure(Raised("Failed to parse response"))
      else Success(body.value)
  }

  /** `array.length > 0 ? array[0] : undefined`, or the TypeError it throws. */
  function FirstItem(v: Value): (r: Result<Value, Error>)
    ensures r.Failure? <==> Nullish(v)
    ensures v.Arr? ==> r == Success(if |v.items| > 0 then v.items[0] else Undefined)
  {
    match v
    case Undefined => Failure(TypeError)
    case Null => Failure(TypeError)
    case Arr(items) => Success(if |items| > 0 then items[0] else Undefined)
    case Str(s) => Success(if |s| > 0 then Str([s[0]]) else Undefined)
    case Obj(m) =>
      var n := Prop(v, "length");
      Success(if n.Num? && n.n > 0 then Prop(v, "0") else Undefined)
    case Bool(_) => Success(Undefined)
    case Num(_) => Success(Undefined)
  }

  /** What `once` passes to its callback; None when the load failed and was only logged. */
  function OnceDelivery(o: Outcome): (d: Option<Value>)
    ensures d.Some? ==> LoadResult(o).Success?
    ensures LoadResult(o).Success? && LoadResult(o).value.Arr? ==>
              d == Some(if |LoadResult(o).value.items| > 0 then LoadResult(o).value.items[0] else Undefined)
  {
    match LoadResult(o)
    case Failure(_) => None
    case Success(v) =>
      match FirstItem(v)
      case Failure(_) => None
      case Success(x) => Some(x)
  }

  /** The accessor `get` returns for one resolved path. */
  datatype Node = Node(client: Client, fullPath: string)
  {
    /** `node.get(key)`: resolves `fullPath/key` through the client's `get`. */
    function Get(key: string): (n: Node)
      ensures n.client == client
      ensures n.fullPath == Resolve(client.basePath, fullPath + "/" + key)
      ensures StartsWith(fullPath, client.basePath) ==> n.fullPath == fullPath + "/" + key
    {
      assert StartsWith(fullPath, client.basePath) ==>
               (fullPath + "/" + key)[..|client.basePath|] == fullPath[..|client.basePath|];
      client.Get(fullPath + "/" + key)
    }

    /** `${baseUrl}/${fullPath}`. */
    function Url(): (u: string)
      ensures |u| == |client.baseUrl| + 1 + |fullPath|
      ensures u[..|client.baseUrl|] == client.baseUrl && u[|client.baseUrl|] == '/'
      ensures u[|client.baseUrl| + 1..] == fullPath
    {
      client.baseUrl + "/" + fullPath
    }

    /** The one request `put` sends, for the token read from the slot. */
    function PutRequest(token: Value, data: Value): (req: Request)
      ensures req.verb == POST && req.url == Url() && req.body == Some(data)
      ensures req.headers == AuthorizedJson(token)
    {
      Request(POST, Url(), AuthorizedJson(token), Some(data))
    }

    /** The one request `load` sends: a plain GET. */
    function LoadRequest(): (req: Request)
      ensures req.verb == GET && req.url == Url()
      ensures req.headers == map[] && req.body.None?
    {
      Request(GET, Url(), map[], None)
    }

    /** The node `set` writes to: the CLIENT's `get(sha256hex(JSON.stringify(item)))`;
        None when `JSON.stringify` yields no text and hashing throws. */
    function SetTarget(stringify: Value -> Option<string>, sha256Hex: string -> HexDigest, item: Value): (t: Option<Node>)
      ensures t.Some? <==> stringify(item).Some?
      ensures t.Some? ==>
                && t.value.client == client
                && t.value.fullPath == Resolve(client.basePath, sha256Hex(stringify(item).value))
    {
      match stringify(item)
      case None => None
      case Some(text) => Some(client.Get(sha256Hex(text)))
    }

    /** `put(data, onSuccess, onError)`: one POST carrying whatever token the
        slot holds, `null` when there is no session; nothing is refused. */
    method Put(data: Value, tab: Tab, outcome: Outcome) returns (report: Report)
      modifies tab`requests
      ensures tab.requests == old(tab.requests) + [PutRequest(SlotToken(tab.userSession), data)]
      ensures report == PutReport(outcome)
    {
      tab.requests := tab.requests + [PutRequest(SlotToken(tab.userSession), data)];
      report := PutReport(outcome);
    }

    /** `set(item, onSuccess, onError)`: `put` of the item at its content address
        under the client's base path; the node's own path plays no part. */
    method Set(item: Value, stringify: Value -> Option<string>, sha256Hex: string -> HexDigest,
               tab: Tab, outcome: Outcome) returns (report: Report)
      modifies tab`requests
      ensures SetTarget(stringify, sha256Hex, item).None? ==>
                tab.requests == old(tab.requests) && report == OnErrorBare(TypeError)
      ensures SetTarget(stringify, sha256Hex, item).Some? ==>
                tab.requests == old(tab.requests)
                  + [SetTarget(stringify, sha256Hex, item).value.PutRequest(SlotToken(tab.userSession), item)]
                && report == PutReport(outcome)
    {
      var text := stringify(item);
      if text.None? {
        report := OnErrorBare(TypeError);
        return;
      }
      var hash := sha256Hex(text.value);
      var target := client.Get(hash);
      report := target.Put(item, tab, outcome);
    }

    /** `load()`: one GET; resolves with the parsed body. */
    method Load(tab: Tab, outcome: Outcome) returns (result: Result<Value, Error>)
      modifies tab`requests
      ensures tab.requests == old(tab.requests) + [LoadRequest()]
      ensures result == LoadResult(outcome)
    {
      tab.requests := tab.requests + [LoadRequest()];
      result := LoadResult(outcome);
    }

    /** `once(callback)`: loads, then calls back with the first item; a failure is only logged. */
    method Once(tab: Tab, outcome: Outcome) returns (delivered: Option<Value>)
      modifies tab`requests
      ensures tab.requests == old(tab.requests) + [LoadRequest()]
      ensures delivered == OnceDelivery(outcome)
    {
      var loaded := Load(tab, outcome);
      delivered := None;
      if loaded.Success? {
        var first := FirstItem(loaded.value);
        if first.Success? {
          delivered := Some(first.value);
        }
      }
    }
  }

  /** `node.get(k1).get(k2)...`, applied left to right. */
  function Chain(n: Node, keys: seq<string>): Node
    decreases |keys|
  {
    if keys == [] then n else Chain(n.Get(keys[0]), keys[1..])
  }

  /** `/k1/k2/...`. */
  function Joined(keys: seq<string>): string
    decreases |keys|
  {
    if keys == [] then "" else "/" + keys[0] + Joined(keys[1..])
  }
}
