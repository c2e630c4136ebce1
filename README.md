# userdb client: store paths and session lifecycle, modelled in Dafny

This project models two linked pieces of the userdb example client.

**The path-addressed store client** is `createDBClient` in src/utils/createtDBClient.ts.
- A client fixes a base path: `""` (anonymous) or `users/<pub>`.
- `get(path)` resolves a path with a plain string-prefix test.
- `Node.get(key)` chains keys under a resolved path.
- `put`, `load` and `once` each send one request.
- `set` writes an item at its content address. The address is the SHA-256 hex digest of the item's JSON text, placed under the client's base path.

**The session lifecycle** is the `user` object in src/user.ts, together with the client registry in src/GlobalOrbit.ts.
- There is one `sessionStorage` slot, `"userSession"`.
- There is one module-level binding, `dbClient`.
- `create`, `auth` and `logout` are the only operations that write the slot.
- `create`, `auth`, `logout`, `recall` and `pair` rebind the registry. `pair` does so through `recall`.
- `pair`, `recall`, `get`, `is.pub`, `exists` and `addWriteAcess` only read the slot.

Layout, one module per file:
- `wrappers.dfy` (Option, Result).
- `js.dfy`: the JavaScript value semantics the code relies on. This covers JSON values plus `undefined`, truthiness, `String(v)`, member reads that throw on `null`, and the Error values.
- `http.dfy`: requests and the outcome of one `fetch`.
- `browser.dfy`: a `Tab` class holding the session slot and a ghost log of issued requests.
- `dbclient.dfy` and `dbclient_props.dfy`: the store client and its lemmas.
- `globalorbit.dfy`: the `Registry` class.
- `user.dfy` and `user_props.dfy`: the lifecycle and its lemmas.

External inputs are treated as follows:
- The network is an oracle input. Each `fetch` yields a value of type `Http.Outcome`: a network failure, or a response with a status, a body text and the result of parsing that text.
- Every issued request is appended to `Tab.requests`.
- Key derivation is a function parameter `deriveKeys` applied to `alias + pass`. This covers `generateKeyPairFromSeed` followed by URL-safe unpadded base64 (section 5 of RFC 4648).
- The bcrypt hash is an input, because it is randomized.
- `JSON.stringify` and the SHA-256 hex digest (FIPS 180-4) are function parameters of `set`. Nothing is assumed about the digest beyond its type `HexDigest`: a string of lowercase hexadecimal characters.
- The JSON round trip of the session through storage is taken as the identity.

Some behaviours of the code are easy to misread, and the model states them as written:
- **`put` without a session.** `put` does not refuse a write when there is no session. It sends the write with `Authorization: Bearer null` (src/utils/createtDBClient.ts:68-78, `UserProperties.PutWithoutSession`).
- **`Node.get` keys.** `Node.get` appends a key verbatim, even one that repeats the base path. The prefix test of src/utils/createtDBClient.ts:42-43 applies only to the path given to the client's `get`. A node's `get` passes `fullPath/key`, which already starts with the base path. So `get("users/abc").get("users/abc/nfts")` yields `users/abc/users/abc/nfts` (src/utils/createtDBClient.ts:52, `DbClientProperties.KeyRepeatingBaseIsAppended`).
- **`auth` key sources.** `auth` stores the LOCALLY derived keys in the slot. It scopes the registry to the BACKEND's `publicKey` and reports the backend's keys to `cb`. So "the registry's scope is the session's key" holds after `create`, `recall` and `logout`, but after `auth` only when the two keys agree (`UserProperties.AuthCanDesyncScope`, `UserProperties.AuthInSyncIff`).
- **`exists` result.** It returns `response.ok && aclData.exists`. That is the backend's `exists` value itself, not necessarily a boolean.
- **Backend URL.** The user.ts requests go to `${process.env.NEXT_PUBLIC_BACKEND_URL}/...`, which prints `undefined` when the variable is unset. The registry uses `NEXT_PUBLIC_BACKEND_URL || ""` (`User.EnvText` and `GlobalOrbit.BackendUrl`).

The seed is the plain concatenation `alias + pass`, so `("ab","c")` and `("a","bc")` derive the same keys. `User.Create` states the stored keys as `deriveKeys(alias + pass)`, which makes this visible.

## Model

| member | source | states |
|---|---|---|
| DbClient.BasePath | src/utils/createtDBClient.ts:39 | the base path is empty exactly when `userPub` is falsy, and otherwise lies under `users/` |
| DbClientProperties.BasePathOfKey | src/utils/createtDBClient.ts:39 | for a string key the base path is `users/<pk>`, or `""` for the empty key; with no key it is `""` |
| DbClient.Resolve | src/utils/createtDBClient.ts:43 | a resolved path always starts with the base path and is either the path itself or `basePath/path` |
| DbClient.Client.Get | src/utils/createtDBClient.ts:41-45 | `get(path)` yields a node of the same client whose path lies under the base path, and leaves a path that already starts with the base path unchanged |
| DbClient.CreateDBClient | src/utils/createtDBClient.ts:37-39 | the client keeps the base URL; its base path is well formed and empty exactly when `userPub` is falsy |
| DbClient.Client.User | src/utils/createtDBClient.ts:181 | `user(pk)` is a new client on the same base URL, scoped by `pk`; the original value is untouched |
| DbClientProperties.AnonymousClientKeepsPaths | src/utils/createtDBClient.ts:43 | the anonymous client resolves every path to itself |
| DbClientProperties.ResolveIdempotent | src/utils/createtDBClient.ts:43 | resolving an already resolved path changes nothing |
| DbClientProperties.PrefixTestCrossesUsers | src/utils/createtDBClient.ts:43 | the prefix test compares characters, not segments: the client of user `ab` keeps `users/abc/x` as its own |
| DbClient.Node.Get | src/utils/createtDBClient.ts:52 | `node.get(key)` is the client's own `get` of `fullPath/key` on the same client; for a node under the base path the key is appended verbatim |
| DbClientProperties.NodeGetAppends | src/utils/createtDBClient.ts:52 | `node.get(key)` is the node for `fullPath/key` on the same client |
| DbClientProperties.ChainAppends | src/utils/createtDBClient.ts:41-52 | a chain of `get`s appends `/k1/.../km` to the node's path and never adds the base path again |
| DbClientProperties.ChainFromClient | src/utils/createtDBClient.ts:41-52 | `client.get(p).get(k1)...` resolves to `resolve(p)/k1/...` |
| DbClientProperties.KeyRepeatingBaseIsAppended | src/utils/createtDBClient.ts:52 | a key that repeats the base path is appended verbatim (`users/abc/users/abc/nfts`) |
| DbClient.Node.Url | src/utils/createtDBClient.ts:73 | a node's URL is the base URL, one `/`, then the full path unchanged |
| DbClient.Node.PutRequest | src/utils/createtDBClient.ts:73-80 | the write is a POST to `baseUrl/fullPath` with the JSON body of `data` and `Authorization: Bearer <token>` |
| DbClient.PutReport | src/utils/createtDBClient.ts:82-94 | `onSuccess` is reached exactly on an ok response whose body parses; a non-ok response gives `onError` with the body text or "Unknown error" |
| DbClient.Node.Put | src/utils/createtDBClient.ts:67-96 | exactly one request is logged, carrying the slot's token or `null`, with no check for a missing session; the report is `PutReport` of the outcome |
| DbClient.Node.Set | src/utils/createtDBClient.ts:110-123 | `set` sends the one `put` request for the item at the client's `get(digest(stringify(item)))`; when stringifying yields nothing, nothing is sent and `onError` gets the TypeError |
| DbClient.Node.SetTarget | src/utils/createtDBClient.ts:112-117 | `set` has a target exactly when `JSON.stringify` yields text; the target is the client's own `get` of the digest, on the same client |
| DbClientProperties.ContentAddress | src/utils/createtDBClient.ts:112-117 | a hex digest resolves to `basePath/<digest>` (or to `<digest>` for the root), never to itself under a user base path |
| DbClientProperties.SetTargetIsContentAddress | src/utils/createtDBClient.ts:110-117 | `set` targets `basePath/<digest>` whatever node it is called on, so the same item always targets the same path |
| DbClient.LoadResult | src/utils/createtDBClient.ts:135-155 | `load` resolves exactly on an ok parsed response, with its value; it rejects with "Failed to fetch data" on non-ok and "Failed to parse response" on a bad body |
| DbClient.Node.LoadRequest | src/utils/createtDBClient.ts:137 | `load` sends a GET of `Url()` with no headers and no body |
| DbClient.Node.Load | src/utils/createtDBClient.ts:135-156 | `load` logs one plain GET of `baseUrl/fullPath` and settles as `LoadResult` |
| DbClient.FirstItem | src/utils/createtDBClient.ts:171 | `array[0]`, or `undefined` for an empty array; a TypeError exactly for a null body |
| DbClient.OnceDelivery | src/utils/createtDBClient.ts:167-174 | `once` calls back only after a successful load, with the first item of an array or `undefined` |
| DbClient.Node.Once | src/utils/createtDBClient.ts:167-174 | `once` issues the load request and delivers `OnceDelivery` of the outcome |
| DbClientProperties.OnceOnEmptyAndFailure | src/utils/createtDBClient.ts:167-174 | `once` calls back with `undefined` on an empty array; on a failed load it does not call back |
| Browser.SlotToken | src/utils/createtDBClient.ts:68-70 | the bearer token is the stored session's token, or `null` with no session |
| Http.AuthorizedJson | src/utils/createtDBClient.ts:75-78 | authorized requests carry exactly a JSON content type and `Bearer <token>` |
| GlobalOrbit.Registry.constructor | src/GlobalOrbit.ts:6 | the initial binding is the anonymous client on `NEXT_PUBLIC_BACKEND_URL` or `""` |
| GlobalOrbit.Registry.UpdateDbClient | src/GlobalOrbit.ts:13-18 | the binding becomes the client scoped by the key (anonymous for a falsy key), on the same base URL |
| GlobalOrbit.Registry.ResetDbClient | src/GlobalOrbit.ts:23-25 | the binding becomes the anonymous client on the same base URL |
| GlobalOrbit.HeldNodeSurvivesRebinding | src/GlobalOrbit.ts:13-25 | an illustration: across `updateDbClient` then `resetDbClient`, the registry is first scoped by the key and then anonymous, both on the backend URL, while a node obtained before keeps its old client |
| GlobalOrbit.BackendUrl | src/GlobalOrbit.ts:6 | the registry's base URL is `NEXT_PUBLIC_BACKEND_URL` when set and `""` when unset |
| Js.Member | src/user.ts:74-79 | reading a member throws a TypeError exactly on `null`/`undefined` and otherwise yields the object's own member or `undefined` |
| Js.MessageOr | src/user.ts:77 | `new Error(v or fallback)` carries the fallback for a falsy message and `String(v)` for a truthy one, so a non-empty string message is carried verbatim |
| User.EnvText | src/user.ts:66 | the user.ts URL prefix is the variable's value when set and `"undefined"` when unset, so it agrees with the registry's base URL exactly when the variable is set |
| User.TokenRequest | src/user.ts:65-72 | the bootstrap is a POST to `/request-token` whose body is `{alias}` and whose headers carry only the JSON content type, no authorization (also src/user.ts:149-156) |
| User.RegisterRequest | src/user.ts:81-95 | registration is a POST to `/register` under `Bearer <bootstrap token>` with body `{alias, publicKey, hashedPassword}` |
| User.AuthRequest | src/user.ts:165-175 | authentication is a POST to `/authenticate` under `Bearer <bootstrap token>` with body `{alias, pass}` |
| User.CheckedBody | src/user.ts:74-79 | a hop yields its parsed body exactly when the response is ok and parses; a non-ok reply whose body parses to a non-null value fails with its `message`, or the fallback when that is falsy |
| User.Bootstrap | src/user.ts:65-87 | the bootstrap token is `tempTokenData.token` of an ok, parsed, non-null reply, and it becomes the second hop's bearer |
| User.CreateFlow | src/user.ts:51-120 | the request sends `{alias}` for the bootstrap, then `{alias, publicKey, hashedPassword}` under that bearer; ok, parsed, non-null replies to both hops make it succeed; the slot and registry are written exactly on success, with the local keys and the register token; a failed hop hands `cb` that hop's error (the backend's `message` or the fallback), and a null register body a TypeError |
| User.Create | src/user.ts:51-120 | the new slot, registry, request log and reply are those of `CreateFlow`; a failure changes neither slot nor registry; a success leaves the registry scoped to the stored key |
| User.AuthFlow | src/user.ts:136-201 | `auth` sends `{alias}`, and `{alias, pass}` exactly when the bootstrap succeeded; it succeeds exactly when both hops give ok, parsed, non-null replies; on success the slot gets the LOCAL keys, while the registry and `cb` get the backend's `publicKey`; a failed hop hands `cb` that hop's error, and a null `/authenticate` body a TypeError |
| User.Auth | src/user.ts:136-201 | the new state is that of `AuthFlow`; a failure changes neither slot nor registry |
| UserProperties.AuthCanDesyncScope | src/user.ts:183-196 | a successful `auth` can store one key and scope the registry to another |
| UserProperties.AuthInSyncIff | src/user.ts:183-196 | after `auth` the registry's scope is the stored key's exactly when the backend returns that same key |
| UserProperties.CreateScenario | src/user.ts:65-109 | `create("alice", …)` answered with token T1 stores `{alias: "alice", token: "T1", keys}` after exactly the two expected requests |
| UserProperties.RejectedBootstrapStopsCreate | src/user.ts:74-79 | for `create`, a bootstrap rejected with any non-null body sends nothing more, writes nothing and hands `cb` the body's `message`, or "Failed to obtain temporary token." when it is falsy |
| UserProperties.RejectedBootstrapStopsAuth | src/user.ts:158-163 | for `auth`, a bootstrap rejected with any non-null body sends nothing more, writes nothing and hands `cb` the body's `message` or the bootstrap fallback |
| UserProperties.RejectedRegisterStopsCreate | src/user.ts:97-100 | a `/register` hop rejected with any non-null body writes nothing and hands `cb` its `message`, or "Registration failed." when it is falsy |
| UserProperties.RejectedAuthenticateStopsAuth | src/user.ts:177-180 | an `/authenticate` hop rejected with any non-null body writes nothing and hands `cb` its `message`, or "Authentication failed." when it is falsy |
| User.Get | src/user.ts:210-217 | `user.get` fails with "User is not logged in" exactly when there is no session, and otherwise resolves under `users/<keys.pub>` whatever the registry's scope |
| User.Logout | src/user.ts:219-222 | the slot is emptied and the registry reset to anonymous |
| User.Recall | src/user.ts:232-241 | `recall` returns the slot's session and scopes the registry to its key, or to the root without one |
| User.Pair | src/user.ts:248-251 | `pair` returns the session's keys, or none, with `recall`'s effect |
| UserProperties.CreateThenRecall | src/user.ts:102-115 | after a successful `create`, `recall` returns the session with the derived keys and the registry stays on them |
| UserProperties.LogoutThenRecall | src/user.ts:219-241 | after `logout`, `recall` returns null and the registry is anonymous |
| UserProperties.RecallTwice | src/user.ts:232-241 | two `recall`s in a row give the same result, and the scope after the first call is the scope after the second |
| UserProperties.PutWithoutSession | src/utils/createtDBClient.ts:67-80 | a `put` with no session still sends its write, as `Bearer null` |
| User.AclRequest | src/user.ts:261-270 | the existence check is a GET of `/acl/<alias>` under `Bearer <slot token>` with no body |
| User.Exists | src/user.ts:254-278 | one GET of `/acl/<alias>` is sent with the slot's token; the result is the backend's `exists` value itself on an ok, parsed, non-null reply, and `false` otherwise (a null body throws on `.exists` and is caught); so it is truthy exactly when that value is truthy; the slot is only read |
| User.WriteAccessRequest | src/user.ts:295-308 | the grant is a POST to `/add-write-access` under `Bearer <slot token>` with body `{path, publicKey}` |
| User.AddWriteAcess | src/user.ts:289-316 | one POST of `{path, publicKey}` is sent; it never rejects, and logs an error exactly when the response is not ok or the network fails |
| User.IsPub | src/user.ts:319-327 | `is.pub` is the session's `keys.pub`, or fails with "No active session found" |

## Left out

- `libsodium.ensureReady` and the libsodium and bcrypt primitives (src/utils/libsodium.ts). They are external code. Keys arrive through `deriveKeys` and the hash as an input. The type declarations and constants files hold no logic.
- Failures of `ensureReady`, `generateKeyPairFromSeed` and `hashPassword`. In `create` and `auth` such a failure would reach `cb(error)` before any request is sent (src/user.ts:53-63, :116-118). The model takes these three steps as always succeeding.
- Callbacks that throw. `cb`, `onSuccess`, `onError` and the `once` callback are assumed to return normally. In particular `create` calls `cb` before `updateDbClient`, so a throwing `cb` would skip the rebinding and call `cb` again. That is not modelled.
- Console logging. For `addWriteAcess`, the logged error is returned instead.
- Async scheduling. Each operation runs to completion in sequence.
- Concurrency between flows.
- The React UI, the react-query hooks and the recoil atoms. They are outside the core.
- JSON numbers are integers. Floating point and NaN are not modelled.
- DbClient.FirstItem: for a parsed object body, only a numeric `length` member counts as a length. JavaScript's coercion of other `length` values is not modelled.
- Js.Prop: `exists`, `message`, `token`, `publicKey` and `privateKey` are read as own members of objects. Inherited properties of other values are not modelled.
- Response bodies. An outcome gives both the body text and its parse result. The model does not tie the two together, and each code path reads only one of them.
- `response.ok` is taken to mean status 200–299.
- What the backend does with repeated `set` writes. The client only guarantees the same target path.
- Foreign content in `sessionStorage`. Only user.ts writes the slot, so other values there are not modelled.
- JSON text. Requests record the JSON value of their body rather than its text.
- Member order of objects. `Js.Value` objects are unordered maps, so `stringify` in `set` is a function of an object's members alone. In JavaScript, `JSON.stringify` follows property order, so `{a: 1, b: 2}` and `{b: 2, a: 1}` hash to different digests and `set` writes them to different paths (src/utils/createtDBClient.ts:112-116). The model gives them one target.

- Strings are sequences of Unicode characters, not of UTF-16 code units. For a `load` body starting with a character outside the Basic Multilingual Plane, `DbClient.FirstItem` of that string yields the whole character, where JavaScript's `s[0]` (src/utils/createtDBClient.ts:171) yields a lone surrogate. `length` of such strings differs in the same way.
