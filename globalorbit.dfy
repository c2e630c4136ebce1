/**
 * The client registry of src/GlobalOrbit.ts: one module-level binding
 * `dbClient`, rebound (never mutated) by `updateDbClient` and `resetDbClient`.
 */
module GlobalOrbit {

  import opened Wrappers
  import opened Js
  import opened DbClient

  /** `process.env.NEXT_PUBLIC_BACKEND_URL || ""`. */
  function BackendUrl(env: Option<string>): (u: string)
    ensures env.Some? ==> u == env.value
    ensures env.None? ==> u == ""
  {
    match env
    case None => ""
    case Some(url) => url
  }

  class Registry {
    /** `process.env.NEXT_PUBLIC_BACKEND_URL`, fixed for the life of the process. */
    const env: Option<string>
    /** The current `dbClient` binding. */
    var dbClient: Client

    /** The initial binding: the anonymous client. */
    constructor (env: Option<string>)
      ensures this.env == env
      ensures dbClient == CreateDBClient(BackendUrl(env), Undefined)
      ensures dbClient.basePath == ""
    {
      this.env := env;
      dbClient := CreateDBClient(BackendUrl(env), Undefined);
    }

    /** `updateDbClient(userPubKey)`: rebinds to a client scoped to the key
        (anonymous when the key is falsy). */
    method UpdateDbClient(userPubKey: Value)
      modifies this
      ensures dbClient == CreateDBClient(BackendUrl(env), userPubKey)
      ensures Scoped(dbClient.basePath) && dbClient.basePath == BasePath(userPubKey)
    {
      dbClient := CreateDBClient(BackendUrl(env), userPubKey);
    }

    /** `resetDbClient()`: rebinds to the anonymous client. */
    method ResetDbClient()
      modifies this
      ensures dbClient == CreateDBClient(BackendUrl(env), Undefined)
      ensures dbClient.basePath == ""
    {
      dbClient := CreateDBClient(BackendUrl(env), Undefined);
    }
  }

  /** An illustration of rebinding: a node obtained before `updateDbClient`
      and `resetDbClient` keeps the client it was built with, while the
      registry moves to the user's scope and then back to the root. */
  method HeldNodeSurvivesRebinding(reg: Registry, path: string, userPubKey: Value)
    returns (held: Node, scoped: Client)
    modifies reg
    ensures held == old(reg.dbClient).Get(path)
    ensures held.client.basePath == old(reg.dbClient.basePath)
    ensures scoped.baseUrl == BackendUrl(reg.env) && scoped.basePath == BasePath(userPubKey)
    ensures reg.dbClient.basePath == "" && reg.dbClient.baseUrl == BackendUrl(reg.env)
  {
    held := reg.dbClient.Get(path);
    reg.UpdateDbClient(userPubKey);
    scoped := reg.dbClient;
    reg.ResetDbClient();
  }
}
