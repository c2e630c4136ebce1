/**
 * Properties of the store client's path logic: how base paths are formed,
 * that resolution is a raw string-prefix test, that chained `get`s append
 * keys verbatim, and where `set` writes.
 */
module DbClientProperties {

  import opened Wrappers
  import opened Js
  import opened DbClient

  /** For a string key, the base path is `users/<pk>`, or the root when the key is empty. */
  lemma BasePathOfKey(pk: string)
    ensures BasePath(Str(pk)) == (if pk == "" then "" else "users/" + pk)
    ensures BasePath(Undefined) == ""
  {
  }

  /** The anonymous client resolves every path to itself. */
  lemma AnonymousClientKeepsPaths(baseUrl: string, path: string)
    ensures CreateDBClient(baseUrl, Undefined).Get(path).fullPath == path
  {
    assert path[..0] == "";
  }

  /** Resolving a resolved path changes nothing. */
  lemma ResolveIdempotent(basePath: string, path: string)
    ensures Resolve(basePath, Resolve(basePath, path)) == Resolve(basePath, path)
  {
  }

  /** The prefix test compares characters, not segments: the client of user
      `ab` takes `users/abc/x`, a path of user `abc`, as already its own. */
  lemma PrefixTestCrossesUsers(baseUrl: string)
    ensures CreateDBClient(baseUrl, Str("ab")).Get("users/abc/x").fullPath == "users/abc/x"
  {
    assert "users/abc/x"[..8] == "users/ab";
  }

  /** `node.get(key)` appends `/key` to the node's path, as long as that path
      lies under the base path (every node `get` returns does). */
  lemma NodeGetAppends(n: Node, key: string)
    requires StartsWith(n.fullPath, n.client.basePath)
    ensures n.Get(key) == Node(n.client, n.fullPath + "/" + key)
  {
    StartsWithExtend(n.fullPath, n.client.basePath, "/" + key);
    assert n.fullPath + "/" + key == n.fullPath + ("/" + key);
  }

  /** A chain of `get`s appends each key in turn and never adds the base path again. */
  lemma {:induction false} ChainAppends(n: Node, keys: seq<string>)
    requires StartsWith(n.fullPath, n.client.basePath)
    ensures Chain(n, keys) == Node(n.client, n.fullPath + Joined(keys))
    decreases |keys|
  {
    if keys != [] {
      NodeGetAppends(n, keys[0]);
      var next := n.Get(keys[0]);
      StartsWithExtend(n.fullPath, n.client.basePath, "/" + keys[0]);
      ChainAppends(next, keys[1..]);
      assert n.fullPath + "/" + keys[0] + Joined(keys[1..]) == n.fullPath + Joined(keys);
    }
  }

  /** `client.get(path).get(k1)...get(km)` resolves to `resolve(path)/k1/.../km`. */
  lemma ChainFromClient(c: Client, path: string, keys: seq<string>)
    ensures Chain(c.Get(path), keys).fullPath == Resolve(c.basePath, path) + Joined(keys)
  {
    ChainAppends(c.Get(path), keys);
  }

  /** A key that repeats the base path is appended verbatim: there is no
      segment-aware de-duplication. */
  lemma KeyRepeatingBaseIsAppended(baseUrl: string)
    ensures CreateDBClient(baseUrl, Str("abc")).Get("users/abc").Get("users/abc/nfts").fullPath
            == "users/abc/users/abc/nfts"
  {
    var c := CreateDBClient(baseUrl, Str("abc"));
    assert c.basePath == "users/abc";
    assert "users/abc"[..9] == "users/abc";
    var n := c.Get("users/abc");
    assert n == Node(c, "users/abc");
    NodeGetAppends(n, "users/abc/nfts");
    assert "users/abc" + "/" + "users/abc/nfts" == "users/abc/users/abc/nfts";
  }

  /** A hex digest never starts with a non-root base path (`u` is not a hex
      digit), so `get(digest)` puts it directly under the base path. */
  lemma ContentAddress(c: Client, digest: HexDigest)
    requires Scoped(c.basePath)
    ensures c.Get(digest).fullPath == if c.basePath == "" then digest else c.basePath + "/" + digest
  {
    if c.basePath == "" {
      assert digest[..0] == "";
    } else {
      assert c.basePath[0] == "users/"[0] == 'u';
      if |c.basePath| <= |digest| {
        assert digest[..|c.basePath|][0] == digest[0];
        assert digest[0] in "0123456789abcdef";
        assert digest[..|c.basePath|] != c.basePath;
      }
    }
  }

  /** `set` writes to `basePath/<digest>` whatever node it is called on, and
      the same item always goes to the same path. */
  lemma SetTargetIsContentAddress(n: Node, m: Node, stringify: Value -> Option<string>,
                                  sha256Hex: string -> HexDigest, item: Value)
    requires n.client == m.client && Scoped(n.client.basePath)
    requires stringify(item).Some?
    ensures var digest := sha256Hex(stringify(item).value);
            n.SetTarget(stringify, sha256Hex, item)
              == Some(Node(n.client, if n.client.basePath == "" then digest else n.client.basePath + "/" + digest))
    ensures n.SetTarget(stringify, sha256Hex, item) == m.SetTarget(stringify, sha256Hex, item)
  {
    ContentAddress(n.client, sha256Hex(stringify(item).value));
  }

  /** `once` on an empty array calls back with `undefined`; on a failed load it does not call back. */
  lemma OnceOnEmptyAndFailure(status: int, text: string, detail: string)
    requires 200 <= status <= 299
    ensures OnceDelivery(Http.Response(status, text, Http.Parsed(Arr([])))) == Some(Undefined)
    ensures OnceDelivery(Http.Response(status, text, Http.Unparsable(detail))) == None
    ensures OnceDelivery(Http.NetworkFailure(detail)) == None
  {
  }
}
