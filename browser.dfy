/**
 * The browser tab: its `sessionStorage` slot `"userSession"`, which holds the
 * JSON text of the current session (its round trip through JSON is taken as
 * the identity), and the log of every request the tab has issued.
 */
module Browser {

  import opened Wrappers
  import opened Js
  import opened Http

  /** URL-safe unpadded base64 encodings of a key pair. */
  datatype Keys = Keys(pub: string, priv: string)

  /** The record stored under `"userSession"`: `{alias, token, keys: {pub, priv}}`. */
  datatype Session = Session(alias: string, token: Value, keys: Keys)

  class Tab {
    /** `sessionStorage.getItem("userSession")`, parsed. */
    var userSession: Option<Session>
    /** Every request issued through `fetch`, oldest first. */
    ghost var requests: seq<Request>

    constructor ()
      ensures userSession == None && requests == []
    {
      userSession := None;
      requests := [];
    }
  }

  /** `sessionData ? sessionData.token : null`: the bearer token read from the slot. */
  function SlotToken(slot: Option<Session>): (t: Value)
    ensures slot.None? ==> t == Null
    ensures slot.Some? ==> t == slot.value.token
  {
    match slot
    case None => Null
    case Some(s) => s.token
  }
}
