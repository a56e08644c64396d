/**
  What the collector receives from the solar monitoring appliance: parsed JSON
  values, JSON objects looked up by key, and the decision each HTTP client makes
  between "data" and "no data" from the response it got.
 */
module Appliance {

  datatype Option<T> = None | Some(value: T)

  /** A scalar JSON value as Python's json module decodes it. */
  datatype Json = Null | Bool(b: bool) | Int(i: int) | Float(x: real) | Str(s: string)

  /** A JSON object: one inverter panel, or one production (CT) reading. */
  type Record = map<string, Json>

  /** The production endpoint's JSON object, as its entries in dict iteration order. */
  type CtBody = seq<(string, seq<Record>)>

  /** Every key of `keys` is present in `r`. */
  predicate HasKeys(r: Record, keys: seq<string>)
  {
    forall i :: 0 <= i < |keys| ==> keys[i] in r
  }

  /**
    The key a sequence of lookups `r[keys[0]]`, `r[keys[1]]`, ... fails on first,
    that is, the key of the KeyError Python raises, if any.
   */
  function FirstMissing(r: Record, keys: seq<string>): (m: Option<string>)
    ensures m.None? <==> HasKeys(r, keys)
    ensures m.Some? ==>
      exists i :: 0 <= i < |keys| && keys[i] == m.value && m.value !in r && HasKeys(r, keys[..i])
  {
    if keys == [] then None
    else if keys[0] !in r then
      assert HasKeys(r, keys[..0]);
      Some(keys[0])
    else
      var m := FirstMissing(r, keys[1..]);
      assert m.None? ==> HasKeys(r, keys) by {
        if m.None? {
          forall i | 0 <= i < |keys| ensures keys[i] in r {
            if i > 0 { assert keys[i] == keys[1..][i - 1]; }
          }
        }
      }
      assert m.Some? ==> exists i :: 0 <= i < |keys| && keys[i] == m.value && m.value !in r && HasKeys(r, keys[..i]) by {
        if m.Some? {
          var j :| 0 <= j < |keys| - 1 && keys[1..][j] == m.value && m.value !in r && HasKeys(r, keys[1..][..j]);
          assert keys[..j + 1] == [keys[0]] + keys[1..][..j];
          assert HasKeys(r, keys[..j + 1]);
        }
      }
      m
  }

  /** What `requests.get` produced: it raised, or a response came back. */
  datatype HttpReply<B> = Unreachable | Reply(status: int, body: B)

  /** Why a client handed `None` back to the main loop. */
  datatype Failure = RequestRaised | BadPassword | UnexpectedStatus(status: int)

  /** A client's result: the parsed body, or `None` for the reason logged. */
  datatype Fetch<B> = Got(body: B) | Failed(reason: Failure)

  /** The status decision of the production (CT) client: data only on 200. */
  function Ct<B>(reply: HttpReply<B>): (f: Fetch<B>)
    ensures f.Got? <==> reply.Reply? && reply.status == 200
    ensures f.Got? ==> f.body == reply.body
    ensures reply.Unreachable? ==> f == Failed(RequestRaised)
    ensures reply.Reply? && reply.status != 200 ==> f == Failed(UnexpectedStatus(reply.status))
  {
    match reply
    case Unreachable => Failed(RequestRaised)
    case Reply(status, body) =>
      if status != 200 then Failed(UnexpectedStatus(status)) else Got(body)
  }

  /**
    The status decision of the per-panel inverter client: data only on 200;
    401 is reported as a wrong password, every other status as unexpected.
   */
  function Inverters<B>(reply: HttpReply<B>): (f: Fetch<B>)
    ensures f.Got? <==> reply.Reply? && reply.status == 200
    ensures f.Got? ==> f.body == reply.body
    ensures reply.Unreachable? ==> f == Failed(RequestRaised)
    ensures reply.Reply? && reply.status == 401 ==> f == Failed(BadPassword)
    ensures reply.Reply? && reply.status != 200 && reply.status != 401 ==>
      f == Failed(UnexpectedStatus(reply.status))
  {
    match reply
    case Unreachable => Failed(RequestRaised)
    case Reply(status, body) =>
      if status == 401 then Failed(BadPassword)
      else if status != 200 then Failed(UnexpectedStatus(status))
      else Got(body)
  }

  /**
    The two clients hand the main loop the same data for every reply; they differ
    only in the reason they log for a 401.
   */
  lemma InvertersDiffersFromCtOnlyOn401<B>(reply: HttpReply<B>)
    ensures Inverters(reply).Got? <==> Ct(reply).Got?
    ensures Inverters(reply).Got? ==> Inverters(reply).body == Ct(reply).body
    ensures Inverters(reply) != Ct(reply) <==> reply.Reply? && reply.status == 401
  {
  }
}
