/**
 * The Redis server behind the go-redis client, as far as the hash commands
 * HGET, HSET and EXPIRE see it. Network trouble is an input: the set of
 * commands that currently fail. Expiry is recorded, not simulated.
 */
module Redis {
  import opened Wrappers

  datatype Command = HGetCommand | HSetCommand | ExpireCommand

  /** A command that got no reply (connection refused, timeout, ...); never `redis.Nil`. */
  datatype CacheError = CommandFailed(command: Command)

  /** What `HGet(..).Result()` gives: a value, `redis.Nil`, or another error. */
  datatype HGetReply = Hit(payload: string) | Nil | Failed(error: CacheError)

  /** Hash keys with their fields, the TTL in seconds last set on each key, and the failing commands. */
  datatype ServerState = ServerState(
    hashes: map<string, map<string, string>>,
    ttls: map<string, nat>,
    failing: set<Command>)

  /** The fields of hash `key`; a missing key reads as an empty hash. */
  function FieldsOf(hashes: map<string, map<string, string>>, key: string): map<string, string>
  {
    if key in hashes then hashes[key] else map[]
  }

  /** HGET key field */
  function HGetReplyOf(st: ServerState, key: string, field: string): (r: HGetReply)
    ensures HGetCommand in st.failing <==> r.Failed?
    ensures r.Hit? <==> HGetCommand !in st.failing && field in FieldsOf(st.hashes, key)
    ensures r.Hit? ==> r.payload == FieldsOf(st.hashes, key)[field]
  {
    if HGetCommand in st.failing then Failed(CommandFailed(HGetCommand))
    else if key in st.hashes && field in st.hashes[key] then Hit(st.hashes[key][field])
    else Nil
  }

  /** HSET key field value: sets one field and leaves every other field, key and TTL alone. */
  function AfterHSet(st: ServerState, key: string, field: string, value: string): (r: (ServerState, Option<CacheError>))
    ensures r.1.Some? <==> HSetCommand in st.failing
    ensures r.0.ttls == st.ttls && r.0.failing == st.failing
    ensures r.1.Some? ==> r.0 == st
    ensures r.1.None? ==> key in r.0.hashes && FieldsOf(r.0.hashes, key) == FieldsOf(st.hashes, key)[field := value]
    ensures forall k :: k != key ==> FieldsOf(r.0.hashes, k) == FieldsOf(st.hashes, k)
    ensures forall f :: f in FieldsOf(st.hashes, key) && f != field ==>
      f in FieldsOf(r.0.hashes, key) && FieldsOf(r.0.hashes, key)[f] == FieldsOf(st.hashes, key)[f]
  {
    if HSetCommand in st.failing then (st, Some(CommandFailed(HSetCommand)))
    else (st.(hashes := st.hashes[key := FieldsOf(st.hashes, key)[field := value]]), None)
  }

  /** EXPIRE key seconds: sets the TTL of an existing key; on a missing key it does nothing and is no error. */
  function AfterExpire(st: ServerState, key: string, seconds: nat): (r: (ServerState, Option<CacheError>))
    ensures r.1.Some? <==> ExpireCommand in st.failing
    ensures r.0.hashes == st.hashes && r.0.failing == st.failing
    ensures r.1.None? && key in st.hashes ==> r.0.ttls == st.ttls[key := seconds]
    ensures r.1.Some? || key !in st.hashes ==> r.0.ttls == st.ttls
    ensures forall k :: k != key ==> (k in r.0.ttls <==> k in st.ttls)
    ensures forall k :: k != key && k in st.ttls ==> r.0.ttls[k] == st.ttls[k]
  {
    if ExpireCommand in st.failing then (st, Some(CommandFailed(ExpireCommand)))
    else if key in st.hashes then (st.(ttls := st.ttls[key := seconds]), None)
    else (st, None)
  }

  /** A field written by a successful HSET reads back unchanged. */
  lemma HSetThenHGet(st: ServerState, key: string, field: string, value: string)
    requires HSetCommand !in st.failing && HGetCommand !in st.failing
    ensures HGetReplyOf(AfterHSet(st, key, field, value).0, key, field) == Hit(value)
  {
  }

  /** The client handle (`*redis.Client`) and the server state it talks to. */
  class Client {
    var hashes: map<string, map<string, string>>
    var ttls: map<string, nat>
    var failing: set<Command>

    function State(): ServerState
      reads this
    {
      ServerState(hashes, ttls, failing)
    }

    constructor (st: ServerState)
      ensures State() == st
    {
      hashes, ttls, failing := st.hashes, st.ttls, st.failing;
    }

    method HGet(key: string, field: string) returns (r: HGetReply)
      ensures r == HGetReplyOf(State(), key, field)
    {
      if HGetCommand in failing {
        r := Failed(CommandFailed(HGetCommand));
      } else if key in hashes && field in hashes[key] {
        r := Hit(hashes[key][field]);
      } else {
        r := Nil;
      }
    }

    method HSet(key: string, field: string, value: string) returns (err: Option<CacheError>)
      modifies this`hashes
      ensures (State(), err) == AfterHSet(old(State()), key, field, value)
    {
      if HSetCommand in failing {
        err := Some(CommandFailed(HSetCommand));
      } else {
        hashes := hashes[key := FieldsOf(hashes, key)[field := value]];
        err := None;
      }
    }

    method Expire(key: string, seconds: nat) returns (err: Option<CacheError>)
      modifies this`ttls
      ensures (State(), err) == AfterExpire(old(State()), key, seconds)
    {
      if ExpireCommand in failing {
        err := Some(CommandFailed(ExpireCommand));
      } else {
        if key in hashes {
          ttls := ttls[key := seconds];
        }
        err := None;
      }
    }
  }
}
