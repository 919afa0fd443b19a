/**
 * Reading a "host:port" address the way a client splits it: the port is
 * what follows the last colon. The connect-address builders of vault.go,
 * consul.go and config.go are checked against this reading.
 */
module Address {
  import opened Wrappers

  /** The index of the last ':' in `s`, if any. */
  function LastColon(s: string): (r: Option<nat>)
    ensures r.Some? ==> r.value < |s| && s[r.value] == ':' && ':' !in s[r.value + 1..]
    ensures r.None? ==> ':' !in s
  {
    if s == [] then None
    else if s[|s| - 1] == ':' then Some(|s| - 1)
    else
      var r := LastColon(s[..|s| - 1]);
      assert s == s[..|s| - 1] + [s[|s| - 1]];
      r
  }

  /** The text before the last colon (all of `addr` when there is none). */
  function HostOf(addr: string): string
  {
    match LastColon(addr)
    case None => addr
    case Some(i) => addr[..i]
  }

  /** The text after the last colon ("" when there is none). */
  function PortOf(addr: string): string
  {
    match LastColon(addr)
    case None => ""
    case Some(i) => addr[i + 1..]
  }

  /** A colon with none after it is the last colon. */
  lemma LastColonAt(s: string, i: nat)
    requires i < |s| && s[i] == ':' && ':' !in s[i + 1..]
    ensures LastColon(s) == Some(i)
  {
  }

  /**
   * When `s` holds a colon, text put in front of it changes neither its
   * port part nor the tail of its host part.
   */
  lemma SplitAfterPrefix(prefix: string, s: string)
    requires ':' in s
    ensures PortOf(prefix + s) == PortOf(s)
    ensures HostOf(prefix + s) == prefix + HostOf(s)
  {
    var j := LastColon(s).value;
    var t := prefix + s;
    assert t[|prefix| + j] == ':';
    assert t[|prefix| + j + 1..] == s[j + 1..];
    LastColonAt(t, |prefix| + j);
    assert t[..|prefix| + j] == prefix + s[..j];
  }

  /** Joining a host and a colon-free port with ':' splits back into the two. */
  lemma SplitJoined(host: string, port: string)
    requires ':' !in port
    ensures HostOf(host + ":" + port) == host
    ensures PortOf(host + ":" + port) == port
  {
    var addr := host + ":" + port;
    var i := LastColon(addr);
    assert addr[|host|] == ':';
    assert addr[|host| + 1..] == port;
    assert i.Some? && i.value == |host|;
    assert addr[..|host|] == host;
  }
}
