/**
 * The cache payload format: the JSON text that Go's `json.Marshal` writes for
 * a `PackageDetails` (keys from the struct tags of modal.go, in declaration
 * order, no whitespace, HTML-safe string escaping), and a decoder for that
 * text in the role of `json.Unmarshal`.
 *
 * Encoders are written in "append" form: `AppendX(x, tail)` is the encoding
 * of `x` followed by `tail`, so that `Encode(p) == AppendPackage(p, "")`.
 * Parsers return the decoded value together with the unread rest.
 */
module Json {
  import opened Wrappers
  import opened Modal

  // ---------------------------------------------------------------------------
  // Literals

  /** Strips `lit` from the front of `s`, if `s` starts with it. */
  function Expect(lit: string, s: string): (r: Option<string>)
    ensures r.Some? ==> |r.value| == |s| - |lit|
  {
    if |lit| <= |s| && s[..|lit|] == lit then Some(s[|lit|..]) else None
  }

  lemma ExpectLiteral(lit: string, rest: string)
    ensures Expect(lit, lit + rest) == Some(rest)
  {
    assert (lit + rest)[..|lit|] == lit;
    assert (lit + rest)[|lit|..] == rest;
  }

  // ---------------------------------------------------------------------------
  // Hexadecimal digits of \uXXXX escapes (Go writes lower case)

  function HexDigit(d: nat): char
    requires d < 16
  {
    if d < 10 then ('0' as int + d) as char else ('a' as int + d - 10) as char
  }

  function HexValue(c: char): Option<nat>
  {
    if '0' <= c <= '9' then Some(c as int - '0' as int)
    else if 'a' <= c <= 'f' then Some(c as int - 'a' as int + 10)
    else if 'A' <= c <= 'F' then Some(c as int - 'A' as int + 10)
    else None
  }

  function Hex2(b: nat): string
    requires b < 0x100
  {
    [HexDigit(b / 0x10), HexDigit(b % 0x10)]
  }

  /** The four hex digits of a code unit below 0x10000. */
  function Hex4(v: nat): string
    requires v < 0x10000
  {
    Hex2(v / 0x100) + Hex2(v % 0x100)
  }

  /** Reads four hex digits from the front of `s`. */
  function ParseHex4(s: string): (r: Option<nat>)
    ensures r.Some? ==> |s| >= 4 && r.value < 0x10000
  {
    if |s| < 4 then None
    else
      var a :- HexValue(s[0]);
      var b :- HexValue(s[1]);
      var c :- HexValue(s[2]);
      var d :- HexValue(s[3]);
      if a < 16 && b < 16 && c < 16 && d < 16 then Some(((a * 0x10 + b) * 0x10 + c) * 0x10 + d) else None
  }

  lemma Hex4RoundTrip(v: nat, rest: string)
    requires v < 0x10000
    ensures ParseHex4(Hex4(v) + rest) == Some(v)
  {
    var s := Hex4(v) + rest;
    var hi, lo := v / 0x100, v % 0x100;
    assert s[0] == HexDigit(hi / 0x10) && s[1] == HexDigit(hi % 0x10);
    assert s[2] == HexDigit(lo / 0x10) && s[3] == HexDigit(lo % 0x10);
    assert ((hi / 0x10 * 0x10 + hi % 0x10) * 0x10 + lo / 0x10) * 0x10 + lo % 0x10 == v;
  }

  // ---------------------------------------------------------------------------
  // Strings

  /** Characters Go writes as \u00XX or \u202X in HTML-safe mode. */
  predicate NeedsUnicodeEscape(c: char)
  {
    c < ' ' || c == '<' || c == '>' || c == '&' || c == '\U{2028}' || c == '\U{2029}'
  }

  /** How Go's encoder writes one character inside a string literal. */
  function Escape(c: char): string
  {
    if c == '"' then "\\\""
    else if c == '\\' then "\\\\"
    else if c == '\U{8}' then "\\b"
    else if c == '\U{C}' then "\\f"
    else if c == '\n' then "\\n"
    else if c == '\r' then "\\r"
    else if c == '\t' then "\\t"
    else if NeedsUnicodeEscape(c) then "\\u" + Hex4(c as int)
    else [c]
  }

  /** The escaped characters of `s`, then `tail`. */
  function AppendEscaped(s: string, tail: string): string
  {
    if s == [] then tail else Escape(s[0]) + AppendEscaped(s[1..], tail)
  }

  /** The string literal of `s`, then `tail`. */
  function AppendString(s: string, tail: string): string
  {
    "\"" + AppendEscaped(s, "\"" + tail)
  }

  /** Decodes one escape sequence; `s` starts just after the backslash. */
  function Unescape(s: string): (r: Option<(char, string)>)
    ensures r.Some? ==> |r.value.1| < |s|
  {
    if |s| == 0 then None
    else if s[0] == '"' then Some(('"', s[1..]))
    else if s[0] == '\\' then Some(('\\', s[1..]))
    else if s[0] == '/' then Some(('/', s[1..]))
    else if s[0] == 'b' then Some(('\U{8}', s[1..]))
    else if s[0] == 'f' then Some(('\U{C}', s[1..]))
    else if s[0] == 'n' then Some(('\n', s[1..]))
    else if s[0] == 'r' then Some(('\r', s[1..]))
    else if s[0] == 't' then Some(('\t', s[1..]))
    else if s[0] == 'u' then
      var v :- ParseHex4(s[1..]);
      if 0xD800 <= v < 0xE000 then None else Some((v as char, s[5..]))
    else None
  }

  /** Puts `c` in front of the string a successful parse produced. */
  function Prepend(c: char, r: Option<(string, string)>): (r': Option<(string, string)>)
    ensures r'.Some? <==> r.Some?
    ensures r'.Some? ==> r'.value == ([c] + r.value.0, r.value.1)
  {
    match r
    case None => None
    case Some(p) => Some(([c] + p.0, p.1))
  }

  /** What the front of a string literal's body holds: its closing quote, one character, or an error. */
  datatype Lexeme = Closed(rest: string) | Char(c: char, rest: string) | Malformed

  /** Reads the closing quote or one character, decoding an escape sequence. */
  function NextInString(s: string): (r: Lexeme)
    ensures !r.Malformed? ==> |r.rest| < |s|
  {
    if |s| == 0 then Malformed
    else if s[0] == '"' then Closed(s[1..])
    else if s[0] == '\\' then
      match Unescape(s[1..])
      case None => Malformed
      case Some(p) => Char(p.0, p.1)
    else if s[0] < ' ' then Malformed
    else Char(s[0], s[1..])
  }

  /** The characters of a string literal up to its closing quote; `s` starts after the opening quote. */
  function ParseStringBody(s: string): (r: Option<(string, string)>)
    ensures r.Some? ==> |r.value.1| < |s|
    decreases |s|
  {
    match NextInString(s)
    case Malformed => None
    case Closed(rest) => Some(([], rest))
    case Char(c, rest) => Prepend(c, ParseStringBody(rest))
  }

  function ParseString(s: string): (r: Option<(string, string)>)
    ensures r.Some? ==> |r.value.1| < |s|
  {
    if |s| > 0 && s[0] == '"' then ParseStringBody(s[1..]) else None
  }

  /** A character written as itself. */
  lemma PlainRoundTrip(c: char, t: string)
    requires Escape(c) == [c]
    ensures ParseStringBody(Escape(c) + t) == Prepend(c, ParseStringBody(t))
  {
    var s := [c] + t;
    assert s[0] == c && s[1..] == t;
    assert NextInString(s) == Char(c, t);
  }

  /** A character written as a backslash and one letter. */
  lemma ShortEscapeRoundTrip(c: char, t: string)
    requires c == '"' || c == '\\' || c == '\U{8}' || c == '\U{C}' || c == '\n' || c == '\r' || c == '\t'
    ensures ParseStringBody(Escape(c) + t) == Prepend(c, ParseStringBody(t))
  {
    var esc := Escape(c);
    assert |esc| == 2 && esc[0] == '\\';
    assert (esc[1..] + t)[1..] == t;
    EscapedStep(esc, t, c);
  }

  /** The escape `\u` and four hex digits decodes to the character they number. */
  lemma UnescapeUnicode(c: char, t: string)
    requires c as int < 0x10000
    ensures Unescape("u" + (Hex4(c as int) + t)) == Some((c, t))
  {
    var u := "u" + (Hex4(c as int) + t);
    assert u[0] == 'u' && u[1..] == Hex4(c as int) + t;
    Hex4RoundTrip(c as int, t);
    assert u[1..][4..] == t;
  }

  /** Decoding a backslash escape, then the rest of the literal. */
  lemma EscapedStep(esc: string, t: string, c: char)
    requires |esc| >= 2 && esc[0] == '\\' && Unescape(esc[1..] + t) == Some((c, t))
    ensures ParseStringBody(esc + t) == Prepend(c, ParseStringBody(t))
  {
    var s := esc + t;
    assert s[0] == '\\' && s[1..] == esc[1..] + t;
    assert NextInString(s) == Char(c, t);
  }

  /** A character written as `\u` and four hex digits. */
  lemma UnicodeEscapeRoundTrip(c: char, t: string)
    requires c as int < 0x10000
    ensures ParseStringBody("\\u" + Hex4(c as int) + t) == Prepend(c, ParseStringBody(t))
  {
    var esc := "\\u" + Hex4(c as int);
    assert esc[1..] + t == "u" + (Hex4(c as int) + t);
    UnescapeUnicode(c, t);
    EscapedStep(esc, t, c);
  }

  /** Decoding the escape Go writes for `c` gives back `c`. */
  lemma EscapeRoundTrip(c: char, t: string)
    ensures ParseStringBody(Escape(c) + t) == Prepend(c, ParseStringBody(t))
  {
    if c == '"' || c == '\\' || c == '\U{8}' || c == '\U{C}' || c == '\n' || c == '\r' || c == '\t' {
      ShortEscapeRoundTrip(c, t);
    } else if NeedsUnicodeEscape(c) {
      assert Escape(c) == "\\u" + Hex4(c as int);
      UnicodeEscapeRoundTrip(c, t);
    } else {
      PlainRoundTrip(c, t);
    }
  }

  lemma {:induction false} StringBodyRoundTrip(s: string, rest: string)
    ensures ParseStringBody(AppendEscaped(s, "\"" + rest)) == Some((s, rest))
  {
    if s == [] {
      assert ("\"" + rest)[1..] == rest;
    } else {
      StringBodyRoundTrip(s[1..], rest);
      EscapeRoundTrip(s[0], AppendEscaped(s[1..], "\"" + rest));
      HeadTail(s);
    }
  }

  /** Every string survives encoding and decoding, whatever follows it. */
  lemma StringRoundTrip(s: string, rest: string)
    ensures ParseString(AppendString(s, rest)) == Some((s, rest))
  {
    StringBodyRoundTrip(s, rest);
    assert AppendString(s, rest)[1..] == AppendEscaped(s, "\"" + rest);
  }

  // ---------------------------------------------------------------------------
  // Integers

  predicate IsDigit(c: char) { '0' <= c <= '9' }

  function DigitChar(d: nat): char
    requires d < 10
  {
    ('0' as int + d) as char
  }

  /** The decimal digits of `n`, most significant first, without leading zeros. */
  function NatDigits(n: nat): string
    decreases n
  {
    if n < 10 then [DigitChar(n)] else NatDigits(n / 10) + [DigitChar(n % 10)]
  }

  /** How `strconv.AppendInt(.., 10)` writes an integer, then `tail`. */
  function AppendInt(i: int, tail: string): string
  {
    if i < 0 then "-" + (NatDigits(-i) + tail) else NatDigits(i) + tail
  }

  /** The number of leading decimal digits of `s`. */
  function DigitRun(s: string): (n: nat)
    ensures n <= |s|
    ensures forall k :: 0 <= k < n ==> IsDigit(s[k])
    ensures n < |s| ==> !IsDigit(s[n])
  {
    if |s| > 0 && IsDigit(s[0]) then 1 + DigitRun(s[1..]) else 0
  }

  /** The value of a string of decimal digits. */
  function DigitsValue(ds: string): nat
    requires forall k :: 0 <= k < |ds| ==> IsDigit(ds[k])
  {
    if ds == [] then 0
    else
      var last := ds[|ds| - 1];
      assert IsDigit(last);
      DigitsValue(ds[..|ds| - 1]) * 10 + (last as int - '0' as int)
  }

  /**
   * A JSON number read into a Go `int`: optional minus sign, no leading zero,
   * and a value that fits 64 bits. A fraction or exponent is left unread, so
   * the enclosing object rejects it.
   */
  function ParseInt(s: string): (r: Option<(Int64, string)>)
    ensures r.Some? ==> |r.value.1| < |s|
  {
    var neg := |s| > 0 && s[0] == '-';
    var t := if neg then s[1..] else s;
    var n := DigitRun(t);
    if n == 0 || (n > 1 && t[0] == '0') then None
    else
      var v := DigitsValue(t[..n]);
      var x: int := if neg then -(v as int) else v;
      if MinInt64 <= x <= MaxInt64 then Some((x, t[n..])) else None
  }

  lemma {:induction false} NatDigitsShape(n: nat)
    ensures |NatDigits(n)| > 0
    ensures forall k :: 0 <= k < |NatDigits(n)| ==> IsDigit(NatDigits(n)[k])
    ensures |NatDigits(n)| > 1 ==> NatDigits(n)[0] != '0'
    ensures DigitsValue(NatDigits(n)) == n
    decreases n
  {
    if n >= 10 {
      NatDigitsShape(n / 10);
      var ds := NatDigits(n);
      assert ds[..|ds| - 1] == NatDigits(n / 10);
      assert NatDigits(n / 10)[0] != '0' by {
        if |NatDigits(n / 10)| == 1 {
          assert n / 10 < 10;
        }
      }
    }
  }

  lemma {:induction false} DigitRunOf(ds: string, rest: string)
    requires forall k :: 0 <= k < |ds| ==> IsDigit(ds[k])
    requires rest == [] || !IsDigit(rest[0])
    ensures DigitRun(ds + rest) == |ds|
  {
    if ds != [] {
      assert (ds + rest)[1..] == ds[1..] + rest;
      DigitRunOf(ds[1..], rest);
    }
  }

  /** The digits of `m` followed by a non-digit read back as `m` and what follows. */
  lemma DigitsRoundTrip(m: nat, rest: string)
    requires rest == [] || !IsDigit(rest[0])
    ensures var ds := NatDigits(m); var t := ds + rest;
      && |ds| > 0 && IsDigit(t[0]) && DigitRun(t) == |ds|
      && (|ds| > 1 ==> t[0] != '0')
      && t[..|ds|] == ds && DigitsValue(ds) == m && t[|ds|..] == rest
  {
    var ds := NatDigits(m);
    NatDigitsShape(m);
    DigitRunOf(ds, rest);
    var t := ds + rest;
    assert t[0] == ds[0];
    assert t[..|ds|] == ds && t[|ds|..] == rest;
  }

  /** Every Go `int` survives encoding and decoding when no digit follows it. */
  lemma IntRoundTrip(i: Int64, rest: string)
    requires rest == [] || !IsDigit(rest[0])
    ensures ParseInt(AppendInt(i, rest)) == Some((i, rest))
  {
    var m: nat := if i < 0 then -(i as int) else i;
    DigitsRoundTrip(m, rest);
    var t := NatDigits(m) + rest;
    if i < 0 {
      var s := "-" + t;
      assert AppendInt(i, rest) == s && s[0] == '-' && s[1..] == t;
    } else {
      assert AppendInt(i, rest) == t && t[0] != '-';
    }
  }

  // ---------------------------------------------------------------------------
  // The four record types, field by field in struct order

  function AppendLocation(l: LocationInfo, tail: string): string
  {
    "{\"location_id\":" + AppendInt(l.locationId,
    ",\"title\":" + AppendString(l.title,
    ",\"city\":" + AppendString(l.city,
    ",\"address\":" + AppendString(l.address,
    "}" + tail))))
  }

  function ParseLocation(s: string): (r: Option<(LocationInfo, string)>)
    ensures r.Some? ==> |r.value.1| < |s|
  {
    var s :- Expect("{\"location_id\":", s);
    var id :- ParseInt(s);
    var s :- Expect(",\"title\":", id.1);
    var title :- ParseString(s);
    var s :- Expect(",\"city\":", title.1);
    var city :- ParseString(s);
    var s :- Expect(",\"address\":", city.1);
    var address :- ParseString(s);
    var s :- Expect("}", address.1);
    Some((LocationInfo(id.0, title.0, city.0, address.0), s))
  }

  lemma LocationRoundTrip(l: LocationInfo, rest: string)
    ensures ParseLocation(AppendLocation(l, rest)) == Some((l, rest))
  {
    var t4 := "}" + rest;
    var t3 := ",\"address\":" + AppendString(l.address, t4);
    var t2 := ",\"city\":" + AppendString(l.city, t3);
    var t1 := ",\"title\":" + AppendString(l.title, t2);
    ExpectLiteral("{\"location_id\":", AppendInt(l.locationId, t1));
    IntRoundTrip(l.locationId, t1);
    ExpectLiteral(",\"title\":", AppendString(l.title, t2));
    StringRoundTrip(l.title, t2);
    ExpectLiteral(",\"city\":", AppendString(l.city, t3));
    StringRoundTrip(l.city, t3);
    ExpectLiteral(",\"address\":", AppendString(l.address, t4));
    StringRoundTrip(l.address, t4);
    ExpectLiteral("}", rest);
  }

  function AppendRecipient(r: RecipientInfo, tail: string): string
  {
    "{\"id\":" + AppendInt(r.id,
    ",\"name\":" + AppendString(r.name,
    ",\"address\":" + AppendString(r.address,
    ",\"phone\":" + AppendString(r.phone,
    "}" + tail))))
  }

  function ParseRecipient(s: string): (r: Option<(RecipientInfo, string)>)
    ensures r.Some? ==> |r.value.1| < |s|
  {
    var s :- Expect("{\"id\":", s);
    var id :- ParseInt(s);
    var s :- Expect(",\"name\":", id.1);
    var name :- ParseString(s);
    var s :- Expect(",\"address\":", name.1);
    var address :- ParseString(s);
    var s :- Expect(",\"phone\":", address.1);
    var phone :- ParseString(s);
    var s :- Expect("}", phone.1);
    Some((RecipientInfo(id.0, name.0, address.0, phone.0), s))
  }

  lemma RecipientRoundTrip(r: RecipientInfo, rest: string)
    ensures ParseRecipient(AppendRecipient(r, rest)) == Some((r, rest))
  {
    var t4 := "}" + rest;
    var t3 := ",\"phone\":" + AppendString(r.phone, t4);
    var t2 := ",\"address\":" + AppendString(r.address, t3);
    var t1 := ",\"name\":" + AppendString(r.name, t2);
    ExpectLiteral("{\"id\":", AppendInt(r.id, t1));
    IntRoundTrip(r.id, t1);
    ExpectLiteral(",\"name\":", AppendString(r.name, t2));
    StringRoundTrip(r.name, t2);
    ExpectLiteral(",\"address\":", AppendString(r.address, t3));
    StringRoundTrip(r.address, t3);
    ExpectLiteral(",\"phone\":", AppendString(r.phone, t4));
    StringRoundTrip(r.phone, t4);
    ExpectLiteral("}", rest);
  }

  function AppendDetail(d: TrackingDetail, tail: string): string
  {
    "{\"id\":" + AppendInt(d.id,
    ",\"date\":" + AppendString(d.date,
    ",\"time\":" + AppendString(d.time,
    ",\"status\":" + AppendString(d.status,
    ",\"location_id\":" + AppendInt(d.locationId,
    ",\"location_title\":" + AppendString(d.locationTitle,
    "}" + tail))))))
  }

  function ParseDetail(s: string): (r: Option<(TrackingDetail, string)>)
    ensures r.Some? ==> |r.value.1| < |s|
  {
    var s :- Expect("{\"id\":", s);
    var id :- ParseInt(s);
    var s :- Expect(",\"date\":", id.1);
    var date :- ParseString(s);
    var s :- Expect(",\"time\":", date.1);
    var time :- ParseString(s);
    var s :- Expect(",\"status\":", time.1);
    var status :- ParseString(s);
    var s :- Expect(",\"location_id\":", status.1);
    var locationId :- ParseInt(s);
    var s :- Expect(",\"location_title\":", locationId.1);
    var locationTitle :- ParseString(s);
    var s :- Expect("}", locationTitle.1);
    Some((TrackingDetail(id.0, date.0, time.0, status.0, locationId.0, locationTitle.0), s))
  }

  lemma DetailRoundTrip(d: TrackingDetail, rest: string)
    ensures ParseDetail(AppendDetail(d, rest)) == Some((d, rest))
  {
    var t6 := "}" + rest;
    var t5 := ",\"location_title\":" + AppendString(d.locationTitle, t6);
    var t4 := ",\"location_id\":" + AppendInt(d.locationId, t5);
    var t3 := ",\"status\":" + AppendString(d.status, t4);
    var t2 := ",\"time\":" + AppendString(d.time, t3);
    var t1 := ",\"date\":" + AppendString(d.date, t2);
    ExpectLiteral("{\"id\":", AppendInt(d.id, t1));
    IntRoundTrip(d.id, t1);
    ExpectLiteral(",\"date\":", AppendString(d.date, t2));
    StringRoundTrip(d.date, t2);
    ExpectLiteral(",\"time\":", AppendString(d.time, t3));
    StringRoundTrip(d.time, t3);
    ExpectLiteral(",\"status\":", AppendString(d.status, t4));
    StringRoundTrip(d.status, t4);
    ExpectLiteral(",\"location_id\":", AppendInt(d.locationId, t5));
    IntRoundTrip(d.locationId, t5);
    ExpectLiteral(",\"location_title\":", AppendString(d.locationTitle, t6));
    StringRoundTrip(d.locationTitle, t6);
    ExpectLiteral("}", rest);
  }

  // ---------------------------------------------------------------------------
  // The event list: Go writes a nil slice as `null`, a non-empty one as `[..]`

  function AppendDetailItems(ds: seq<TrackingDetail>, tail: string): string
    requires ds != []
  {
    AppendDetail(ds[0], if |ds| == 1 then tail else "," + AppendDetailItems(ds[1..], tail))
  }

  function AppendDetails(ds: seq<TrackingDetail>, tail: string): string
  {
    if ds == [] then "null" + tail else "[" + AppendDetailItems(ds, "]" + tail)
  }

  /** The elements of a non-empty array up to and including its `]`. */
  function ParseDetailItems(s: string): (r: Option<(seq<TrackingDetail>, string)>)
    ensures r.Some? ==> |r.value.1| < |s|
    decreases |s|
  {
    var d :- ParseDetail(s);
    if |d.1| > 0 && d.1[0] == ',' then
      var more :- ParseDetailItems(d.1[1..]);
      Some(([d.0] + more.0, more.1))
    else if |d.1| > 0 && d.1[0] == ']' then
      Some(([d.0], d.1[1..]))
    else
      None
  }

  /** `null`, `[]` and `[d, ...]` all decode to a Go slice; the first two to an empty one. */
  function ParseDetails(s: string): (r: Option<(seq<TrackingDetail>, string)>)
    ensures r.Some? ==> |r.value.1| < |s|
  {
    if |s| >= 4 && s[..4] == "null" then Some(([], s[4..]))
    else if |s| >= 2 && s[..2] == "[]" then Some(([], s[2..]))
    else if |s| > 0 && s[0] == '[' then ParseDetailItems(s[1..])
    else None
  }

  /** The last element of an array, then its closing bracket. */
  lemma LastDetailRoundTrip(d: TrackingDetail, rest: string)
    ensures ParseDetailItems(AppendDetail(d, "]" + rest)) == Some(([d], rest))
  {
    var t := "]" + rest;
    DetailRoundTrip(d, t);
    assert t[0] == ']' && t[1..] == rest;
  }

  /** An element followed by a comma and the rest of the array. */
  lemma NextDetailRoundTrip(d: TrackingDetail, items: string, more: seq<TrackingDetail>, rest: string)
    requires ParseDetailItems(items) == Some((more, rest))
    ensures ParseDetailItems(AppendDetail(d, "," + items)) == Some(([d] + more, rest))
  {
    var t := "," + items;
    DetailRoundTrip(d, t);
    assert t[0] == ',' && t[1..] == items;
  }

  /** A one-element array. */
  lemma OneDetailRoundTrip(ds: seq<TrackingDetail>, rest: string)
    requires |ds| == 1
    ensures ParseDetailItems(AppendDetailItems(ds, "]" + rest)) == Some((ds, rest))
  {
    LastDetailRoundTrip(ds[0], rest);
    assert [ds[0]] == ds;
  }

  /** A longer array, given that its tail round-trips. */
  lemma MoreDetailsRoundTrip(ds: seq<TrackingDetail>, rest: string)
    requires |ds| > 1
    requires ParseDetailItems(AppendDetailItems(ds[1..], "]" + rest)) == Some((ds[1..], rest))
    ensures ParseDetailItems(AppendDetailItems(ds, "]" + rest)) == Some((ds, rest))
  {
    var items := AppendDetailItems(ds[1..], "]" + rest);
    NextDetailRoundTrip(ds[0], items, ds[1..], rest);
    ItemsUnfold(ds, "]" + rest);
    HeadTail(ds);
  }

  lemma HeadTail<T>(s: seq<T>)
    requires |s| > 0
    ensures [s[0]] + s[1..] == s
  {
  }

  lemma ItemsUnfold(ds: seq<TrackingDetail>, tail: string)
    requires |ds| > 1
    ensures AppendDetailItems(ds, tail) == AppendDetail(ds[0], "," + AppendDetailItems(ds[1..], tail))
  {
  }

  lemma {:induction false} DetailItemsRoundTrip(ds: seq<TrackingDetail>, rest: string)
    requires ds != []
    ensures ParseDetailItems(AppendDetailItems(ds, "]" + rest)) == Some((ds, rest))
  {
    if |ds| == 1 {
      OneDetailRoundTrip(ds, rest);
    } else {
      DetailItemsRoundTrip(ds[1..], rest);
      MoreDetailsRoundTrip(ds, rest);
    }
  }

  lemma DetailItemsStartWithBrace(ds: seq<TrackingDetail>, tail: string)
    requires ds != []
    ensures |AppendDetailItems(ds, tail)| > 0 && AppendDetailItems(ds, tail)[0] == '{'
  {
    var t := if |ds| == 1 then tail else "," + AppendDetailItems(ds[1..], tail);
    var rest := AppendInt(ds[0].id, ",\"date\":" + AppendString(ds[0].date, ",\"time\":" + AppendString(ds[0].time,
      ",\"status\":" + AppendString(ds[0].status, ",\"location_id\":" + AppendInt(ds[0].locationId,
      ",\"location_title\":" + AppendString(ds[0].locationTitle, "}" + t))))));
    assert AppendDetailItems(ds, tail) == "{\"id\":" + rest;
  }

  lemma NonEmptyArray(s: string)
    requires |s| > 1 && s[0] == '[' && s[1] == '{'
    ensures ParseDetails(s) == ParseDetailItems(s[1..])
  {
    assert |s| >= 4 ==> s[..4][1] != "null"[1];
    assert s[..2][1] != "[]"[1];
  }

  lemma DetailsRoundTrip(ds: seq<TrackingDetail>, rest: string)
    ensures ParseDetails(AppendDetails(ds, rest)) == Some((ds, rest))
  {
    if ds == [] {
      var s := "null" + rest;
      assert s[..4] == "null" && s[4..] == rest;
    } else {
      var items := AppendDetailItems(ds, "]" + rest);
      DetailItemsStartWithBrace(ds, "]" + rest);
      DetailItemsRoundTrip(ds, rest);
      var s := "[" + items;
      assert s[1..] == items;
      NonEmptyArray(s);
    }
  }

  // ---------------------------------------------------------------------------
  // The package record and the cache payload

  function AppendPackage(p: PackageDetails, tail: string): string
  {
    "{\"sno\":" + AppendString(p.sno,
    ",\"tracking_status\":" + AppendString(p.trackingStatus,
    ",\"estimated_delivery\":" + AppendString(p.estimatedDelivery,
    ",\"details\":" + AppendDetails(p.details,
    ",\"recipient\":" + AppendRecipient(p.recipient,
    ",\"current_location\":" + AppendLocation(p.currentLocation,
    "}" + tail))))))
  }

  function ParsePackage(s: string): (r: Option<(PackageDetails, string)>)
    ensures r.Some? ==> |r.value.1| < |s|
    ensures r.Some? ==> |s| >= 7 && s[..7] == "{\"sno\":"
  {
    var s :- Expect("{\"sno\":", s);
    var sno :- ParseString(s);
    var s :- Expect(",\"tracking_status\":", sno.1);
    var trackingStatus :- ParseString(s);
    var s :- Expect(",\"estimated_delivery\":", trackingStatus.1);
    var estimatedDelivery :- ParseString(s);
    var s :- Expect(",\"details\":", estimatedDelivery.1);
    var details :- ParseDetails(s);
    var s :- Expect(",\"recipient\":", details.1);
    var recipient :- ParseRecipient(s);
    var s :- Expect(",\"current_location\":", recipient.1);
    var currentLocation :- ParseLocation(s);
    var s :- Expect("}", currentLocation.1);
    Some((PackageDetails(sno.0, trackingStatus.0, estimatedDelivery.0, details.0, recipient.0, currentLocation.0), s))
  }

  /**
   * `json.Marshal` of a package record: a JSON object whose first key is
   * "sno", so one that `Decode` does not reject outright (the full round
   * trip is `DecodeEncode`).
   */
  function Encode(p: PackageDetails): (payload: string)
    ensures |payload| >= 7 && payload[..7] == "{\"sno\":"
  {
    AppendPackage(p, "")
  }

  /**
   * `json.Unmarshal` into a package record: None is a decoding error. Only
   * a JSON object whose first key is "sno" decodes.
   */
  function Decode(payload: string): (r: Option<PackageDetails>)
    ensures r.Some? ==> |payload| >= 7 && payload[..7] == "{\"sno\":"
  {
    var r :- ParsePackage(payload);
    if r.1 == [] then Some(r.0) else None
  }

  /** What the cache stores decodes back to the record that was stored. */
  lemma DecodeEncode(p: PackageDetails)
    ensures Decode(Encode(p)) == Some(p)
  {
    var t6 := "}" + "";
    var t5 := ",\"current_location\":" + AppendLocation(p.currentLocation, t6);
    var t4 := ",\"recipient\":" + AppendRecipient(p.recipient, t5);
    var t3 := ",\"details\":" + AppendDetails(p.details, t4);
    var t2 := ",\"estimated_delivery\":" + AppendString(p.estimatedDelivery, t3);
    var t1 := ",\"tracking_status\":" + AppendString(p.trackingStatus, t2);
    ExpectLiteral("{\"sno\":", AppendString(p.sno, t1));
    StringRoundTrip(p.sno, t1);
    ExpectLiteral(",\"tracking_status\":", AppendString(p.trackingStatus, t2));
    StringRoundTrip(p.trackingStatus, t2);
    ExpectLiteral(",\"estimated_delivery\":", AppendString(p.estimatedDelivery, t3));
    StringRoundTrip(p.estimatedDelivery, t3);
    ExpectLiteral(",\"details\":", AppendDetails(p.details, t4));
    DetailsRoundTrip(p.details, t4);
    ExpectLiteral(",\"recipient\":", AppendRecipient(p.recipient, t5));
    RecipientRoundTrip(p.recipient, t5);
    ExpectLiteral(",\"current_location\":", AppendLocation(p.currentLocation, t6));
    LocationRoundTrip(p.currentLocation, t6);
    ExpectLiteral("}", "");
  }

  /** Different records never share a payload: the encoding loses nothing. */
  lemma EncodeInjective(p: PackageDetails, q: PackageDetails)
    requires Encode(p) == Encode(q)
    ensures p == q
  {
    DecodeEncode(p);
    DecodeEncode(q);
  }
}
