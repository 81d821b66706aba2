/**
 * The parts of Go's `net` and `net/url` packages the program relies on:
 * splitting a "host:port" address and encoding URL query values.
 */
module GoNet {
  import opened Wrappers
  import opened GoStrings

  /** net.SplitHostPort, with the address errors collapsed to their message. */
  function SplitHostPort(hostport: string): (r: Result<(string, string), string>)
    ensures r.Success? ==> ':' !in r.value.1 && '[' !in r.value.1 && ']' !in r.value.1
  {
    var i := LastIndexByte(hostport, ':');
    if i < 0 then Failure("missing port in address")
    else if hostport[0] == '[' then SplitBracketed(hostport, i)
    else SplitPlain(hostport, i)
  }

  /** The "[host]:port" form: the first ']' must come just before the last ':'. */
  function SplitBracketed(hostport: string, i: nat): (r: Result<(string, string), string>)
    requires i < |hostport| && hostport[i] == ':' && ':' !in hostport[i + 1..]
    requires hostport[0] == '['
    ensures r.Success? ==> ':' !in r.value.1 && '[' !in r.value.1 && ']' !in r.value.1
  {
    var end := IndexByte(hostport, ']');
    if end < 0 then Failure("missing ']' in address")
    else if end + 1 == |hostport| then Failure("missing port in address")
    else if end + 1 != i then
      (if hostport[end + 1] == ':' then Failure("too many colons in address")
       else Failure("missing port in address"))
    else if '[' in hostport[1..] then Failure("unexpected '[' in address")
    else if ']' in hostport[end + 1..] then Failure("unexpected ']' in address")
    else
      assert hostport[i + 1..] == hostport[1..][i..];
      assert hostport[i + 1..] == hostport[end + 1..][1..];
      Success((hostport[1..end], hostport[i + 1..]))
  }

  /** The "host:port" form: the host may hold no colon. */
  function SplitPlain(hostport: string, i: nat): (r: Result<(string, string), string>)
    requires i < |hostport| && hostport[i] == ':' && ':' !in hostport[i + 1..]
    ensures r.Success? ==> ':' !in r.value.1 && '[' !in r.value.1 && ']' !in r.value.1
  {
    if ':' in hostport[..i] then Failure("too many colons in address")
    else if '[' in hostport then Failure("unexpected '[' in address")
    else if ']' in hostport then Failure("unexpected ']' in address")
    else
      assert forall x :: x in hostport[i + 1..] ==> x in hostport;
      Success((hostport[..i], hostport[i + 1..]))
  }

  /** net.JoinHostPort: brackets around a host that holds a colon (an IPv6 address). */
  function JoinHostPort(host: string, port: string): string
  {
    if ':' in host then "[" + host + "]" + ":" + port else host + ":" + port
  }

  /** An address joined from a bracket-free host and a plain port splits back into them. */
  lemma SplitJoinHostPort(host: string, port: string)
    requires '[' !in host && ']' !in host
    requires ':' !in port && '[' !in port && ']' !in port
    ensures SplitHostPort(JoinHostPort(host, port)) == Success((host, port))
  {
    if ':' in host {
      SplitJoinBracketed(host, port);
    } else {
      SplitJoinPlain(host, port);
    }
  }

  lemma SplitJoinBracketed(host: string, port: string)
    requires '[' !in host && ']' !in host && ':' in host
    requires ':' !in port && '[' !in port && ']' !in port
    ensures SplitHostPort("[" + host + "]" + ":" + port) == Success((host, port))
  {
    BracketedIndices(host, port);
    BracketedSlices(host, port);
    SplitBracketedAt("[" + host + "]" + ":" + port, host, port, |host| + 2);
  }

  lemma BracketedIndices(host: string, port: string)
    requires ']' !in host && ':' !in port
    ensures LastIndexByte("[" + host + "]" + ":" + port, ':') == |host| + 2
    ensures IndexByte("[" + host + "]" + ":" + port, ']') == |host| + 1
  {
    BracketedLastColon(host, port);
    BracketedClose(host, port);
  }

  lemma BracketedLastColon(host: string, port: string)
    requires ':' !in port
    ensures LastIndexByte("[" + host + "]" + ":" + port, ':') == |host| + 2
  {
    var hp := "[" + host + "]" + ":" + port;
    assert hp[|host| + 3..] == port;
    LastIndexByteUnique(hp, ':', |host| + 2);
  }

  lemma BracketedClose(host: string, port: string)
    requires ']' !in host
    ensures IndexByte("[" + host + "]" + ":" + port, ']') == |host| + 1
  {
    var hp := "[" + host + "]" + ":" + port;
    assert hp[..|host| + 1] == "[" + host;
    IndexByteUnique(hp, ']', |host| + 1);
  }

  lemma BracketedSlices(host: string, port: string)
    requires '[' !in host && ']' !in host
    requires '[' !in port && ']' !in port
    ensures var hp := "[" + host + "]" + ":" + port;
      && hp[0] == '[' && hp[|host| + 2] == ':'
      && '[' !in hp[1..] && ']' !in hp[|host| + 2..]
      && hp[1..|host| + 1] == host && hp[|host| + 3..] == port
  {
    var hp := "[" + host + "]" + ":" + port;
    assert hp[1..] == host + "]:" + port;
    assert hp[|host| + 2..] == ":" + port;
    assert hp[1..|host| + 1] == host;
    assert hp[|host| + 3..] == port;
  }

  lemma SplitBracketedAt(hp: string, host: string, port: string, i: nat)
    requires i < |hp| && hp[0] == '[' && hp[i] == ':'
    requires LastIndexByte(hp, ':') == i && IndexByte(hp, ']') == i - 1
    requires '[' !in hp[1..] && ']' !in hp[i..]
    requires hp[1..i - 1] == host && hp[i + 1..] == port
    ensures SplitHostPort(hp) == Success((host, port))
  {
  }

  lemma SplitJoinPlain(host: string, port: string)
    requires '[' !in host && ']' !in host && ':' !in host
    requires ':' !in port && '[' !in port && ']' !in port
    ensures SplitHostPort(host + ":" + port) == Success((host, port))
  {
    var hp := host + ":" + port;
    assert hp == host + [':'] + port;
    LastIndexByteAt(host, ':', port);
    assert hp[..|host|] == host;
    assert hp[|host| + 1..] == port;
    assert hp[0] != '[' by {
      if host == [] { assert hp[0] == ':'; } else { assert hp[0] == host[0]; }
    }
  }

  /** The characters a query component keeps as they are (RFC 3986 "unreserved"). */
  predicate IsUnreserved(c: char) {
    ('a' <= c <= 'z') || ('A' <= c <= 'Z') || ('0' <= c <= '9') || c == '-' || c == '_' || c == '.' || c == '~'
  }

  /** The UTF-8 encoding of one character, byte by byte. */
  function Utf8(c: char): (r: seq<nat>)
    ensures 1 <= |r| <= 4
    ensures forall k :: 0 <= k < |r| ==> r[k] < 256
  {
    var cp := c as int;
    if cp < 0x80 then [cp]
    else if cp < 0x800 then [0xC0 + cp / 0x40, 0x80 + cp % 0x40]
    else if cp < 0x10000 then [0xE0 + cp / 0x1000, 0x80 + (cp / 0x40) % 0x40, 0x80 + cp % 0x40]
    else [0xF0 + cp / 0x40000, 0x80 + (cp / 0x1000) % 0x40, 0x80 + (cp / 0x40) % 0x40, 0x80 + cp % 0x40]
  }

  function HexDigit(n: nat): (r: char)
    requires n < 16
    ensures IsUnreserved(r)
  {
    "0123456789ABCDEF"[n]
  }

  /** "%XY" for each byte, upper-case hexadecimal. */
  function PercentBytes(bytes: seq<nat>): (r: string)
    requires forall k :: 0 <= k < |bytes| ==> bytes[k] < 256
    ensures forall k :: 0 <= k < |r| ==> IsUnreserved(r[k]) || r[k] == '%'
  {
    if bytes == [] then ""
    else ['%', HexDigit(bytes[0] / 16), HexDigit(bytes[0] % 16)] + PercentBytes(bytes[1..])
  }

  function EscapeChar(c: char): (r: string)
    ensures forall k :: 0 <= k < |r| ==> IsUnreserved(r[k]) || r[k] == '%' || r[k] == '+'
  {
    if IsUnreserved(c) then [c]
    else if c == ' ' then "+"
    else PercentBytes(Utf8(c))
  }

  /** url.QueryEscape. */
  function QueryEscape(s: string): (r: string)
    ensures forall k :: 0 <= k < |r| ==> IsUnreserved(r[k]) || r[k] == '%' || r[k] == '+'
  {
    if s == [] then "" else EscapeChar(s[0]) + QueryEscape(s[1..])
  }

  /** An escaped component never holds the characters that delimit query pairs. */
  lemma EscapedHasNoDelimiters(s: string)
    ensures '&' !in QueryEscape(s) && '=' !in QueryEscape(s) && ' ' !in QueryEscape(s)
  {
  }

  /** A component made of unreserved characters is not changed by escaping. */
  lemma {:induction false} EscapeUnreserved(s: string)
    requires forall k :: 0 <= k < |s| ==> IsUnreserved(s[k])
    ensures QueryEscape(s) == s
  {
    if s != [] {
      EscapeUnreserved(s[1..]);
      assert s == [s[0]] + s[1..];
    }
  }

  /** Byte-wise lexicographic order on strings, the order slices.Sort puts keys in. */
  predicate Less(a: string, b: string) {
    if a == [] then b != []
    else if b == [] then false
    else a[0] < b[0] || (a[0] == b[0] && Less(a[1..], b[1..]))
  }

  /** One `key=value` pair per value, keys in the order given. */
  function Pairs(values: seq<(string, seq<string>)>): seq<(string, string)>
  {
    if values == [] then []
    else PairsOf(values[0].0, values[0].1) + Pairs(values[1..])
  }

  function PairsOf(key: string, vs: seq<string>): (r: seq<(string, string)>)
    ensures |r| == |vs|
    ensures forall k :: 0 <= k < |r| ==> r[k] == (key, vs[k])
  {
    if vs == [] then [] else [(key, vs[0])] + PairsOf(key, vs[1..])
  }

  function EncodePair(p: (string, string)): string {
    QueryEscape(p.0) + "=" + QueryEscape(p.1)
  }

  function EncodeAll(ps: seq<(string, string)>): (r: seq<string>)
    ensures |r| == |ps|
    ensures forall k :: 0 <= k < |r| ==> r[k] == EncodePair(ps[k])
  {
    if ps == [] then [] else [EncodePair(ps[0])] + EncodeAll(ps[1..])
  }

  /**
   * url.Values.Encode, for a map given as its entries in increasing key order
   * (the order Encode sorts the keys into): every value of every key as an
   * escaped `key=value` pair, joined with '&'.
   */
  function Encode(values: seq<(string, seq<string>)>): string
    requires forall i, j :: 0 <= i < j < |values| ==> Less(values[i].0, values[j].0)
  {
    Join(EncodeAll(Pairs(values)), '&')
  }

  /** The query splits at '&' into exactly the encoded pairs, in order. */
  lemma EncodeSplits(values: seq<(string, seq<string>)>)
    requires forall i, j :: 0 <= i < j < |values| ==> Less(values[i].0, values[j].0)
    requires Pairs(values) != []
    ensures Split(Encode(values), '&') == EncodeAll(Pairs(values))
  {
    var parts := EncodeAll(Pairs(values));
    forall k | 0 <= k < |parts|
      ensures '&' !in parts[k]
    {
      var p := Pairs(values)[k];
      EscapedHasNoDelimiters(p.0);
      EscapedHasNoDelimiters(p.1);
    }
    SplitJoin(parts, '&');
  }
}
