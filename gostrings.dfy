/**
 * The parts of Go's `strings` and `path/filepath` packages the program relies on,
 * on strings modelled as sequences of characters.
 */
module GoStrings {
  import opened Wrappers

  /** strings.IndexByte: the position of the first `c` in `s`, or -1. */
  function IndexByte(s: string, c: char): (r: int)
    ensures -1 <= r < |s|
    ensures r == -1 <==> c !in s
    ensures 0 <= r ==> s[r] == c && c !in s[..r]
  {
    if s == [] then -1
    else if s[0] == c then 0
    else
      var k := IndexByte(s[1..], c);
      if k < 0 then -1
      else
        assert s[..k + 1] == [s[0]] + s[1..][..k];
        k + 1
  }

  /** The position of the last `c` in `s`, or -1 (the runtime's LastIndexByteString). */
  function LastIndexByte(s: string, c: char): (r: int)
    ensures -1 <= r < |s|
    ensures r == -1 <==> c !in s
    ensures 0 <= r ==> s[r] == c && c !in s[r + 1..]
  {
    if s == [] then -1
    else if s[|s| - 1] == c then |s| - 1
    else
      var k := LastIndexByte(s[..|s| - 1], c);
      LastIndexByteStep(s, c, k);
      k
  }

  /** A `c` found in all but the last character (which is not `c`) is the last one of the whole. */
  lemma LastIndexByteStep(s: string, c: char, k: int)
    requires s != [] && s[|s| - 1] != c && -1 <= k < |s| - 1
    requires k == -1 <==> c !in s[..|s| - 1]
    requires 0 <= k ==> s[..|s| - 1][k] == c && c !in s[..|s| - 1][k + 1..]
    ensures k == -1 <==> c !in s
    ensures 0 <= k ==> s[k] == c && c !in s[k + 1..]
  {
    var init, last := s[..|s| - 1], s[|s| - 1];
    assert s == init + [last];
    if 0 <= k {
      assert s[k + 1..] == init[k + 1..] + [last];
    }
  }

  predicate HasPrefix(s: string, prefix: string) {
    |prefix| <= |s| && s[..|prefix|] == prefix
  }

  /** strings.TrimPrefix: `s` without a leading `prefix`, or `s` unchanged when it has none. */
  function TrimPrefix(s: string, prefix: string): (r: string)
    ensures HasPrefix(s, prefix) ==> prefix + r == s
    ensures !HasPrefix(s, prefix) ==> r == s
  {
    if HasPrefix(s, prefix) then s[|prefix|..] else s
  }

  lemma TrimPrefixOfConcat(prefix: string, rest: string)
    ensures HasPrefix(prefix + rest, prefix)
    ensures TrimPrefix(prefix + rest, prefix) == rest
  {
    assert (prefix + rest)[..|prefix|] == prefix;
  }

  /**
   * `s` cut at the first `c`, as the program writes it with IndexByte and slicing
   * (Go's strings.Cut): the text before it and, when there is one, the text after it.
   */
  function Cut(s: string, c: char): (r: (string, Option<string>))
    ensures r.1.None? ==> c !in s && r.0 == s
    ensures r.1.Some? ==> c !in r.0 && s == r.0 + [c] + r.1.value
  {
    var i := IndexByte(s, c);
    if i < 0 then (s, None)
    else
      assert s == s[..i] + [c] + s[i + 1..];
      (s[..i], Some(s[i + 1..]))
  }

  /** The decomposition Cut finds is the only one with no `c` before the cut. */
  lemma CutOfConcat(before: string, c: char, after: string)
    requires c !in before
    ensures Cut(before + [c] + after, c) == (before, Some(after))
  {
    var s := before + [c] + after;
    var r := Cut(s, c);
    assert s[|before|] == c;
    var i := IndexByte(s, c);
    assert s[..i] == before;
    assert s[i + 1..] == after;
  }

  /** strings.Join with a one-character separator. */
  function Join(parts: seq<string>, c: char): string
  {
    if parts == [] then ""
    else if |parts| == 1 then parts[0]
    else parts[0] + [c] + Join(parts[1..], c)
  }

  /** strings.Split with a one-character separator: never empty, and no piece holds the separator. */
  function Split(s: string, c: char): (r: seq<string>)
    ensures |r| >= 1
    ensures forall k :: 0 <= k < |r| ==> c !in r[k]
    decreases |s|
  {
    match Cut(s, c)
    case (before, None) => [before]
    case (before, Some(after)) => [before] + Split(after, c)
  }

  /** Joining the pieces of a split gives the string back. */
  lemma {:induction false} JoinSplit(s: string, c: char)
    ensures Join(Split(s, c), c) == s
    decreases |s|
  {
    match Cut(s, c)
    case (before, None) =>
    case (before, Some(after)) =>
      JoinSplit(after, c);
      assert Split(s, c)[1..] == Split(after, c);
  }

  /** Splitting a join of separator-free pieces gives the pieces back. */
  lemma {:induction false} SplitJoin(parts: seq<string>, c: char)
    requires |parts| >= 1
    requires forall k :: 0 <= k < |parts| ==> c !in parts[k]
    ensures Split(Join(parts, c), c) == parts
    decreases |parts|
  {
    if |parts| > 1 {
      SplitJoin(parts[1..], c);
      CutOfConcat(parts[0], c, Join(parts[1..], c));
      assert parts == [parts[0]] + parts[1..];
    }
  }

  /** strings.SplitN(s, sep, 2) with a one-character separator: one or two parts. */
  function SplitN2(s: string, c: char): (r: seq<string>)
    ensures 1 <= |r| <= 2
    ensures c !in r[0]
    ensures Join(r, c) == s
    ensures |r| == 1 <==> c !in s
  {
    match Cut(s, c)
    case (before, None) => [before]
    case (before, Some(after)) => [before, after]
  }

  /**
   * filepath.Join of a directory and a plain file name, without the lexical
   * cleaning (no "." or ".." segments, no doubled separators are expected).
   */
  function JoinPath(dir: string, name: string): (r: string)
    ensures exists d :: r == d + name
  {
    if dir == [] then
      assert name == [] + name;
      name
    else if dir[|dir| - 1] == '/' then dir + name
    else dir + "/" + name
  }

  /** `s` ends with `suffix`. */
  predicate HasSuffix(s: string, suffix: string) {
    |suffix| <= |s| && s[|s| - |suffix|..] == suffix
  }

  lemma JoinPathSuffix(dir: string, name: string)
    ensures HasSuffix(JoinPath(dir, name), name)
  {
    var d :| JoinPath(dir, name) == d + name;
    assert (d + name)[|d|..] == name;
  }

  /** A `c` with none before it is the one IndexByte finds. */
  lemma IndexByteUnique(s: string, c: char, p: nat)
    requires p < |s| && s[p] == c && c !in s[..p]
    ensures IndexByte(s, c) == p
  {
  }

  /** A `c` with none after it is the one LastIndexByte finds. */
  lemma LastIndexByteUnique(s: string, c: char, p: nat)
    requires p < |s| && s[p] == c && c !in s[p + 1..]
    ensures LastIndexByte(s, c) == p
  {
  }

  /** The first `c` of `a + [c] + b` is the one after `a` when `a` has none. */
  lemma IndexByteAt(a: string, c: char, b: string)
    requires c !in a
    ensures IndexByte(a + [c] + b, c) == |a|
  {
    var s := a + [c] + b;
    assert s[..|a|] == a;
    IndexByteUnique(s, c, |a|);
  }

  /** The last `c` of `a + [c] + b` is the one before `b` when `b` has none. */
  lemma LastIndexByteAt(a: string, c: char, b: string)
    requires c !in b
    ensures LastIndexByte(a + [c] + b, c) == |a|
  {
    var s := a + [c] + b;
    assert s[|a| + 1..] == b;
    LastIndexByteUnique(s, c, |a|);
  }

  /**
   * strconv.Quote for the characters that need a backslash in every string:
   * the double quote and the backslash itself.
   */
  function Quote(s: string): (r: string)
    ensures |r| >= 2 && r[0] == '"' && r[|r| - 1] == '"'
  {
    "\"" + QuoteBody(s) + "\""
  }

  function QuoteBody(s: string): string
  {
    if s == [] then ""
    else (if s[0] == '"' || s[0] == '\\' then ['\\', s[0]] else [s[0]]) + QuoteBody(s[1..])
  }
}
