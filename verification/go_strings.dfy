/**
 * The parts of Go's `strings` package that main.go uses, over `seq<char>`:
 * `Cut` and `Split` with a one-character separator, and `TrimSpace`.
 */
module GoStrings {

  /** Number of occurrences of `c` in `s`. */
  function Count(s: string, c: char): nat
  {
    if s == [] then 0 else (if s[0] == c then 1 else 0) + Count(s[1..], c)
  }

  /**
   * `strings.Cut(s, sep)` for a one-character separator: the text before the
   * first `c`, the text after it, and whether `c` occurs at all. When it does
   * not, Go returns `(s, "", false)`.
   */
  function Cut(s: string, c: char): (r: (string, string, bool))
    ensures !r.2 ==> r.0 == s && r.1 == ""
  {
    if s == [] then ("", "", false)
    else if s[0] == c then ("", s[1..], true)
    else
      var (before, after, found) := Cut(s[1..], c);
      ([s[0]] + before, after, found)
  }

  /**
   * What `Cut` finds: it succeeds exactly when `c` occurs, and then the
   * text before the first `c`, the `c` and the text after make up `s`.
   */
  lemma {:induction false} CutSpec(s: string, c: char)
    ensures Cut(s, c).2 <==> c in s
    ensures Cut(s, c).2 ==> s == Cut(s, c).0 + [c] + Cut(s, c).1 && c !in Cut(s, c).0
    decreases |s|
  {
    if s != [] && s[0] != c {
      CutSpec(s[1..], c);
      assert s == [s[0]] + s[1..];
    }
  }

  /** Cutting at a separator that the prefix does not contain splits exactly there. */
  lemma CutAt(a: string, c: char, b: string)
    requires c !in a
    ensures Cut(a + [c] + b, c) == (a, b, true)
  {
    var s := a + [c] + b;
    assert s[|a|] == c;
    CutSpec(s, c);
    var (before, after, found) := Cut(s, c);
    assert forall i :: 0 <= i < |before| ==> s[i] == before[i] != c;
    assert forall i :: 0 <= i < |a| ==> s[i] == a[i] != c;
    assert s[|before|] == c;
    assert |before| == |a|;
    assert before == s[..|a|] == a;
    assert after == s[|a| + 1..] == b;
  }

  /** The inverse of `Split`: the parts with `c` between each neighbouring pair. */
  function Join(parts: seq<string>, c: char): string
  {
    if parts == [] then ""
    else if |parts| == 1 then parts[0]
    else parts[0] + [c] + Join(parts[1..], c)
  }

  /**
   * `strings.Split(s, sep)` for a one-character separator: the maximal runs
   * between separators, so the empty string splits into `[""]` and a
   * trailing separator leaves a trailing empty part.
   */
  function Split(s: string, c: char): (parts: seq<string>)
    ensures |parts| == Count(s, c) + 1
    decreases |s|
  {
    CutSpec(s, c);
    var (before, after, found) := Cut(s, c);
    if found then
      assert s == before + ([c] + after);
      CountConcat(before, [c] + after, c);
      CountConcat([c], after, c);
      CountAbsent(before, c);
      [before] + Split(after, c)
    else
      CountAbsent(s, c);
      [before]
  }

  /** No part contains the separator, and joining the parts gives `s` back. */
  lemma {:induction false} SplitSpec(s: string, c: char)
    ensures forall i :: 0 <= i < |Split(s, c)| ==> c !in Split(s, c)[i]
    ensures Join(Split(s, c), c) == s
    decreases |s|
  {
    CutSpec(s, c);
    var (before, after, found) := Cut(s, c);
    if found {
      SplitSpec(after, c);
      assert Split(s, c) == [before] + Split(after, c);
    }
  }

  lemma {:induction false} CountConcat(a: string, b: string, c: char)
    ensures Count(a + b, c) == Count(a, c) + Count(b, c)
  {
    if a != [] {
      assert (a + b)[1..] == a[1..] + b;
      CountConcat(a[1..], b, c);
    } else {
      assert a + b == b;
    }
  }

  lemma {:induction false} CountAbsent(s: string, c: char)
    requires c !in s
    ensures Count(s, c) == 0
  {
    if s != [] {
      CountAbsent(s[1..], c);
    }
  }

  /** A separator after a separator-free prefix produces that prefix as the first part. */
  lemma SplitAt(a: string, c: char, b: string)
    requires c !in a
    ensures Split(a + [c] + b, c) == [a] + Split(b, c)
  {
    CutAt(a, c, b);
  }

  /** Text without the separator is a single part. */
  lemma SplitAbsent(a: string, c: char)
    requires c !in a
    ensures Split(a, c) == [a]
  {
    CutSpec(a, c);
  }

  /** The characters `unicode.IsSpace` accepts, which `strings.TrimSpace` removes. */
  predicate IsSpace(ch: char)
  {
    ch == ' ' || ch == '\t' || ch == '\n' || ch == '\U{B}' || ch == '\U{C}' || ch == '\r'
    || ch == '\U{85}' || ch == '\U{A0}' || ch == '\U{1680}'
    || ('\U{2000}' <= ch <= '\U{200A}')
    || ch == '\U{2028}' || ch == '\U{2029}' || ch == '\U{202F}' || ch == '\U{205F}' || ch == '\U{3000}'
  }

  /** Drops leading white space: the result is a suffix of `s` not starting with a space. */
  function TrimLeft(s: string): (r: string)
    ensures |r| <= |s| && r == s[|s| - |r|..]
    ensures forall i :: 0 <= i < |s| - |r| ==> IsSpace(s[i])
    ensures r == [] || !IsSpace(r[0])
  {
    if s != [] && IsSpace(s[0]) then TrimLeft(s[1..]) else s
  }

  /** Drops trailing white space: the result is a prefix of `s` not ending with a space. */
  function TrimRight(s: string): (r: string)
    ensures |r| <= |s| && r == s[..|r|]
    ensures forall i :: |r| <= i < |s| ==> IsSpace(s[i])
    ensures r == [] || !IsSpace(r[|r| - 1])
  {
    if s != [] && IsSpace(s[|s| - 1]) then TrimRight(s[..|s| - 1]) else s
  }

  /** `strings.TrimSpace`. */
  function TrimSpace(s: string): string
  {
    TrimRight(TrimLeft(s))
  }

  /** Text that neither starts nor ends with white space survives `TrimSpace` whatever white space follows it. */
  lemma {:induction false} TrimSpaceTrailing(s: string, ws: string)
    requires s != [] && !IsSpace(s[0]) && !IsSpace(s[|s| - 1])
    requires forall i :: 0 <= i < |ws| ==> IsSpace(ws[i])
    ensures TrimSpace(s + ws) == s
  {
    var t := s + ws;
    assert t[0] == s[0];
    assert TrimLeft(t) == t;
    var r := TrimRight(t);
    assert forall i :: |s| <= i < |t| ==> t[i] == ws[i - |s|];
    assert t[|s| - 1] == s[|s| - 1];
    assert |r| == |s|;
  }
}
