/**
 * The few Kotlin standard-library string operations the renderers rely on:
 * `joinTo`, `startsWith`, `endsWith`, `replace(c, "")`, `" ".repeat(n)` and
 * `trim(vararg chars)`.
 */
module Text {

  /** `parts.joinTo(sb, separator)`: the parts with the separator between neighbours. */
  function Join(parts: seq<string>, separator: string): (r: string)
    ensures |parts| == 0 ==> r == ""
    ensures |parts| == 1 ==> r == parts[0]
  {
    if |parts| == 0 then ""
    else if |parts| == 1 then parts[0]
    else Join(parts[..|parts| - 1], separator) + separator + parts[|parts| - 1]
  }

  lemma JoinSnoc(parts: seq<string>, x: string, separator: string)
    ensures Join(parts + [x], separator) == if |parts| == 0 then x else Join(parts, separator) + separator + x
  {
    assert (parts + [x])[..|parts|] == parts;
  }

  /** The total length of the parts. */
  function TotalLength(parts: seq<string>): nat
  {
    if |parts| == 0 then 0 else TotalLength(parts[..|parts| - 1]) + |parts[|parts| - 1]|
  }

  /** `Join` puts exactly one separator between neighbours: none before the first part, none after the last. */
  lemma {:induction false} JoinLength(parts: seq<string>, separator: string)
    ensures |Join(parts, separator)| == TotalLength(parts) + (if |parts| == 0 then 0 else (|parts| - 1) * |separator|)
  {
    if |parts| > 1 {
      JoinLength(parts[..|parts| - 1], separator);
    } else if |parts| == 1 {
      assert parts[..0] == [];
    }
  }

  lemma AppendEmpty(s: string)
    ensures s + "" == s
  {
  }

  lemma EmptyAppend(s: string)
    ensures "" + s == s
  {
  }

  lemma AppendAssoc(head: string, a: string, b: string)
    ensures head + a + b == head + (a + b)
  {
  }

  lemma AppendThree(head: string, a: string, b: string, c: string)
    ensures head + a + b + c == head + (a + b + c)
  {
  }

  /** Appending pieces one at a time appends their concatenation. */
  lemma AppendPieces(head: string, a: string, b: string, c: string, d: string)
    ensures head + a + b + c + d == head + (a + b + c + d)
  {
  }

  lemma AppendFive(head: string, a: string, b: string, c: string, d: string, e: string)
    ensures head + a + b + c + d + e == head + (a + b + c + d + e)
  {
  }

  /**
   * A list written part by part, with the separator written after every part
   * that is not the last: one more part completes the joined text.
   */
  lemma JoinPendingStep(head: string, parts: seq<string>, x: string, separator: string)
    ensures head + Join(parts, separator) + (if |parts| > 0 then separator else "") + x
            == head + Join(parts + [x], separator)
  {
    JoinSnoc(parts, x, separator);
    if |parts| > 0 {
      AppendThree(head, Join(parts, separator), separator, x);
    } else {
      AppendEmpty(head);
      AppendEmpty(head + "");
    }
  }

  predicate StartsWith(s: string, prefix: string)
  {
    |prefix| <= |s| && s[..|prefix|] == prefix
  }

  predicate EndsWith(s: string, suffix: string)
  {
    |suffix| <= |s| && s[|s| - |suffix|..] == suffix
  }

  /** `s.replace(c.toString(), "")`: every occurrence of `c` removed, the rest kept in order. */
  function RemoveAll(s: string, c: char): (r: string)
    ensures c !in r
    ensures |r| <= |s|
    ensures c !in s ==> r == s
    ensures forall x :: x in r ==> x in s
  {
    if |s| == 0 then ""
    else (if s[0] == c then "" else [s[0]]) + RemoveAll(s[1..], c)
  }

  /** `" ".repeat(n)` */
  function Spaces(n: nat): (r: string)
    ensures |r| == n
    ensures forall i :: 0 <= i < n ==> r[i] == ' '
  {
    seq(n, _ => ' ')
  }

  /** `s.trimStart(*chars)` */
  function TrimStart(s: string, chars: set<char>): (r: string)
    ensures |r| <= |s| && r == s[|s| - |r|..]
    ensures forall i :: 0 <= i < |s| - |r| ==> s[i] in chars
    ensures |r| > 0 ==> r[0] !in chars
  {
    if |s| > 0 && s[0] in chars then TrimStart(s[1..], chars) else s
  }

  /** `s.trimEnd(*chars)` */
  function TrimEnd(s: string, chars: set<char>): (r: string)
    ensures |r| <= |s| && r == s[..|r|]
    ensures forall i :: |r| <= i < |s| ==> s[i] in chars
    ensures |r| > 0 ==> r[|r| - 1] !in chars
  {
    if |s| > 0 && s[|s| - 1] in chars then TrimEnd(s[..|s| - 1], chars) else s
  }

  /** `s.trim(*chars)`: leading and trailing characters of `chars` removed. */
  function Trim(s: string, chars: set<char>): string
  {
    TrimEnd(TrimStart(s, chars), chars)
  }

  /**
   * `r` is the slice `s[i..j]`, everything cut off on either side belongs
   * to `chars`, and the slice neither starts nor ends with one of them.
   */
  predicate TrimmedAt(r: string, s: string, chars: set<char>, i: nat, j: nat)
  {
    i <= j <= |s| && r == s[i..j]
    && (forall k :: 0 <= k < i ==> s[k] in chars)
    && (forall k :: j <= k < |s| ==> s[k] in chars)
    && (|r| > 0 ==> r[0] !in chars && r[|r| - 1] !in chars)
  }

  /** `r` is a contiguous slice of `s` trimmed of exactly the characters of `chars` at both ends. */
  ghost predicate IsTrimmedSlice(r: string, s: string, chars: set<char>)
  {
    exists i: nat, j: nat :: TrimmedAt(r, s, chars, i, j)
  }

  /** `trim` cuts off exactly the characters of `chars` at both ends. */
  lemma TrimIsMaximalSlice(s: string, chars: set<char>)
    ensures IsTrimmedSlice(Trim(s, chars), s, chars)
  {
    var t := TrimStart(s, chars);
    var r := TrimEnd(t, chars);
    TrimmedTwice(s, t, r, chars);
    assert TrimmedAt(r, s, chars, |s| - |t|, |s| - |t| + |r|);
  }

  /** A suffix of `s` cut at the start, then a prefix of that cut at the end, is a trimmed slice of `s`. */
  lemma TrimmedTwice(s: string, t: string, r: string, chars: set<char>)
    requires |t| <= |s| && t == s[|s| - |t|..]
    requires forall k :: 0 <= k < |s| - |t| ==> s[k] in chars
    requires |t| > 0 ==> t[0] !in chars
    requires |r| <= |t| && r == t[..|r|]
    requires forall k :: |r| <= k < |t| ==> t[k] in chars
    requires |r| > 0 ==> r[|r| - 1] !in chars
    ensures TrimmedAt(r, s, chars, |s| - |t|, |s| - |t| + |r|)
  {
    var i := |s| - |t|;
    var j := i + |r|;
    assert r == s[i..j];
    forall k | j <= k < |s| ensures s[k] in chars {
      assert s[k] == t[k - i];
    }
  }
}
