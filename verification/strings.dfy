/**
 * The few java.lang.String / StringBuilder / Collectors operations that the
 * modelled code relies on, over `string` (a sequence of UTF-16 code units).
 */
module Strings {

  /** Character.isWhitespace: Unicode space, line and paragraph separators
      other than the non-breaking ones, plus the ASCII controls U+0009-U+000D
      and U+001C-U+001F. */
  predicate IsWhitespace(c: char) {
    || c == ' '
    || ('\U{0009}' <= c <= '\U{000D}')
    || ('\U{001C}' <= c <= '\U{001F}')
    || c == '\U{1680}'
    || ('\U{2000}' <= c <= '\U{2006}')
    || ('\U{2008}' <= c <= '\U{200A}')
    || c == '\U{2028}' || c == '\U{2029}'
    || c == '\U{205F}' || c == '\U{3000}'
  }

  /** String.isBlank: empty, or only whitespace. */
  predicate IsBlank(s: string) {
    forall i :: 0 <= i < |s| ==> IsWhitespace(s[i])
  }

  /** String.endsWith(suffix). */
  predicate EndsWith(s: string, suffix: string) {
    |suffix| <= |s| && s[|s| - |suffix|..] == suffix
  }

  /** String.repeat(n): `n` copies of `s` back to back. */
  function Repeat(s: string, n: nat): string
  {
    if n == 0 then "" else Repeat(s, n - 1) + s
  }

  /** Each character of `Repeat(" ", n)`, and there are `n` of them, is a space. */
  lemma {:induction false} RepeatSpace(n: nat, i: int)
    requires 0 <= i < n
    ensures |Repeat(" ", n)| == n && Repeat(" ", n)[i] == ' '
  {
    if n > 1 {
      RepeatSpace(n - 1, if i < n - 1 then i else 0);
    }
  }

  /** Repeating two spaces `n` times gives `2 * n` spaces. */
  lemma {:induction false} RepeatDoubleSpace(n: nat)
    ensures Repeat("  ", n) == Repeat(" ", 2 * n)
  {
    if n > 0 {
      RepeatDoubleSpace(n - 1);
      var x := Repeat(" ", 2 * (n - 1));
      assert Repeat(" ", 2 * n) == x + " " + " ";
      assert x + " " + " " == x + "  ";
    }
  }

  /** Collectors.joining(sep) / String.join(sep, parts): the parts with `sep`
      between consecutive ones. */
  function Join(parts: seq<string>, sep: string): string
  {
    if |parts| == 0 then ""
    else if |parts| == 1 then parts[0]
    else Join(parts[..|parts| - 1], sep) + sep + parts[|parts| - 1]
  }

  lemma JoinThree(x: string, y: string, z: string, sep: string)
    ensures Join([x, y, z], sep) == x + sep + y + sep + z
  {
    assert [x, y, z][..2] == [x, y];
    assert [x, y][..1] == [x];
    assert Join([x], sep) == x;
    assert Join([x, y], sep) == x + sep + y;
  }

  /** Each part followed by `sep`, as repeated `append(part).append(sep)` builds it. */
  function Terminated(parts: seq<string>, sep: string): string
  {
    if parts == [] then "" else Terminated(parts[..|parts| - 1], sep) + parts[|parts| - 1] + sep
  }

  /** Terminating every part is joining them and adding one final separator. */
  lemma {:induction false} TerminatedIsJoinPlusSep(parts: seq<string>, sep: string)
    requires parts != []
    ensures Terminated(parts, sep) == Join(parts, sep) + sep
  {
    if |parts| > 1 {
      TerminatedIsJoinPlusSep(parts[..|parts| - 1], sep);
    }
  }

  /** Terminating a part and then the rest is terminating them all. */
  lemma {:induction false} TerminatedCons(p: string, parts: seq<string>, sep: string)
    ensures Terminated([p] + parts, sep) == p + sep + Terminated(parts, sep)
    decreases |parts|
  {
    if parts == [] {
      assert [p] + parts == [p];
      assert [p][..0] == [];
    } else {
      var init := parts[..|parts| - 1];
      assert ([p] + parts)[..|parts|] == [p] + init;
      TerminatedCons(p, init, sep);
    }
  }

  /** `t` occurs in `s` at position `j`. */
  predicate OccursAt(s: string, t: string, j: int) {
    0 <= j && j + |t| <= |s| && s[j..j + |t|] == t
  }

  /** StringBuilder.lastIndexOf(t): the largest position where `t` occurs, or -1. */
  function LastIndexOf(s: string, t: string): (r: int)
    ensures r == -1 || OccursAt(s, t, r)
    ensures forall j :: r < j ==> !OccursAt(s, t, j)
  {
    SearchDown(s, t, |s| - |t|)
  }

  function SearchDown(s: string, t: string, i: int): (r: int)
    requires i <= |s| - |t|
    requires forall j :: i < j ==> !OccursAt(s, t, j)
    ensures r == -1 || (OccursAt(s, t, r) && r <= i)
    ensures forall j :: r < j ==> !OccursAt(s, t, j)
    decreases i + 1
  {
    if i < 0 then -1
    else if s[i..i + |t|] == t then i
    else SearchDown(s, t, i - 1)
  }

  /** The last occurrence of `t` in `s + t` is the appended copy. */
  lemma LastIndexOfAppended(s: string, t: string)
    ensures LastIndexOf(s + t, t) == |s|
  {
    assert OccursAt(s + t, t, |s|) by {
      assert (s + t)[|s|..|s| + |t|] == t;
    }
  }
}
