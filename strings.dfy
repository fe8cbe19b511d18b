/**
 * The JavaScript string operations the application relies on: `includes`,
 * `toLowerCase` and `trim`, plus the line structure of template literals.
 */
module Strings {

  /** `p` occurs as a contiguous run of characters somewhere in `s`. */
  ghost predicate Occurs(p: string, s: string) {
    exists i :: OccursAt(p, s, i)
  }

  /** `p` occurs in `s` starting at position `i`. */
  ghost predicate OccursAt(p: string, s: string, i: int) {
    0 <= i <= |s| - |p| && s[i..i + |p|] == p
  }

  /** When `s` does not start with `p`, the occurrences of `p` in `s` are those in `s[1..]`. */
  lemma {:induction false} OccursTail(p: string, s: string)
    requires |p| <= |s| && s[..|p|] != p
    ensures Occurs(p, s) <==> Occurs(p, s[1..])
  {
    if Occurs(p, s) {
      var i :| OccursAt(p, s, i);
      assert i != 0 by { assert s[0..|p|] == s[..|p|]; }
      assert s[1..][i - 1..i - 1 + |p|] == s[i..i + |p|];
      assert OccursAt(p, s[1..], i - 1);
    }
    if Occurs(p, s[1..]) {
      var t := s[1..];
      var i :| OccursAt(p, t, i);
      assert s[i + 1..i + 1 + |p|] == t[i..i + |p|];
      assert OccursAt(p, s, i + 1);
    }
  }

  /** JavaScript `s.includes(p)`: a case-sensitive substring test. */
  function Includes(s: string, p: string): (r: bool)
    ensures r <==> Occurs(p, s)
    decreases |s|
  {
    if |s| < |p| then false
    else if s[..|p|] == p then
      assert OccursAt(p, s, 0);
      true
    else
      OccursTail(p, s);
      Includes(s[1..], p)
  }

  /** Every character of an occurring pattern is a character of the string. */
  lemma OccursCharIn(p: string, s: string, k: int)
    requires Occurs(p, s) && 0 <= k < |p|
    ensures p[k] in s
  {
    var i :| OccursAt(p, s, i);
    assert s[i + k] == s[i..i + |p|][k];
  }

  /** A string occurs in any string that embeds it. */
  lemma OccursInMiddle(a: string, p: string, b: string)
    ensures Occurs(p, a + p + b)
  {
    var s := a + p + b;
    assert s[|a|..|a| + |p|] == p;
    assert OccursAt(p, s, |a|);
  }

  /** A position inside an occurrence of `p` holds a character of `p`. */
  lemma CharInsideOccurrence(p: string, s: string, i: int, m: int)
    ensures OccursAt(p, s, i) && i <= m < i + |p| ==> s[m] in p
  {
    if OccursAt(p, s, i) && i <= m < i + |p| {
      assert s[m] == s[i..i + |p|][m - i];
    }
  }

  /** A pattern that does not contain `c` and occurs in `a + [c] + b` occurs in `a` or in `b`. */
  lemma OccursAcrossSeparator(p: string, a: string, c: char, b: string)
    requires c !in p && Occurs(p, a + [c] + b)
    ensures Occurs(p, a) || Occurs(p, b)
  {
    var s := a + [c] + b;
    var i :| OccursAt(p, s, i);
    CharInsideOccurrence(p, s, i, |a|);
    if i + |p| <= |a| {
      assert a[i..i + |p|] == s[i..i + |p|];
      assert OccursAt(p, a, i);
    } else {
      assert i > |a|;
      assert b[i - |a| - 1..i - |a| - 1 + |p|] == s[i..i + |p|];
      assert OccursAt(p, b, i - |a| - 1);
    }
  }

  /** A pattern lacking one of its characters in `s` does not occur in `s`. */
  lemma MissingChar(p: string, s: string, k: int)
    requires 0 <= k < |p| && p[k] !in s
    ensures !Occurs(p, s)
  {
    if Occurs(p, s) {
      OccursCharIn(p, s, k);
      assert false;
    }
  }

  /** An occurrence in a part is an occurrence in the whole. */
  lemma OccursInConcat(p: string, a: string, b: string)
    ensures Occurs(p, a) ==> Occurs(p, a + b)
    ensures Occurs(p, b) ==> Occurs(p, a + b)
  {
    var s := a + b;
    if Occurs(p, a) {
      var i :| OccursAt(p, a, i);
      assert s[i..i + |p|] == a[i..i + |p|];
      assert OccursAt(p, s, i);
    }
    if Occurs(p, b) {
      var i :| OccursAt(p, b, i);
      assert s[|a| + i..|a| + i + |p|] == b[i..i + |p|];
      assert OccursAt(p, s, |a| + i);
    }
  }

  /** The lines of a template literal joined by line breaks. */
  function JoinLines(lines: seq<string>): string {
    if |lines| == 0 then ""
    else if |lines| == 1 then lines[0]
    else lines[0] + "\n" + JoinLines(lines[1..])
  }

  /** A pattern that occurs in one line occurs in the joined text. */
  lemma {:induction false} OccursLineInJoin(p: string, lines: seq<string>, k: int)
    requires 0 <= k < |lines| && Occurs(p, lines[k])
    ensures Occurs(p, JoinLines(lines))
  {
    if |lines| > 1 {
      if k == 0 {
        OccursInConcat(p, lines[0], "\n" + JoinLines(lines[1..]));
        assert lines[0] + "\n" + JoinLines(lines[1..]) == lines[0] + ("\n" + JoinLines(lines[1..]));
      } else {
        OccursLineInJoin(p, lines[1..], k - 1);
        OccursInConcat(p, lines[0] + "\n", JoinLines(lines[1..]));
      }
    }
  }

  /** A non-empty pattern without a line break occurs in joined lines only if it occurs in one line. */
  lemma {:induction false} OccursInSomeLine(p: string, lines: seq<string>)
    requires |p| > 0 && '\n' !in p
    requires forall k :: 0 <= k < |lines| ==> !Occurs(p, lines[k])
    ensures !Occurs(p, JoinLines(lines))
  {
    if |lines| > 1 {
      OccursInSomeLine(p, lines[1..]);
      if Occurs(p, JoinLines(lines)) {
        OccursAcrossSeparator(p, lines[0], '\n', JoinLines(lines[1..]));
        assert false;
      }
    }
  }

  /** ASCII `toLowerCase` of one character. */
  function LowerChar(c: char): char {
    if 'A' <= c <= 'Z' then (c as int - 'A' as int + 'a' as int) as char else c
  }

  /** `s.toLowerCase()`, with the case mapping restricted to ASCII letters. */
  function Lower(s: string): (r: string)
    ensures |r| == |s|
    ensures forall i :: 0 <= i < |s| ==> r[i] == LowerChar(s[i])
  {
    if s == [] then [] else [LowerChar(s[0])] + Lower(s[1..])
  }

  /** No ASCII upper-case letter in `s`. */
  predicate IsLowerCase(s: string) {
    forall i :: 0 <= i < |s| ==> !('A' <= s[i] <= 'Z')
  }

  /** Lower-casing leaves no upper-case letter and changes nothing else in a lower-case string. */
  lemma LowerFacts(s: string)
    ensures IsLowerCase(Lower(s))
    ensures IsLowerCase(s) ==> Lower(s) == s
    ensures Lower(Lower(s)) == Lower(s)
  {
    assert IsLowerCase(s) ==> Lower(s) == s by {
      if IsLowerCase(s) {
        assert forall i :: 0 <= i < |s| ==> Lower(s)[i] == s[i];
      }
    }
    assert forall i :: 0 <= i < |s| ==> Lower(Lower(s))[i] == Lower(s)[i];
  }

  /**
   * The characters `String.prototype.trim` removes: the WhiteSpace and
   * LineTerminator code points of ECMA-262 (sections 12.2 and 12.3), with
   * the Unicode space separators (category Zs).
   */
  predicate IsTrimmable(c: char) {
    || c == '\t' || c == '\n' || c == '\U{000B}' || c == '\U{000C}' || c == '\r'
    || c == ' ' || c == '\U{00A0}' || c == '\U{1680}'
    || ('\U{2000}' <= c <= '\U{200A}')
    || c == '\U{2028}' || c == '\U{2029}' || c == '\U{202F}' || c == '\U{205F}'
    || c == '\U{3000}' || c == '\U{FEFF}'
  }

  /** `s` has no trimmable character at either end. */
  predicate IsTrimmed(s: string) {
    s == [] || (!IsTrimmable(s[0]) && !IsTrimmable(s[|s| - 1]))
  }

  /** `s.trimStart()`: the longest prefix of trimmable characters is dropped. */
  function TrimStart(s: string): (r: string)
    ensures |r| <= |s| && r == s[|s| - |r|..]
    ensures forall i :: 0 <= i < |s| - |r| ==> IsTrimmable(s[i])
    ensures r == [] || !IsTrimmable(r[0])
    decreases |s|
  {
    if s != [] && IsTrimmable(s[0]) then TrimStart(s[1..]) else s
  }

  /** `s.trimEnd()`: the longest suffix of trimmable characters is dropped. */
  function TrimEnd(s: string): (r: string)
    ensures |r| <= |s| && r == s[..|r|]
    ensures forall i :: |r| <= i < |s| ==> IsTrimmable(s[i])
    ensures r == [] || !IsTrimmable(r[|r| - 1])
    decreases |s|
  {
    if s != [] && IsTrimmable(s[|s| - 1]) then TrimEnd(s[..|s| - 1]) else s
  }

  /**
   * A suffix `t` of `s` that does not start with a trimmable character, cut
   * down to a prefix `r` that does not end with one, is trimmed and sits in
   * `s` where `t` starts.
   */
  lemma TrimmedSlice(s: string, t: string, r: string)
    requires |t| <= |s| && t == s[|s| - |t|..] && (t == [] || !IsTrimmable(t[0]))
    requires |r| <= |t| && r == t[..|r|] && (r == [] || !IsTrimmable(r[|r| - 1]))
    ensures IsTrimmed(r) && OccursAt(r, s, |s| - |t|)
  {
    var i := |s| - |t|;
    assert s[i..i + |r|] == r;
    if r != [] {
      assert r[0] == t[0];
    }
  }

  /** Trimming both ends leaves no trimmable end, and the result sits where the leading run ended. */
  lemma TrimShape(s: string)
    ensures IsTrimmed(TrimEnd(TrimStart(s)))
    ensures OccursAt(TrimEnd(TrimStart(s)), s, |s| - |TrimStart(s)|)
  {
    var t := TrimStart(s);
    TrimmedSlice(s, t, TrimEnd(t));
  }

  /**
   * `s.trim()`, computed as `trimStart` followed by `trimEnd`; the result is
   * a run of `s` with no trimmable character at either end.
   */
  function Trim(s: string): (r: string)
    ensures IsTrimmed(r)
    ensures Occurs(r, s)
  {
    TrimShape(s);
    TrimEnd(TrimStart(s))
  }

  /** Trimming a trimmed string changes nothing. */
  lemma TrimOfTrimmed(s: string)
    requires IsTrimmed(s)
    ensures Trim(s) == s
  {
    assert TrimStart(s) == s;
    assert TrimEnd(s) == s;
  }

  /** Lower-casing neither creates nor removes a trimmable character. */
  lemma LowerCharTrimmable(c: char)
    ensures IsTrimmable(LowerChar(c)) <==> IsTrimmable(c)
  {
  }

  lemma {:induction false} LowerTrimStart(s: string)
    ensures Lower(TrimStart(s)) == TrimStart(Lower(s))
    decreases |s|
  {
    if s != [] {
      LowerCharTrimmable(s[0]);
      if IsTrimmable(s[0]) {
        assert Lower(s)[1..] == Lower(s[1..]);
        LowerTrimStart(s[1..]);
      }
    }
  }

  lemma {:induction false} LowerTrimEnd(s: string)
    ensures Lower(TrimEnd(s)) == TrimEnd(Lower(s))
    decreases |s|
  {
    if s != [] {
      LowerCharTrimmable(s[|s| - 1]);
      if IsTrimmable(s[|s| - 1]) {
        assert Lower(s)[..|s| - 1] == Lower(s[..|s| - 1]);
        LowerTrimEnd(s[..|s| - 1]);
      }
    }
  }

  /** Trimming and lower-casing commute, so the order in which they are applied does not matter. */
  lemma LowerTrimCommute(s: string)
    ensures Lower(Trim(s)) == Trim(Lower(s))
  {
    LowerTrimEnd(TrimStart(s));
    LowerTrimStart(s);
  }
}
