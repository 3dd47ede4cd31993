/**
 * The JavaScript string operations the component relies on: `split` with a
 * one-character separator, `trim`, `toLowerCase` and global `replace`.
 */
module Text {

  /** The characters `String.prototype.trim` removes: ECMA-262 WhiteSpace and LineTerminator. */
  predicate IsSpace(c: char)
  {
    || c == ' ' || c == '\t' || c == '\n' || c == '\r'
    || c == '\U{000B}' || c == '\U{000C}' || c == '\U{00A0}' || c == '\U{1680}'
    || ('\U{2000}' <= c <= '\U{200A}')
    || c == '\U{2028}' || c == '\U{2029}' || c == '\U{202F}' || c == '\U{205F}'
    || c == '\U{3000}' || c == '\U{FEFF}'
  }

  /** `s` without its leading white space. */
  function TrimStart(s: string): (r: string)
    ensures |r| <= |s| && r == s[|s| - |r|..]
    ensures forall k :: 0 <= k < |s| - |r| ==> IsSpace(s[k])
    ensures r == [] || !IsSpace(r[0])
    decreases |s|
  {
    if s != [] && IsSpace(s[0]) then TrimStart(s[1..]) else s
  }

  /** `s` without its trailing white space. */
  function TrimEnd(s: string): (r: string)
    ensures |r| <= |s| && r == s[..|r|]
    ensures forall k :: |r| <= k < |s| ==> IsSpace(s[k])
    ensures r == [] || !IsSpace(r[|r| - 1])
    decreases |s|
  {
    if s != [] && IsSpace(s[|s| - 1]) then TrimEnd(s[..|s| - 1]) else s
  }

  /**
   * `String.prototype.trim`: the longest piece of `s` that neither starts nor
   * ends with white space, found by dropping only white space on either side.
   */
  function Trim(s: string): (r: string)
    ensures var i := |s| - |TrimStart(s)|;
      && i + |r| <= |s| && r == s[i..i + |r|]
      && (forall k :: 0 <= k < i ==> IsSpace(s[k]))
      && (forall k :: i + |r| <= k < |s| ==> IsSpace(s[k]))
    ensures r == [] || (!IsSpace(r[0]) && !IsSpace(r[|r| - 1]))
  {
    TrimEnd(TrimStart(s))
  }

  predicate AllSpace(s: string)
  {
    forall k :: 0 <= k < |s| ==> IsSpace(s[k])
  }

  lemma {:induction false} TrimStartPadded(a: string, m: string)
    requires AllSpace(a) && (m == [] || !IsSpace(m[0]))
    ensures TrimStart(a + m) == m
    decreases |a|
  {
    if a == [] {
      assert a + m == m;
    } else {
      assert (a + m)[1..] == a[1..] + m;
      TrimStartPadded(a[1..], m);
    }
  }

  lemma {:induction false} TrimEndPadded(m: string, b: string)
    requires AllSpace(b) && (m == [] || !IsSpace(m[|m| - 1]))
    ensures TrimEnd(m + b) == m
    decreases |b|
  {
    if b == [] {
      assert m + b == m;
    } else {
      var s := m + b;
      assert s[..|s| - 1] == m + b[..|b| - 1];
      TrimEndPadded(m, b[..|b| - 1]);
    }
  }

  /**
   * Trimming is determined by its result: white space around a middle part
   * that neither starts nor ends with white space is exactly what is removed.
   */
  lemma TrimPadded(a: string, m: string, b: string)
    requires AllSpace(a) && AllSpace(b)
    requires m != [] && !IsSpace(m[0]) && !IsSpace(m[|m| - 1])
    ensures Trim(a + m + b) == m
  {
    assert a + m + b == a + (m + b);
    TrimStartPadded(a, m + b);
    TrimEndPadded(m, b);
  }

  predicate IsUpper(c: char)
  {
    'A' <= c <= 'Z'
  }

  function LowerChar(c: char): char
  {
    if IsUpper(c) then (c as int + 32) as char else c
  }

  /** `String.prototype.toLowerCase`, restricted to the ASCII letters. */
  function ToLower(s: string): (r: string)
    ensures |r| == |s|
    ensures forall k :: 0 <= k < |r| ==> !IsUpper(r[k])
    ensures forall k :: 0 <= k < |s| && !IsUpper(s[k]) ==> r[k] == s[k]
    ensures forall k :: 0 <= k < |s| && IsUpper(s[k]) ==> r[k] == (s[k] as int + 32) as char
  {
    seq(|s|, k requires 0 <= k < |s| => LowerChar(s[k]))
  }

  /** Lower-casing turns no character into white space and no white space into another character. */
  lemma LowerCharSpace(c: char)
    ensures IsSpace(LowerChar(c)) == IsSpace(c)
  {
  }

  /** Lower-casing keeps a non-space first and last character non-space. */
  lemma ToLowerKeepsEdges(t: string)
    ensures t != [] && !IsSpace(t[0]) ==> !IsSpace(ToLower(t)[0])
    ensures t != [] && !IsSpace(t[|t| - 1]) ==> !IsSpace(ToLower(t)[|t| - 1])
  {
    if t != [] {
      LowerCharSpace(t[0]);
      LowerCharSpace(t[|t| - 1]);
    }
  }

  /**
   * `s.split(sep)`: the pieces of `s` between separators, in order; `k`
   * separators give `k + 1` pieces, so the empty string gives `[""]`.
   */
  function Split(s: string, sep: char): (parts: seq<string>)
    ensures parts != []
    ensures forall i :: 0 <= i < |parts| ==> sep !in parts[i]
    decreases |s|
  {
    if s == [] then [""]
    else
      var rest := Split(s[1..], sep);
      assert s == [s[0]] + s[1..];
      if s[0] == sep then [""] + rest else [[s[0]] + rest[0]] + rest[1..]
  }

  /** There is one more piece than there are separators. */
  lemma {:induction false} SplitCount(s: string, sep: char)
    ensures |Split(s, sep)| == multiset(s)[sep] + 1
    decreases |s|
  {
    if s != [] {
      SplitCount(s[1..], sep);
      assert s == [s[0]] + s[1..];
      assert multiset(s) == multiset([s[0]]) + multiset(s[1..]);
    }
  }

  /** `parts.join(sep)`: the inverse of `Split`. */
  function Join(parts: seq<string>, sep: char): string
    requires parts != []
    decreases |parts|
  {
    if |parts| == 1 then parts[0] else parts[0] + [sep] + Join(parts[1..], sep)
  }

  lemma {:induction false} JoinSplit(s: string, sep: char)
    ensures Join(Split(s, sep), sep) == s
    decreases |s|
  {
    if s != [] {
      var t := s[1..];
      JoinSplit(t, sep);
      assert s == [s[0]] + t;
      SplitCons(s[0], t, sep);
      if s[0] == sep {
        JoinAfterEmpty(Split(t, sep), sep);
      } else {
        JoinExtendFirst(s[0], Split(t, sep), sep);
      }
    }
  }

  /** Splitting a string with a character in front. */
  lemma SplitCons(c: char, t: string, sep: char)
    ensures Split([c] + t, sep) ==
      if c == sep then [""] + Split(t, sep)
      else [[c] + Split(t, sep)[0]] + Split(t, sep)[1..]
  {
    assert ([c] + t)[1..] == t;
  }

  lemma JoinAfterEmpty(parts: seq<string>, sep: char)
    requires parts != []
    ensures Join([""] + parts, sep) == [sep] + Join(parts, sep)
  {
    assert ([""] + parts)[1..] == parts;
  }

  lemma JoinExtendFirst(c: char, parts: seq<string>, sep: char)
    requires parts != []
    ensures Join([[c] + parts[0]] + parts[1..], sep) == [c] + Join(parts, sep)
  {
    var q := [[c] + parts[0]] + parts[1..];
    if |parts| > 1 {
      assert q[1..] == parts[1..];
      assert Join(q, sep) == ([c] + parts[0]) + [sep] + Join(parts[1..], sep);
    }
  }

  /** Splitting `p + sep + t` where `p` holds no separator splits off `p` as the first piece. */
  lemma {:induction false} SplitAfterPiece(p: string, t: string, sep: char)
    requires sep !in p
    ensures Split(p + [sep] + t, sep) == [p] + Split(t, sep)
    decreases |p|
  {
    if p == [] {
      assert p + [sep] + t == [sep] + t;
      SplitCons(sep, t, sep);
    } else {
      var c, q := p[0], p[1..];
      var u := q + [sep] + t;
      assert p + [sep] + t == [c] + u;
      SplitAfterPiece(q, t, sep);
      SplitCons(c, u, sep);
      assert ([q] + Split(t, sep))[1..] == Split(t, sep);
      assert [c] + q == p;
    }
  }

  /** Two separator-free pieces joined by one separator split back into those two pieces. */
  lemma SplitTwo(t1: string, t2: string, sep: char)
    requires sep !in t1 && sep !in t2
    ensures Split(t1 + [sep] + t2, sep) == [t1, t2]
  {
    SplitAfterPiece(t1, t2, sep);
    SplitPiece(t2, sep);
  }

  lemma {:induction false} SplitPiece(p: string, sep: char)
    requires sep !in p
    ensures Split(p, sep) == [p]
    decreases |p|
  {
    if p != [] {
      SplitPiece(p[1..], sep);
      assert [p[0]] + p[1..] == p;
    }
  }

  lemma {:induction false} SplitJoin(parts: seq<string>, sep: char)
    requires parts != []
    requires forall i :: 0 <= i < |parts| ==> sep !in parts[i]
    ensures Split(Join(parts, sep), sep) == parts
    decreases |parts|
  {
    if |parts| == 1 {
      SplitPiece(parts[0], sep);
    } else {
      SplitJoin(parts[1..], sep);
      SplitAfterPiece(parts[0], Join(parts[1..], sep), sep);
      assert [parts[0]] + parts[1..] == parts;
    }
  }

  /** `pat` occurs in `s` starting at index `i`. */
  predicate OccursAt(s: string, pat: string, i: int)
  {
    0 <= i && i + |pat| <= |s| && s[i..i + |pat|] == pat
  }

  /**
   * Every occurrence of `pat` in `s`, found left to right without overlap,
   * replaced by `rep` taken literally.
   */
  function ReplaceAll(s: string, pat: string, rep: string): string
    requires pat != []
    decreases |s|
  {
    if |s| < |pat| then s
    else if s[..|pat|] == pat then rep + ReplaceAll(s[|pat|..], pat, rep)
    else [s[0]] + ReplaceAll(s[1..], pat, rep)
  }

  /** A string in which `pat` does not occur is left as it is. */
  lemma {:induction false} ReplaceAllAbsent(s: string, pat: string, rep: string)
    requires pat != []
    ensures (forall i :: !OccursAt(s, pat, i)) ==> ReplaceAll(s, pat, rep) == s
    decreases |s|
  {
    if (forall i :: !OccursAt(s, pat, i)) && |s| >= |pat| {
      assert !OccursAt(s, pat, 0);
      forall i ensures !OccursAt(s[1..], pat, i) {
        if OccursAt(s[1..], pat, i) {
          assert s[1..][i..i + |pat|] == s[i + 1..i + 1 + |pat|];
          assert OccursAt(s, pat, i + 1);
        }
      }
      ReplaceAllAbsent(s[1..], pat, rep);
      assert [s[0]] + s[1..] == s;
    }
  }

  /**
   * The scan is global and left to right: the text before the first
   * occurrence is kept, that occurrence becomes `rep`, and the rest of the
   * string is processed the same way.
   */
  lemma {:induction false} ReplaceAllFirst(a: string, b: string, pat: string, rep: string)
    requires pat != []
    requires forall j :: 0 <= j < |a| ==> !OccursAt(a + pat + b, pat, j)
    ensures ReplaceAll(a + pat + b, pat, rep) == a + rep + ReplaceAll(b, pat, rep)
    decreases |a|
  {
    if a == [] {
      assert a + pat + b == pat + b;
      ReplaceAllHit(b, pat, rep);
    } else {
      var s, t := a + pat + b, a[1..] + pat + b;
      assert s == [a[0]] + t;
      NoOccurrenceInTail(a, b, pat);
      ReplaceAllFirst(a[1..], b, pat, rep);
      ReplaceAllMiss(s, pat, rep);
      assert s[1..] == t;
      assert [a[0]] + (a[1..] + rep + ReplaceAll(b, pat, rep)) == a + rep + ReplaceAll(b, pat, rep);
    }
  }

  /** Dropping the first character of `a` keeps the text before the occurrence free of it. */
  lemma NoOccurrenceInTail(a: string, b: string, pat: string)
    requires a != []
    requires forall j :: 0 <= j < |a| ==> !OccursAt(a + pat + b, pat, j)
    ensures forall j :: 0 <= j < |a| - 1 ==> !OccursAt(a[1..] + pat + b, pat, j)
    ensures !OccursAt(a + pat + b, pat, 0)
  {
    var s := a + pat + b;
    assert s[1..] == a[1..] + pat + b;
    forall j | 0 <= j < |a| - 1 ensures !OccursAt(a[1..] + pat + b, pat, j) {
      OccursInTail(s, pat, j);
    }
  }

  /** Where no occurrence starts at the front, the first character is copied. */
  lemma ReplaceAllMiss(s: string, pat: string, rep: string)
    requires pat != [] && s != [] && !OccursAt(s, pat, 0)
    ensures ReplaceAll(s, pat, rep) == [s[0]] + ReplaceAll(s[1..], pat, rep)
  {
    if |s| < |pat| {
      assert [s[0]] + s[1..] == s;
    } else {
      assert s[0..|pat|] == s[..|pat|];
    }
  }

  /** An occurrence in `s` after its first character is one in `s[1..]`, one place earlier. */
  lemma OccursInTail(s: string, pat: string, j: nat)
    requires s != []
    ensures OccursAt(s[1..], pat, j) == OccursAt(s, pat, j + 1)
  {
    if j + |pat| <= |s| - 1 {
      assert s[1..][j..j + |pat|] == s[j + 1..j + 1 + |pat|];
    }
  }

  /** Text that cannot start an occurrence is copied through unchanged. */
  lemma {:induction false} ReplaceAllSkip(a: string, s: string, pat: string, rep: string)
    requires pat != [] && pat[0] !in a
    ensures ReplaceAll(a + s, pat, rep) == a + ReplaceAll(s, pat, rep)
    decreases |a|
  {
    if a != [] {
      var t := a + s;
      assert t[0] == a[0] && t[1..] == a[1..] + s;
      if |t| >= |pat| {
        assert t[..|pat|][0] == a[0];
      }
      ReplaceAllSkip(a[1..], s, pat, rep);
      assert [a[0]] + a[1..] == a;
    } else {
      assert a + s == s;
    }
  }

  /** An occurrence at the front is replaced and the scan resumes after it. */
  lemma ReplaceAllHit(s: string, pat: string, rep: string)
    requires pat != []
    ensures ReplaceAll(pat + s, pat, rep) == rep + ReplaceAll(s, pat, rep)
  {
    assert (pat + s)[..|pat|] == pat;
    assert (pat + s)[|pat|..] == s;
  }

  /**
   * The text `String.prototype.replace` inserts for one match when the
   * replacement is a string and the pattern has no capture groups (the
   * GetSubstitution operation of ECMA-262): `$$` stands for `$`, `$&` for
   * the match, `` $` `` for the text before it and `$'` for the text after
   * it; every other `$` is kept.
   */
  function Substitution(rep: string, matched: string, before: string, after: string): (r: string)
    ensures '$' !in rep ==> r == rep
    decreases |rep|
  {
    if rep == [] then []
    else if rep[0] == '$' && |rep| >= 2 && rep[1] == '$' then "$" + Substitution(rep[2..], matched, before, after)
    else if rep[0] == '$' && |rep| >= 2 && rep[1] == '&' then matched + Substitution(rep[2..], matched, before, after)
    else if rep[0] == '$' && |rep| >= 2 && rep[1] == '`' then before + Substitution(rep[2..], matched, before, after)
    else if rep[0] == '$' && |rep| >= 2 && rep[1] == '\'' then after + Substitution(rep[2..], matched, before, after)
    else
      assert rep == [rep[0]] + rep[1..];
      [rep[0]] + Substitution(rep[1..], matched, before, after)
  }

  /** `$&` inserts the matched text. */
  lemma SubstitutionOfMatch(matched: string, before: string, after: string)
    ensures Substitution("$&", matched, before, after) == matched
  {
    assert "$&"[2..] == [];
  }

  /**
   * `s.replace(/pat/g, rep)` as JavaScript evaluates it: every match is
   * replaced by `Substitution(rep, …)`, where `before` is the part of the
   * original string already scanned.
   */
  function ReplaceGlobalFrom(before: string, s: string, pat: string, rep: string): string
    requires pat != []
    decreases |s|
  {
    if |s| < |pat| then s
    else if s[..|pat|] == pat then
      Substitution(rep, pat, before, s[|pat|..]) + ReplaceGlobalFrom(before + pat, s[|pat|..], pat, rep)
    else [s[0]] + ReplaceGlobalFrom(before + [s[0]], s[1..], pat, rep)
  }

  /** `s.replace(/pat/g, rep)`; without `$` in `rep` it is the literal replacement. */
  function ReplaceGlobal(s: string, pat: string, rep: string): (r: string)
    requires pat != []
    ensures '$' !in rep ==> r == ReplaceAll(s, pat, rep)
  {
    if '$' !in rep then
      ReplaceGlobalIsLiteral([], s, pat, rep);
      ReplaceGlobalFrom([], s, pat, rep)
    else
      ReplaceGlobalFrom([], s, pat, rep)
  }

  lemma {:induction false} ReplaceGlobalSkip(before: string, a: string, s: string, pat: string, rep: string)
    requires pat != [] && pat[0] !in a
    ensures ReplaceGlobalFrom(before, a + s, pat, rep) == a + ReplaceGlobalFrom(before + a, s, pat, rep)
    decreases |a|
  {
    if a != [] {
      var t := a + s;
      assert t[0] == a[0] && t[1..] == a[1..] + s;
      if |t| >= |pat| {
        assert t[..|pat|][0] == a[0];
      }
      ReplaceGlobalSkip(before + [a[0]], a[1..], s, pat, rep);
      assert before + [a[0]] + a[1..] == before + a;
      assert [a[0]] + a[1..] == a;
    } else {
      assert a + s == s;
      assert before + a == before;
    }
  }

  lemma ReplaceGlobalHit(before: string, s: string, pat: string, rep: string)
    requires pat != []
    ensures ReplaceGlobalFrom(before, pat + s, pat, rep)
         == Substitution(rep, pat, before, s) + ReplaceGlobalFrom(before + pat, s, pat, rep)
  {
    assert (pat + s)[..|pat|] == pat;
    assert (pat + s)[|pat|..] == s;
  }

  /** Without a `$` in the replacement, JavaScript's global replace is the literal one. */
  lemma {:induction false} ReplaceGlobalIsLiteral(before: string, s: string, pat: string, rep: string)
    requires pat != [] && '$' !in rep
    ensures ReplaceGlobalFrom(before, s, pat, rep) == ReplaceAll(s, pat, rep)
    decreases |s|
  {
    if |s| >= |pat| {
      if s[..|pat|] == pat {
        ReplaceGlobalIsLiteral(before + pat, s[|pat|..], pat, rep);
      } else {
        ReplaceGlobalIsLiteral(before + [s[0]], s[1..], pat, rep);
      }
    }
  }
}
