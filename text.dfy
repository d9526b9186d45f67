/** The JavaScript string operations the front end relies on: `trim`, ASCII `toLowerCase`,
    `startsWith`, `includes`, `split`/`join` on one character, and `replaceAll` with a string
    pattern (including the `$` forms a replacement string may contain). */
module Text {

  /** The characters `String.prototype.trim` removes: ECMAScript WhiteSpace and LineTerminator. */
  predicate IsSpace(c: char) {
    var n := c as int;
    || n == 0x20 || 0x09 <= n <= 0x0D || n == 0xA0 || n == 0x1680 || 0x2000 <= n <= 0x200A
    || n == 0x2028 || n == 0x2029 || n == 0x202F || n == 0x205F || n == 0x3000 || n == 0xFEFF
  }

  /** True when `s.trim()` is the empty string, i.e. `s.trim()` is falsy. */
  predicate IsBlank(s: string) {
    forall i :: 0 <= i < |s| ==> IsSpace(s[i])
  }

  function TrimStart(s: string): (r: string)
    ensures |r| <= |s| && r == s[|s| - |r|..]
    ensures r == [] || !IsSpace(r[0])
    ensures IsBlank(s[..|s| - |r|])
  {
    if |s| > 0 && IsSpace(s[0]) then
      var r := TrimStart(s[1..]);
      assert s[1..][..|s| - 1 - |r|] == s[1..|s| - |r|];
      r
    else s
  }

  /** Leading white space makes no difference to what `TrimStart` keeps. */
  lemma {:induction false} TrimStartBlank(w: string, s: string)
    requires IsBlank(w)
    ensures TrimStart(w + s) == TrimStart(s)
    decreases |w|
  {
    if w != [] {
      assert IsSpace(w[0]);
      assert (w + s)[0] == w[0];
      assert (w + s)[1..] == w[1..] + s;
      assert IsBlank(w[1..]) by {
        forall i | 0 <= i < |w| - 1 ensures IsSpace(w[1..][i]) {
          assert w[1..][i] == w[i + 1];
        }
      }
      TrimStartBlank(w[1..], s);
      assert TrimStart(w + s) == TrimStart(w[1..] + s);
    } else {
      assert w + s == s;
    }
  }

  /** White space followed by one more white-space character is white space. */
  lemma BlankSnoc(s: string, k: nat)
    requires k < |s| && IsBlank(s[..|s| - 1][k..]) && IsSpace(s[|s| - 1])
    ensures IsBlank(s[k..])
  {
    forall m | 0 <= m < |s| - k ensures IsSpace(s[k..][m]) {
      if m < |s| - 1 - k {
        assert s[k..][m] == s[..|s| - 1][k..][m];
      }
    }
  }

  function TrimEnd(s: string): (r: string)
    ensures |r| <= |s| && r == s[..|r|]
    ensures r == [] || !IsSpace(r[|r| - 1])
    ensures IsBlank(s[|r|..])
  {
    if |s| > 0 && IsSpace(s[|s| - 1]) then
      var r := TrimEnd(s[..|s| - 1]);
      assert s[..|s| - 1][..|r|] == s[..|r|];
      BlankSnoc(s, |r|);
      r
    else s
  }

  /** `r` is the slice of `s` at `i`, and everything around it is white space. */
  predicate Framed(s: string, r: string, i: int) {
    0 <= i <= |s| - |r| && r == s[i..i + |r|] && IsBlank(s[..i]) && IsBlank(s[i + |r|..])
  }

  /** `String.prototype.trim`: the text between the leading and the trailing white space. */
  function Trim(s: string): (r: string)
    ensures exists i :: Framed(s, r, i)
    ensures r == [] || (!IsSpace(r[0]) && !IsSpace(r[|r| - 1]))
    ensures r == [] <==> IsBlank(s)
  {
    TrimFramed(s);
    TrimEdges(s);
    TrimEmpty(s);
    TrimEnd(TrimStart(s))
  }

  /** The result of the two scans sits where `TrimStart` left off. */
  lemma TrimFramed(s: string)
    ensures Framed(s, TrimEnd(TrimStart(s)), |s| - |TrimStart(s)|)
  {
    FramedByTrims(s, TrimStart(s), TrimEnd(TrimStart(s)));
  }

  /** What `TrimStart` and `TrimEnd` promise, put together: the result is framed by white space. */
  lemma FramedByTrims(s: string, t: string, r: string)
    requires |t| <= |s| && t == s[|s| - |t|..] && IsBlank(s[..|s| - |t|])
    requires |r| <= |t| && r == t[..|r|] && IsBlank(t[|r|..])
    ensures Framed(s, r, |s| - |t|)
  {
    var i := |s| - |t|;
    assert t[..|r|] == s[i..i + |r|];
    assert t[|r|..] == s[i + |r|..];
  }

  lemma TrimEdges(s: string)
    ensures var r := TrimEnd(TrimStart(s)); r == [] || (!IsSpace(r[0]) && !IsSpace(r[|r| - 1]))
  {
    var t := TrimStart(s);
    var r := TrimEnd(t);
    if r != [] {
      assert r[0] == t[0];
    }
  }

  lemma TrimEmpty(s: string)
    ensures TrimEnd(TrimStart(s)) == [] <==> IsBlank(s)
  {
    var t := TrimStart(s);
    var i := |s| - |t|;
    assert t == s[i..];
    if TrimEnd(t) == [] {
      assert IsBlank(t);
      forall k | 0 <= k < |s| ensures IsSpace(s[k]) {
        if k < i { assert s[k] == s[..i][k]; } else { assert s[k] == t[k - i]; }
      }
    }
  }

  /** `pieces.map(p => p.trim())`. */
  function TrimEach(pieces: seq<string>): (r: seq<string>)
    ensures |r| == |pieces|
    ensures forall k :: 0 <= k < |r| ==> r[k] == Trim(pieces[k])
  {
    seq(|pieces|, k requires 0 <= k < |pieces| => Trim(pieces[k]))
  }

  /** `toLowerCase` on the ASCII letters; every other character is kept. */
  function LowerChar(c: char): (d: char)
    ensures 'A' <= c <= 'Z' ==> d as int == c as int + 32
    ensures !('A' <= c <= 'Z') ==> d == c
  {
    if 'A' <= c <= 'Z' then (c as int + 32) as char else c
  }

  function ToLower(s: string): (r: string)
    ensures |r| == |s|
    ensures forall i :: 0 <= i < |s| ==> r[i] == LowerChar(s[i])
  {
    if s == [] then [] else [LowerChar(s[0])] + ToLower(s[1..])
  }

  /** A character the regular expression `.` matches: anything but a line terminator. */
  predicate LineChar(c: char) {
    c != '\n' && c != '\r' && c as int != 0x2028 && c as int != 0x2029
  }

  /** `s.startsWith(p)`. */
  predicate StartsWith(s: string, p: string) {
    |p| <= |s| && s[..|p|] == p
  }

  /** `t` occurs in `s` starting at index `i`. */
  predicate OccursAt(s: string, t: string, i: int) {
    0 <= i && i + |t| <= |s| && s[i..i + |t|] == t
  }

  /** `s.includes(t)`. */
  predicate Contains(s: string, t: string) {
    exists i :: 0 <= i <= |s| - |t| && OccursAt(s, t, i)
  }

  /** `pieces.join(sep)` for a one-character separator. */
  function Join(pieces: seq<string>, sep: char): string {
    if |pieces| == 0 then []
    else if |pieces| == 1 then pieces[0]
    else pieces[0] + [sep] + Join(pieces[1..], sep)
  }

  lemma JoinConsHead(c: char, p: string, ps: seq<string>, sep: char)
    ensures Join([[c] + p] + ps, sep) == [c] + Join([p] + ps, sep)
  {
    assert ([[c] + p] + ps)[1..] == ps == ([p] + ps)[1..];
  }

  /** `s.split(sep)` for a one-character separator: never empty, no piece holds `sep`,
      and joining the pieces gives `s` back. */
  function Split(s: string, sep: char): (r: seq<string>)
    ensures |r| >= 1
    ensures forall k :: 0 <= k < |r| ==> sep !in r[k]
    ensures Join(r, sep) == s
  {
    if s == [] then [[]]
    else
      var rest := Split(s[1..], sep);
      if s[0] == sep then
        assert ([[]] + rest)[1..] == rest;
        [[]] + rest
      else
        JoinConsHead(s[0], rest[0], rest[1..], sep);
        assert [rest[0]] + rest[1..] == rest;
        [[s[0]] + rest[0]] + rest[1..]
  }

  /** How many times `c` occurs in `s`. */
  function CountChar(s: string, c: char): nat {
    if s == [] then 0 else (if s[0] == c then 1 else 0) + CountChar(s[1..], c)
  }

  /** `split` on one character yields one piece more than there are separators. */
  lemma {:induction false} SplitLength(s: string, sep: char)
    ensures |Split(s, sep)| == CountChar(s, sep) + 1
    decreases |s|
  {
    if s != [] {
      SplitLength(s[1..], sep);
    }
  }

  /** The other half of the round trip: splitting a join of separator-free pieces gives the pieces. */
  lemma {:induction false} SplitJoin(ps: seq<string>, sep: char)
    requires |ps| >= 1
    requires forall k :: 0 <= k < |ps| ==> sep !in ps[k]
    ensures Split(Join(ps, sep), sep) == ps
    decreases |ps|, |ps[0]|
  {
    if |ps[0]| == 0 {
      if |ps| == 1 {
      } else {
        var rest := ps[1..];
        SplitJoin(rest, sep);
        assert Join(ps, sep) == [sep] + Join(rest, sep);
        assert [sep] + Join(rest, sep) != [];
        assert ([sep] + Join(rest, sep))[1..] == Join(rest, sep);
        assert [ps[0]] + rest == ps;
      }
    } else {
      var c := ps[0][0];
      var ps' := [ps[0][1..]] + ps[1..];
      assert ps[0] == [c] + ps[0][1..];
      assert [ps[0]] + ps[1..] == ps;
      JoinConsHead(c, ps[0][1..], ps[1..], sep);
      assert Join(ps, sep) == [c] + Join(ps', sep);
      assert forall k :: 0 <= k < |ps'| ==> sep !in ps'[k] by {
        forall k | 0 <= k < |ps'| ensures sep !in ps'[k] {
          if k == 0 {
            assert forall x :: x in ps'[0] ==> x in ps[0];
          } else {
            assert ps'[k] == ps[k];
          }
        }
      }
      SplitJoin(ps', sep);
      assert ([c] + Join(ps', sep))[1..] == Join(ps', sep);
      assert c != sep;
    }
  }

  /** GetSubstitution for a string pattern: `$$` is `$`, `$&` the matched text, `` $` `` the text
      before the match, `$'` the text after it; any other character is copied. */
  function Substitution(rep: string, s: string, pos: nat, len: nat): string
    requires pos + len <= |s|
    decreases |rep|
  {
    if |rep| == 0 then []
    else if rep[0] == '$' && |rep| >= 2 && rep[1] == '$' then "$" + Substitution(rep[2..], s, pos, len)
    else if rep[0] == '$' && |rep| >= 2 && rep[1] == '&' then s[pos..pos + len] + Substitution(rep[2..], s, pos, len)
    else if rep[0] == '$' && |rep| >= 2 && rep[1] == '`' then s[..pos] + Substitution(rep[2..], s, pos, len)
    else if rep[0] == '$' && |rep| >= 2 && rep[1] == '\'' then s[pos + len..] + Substitution(rep[2..], s, pos, len)
    else [rep[0]] + Substitution(rep[1..], s, pos, len)
  }

  lemma {:induction false} SubstitutionPlain(rep: string, s: string, pos: nat, len: nat)
    requires pos + len <= |s|
    requires '$' !in rep
    ensures Substitution(rep, s, pos, len) == rep
    decreases |rep|
  {
    if |rep| > 0 {
      assert rep[0] != '$';
      assert forall x :: x in rep[1..] ==> x in rep;
      SubstitutionPlain(rep[1..], s, pos, len);
      assert [rep[0]] + rep[1..] == rep;
    }
  }

  /** `s.replaceAll(pat, rep)` for a non-empty string pattern, scanning from index `i`. */
  function ReplaceFrom(s: string, i: nat, pat: string, rep: string): string
    requires |pat| > 0 && i <= |s|
    decreases |s| - i
  {
    if i + |pat| > |s| then s[i..]
    else if OccursAt(s, pat, i) then Substitution(rep, s, i, |pat|) + ReplaceFrom(s, i + |pat|, pat, rep)
    else [s[i]] + ReplaceFrom(s, i + 1, pat, rep)
  }

  function ReplaceAll(s: string, pat: string, rep: string): string
    requires |pat| > 0
  {
    ReplaceFrom(s, 0, pat, rep)
  }

  /** The same scan when the replacement holds no `$`, written on the remaining text: every
      match is written as `rep` itself. */
  function PlainReplace(s: string, pat: string, rep: string): string
    requires |pat| > 0
    decreases |s|
  {
    if |s| < |pat| then s
    else if StartsWith(s, pat) then rep + PlainReplace(s[|pat|..], pat, rep)
    else [s[0]] + PlainReplace(s[1..], pat, rep)
  }

  /** One step of the plain scan, seen from the index where it stands. */
  lemma PlainStep(s: string, i: nat, pat: string, rep: string)
    requires |pat| > 0 && i + |pat| <= |s|
    ensures OccursAt(s, pat, i) ==> PlainReplace(s[i..], pat, rep) == rep + PlainReplace(s[i + |pat|..], pat, rep)
    ensures !OccursAt(s, pat, i) ==> PlainReplace(s[i..], pat, rep) == [s[i]] + PlainReplace(s[i + 1..], pat, rep)
  {
    var t := s[i..];
    assert t[..|pat|] == s[i..i + |pat|];
    assert t[|pat|..] == s[i + |pat|..];
    assert t[1..] == s[i + 1..];
  }

  /** One step of the `replaceAll` scan when the replacement holds no `$`. */
  lemma ReplaceFromStep(s: string, i: nat, pat: string, rep: string)
    requires |pat| > 0 && i + |pat| <= |s| && '$' !in rep
    ensures OccursAt(s, pat, i) ==> ReplaceFrom(s, i, pat, rep) == rep + ReplaceFrom(s, i + |pat|, pat, rep)
    ensures !OccursAt(s, pat, i) ==> ReplaceFrom(s, i, pat, rep) == [s[i]] + ReplaceFrom(s, i + 1, pat, rep)
  {
    SubstitutionPlain(rep, s, i, |pat|);
  }

  /** A match at `i`: both scans emit the replacement and agree on what follows. */
  lemma ReplaceFromPlainHit(s: string, i: nat, pat: string, rep: string)
    requires |pat| > 0 && i + |pat| <= |s| && '$' !in rep && OccursAt(s, pat, i)
    requires ReplaceFrom(s, i + |pat|, pat, rep) == PlainReplace(s[i + |pat|..], pat, rep)
    ensures ReplaceFrom(s, i, pat, rep) == PlainReplace(s[i..], pat, rep)
  {
    ReplaceFromStep(s, i, pat, rep);
    PlainStep(s, i, pat, rep);
  }

  /** No match at `i`: both scans copy `s[i]` and agree on what follows. */
  lemma ReplaceFromPlainMiss(s: string, i: nat, pat: string, rep: string)
    requires |pat| > 0 && i + |pat| <= |s| && '$' !in rep && !OccursAt(s, pat, i)
    requires ReplaceFrom(s, i + 1, pat, rep) == PlainReplace(s[i + 1..], pat, rep)
    ensures ReplaceFrom(s, i, pat, rep) == PlainReplace(s[i..], pat, rep)
  {
    ReplaceFromStep(s, i, pat, rep);
    PlainStep(s, i, pat, rep);
  }

  /** Too little left for a match: both scans copy the rest. */
  lemma ReplaceFromPlainShort(s: string, i: nat, pat: string, rep: string)
    requires |pat| > 0 && i <= |s| < i + |pat|
    ensures ReplaceFrom(s, i, pat, rep) == s[i..] == PlainReplace(s[i..], pat, rep)
  {
  }

  /** Without `$` in the replacement, the `replaceAll` scan from `i` is the plain scan of `s[i..]`. */
  lemma {:induction false} ReplaceFromPlain(s: string, i: nat, pat: string, rep: string)
    requires |pat| > 0 && i <= |s| && '$' !in rep
    ensures ReplaceFrom(s, i, pat, rep) == PlainReplace(s[i..], pat, rep)
    decreases |s| - i
  {
    if i + |pat| <= |s| {
      if OccursAt(s, pat, i) {
        ReplaceFromPlain(s, i + |pat|, pat, rep);
        ReplaceFromPlainHit(s, i, pat, rep);
      } else {
        ReplaceFromPlain(s, i + 1, pat, rep);
        ReplaceFromPlainMiss(s, i, pat, rep);
      }
    } else {
      ReplaceFromPlainShort(s, i, pat, rep);
    }
  }

  lemma ReplaceFromNoOccurrence(s: string, i: nat, pat: string, rep: string)
    requires |pat| > 0 && i <= |s|
    requires !Contains(s, pat)
    ensures ReplaceFrom(s, i, pat, rep) == s[i..]
    decreases |s| - i
  {
    if i + |pat| <= |s| {
      assert !OccursAt(s, pat, i);
      ReplaceFromNoOccurrence(s, i + 1, pat, rep);
      assert s[i..] == [s[i]] + s[i + 1..];
    }
  }

  /** A string without the pattern is left as it is. */
  lemma ReplaceAllNoOccurrence(s: string, pat: string, rep: string)
    requires |pat| > 0
    requires !Contains(s, pat)
    ensures ReplaceAll(s, pat, rep) == s
  {
    ReplaceFromNoOccurrence(s, 0, pat, rep);
  }

  /** Dropping the first character keeps a string free of `pat`. */
  lemma ContainsTail(t: string, pat: string)
    requires |t| > 0 && !Contains(t, pat)
    ensures !Contains(t[1..], pat)
  {
    if Contains(t[1..], pat) {
      var k :| 0 <= k <= |t[1..]| - |pat| && OccursAt(t[1..], pat, k);
      assert t[k + 1..k + 1 + |pat|] == t[1..][k..k + |pat|];
      assert OccursAt(t, pat, k + 1);
    }
  }

  /** A scan that starts on the pattern writes `rep` and goes on after it. */
  lemma PlainAtPattern(pat: string, b: string, rep: string)
    requires |pat| > 0
    ensures PlainReplace(pat + b, pat, rep) == rep + PlainReplace(b, pat, rep)
  {
    var s := pat + b;
    assert s[..|pat|] == pat;
    assert s[|pat|..] == b;
  }

  /** Before the first occurrence, a scan copies one character and goes on. */
  lemma PlainCopies(a: string, b: string, pat: string, rep: string)
    requires |pat| > 0 && |a| > 0
    requires !Contains(a + pat[..|pat| - 1], pat)
    ensures PlainReplace(a + pat + b, pat, rep) == [a[0]] + PlainReplace(a[1..] + pat + b, pat, rep)
    ensures !Contains(a[1..] + pat[..|pat| - 1], pat)
  {
    var s := a + pat + b;
    var t := a + pat[..|pat| - 1];
    assert s[..|pat|] == t[..|pat|];
    assert !OccursAt(t, pat, 0);
    ContainsTail(t, pat);
    assert t[1..] == a[1..] + pat[..|pat| - 1];
    assert s[1..] == a[1..] + pat + b;
  }

  lemma {:induction false} PlainPrefix(a: string, b: string, pat: string, rep: string)
    requires |pat| > 0
    requires !Contains(a + pat[..|pat| - 1], pat)
    ensures PlainReplace(a + pat + b, pat, rep) == a + rep + PlainReplace(b, pat, rep)
    decreases |a|
  {
    if a == [] {
      assert a + pat + b == pat + b;
      PlainAtPattern(pat, b, rep);
    } else {
      PlainCopies(a, b, pat, rep);
      PlainPrefix(a[1..], b, pat, rep);
      assert a == [a[0]] + a[1..];
    }
  }

  /** The first occurrence is replaced and scanning resumes after it: when `pat` first occurs
      right after `a`, `replaceAll` keeps `a`, writes `rep` and continues on the rest. */
  lemma ReplaceAllFirst(a: string, b: string, pat: string, rep: string)
    requires |pat| > 0 && '$' !in rep
    requires !Contains(a + pat[..|pat| - 1], pat)
    ensures ReplaceAll(a + pat + b, pat, rep) == a + rep + ReplaceAll(b, pat, rep)
  {
    ReplaceFromPlain(a + pat + b, 0, pat, rep);
    PlainPrefix(a, b, pat, rep);
    ReplaceFromPlain(b, 0, pat, rep);
    assert (a + pat + b)[0..] == a + pat + b;
    assert b[0..] == b;
  }

  /** The pieces one after another (`parts.join('')`), built from the left as a stream builds it. */
  function Concat(ps: seq<string>): string {
    if ps == [] then [] else Concat(ps[..|ps| - 1]) + ps[|ps| - 1]
  }

  lemma {:induction false} JoinSnoc(ps: seq<string>, p: string, sep: char)
    requires |ps| >= 1
    ensures Join(ps + [p], sep) == Join(ps, sep) + [sep] + p
    decreases |ps|
  {
    if |ps| == 1 {
      assert (ps + [p])[1..] == [p];
    } else {
      assert (ps + [p])[1..] == ps[1..] + [p];
      JoinSnoc(ps[1..], p, sep);
    }
  }

  /** `s.split(sep).pop()`: the text after the last `sep`, or all of `s` when it has none. */
  function LastPiece(s: string, sep: char): string {
    var ps := Split(s, sep);
    ps[|ps| - 1]
  }

  /** The last piece holds no separator, ends `s`, and what comes before it is empty or ends
      with the separator. */
  lemma LastPieceIsTail(s: string, sep: char)
    ensures sep !in LastPiece(s, sep)
    ensures exists pre :: s == pre + LastPiece(s, sep) && (pre == [] || pre[|pre| - 1] == sep)
  {
    var ps := Split(s, sep);
    var n := |ps|;
    if n == 1 {
      assert s == [] + ps[0];
    } else {
      var front := ps[..n - 1];
      assert ps == front + [ps[n - 1]];
      JoinSnoc(front, ps[n - 1], sep);
      var pre := Join(front, sep) + [sep];
      assert s == pre + LastPiece(s, sep);
    }
  }
}
