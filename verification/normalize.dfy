/** The text normalisation `checkRule` applies before every substring check:
    `code.replace(/\s+/g, ' ').trim()`. */
module Normalization {
  import opened Text

  /** Every maximal run of white space replaced by one ' ', scanning left to
      right; `inRun` says that the character just before `s` was white space
      whose run has already been replaced. */
  function CollapseFrom(s: string, inRun: bool): (t: string)
    ensures |t| <= |s|
  {
    if s == [] then []
    else if IsSpace(s[0]) then
      (if inRun then CollapseFrom(s[1..], true) else [' '] + CollapseFrom(s[1..], true))
    else [s[0]] + CollapseFrom(s[1..], false)
  }

  /** `s.replace(/\s+/g, ' ')` */
  function Collapse(s: string): string {
    CollapseFrom(s, false)
  }

  /** Leading white space removed (the first half of `trim`). */
  function TrimStart(s: string): string {
    if s != [] && IsSpace(s[0]) then TrimStart(s[1..]) else s
  }

  /** `TrimStart` keeps a suffix, drops only white space, and leaves no
      white space in front. */
  lemma {:induction false} TrimStartSpec(s: string)
    ensures var t := TrimStart(s);
      && |t| <= |s| && t == s[|s| - |t|..]
      && (forall i :: 0 <= i < |s| - |t| ==> IsSpace(s[i]))
      && (t == [] || !IsSpace(t[0]))
  {
    if s != [] && IsSpace(s[0]) {
      TrimStartSpec(s[1..]);
      var t := TrimStart(s[1..]);
      assert s[1..][|s| - 1 - |t|..] == s[|s| - |t|..];
      forall i | 1 <= i < |s| - |t| ensures IsSpace(s[i]) {
        assert s[i] == s[1..][i - 1];
      }
    }
  }

  /** Trailing white space removed (the second half of `trim`). */
  function TrimEnd(s: string): string {
    if s != [] && IsSpace(s[|s| - 1]) then TrimEnd(s[..|s| - 1]) else s
  }

  /** `TrimEnd` keeps a prefix, drops only white space, and leaves no white
      space at the end. */
  lemma {:induction false} TrimEndSpec(s: string)
    ensures var t := TrimEnd(s);
      && |t| <= |s| && t == s[..|t|]
      && (forall i :: |t| <= i < |s| ==> IsSpace(s[i]))
      && (t == [] || !IsSpace(t[|t| - 1]))
  {
    if s != [] && IsSpace(s[|s| - 1]) {
      TrimEndSpec(s[..|s| - 1]);
      var t := TrimEnd(s[..|s| - 1]);
      assert s[..|s| - 1][..|t|] == s[..|t|];
      forall i | |t| <= i < |s| - 1 ensures IsSpace(s[i]) {
        assert s[i] == s[..|s| - 1][i];
      }
    }
  }

  /** `code.replace(/\s+/g, ' ').trim()` */
  function Normalize(code: string): string {
    TrimEnd(TrimStart(Collapse(code)))
  }

  // ----- The shape of normalised text -----

  /** The only white-space character is the plain space. */
  predicate SpacesArePlain(t: string) {
    forall i :: 0 <= i < |t| && IsSpace(t[i]) ==> t[i] == ' '
  }

  /** No two white-space characters are adjacent. */
  predicate NoDoubleSpace(t: string) {
    forall i :: 0 <= i < |t| - 1 ==> !(IsSpace(t[i]) && IsSpace(t[i + 1]))
  }

  /** No white space at either end. */
  predicate Trimmed(t: string) {
    t == [] || (!IsSpace(t[0]) && !IsSpace(t[|t| - 1]))
  }

  predicate NormalForm(t: string) {
    SpacesArePlain(t) && NoDoubleSpace(t) && Trimmed(t)
  }

  lemma {:induction false} CollapseFromShape(s: string, inRun: bool)
    ensures SpacesArePlain(CollapseFrom(s, inRun))
    ensures NoDoubleSpace(CollapseFrom(s, inRun))
    ensures inRun ==> CollapseFrom(s, inRun) == [] || !IsSpace(CollapseFrom(s, inRun)[0])
  {
    if s != [] {
      if IsSpace(s[0]) {
        CollapseFromShape(s[1..], true);
      } else {
        CollapseFromShape(s[1..], false);
      }
    }
  }

  /** The normalised text has no white space at its ends, none but ' ', and
      never two white-space characters in a row. */
  lemma {:induction false} NormalizeShape(code: string)
    ensures NormalForm(Normalize(code))
  {
    CollapseFromShape(code, false);
    TrimStartSpec(Collapse(code));
    TrimStartKeepsShape(Collapse(code));
    TrimEndKeepsShape(TrimStart(Collapse(code)));
  }

  lemma {:induction false} TrimStartKeepsShape(c: string)
    requires SpacesArePlain(c) && NoDoubleSpace(c)
    ensures SpacesArePlain(TrimStart(c)) && NoDoubleSpace(TrimStart(c))
  {
    TrimStartSpec(c);
    var t := TrimStart(c);
    assert t == c[|c| - |t|..|c|];
    SliceKeepsShape(c, |c| - |t|, |c|);
  }

  lemma {:induction false} TrimEndKeepsShape(t: string)
    requires SpacesArePlain(t) && NoDoubleSpace(t)
    requires t == [] || !IsSpace(t[0])
    ensures NormalForm(TrimEnd(t))
  {
    TrimEndSpec(t);
    var u := TrimEnd(t);
    assert u == t[0..|u|];
    SliceKeepsShape(t, 0, |u|);
    assert u == [] || u[0] == t[0];
  }

  lemma {:induction false} SliceKeepsShape(s: string, i: nat, j: nat)
    requires i <= j <= |s|
    requires SpacesArePlain(s) && NoDoubleSpace(s)
    ensures SpacesArePlain(s[i..j]) && NoDoubleSpace(s[i..j])
  {
    var t := s[i..j];
    forall k | 0 <= k < |t| ensures t[k] == s[i + k] { }
    forall k | 0 <= k < |t| - 1 ensures !(IsSpace(t[k]) && IsSpace(t[k + 1])) {
      assert t[k] == s[i + k] && t[k + 1] == s[i + k + 1];
    }
  }

  // ----- Non-space content is kept -----

  /** The non-white-space characters of `s`, in order. */
  function NonSpace(s: string): (t: string)
    ensures forall i :: 0 <= i < |t| ==> !IsSpace(t[i])
  {
    if s == [] then [] else (if IsSpace(s[0]) then [] else [s[0]]) + NonSpace(s[1..])
  }

  lemma {:induction false} NonSpaceAppend(a: string, b: string)
    ensures NonSpace(a + b) == NonSpace(a) + NonSpace(b)
  {
    if a != [] {
      var h := if IsSpace(a[0]) then [] else [a[0]];
      assert (a + b)[0] == a[0] && (a + b)[1..] == a[1..] + b;
      assert NonSpace(a + b) == h + NonSpace(a[1..] + b);
      NonSpaceAppend(a[1..], b);
      assert NonSpace(a) == h + NonSpace(a[1..]);
    } else {
      assert a + b == b;
    }
  }

  lemma {:induction false} NonSpaceAllSpace(s: string)
    requires forall i :: 0 <= i < |s| ==> IsSpace(s[i])
    ensures NonSpace(s) == []
  {
    if s != [] {
      NonSpaceAllSpace(s[1..]);
    }
  }

  lemma {:induction false} NonSpaceEmpty(s: string)
    requires NonSpace(s) == []
    ensures forall i :: 0 <= i < |s| ==> IsSpace(s[i])
  {
    if s != [] {
      NonSpaceEmpty(s[1..]);
    }
  }

  lemma {:induction false} CollapseFromNonSpace(s: string, inRun: bool)
    ensures NonSpace(CollapseFrom(s, inRun)) == NonSpace(s)
  {
    if s != [] {
      if IsSpace(s[0]) {
        CollapseFromNonSpace(s[1..], true);
        if !inRun {
          NonSpaceAppend([' '], CollapseFrom(s[1..], true));
        }
      } else {
        CollapseFromNonSpace(s[1..], false);
        NonSpaceAppend([s[0]], CollapseFrom(s[1..], false));
      }
    }
  }

  lemma {:induction false} TrimStartKeepsNonSpace(c: string)
    ensures NonSpace(TrimStart(c)) == NonSpace(c)
  {
    TrimStartSpec(c);
    var t := TrimStart(c);
    var k := |c| - |t|;
    assert c == c[..k] + t;
    NonSpaceAllSpace(c[..k]);
    NonSpaceAppend(c[..k], t);
  }

  lemma {:induction false} TrimEndKeepsNonSpace(t: string)
    ensures NonSpace(TrimEnd(t)) == NonSpace(t)
  {
    TrimEndSpec(t);
    var u := TrimEnd(t);
    assert t == u + t[|u|..];
    NonSpaceAllSpace(t[|u|..]);
    NonSpaceAppend(u, t[|u|..]);
  }

  /** Normalisation keeps every non-white-space character, in order. */
  lemma {:induction false} NormalizeKeepsNonSpace(code: string)
    ensures NonSpace(Normalize(code)) == NonSpace(code)
  {
    CollapseFromNonSpace(code, false);
    TrimStartKeepsNonSpace(Collapse(code));
    TrimEndKeepsNonSpace(TrimStart(Collapse(code)));
  }

  /** Code made only of white space normalises to the empty string. */
  lemma {:induction false} BlankCodeNormalizesToEmpty(code: string)
    requires forall i :: 0 <= i < |code| ==> IsSpace(code[i])
    ensures Normalize(code) == ""
  {
    var n := Normalize(code);
    NonSpaceAllSpace(code);
    NormalizeKeepsNonSpace(code);
    NonSpaceEmpty(n);
    NormalizeShape(code);
  }

  // ----- White-space invariance -----

  /** Whether the scan is inside a white-space run after reading `a`. */
  function RunAfter(a: string, inRun: bool): bool {
    if a == [] then inRun else IsSpace(a[|a| - 1])
  }

  lemma {:induction false} CollapseFromAppend(a: string, b: string, inRun: bool)
    ensures CollapseFrom(a + b, inRun) == CollapseFrom(a, inRun) + CollapseFrom(b, RunAfter(a, inRun))
  {
    if a != [] {
      assert (a + b)[0] == a[0] && (a + b)[1..] == a[1..] + b;
      var r := IsSpace(a[0]);
      var h := if r && inRun then [] else if r then [' '] else [a[0]];
      assert CollapseFrom(a + b, inRun) == h + CollapseFrom(a[1..] + b, r);
      assert CollapseFrom(a, inRun) == h + CollapseFrom(a[1..], r);
      CollapseFromAppend(a[1..], b, r);
      assert RunAfter(a[1..], r) == RunAfter(a, inRun);
    } else {
      assert a + b == b;
    }
  }

  /** Widening a white-space run by one more white-space character, or
      replacing a white-space character by another one, leaves the
      normalised text unchanged. */
  lemma {:induction false} WhitespaceInvariance(before: string, after: string, c: char, d: char)
    requires IsSpace(c) && IsSpace(d)
    ensures Normalize(before + [c] + after) == Normalize(before + [c, d] + after)
    ensures Normalize(before + [c] + after) == Normalize(before + [d] + after)
  {
    var r := RunAfter(before, false);
    assert before + [c] + after == before + ([c] + after);
    assert before + [c, d] + after == before + ([c, d] + after);
    assert before + [d] + after == before + ([d] + after);
    CollapseFromAppend(before, [c] + after, false);
    CollapseFromAppend(before, [c, d] + after, false);
    CollapseFromAppend(before, [d] + after, false);
    assert ([c, d] + after)[1..] == [d] + after;
    assert ([d] + after)[1..] == after;
    assert ([c] + after)[1..] == after;
  }

  // ----- Normalisation commutes with lower-casing -----

  lemma {:induction false} CollapseFromLower(s: string, inRun: bool)
    ensures CollapseFrom(Lower(s), inRun) == Lower(CollapseFrom(s, inRun))
  {
    if s != [] {
      assert Lower(s)[1..] == Lower(s[1..]);
      var r := IsSpace(s[0]);
      CollapseFromLower(s[1..], r);
      if r {
        if !inRun {
          LowerAppend([' '], CollapseFrom(s[1..], true));
        }
      } else {
        LowerAppend([s[0]], CollapseFrom(s[1..], false));
      }
    }
  }

  lemma {:induction false} TrimStartLower(s: string)
    ensures TrimStart(Lower(s)) == Lower(TrimStart(s))
  {
    if s != [] {
      assert Lower(s)[1..] == Lower(s[1..]);
      TrimStartLower(s[1..]);
    }
  }

  lemma {:induction false} TrimEndLower(s: string)
    ensures TrimEnd(Lower(s)) == Lower(TrimEnd(s))
    decreases |s|
  {
    if s != [] {
      LowerSlice(s, 0, |s| - 1);
      assert Lower(s)[..|s| - 1] == Lower(s)[0..|s| - 1];
      assert s[..|s| - 1] == s[0..|s| - 1];
      TrimEndLower(s[..|s| - 1]);
    }
  }

  /** Lower-casing before or after normalising gives the same text. */
  lemma {:induction false} NormalizeLower(code: string)
    ensures Normalize(Lower(code)) == Lower(Normalize(code))
  {
    CollapseFromLower(code, false);
    TrimStartLower(Collapse(code));
    TrimEndLower(TrimStart(Collapse(code)));
  }

  // ----- Pieces already in normal form survive normalisation -----

  lemma {:induction false} CollapseFromNormal(s: string, inRun: bool)
    requires SpacesArePlain(s) && NoDoubleSpace(s)
    requires s == [] || !IsSpace(s[|s| - 1])
    requires inRun ==> s == [] || !IsSpace(s[0])
    ensures CollapseFrom(s, inRun) == s
  {
    if s != [] {
      if IsSpace(s[0]) {
        assert s[0] == ' ' && |s| > 1 && !IsSpace(s[1]);
        CollapseFromNormal(s[1..], true);
      } else {
        CollapseFromNormal(s[1..], false);
      }
    }
  }

  lemma {:induction false} TrimStartBeforeWord(x: string, y: string)
    requires y != [] && !IsSpace(y[0])
    ensures TrimStart(x + y) == TrimStart(x) + y
  {
    if x != [] {
      assert (x + y)[1..] == x[1..] + y;
      TrimStartBeforeWord(x[1..], y);
    }
  }

  lemma {:induction false} TrimEndAfterWord(x: string, y: string)
    requires x != [] && !IsSpace(x[|x| - 1])
    ensures TrimEnd(x + y) == x + TrimEnd(y)
    decreases |y|
  {
    if y != [] {
      assert (x + y)[..|x + y| - 1] == x + y[..|y| - 1];
      TrimEndAfterWord(x, y[..|y| - 1]);
    } else {
      assert x + y == x;
    }
  }

  lemma {:induction false} CollapseAroundPiece(before: string, piece: string, after: string)
    returns (x: string, y: string)
    requires piece != [] && NormalForm(piece)
    ensures Collapse(before + piece + after) == x + piece + y
  {
    var ra := RunAfter(before, false);
    assert before + piece + after == before + (piece + after);
    CollapseFromAppend(before, piece + after, false);
    CollapseFromAppend(piece, after, ra);
    CollapseFromNormal(piece, ra);
    x := Collapse(before);
    y := CollapseFrom(after, RunAfter(piece, ra));
  }

  lemma {:induction false} TrimAroundPiece(x: string, piece: string, y: string)
    requires piece != [] && NormalForm(piece)
    ensures Includes(TrimEnd(TrimStart(x + piece + y)), piece)
  {
    assert x + piece + y == x + (piece + y);
    TrimStartBeforeWord(x, piece + y);
    var ts := TrimStart(x);
    assert ts + (piece + y) == (ts + piece) + y;
    TrimEndAfterWord(ts + piece, y);
    var n := TrimEnd(TrimStart(x + piece + y));
    assert n == ts + piece + TrimEnd(y);
    assert n[|ts|..|ts| + |piece|] == piece;
    IncludesAt(n, piece, |ts|);
  }

  /** A non-empty piece of code that is already in normal form still occurs,
      unchanged, in the normalised text, whatever surrounds it. */
  lemma {:induction false} NormalPieceSurvives(before: string, piece: string, after: string)
    requires piece != [] && NormalForm(piece)
    ensures Includes(Normalize(before + piece + after), piece)
  {
    var x, y := CollapseAroundPiece(before, piece, after);
    TrimAroundPiece(x, piece, y);
  }
}
