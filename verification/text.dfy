/** Character and string primitives the rule checker is built from:
    the white-space class of JavaScript regular expressions, ASCII
    lower-casing, `String.prototype.includes`, and the decimal rendering
    of a count inside a template literal. */
module Text {

  /** The characters matched by `\s` in a JavaScript regular expression and
      removed by `String.prototype.trim`: the ECMAScript WhiteSpace set
      (tab, vertical tab, form feed, the byte-order mark and every space
      separator) together with the LineTerminator set (LF, CR, U+2028,
      U+2029). */
  predicate IsSpace(c: char) {
    var n := c as int;
    || n == 0x09 || n == 0x0A || n == 0x0B || n == 0x0C || n == 0x0D
    || n == 0x20 || n == 0xA0 || n == 0x1680
    || (0x2000 <= n <= 0x200A)
    || n == 0x2028 || n == 0x2029 || n == 0x202F || n == 0x205F
    || n == 0x3000 || n == 0xFEFF
  }

  predicate IsUpperAscii(c: char) {
    'A' <= c <= 'Z'
  }

  /** `toLowerCase` on one character, restricted to ASCII letters: a
      capital becomes the small letter at the same place in the alphabet. */
  function LowerChar(c: char): (d: char)
    ensures !IsUpperAscii(d)
    ensures IsUpperAscii(c) ==> 'a' <= d <= 'z' && d as int - 'a' as int == c as int - 'A' as int
    ensures !IsUpperAscii(c) ==> d == c
    ensures IsSpace(d) <==> IsSpace(c)
  {
    if IsUpperAscii(c) then (c as int + 32) as char else c
  }

  /** Two characters lower-case alike exactly when they are equal or are
      the capital and small forms of one ASCII letter. */
  lemma {:induction false} LowerCharSameLetter(a: char, b: char)
    ensures LowerChar(a) == LowerChar(b) <==>
      || a == b
      || (IsUpperAscii(a) && b as int == a as int + 32)
      || (IsUpperAscii(b) && a as int == b as int + 32)
  {
  }

  /** `toLowerCase` on a string: character by character, length kept. */
  function Lower(s: string): (t: string)
    ensures |t| == |s|
    ensures forall i :: 0 <= i < |s| ==> t[i] == LowerChar(s[i])
  {
    if s == [] then [] else [LowerChar(s[0])] + Lower(s[1..])
  }

  lemma {:induction false} LowerIdempotent(s: string)
    ensures Lower(Lower(s)) == Lower(s)
  {
    assert forall i :: 0 <= i < |s| ==> LowerChar(LowerChar(s[i])) == LowerChar(s[i]);
  }

  lemma {:induction false} LowerAppend(a: string, b: string)
    ensures Lower(a + b) == Lower(a) + Lower(b)
  {
    assert forall i :: 0 <= i < |a + b| ==> Lower(a + b)[i] == (Lower(a) + Lower(b))[i];
  }

  lemma {:induction false} LowerSlice(s: string, i: nat, j: nat)
    requires i <= j <= |s|
    ensures Lower(s)[i..j] == Lower(s[i..j])
  {
    assert forall k :: 0 <= k < j - i ==> Lower(s)[i..j][k] == Lower(s[i..j])[k];
  }

  /** `haystack.includes(needle)`: some suffix of `haystack` starts with
      `needle`. The empty needle is included in every string. */
  function Includes(haystack: string, needle: string): bool
    decreases |haystack|
  {
    needle <= haystack || (haystack != [] && Includes(haystack[1..], needle))
  }

  /** `needle` occurs in `haystack` starting at offset `k`. */
  predicate OccursAt(haystack: string, needle: string, k: int) {
    0 <= k && k + |needle| <= |haystack| && haystack[k..k + |needle|] == needle
  }

  /** `Includes` holds exactly when `needle` occurs at some offset. */
  lemma {:induction false} IncludesOccursAt(haystack: string, needle: string)
    ensures Includes(haystack, needle) <==> exists k :: OccursAt(haystack, needle, k)
    decreases |haystack|
  {
    if needle <= haystack {
      assert OccursAt(haystack, needle, 0);
    } else if haystack == [] {
    } else {
      var tail := haystack[1..];
      IncludesOccursAt(tail, needle);
      if Includes(tail, needle) {
        var k :| OccursAt(tail, needle, k);
        assert haystack[k + 1..k + 1 + |needle|] == tail[k..k + |needle|];
        assert OccursAt(haystack, needle, k + 1);
      }
      if exists k :: OccursAt(haystack, needle, k) {
        var k :| OccursAt(haystack, needle, k);
        if k > 0 {
          assert tail[k - 1..k - 1 + |needle|] == haystack[k..k + |needle|];
          assert OccursAt(tail, needle, k - 1);
        }
      }
    }
  }

  lemma {:induction false} IncludesAt(haystack: string, needle: string, k: nat)
    requires OccursAt(haystack, needle, k)
    ensures Includes(haystack, needle)
  {
    IncludesOccursAt(haystack, needle);
  }

  /** Lower-casing both sides keeps an occurrence. */
  lemma {:induction false} IncludesLower(haystack: string, needle: string)
    requires Includes(haystack, needle)
    ensures Includes(Lower(haystack), Lower(needle))
  {
    IncludesOccursAt(haystack, needle);
    var k :| OccursAt(haystack, needle, k);
    LowerSlice(haystack, k, k + |needle|);
    IncludesAt(Lower(haystack), Lower(needle), k);
  }

  predicate IsDigit(c: char) {
    '0' <= c <= '9'
  }

  function DigitChar(d: nat): (c: char)
    requires d < 10
    ensures IsDigit(c)
  {
    ('0' as int + d) as char
  }

  /** The decimal text JavaScript produces for a non-negative integer
      (`String(n)`, as in a template literal): digits only, no leading zero. */
  function NatToString(n: nat): (s: string)
    ensures |s| >= 1
    ensures forall i :: 0 <= i < |s| ==> IsDigit(s[i])
    ensures |s| > 1 ==> s[0] != '0'
    decreases n
  {
    if n < 10 then [DigitChar(n)] else NatToString(n / 10) + [DigitChar(n % 10)]
  }

  function DigitValue(c: char): nat
    requires IsDigit(c)
  {
    c as int - '0' as int
  }

  /** The number a string of decimal digits denotes. */
  function DecimalValue(s: string): nat
    requires forall i :: 0 <= i < |s| ==> IsDigit(s[i])
  {
    if s == [] then 0
    else DecimalValue(s[..|s| - 1]) * 10 + DigitValue(s[|s| - 1])
  }

  /** Reading the decimal text back gives the number. */
  lemma {:induction false} NatToStringRoundTrip(n: nat)
    ensures DecimalValue(NatToString(n)) == n
    decreases n
  {
    var s := NatToString(n);
    if n >= 10 {
      NatToStringRoundTrip(n / 10);
      assert s[..|s| - 1] == NatToString(n / 10);
    }
  }
}
