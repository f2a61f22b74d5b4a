/**
 * The string operations the services rely on: `str.lower()`, `str.strip()`,
 * the `in` substring test and `str(n)` for natural numbers.
 * Case mapping and whitespace are the ASCII parts of Python's definitions.
 */
module Text {

  predicate IsUpperChar(c: char) { 'A' <= c <= 'Z' }

  /** Python's `c.islower()`, restricted to ASCII letters. */
  predicate IsLowerChar(c: char) { 'a' <= c <= 'z' }

  function LowerChar(c: char): (d: char)
    ensures !IsUpperChar(d)
    ensures IsUpperChar(c) ==> d as int == c as int + 32
    ensures !IsUpperChar(c) ==> d == c
  {
    if IsUpperChar(c) then (c as int + 32) as char else c
  }

  function UpperChar(c: char): (d: char)
    ensures !IsLowerChar(d)
    ensures IsLowerChar(c) ==> d as int == c as int - 32
    ensures !IsLowerChar(c) ==> d == c
  {
    if IsLowerChar(c) then (c as int - 32) as char else c
  }

  /** `s` with every ASCII capital letter replaced by its lower-case form. */
  function Lower(s: string): (r: string)
    ensures |r| == |s|
    ensures forall i :: 0 <= i < |s| ==> r[i] == LowerChar(s[i])
  {
    seq(|s|, i requires 0 <= i < |s| => LowerChar(s[i]))
  }

  lemma LowerAppend(a: string, b: string)
    ensures Lower(a + b) == Lower(a) + Lower(b)
  {
    assert forall i :: 0 <= i < |a + b| ==> Lower(a + b)[i] == (Lower(a) + Lower(b))[i];
  }

  /** A string without upper-case letters is its own lower-case form. */
  lemma LowerOfLower(s: string)
    requires forall i :: 0 <= i < |s| ==> !IsUpperChar(s[i])
    ensures Lower(s) == s
  {
  }

  /** The whitespace characters `str.strip()` and `\s` treat as blank (ASCII range). */
  predicate IsSpace(c: char)
  {
    c == ' ' || c == '\t' || c == '\n' || c == '\r' || c == '\U{0b}' || c == '\U{0c}'
    || ('\U{1c}' <= c <= '\U{1f}')
  }

  predicate AllSpace(s: string)
  {
    forall i :: 0 <= i < |s| ==> IsSpace(s[i])
  }

  function TrimLeft(s: string): (r: string)
    ensures |r| <= |s|
    ensures r != [] ==> r[|r| - 1] == s[|s| - 1]
    ensures r == [] || !IsSpace(r[0])
    ensures r == [] <==> AllSpace(s)
  {
    if s != [] && IsSpace(s[0]) then TrimLeft(s[1..]) else s
  }

  function TrimRight(s: string): (r: string)
    ensures |r| <= |s|
    ensures r != [] ==> r[0] == s[0]
    ensures r == [] || !IsSpace(r[|r| - 1])
    ensures r == [] <==> AllSpace(s)
  {
    if s != [] && IsSpace(s[|s| - 1]) then TrimRight(s[..|s| - 1]) else s
  }

  /** `TrimLeft` removes a prefix. */
  lemma {:induction false} TrimLeftIsSuffix(s: string)
    ensures TrimLeft(s) == s[|s| - |TrimLeft(s)|..]
  {
    if s != [] && IsSpace(s[0]) {
      TrimLeftIsSuffix(s[1..]);
    }
  }

  /** `TrimRight` removes a suffix. */
  lemma {:induction false} TrimRightIsPrefix(s: string)
    ensures TrimRight(s) == s[..|TrimRight(s)|]
  {
    if s != [] && IsSpace(s[|s| - 1]) {
      TrimRightIsPrefix(s[..|s| - 1]);
    }
  }

  /** `s.strip()`: the part of `s` between its leading and trailing whitespace. */
  function Strip(s: string): (r: string)
    ensures |r| <= |s|
    ensures r == [] || (!IsSpace(r[0]) && !IsSpace(r[|r| - 1]))
    ensures r == [] <==> AllSpace(s)
  {
    TrimRight(TrimLeft(s))
  }

  /** Non-empty, with no whitespace at either end: what `strip` leaves of a non-blank string. */
  predicate IsStripped(s: string)
  {
    s != [] && !IsSpace(s[0]) && !IsSpace(s[|s| - 1])
  }

  lemma StripOfStripped(s: string)
    requires IsStripped(s)
    ensures Strip(s) == s
  {
  }

  /** Trimming the front of a string that ends in a non-space leaves a stripped string. */
  lemma TrimLeftStripped(s: string)
    ensures s != [] && !IsSpace(s[|s| - 1]) ==> IsStripped(TrimLeft(s))
  {
    if s != [] && !IsSpace(s[|s| - 1]) {
      assert !AllSpace(s) by {
        assert !IsSpace(s[|s| - 1]);
      }
    }
  }

  /** Trimming the front keeps an occurrence of a stripped needle, shifted left. */
  lemma {:induction false} TrimLeftKeeps(s: string, needle: string, k: int)
    requires OccursAt(s, needle, k) && IsStripped(needle)
    ensures OccursAt(TrimLeft(s), needle, k - (|s| - |TrimLeft(s)|))
  {
    if s != [] && IsSpace(s[0]) {
      assert s[k] == needle[0];
      assert s[1..][k - 1..k - 1 + |needle|] == s[k..k + |needle|];
      TrimLeftKeeps(s[1..], needle, k - 1);
    }
  }

  /** Trimming the back keeps an occurrence of a stripped needle in place. */
  lemma {:induction false} TrimRightKeeps(s: string, needle: string, k: int)
    requires OccursAt(s, needle, k) && IsStripped(needle)
    ensures OccursAt(TrimRight(s), needle, k)
  {
    if s != [] && IsSpace(s[|s| - 1]) {
      assert s[k + |needle| - 1] == needle[|needle| - 1];
      assert s[..|s| - 1][k..k + |needle|] == s[k..k + |needle|];
      TrimRightKeeps(s[..|s| - 1], needle, k);
    }
  }

  /** `strip` never cuts into a piece of text that has no whitespace at its ends. */
  lemma StripKeeps(s: string, needle: string, k: int)
    requires OccursAt(s, needle, k) && IsStripped(needle)
    ensures Contains(Strip(s), needle)
  {
    TrimLeftKeeps(s, needle, k);
    var d := |s| - |TrimLeft(s)|;
    TrimRightKeeps(TrimLeft(s), needle, k - d);
    ContainsIffOccurs(Strip(s), needle);
  }

  /** `s[lo:hi]` for an end within `s`: empty unless `lo < hi`. */
  function Slice(s: string, lo: nat, hi: nat): (r: string)
    requires hi <= |s|
    ensures |r| == if lo < hi then hi - lo else 0
    ensures forall k :: 0 <= k < |r| ==> r[k] == s[lo + k]
    decreases hi
  {
    if hi <= lo then [] else Slice(s, lo, hi - 1) + [s[hi - 1]]
  }

  /** A slice around an occurrence still holds it, at the shifted offset. */
  lemma SliceKeeps(s: string, lo: nat, hi: nat, needle: string, k: int)
    requires OccursAt(s, needle, k) && lo <= k && k + |needle| <= hi <= |s|
    ensures OccursAt(Slice(s, lo, hi), needle, k - lo)
  {
    var w := Slice(s, lo, hi);
    assert w[k - lo..k - lo + |needle|] == needle by {
      forall j | 0 <= j < |needle| ensures w[k - lo..k - lo + |needle|][j] == needle[j] {
        assert w[k - lo + j] == s[k + j];
        assert s[k..k + |needle|][j] == s[k + j];
      }
    }
  }

  /** `needle.startswith`-style prefix test. */
  predicate IsPrefix(p: string, s: string)
  {
    |p| <= |s| && s[..|p|] == p
  }

  /** A prefix is a substring. */
  lemma PrefixContains(p: string, s: string)
    requires IsPrefix(p, s)
    ensures Contains(s, p)
  {
  }

  /** Python's substring test `needle in hay`. */
  predicate Contains(hay: string, needle: string)
    decreases |hay|
  {
    IsPrefix(needle, hay) || (hay != [] && Contains(hay[1..], needle))
  }

  /** `needle` occurs in `hay` starting at offset `k`. */
  predicate OccursAt(hay: string, needle: string, k: int)
  {
    0 <= k <= |hay| - |needle| && hay[k..k + |needle|] == needle
  }

  /** `Contains` finds exactly the occurrences at some offset. */
  lemma {:induction false} ContainsIffOccurs(hay: string, needle: string)
    ensures Contains(hay, needle) <==> exists k :: OccursAt(hay, needle, k)
    decreases |hay|
  {
    if IsPrefix(needle, hay) {
      assert OccursAt(hay, needle, 0);
    }
    if hay != [] {
      ContainsIffOccurs(hay[1..], needle);
      if Contains(hay[1..], needle) {
        var k :| OccursAt(hay[1..], needle, k);
        assert hay[k + 1..k + 1 + |needle|] == hay[1..][k..k + |needle|];
        assert OccursAt(hay, needle, k + 1);
      }
      if k :| OccursAt(hay, needle, k) {
        if k > 0 {
          assert hay[1..][k - 1..k - 1 + |needle|] == hay[k..k + |needle|];
          assert OccursAt(hay[1..], needle, k - 1);
        } else {
          assert IsPrefix(needle, hay);
        }
      }
    } else {
      if k :| OccursAt(hay, needle, k) {
        assert IsPrefix(needle, hay);
      }
    }
  }

  /** A needle holding a character the haystack lacks does not occur in it. */
  lemma {:induction false} NotContainsChar(hay: string, needle: string, c: char)
    requires c in needle && c !in hay
    ensures !Contains(hay, needle)
    decreases |hay|
  {
    if hay != [] {
      assert forall i :: 0 <= i < |hay[1..]| ==> hay[1..][i] == hay[i + 1];
      NotContainsChar(hay[1..], needle, c);
    }
  }

  /** Python's `any(keyword in text for keyword in keywords)`. */
  predicate AnyKeyword(text: string, keywords: seq<string>)
  {
    exists k :: 0 <= k < |keywords| && Contains(text, keywords[k])
  }

  function DigitChar(d: nat): (c: char)
    requires d < 10
  {
    ['0', '1', '2', '3', '4', '5', '6', '7', '8', '9'][d]
  }

  /** `str(n)` for a natural number. */
  function NatToString(n: nat): (s: string)
    ensures |s| >= 1
    ensures n >= 10 ==> |s| >= 2
  {
    if n < 10 then [DigitChar(n)] else NatToString(n / 10) + [DigitChar(n % 10)]
  }

  lemma DigitCharInjective(a: nat, b: nat)
    requires a < 10 && b < 10 && DigitChar(a) == DigitChar(b)
    ensures a == b
  {
  }

  /** Distinct numbers print differently. */
  lemma {:induction false} NatToStringInjective(a: nat, b: nat)
    requires NatToString(a) == NatToString(b)
    ensures a == b
  {
    var sa, sb := NatToString(a), NatToString(b);
    if a < 10 && b < 10 {
      DigitCharInjective(a, b);
    } else if a >= 10 && b >= 10 {
      assert sa[|sa| - 1] == DigitChar(a % 10) && sb[|sb| - 1] == DigitChar(b % 10);
      DigitCharInjective(a % 10, b % 10);
      assert sa[..|sa| - 1] == NatToString(a / 10);
      assert sb[..|sb| - 1] == NatToString(b / 10);
      NatToStringInjective(a / 10, b / 10);
    } else {
      assert false;
    }
  }

  /** Printed numbers consist of decimal digits only. */
  lemma {:induction false} NatToStringDigits(n: nat)
    ensures forall i :: 0 <= i < |NatToString(n)| ==> '0' <= NatToString(n)[i] <= '9'
  {
    if n >= 10 {
      NatToStringDigits(n / 10);
    }
  }

  /** Printed numbers contain only digits, which are not upper-case letters. */
  lemma {:induction false} NatToStringNoUpper(n: nat)
    ensures forall i :: 0 <= i < |NatToString(n)| ==> !IsUpperChar(NatToString(n)[i])
  {
    if n >= 10 {
      NatToStringNoUpper(n / 10);
    }
  }
}
