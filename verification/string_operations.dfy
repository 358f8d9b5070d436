/**
 * The string helpers of string_operations.py: reversal, upper-casing and
 * vowel counting. Strings are sequences of characters.
 */
module StringOperations {

  /** `reverse_string`: `s[::-1]`. */
  function ReverseString(s: string): (r: string)
    ensures |r| == |s|
    ensures forall i :: 0 <= i < |s| ==> r[i] == s[|s| - 1 - i]
  {
    if s == [] then [] else ReverseString(s[1..]) + [s[0]]
  }

  /** Reversing twice gives back the original string. */
  lemma ReverseInvolution(s: string)
    ensures ReverseString(ReverseString(s)) == s
  {
    var r := ReverseString(s);
    assert forall i :: 0 <= i < |s| ==> ReverseString(r)[i] == r[|r| - 1 - i] == s[i];
  }

  /** Reversal turns a concatenation around. */
  lemma {:induction false} ReverseAppend(a: string, b: string)
    ensures ReverseString(a + b) == ReverseString(b) + ReverseString(a)
  {
    var l, r := ReverseString(a + b), ReverseString(b) + ReverseString(a);
    forall i | 0 <= i < |a + b| ensures l[i] == r[i] {
      if i < |b| {
        assert l[i] == (a + b)[|a| + |b| - 1 - i] == b[|b| - 1 - i];
      } else {
        assert l[i] == (a + b)[|a| + |b| - 1 - i] == a[|a| - 1 - (i - |b|)];
      }
    }
  }

  predicate IsAsciiLower(c: char)
  {
    'a' <= c <= 'z'
  }

  /** `str.upper` on one ASCII character. */
  function UpperChar(c: char): (u: char)
    ensures IsAsciiLower(c) ==> u as int == c as int - 32 && 'A' <= u <= 'Z'
    ensures !IsAsciiLower(c) ==> u == c
    ensures !IsAsciiLower(u)
  {
    if IsAsciiLower(c) then (c as int - 32) as char else c
  }

  /** `to_uppercase`: `s.upper()`, for ASCII text. */
  function ToUppercase(s: string): (r: string)
    ensures |r| == |s|
    ensures forall i :: 0 <= i < |s| ==>
      (IsAsciiLower(s[i]) ==> r[i] as int == s[i] as int - 32) && (!IsAsciiLower(s[i]) ==> r[i] == s[i])
    ensures forall i :: 0 <= i < |r| ==> !IsAsciiLower(r[i])
  {
    if s == [] then [] else [UpperChar(s[0])] + ToUppercase(s[1..])
  }

  /** Upper-casing is idempotent. */
  lemma UppercaseIdempotent(s: string)
    ensures ToUppercase(ToUppercase(s)) == ToUppercase(s)
  {
    var u := ToUppercase(s);
    assert forall i :: 0 <= i < |u| ==> ToUppercase(u)[i] == u[i];
  }

  /** Upper-casing commutes with reversal. */
  lemma UppercaseReverse(s: string)
    ensures ToUppercase(ReverseString(s)) == ReverseString(ToUppercase(s))
  {
    var l, r := ToUppercase(ReverseString(s)), ReverseString(ToUppercase(s));
    assert forall i :: 0 <= i < |s| ==> l[i] == UpperChar(s[|s| - 1 - i]) == r[i];
  }

  /** Membership in `'aeiouAEIOU'`. */
  predicate IsVowel(c: char)
  {
    c in "aeiouAEIOU"
  }

  /** `count_vowels`: `sum(1 for char in s if char in vowels)`. */
  function CountVowels(s: string): (n: nat)
    ensures n <= |s|
    ensures n == 0 <==> forall i :: 0 <= i < |s| ==> !IsVowel(s[i])
    ensures n == |s| <==> forall i :: 0 <= i < |s| ==> IsVowel(s[i])
  {
    if s == [] then 0
    else
      var rest := CountVowels(s[1..]);
      assert forall i :: 1 <= i < |s| ==> s[i] == s[1..][i - 1];
      (if IsVowel(s[0]) then 1 else 0) + rest
  }

  /** The count of a concatenation is the sum of the counts of its parts. */
  lemma {:induction false} CountVowelsAppend(a: string, b: string)
    ensures CountVowels(a + b) == CountVowels(a) + CountVowels(b)
    decreases |a|
  {
    if a != [] {
      assert (a + b)[0] == a[0] && (a + b)[1..] == a[1..] + b;
      CountVowelsAppend(a[1..], b);
    } else {
      assert a + b == b;
    }
  }

  /** Reversal does not change the count. */
  lemma {:induction false} CountVowelsReverse(s: string)
    ensures CountVowels(ReverseString(s)) == CountVowels(s)
    decreases |s|
  {
    if s != [] {
      CountVowelsReverse(s[1..]);
      CountVowelsAppend(ReverseString(s[1..]), [s[0]]);
      assert s == [s[0]] + s[1..];
      CountVowelsAppend([s[0]], s[1..]);
    }
  }

  /** Upper-casing keeps every vowel a vowel and every other character a non-vowel. */
  lemma {:induction false} CountVowelsUppercase(s: string)
    ensures CountVowels(ToUppercase(s)) == CountVowels(s)
    decreases |s|
  {
    if s != [] {
      CountVowelsUppercase(s[1..]);
      var u := ToUppercase(s);
      assert u[1..] == ToUppercase(s[1..]);
      UpperCharVowel(s[0]);
    }
  }

  /** A character and its upper-case form are both vowels or both not. */
  lemma UpperCharVowel(c: char)
    ensures IsVowel(UpperChar(c)) <==> IsVowel(c)
  {
    if IsAsciiLower(c) {
      var u := UpperChar(c);
      assert IsVowel(c) <==> c == 'a' || c == 'e' || c == 'i' || c == 'o' || c == 'u';
      assert IsVowel(u) <==> u == 'A' || u == 'E' || u == 'I' || u == 'O' || u == 'U';
    }
  }
}
