/** ASCII upper-casing, the part of Python's `str.upper()` that the registry
    relies on when it stores an HTTP method token. */
module Ascii {

  predicate IsLower(c: char) {
    'a' <= c <= 'z'
  }

  function UpperChar(c: char): char {
    if IsLower(c) then (c as int - 32) as char else c
  }

  /** No ASCII lower-case letter occurs in `s`. */
  predicate IsUpperCased(s: string) {
    forall i :: 0 <= i < |s| ==> !IsLower(s[i])
  }

  /** `s.upper()` restricted to ASCII letters. */
  function Upper(s: string): (r: string)
    ensures |r| == |s|
  {
    if s == [] then [] else [UpperChar(s[0])] + Upper(s[1..])
  }

  lemma {:induction false} UpperAt(s: string, i: nat)
    requires i < |s|
    ensures Upper(s)[i] == UpperChar(s[i])
  {
    if i > 0 {
      UpperAt(s[1..], i - 1);
    }
  }

  /** Every token produced by `Upper` is upper-cased. */
  lemma UpperIsUpperCased(s: string)
    ensures IsUpperCased(Upper(s))
  {
    forall i | 0 <= i < |s|
      ensures !IsLower(Upper(s)[i])
    {
      UpperAt(s, i);
    }
  }

  /** `Upper` leaves a token alone exactly when it is already upper-cased. */
  lemma {:induction false} UpperFixesExactlyUpperCased(s: string)
    ensures Upper(s) == s <==> IsUpperCased(s)
  {
    if s != [] {
      UpperFixesExactlyUpperCased(s[1..]);
      assert Upper(s) == [UpperChar(s[0])] + Upper(s[1..]);
      if Upper(s) == s {
        assert Upper(s[1..]) == Upper(s)[1..];
      }
    }
  }

  /** Upper-casing twice is upper-casing once. */
  lemma UpperIdempotent(s: string)
    ensures Upper(Upper(s)) == Upper(s)
  {
    UpperIsUpperCased(s);
    UpperFixesExactlyUpperCased(Upper(s));
  }
}
