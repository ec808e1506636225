/**
 ASCII case mapping, the part of Rust's `str::to_uppercase` and
 `str::to_lowercase` that the model keeps: the letters 'a'..'z' and 'A'..'Z'
 change case, every other character is left as it is.
 */
module Ascii {

  predicate IsLower(c: char) { 'a' <= c <= 'z' }

  predicate IsUpper(c: char) { 'A' <= c <= 'Z' }

  function UpperChar(c: char): (r: char)
    ensures IsLower(c) ==> IsUpper(r) && r as int == c as int - 32
    ensures !IsLower(c) ==> r == c
  {
    if IsLower(c) then (c as int - 32) as char else c
  }

  function LowerChar(c: char): (r: char)
    ensures IsUpper(c) ==> IsLower(r) && r as int == c as int + 32
    ensures !IsUpper(c) ==> r == c
  {
    if IsUpper(c) then (c as int + 32) as char else c
  }

  /** The upper-case form of `s`, one character at a time. */
  function ToUpper(s: string): (r: string)
    ensures |r| == |s|
    ensures forall i :: 0 <= i < |s| ==> r[i] == UpperChar(s[i])
  {
    if s == [] then [] else [UpperChar(s[0])] + ToUpper(s[1..])
  }

  /** The lower-case form of `s`, one character at a time. */
  function ToLower(s: string): (r: string)
    ensures |r| == |s|
    ensures forall i :: 0 <= i < |s| ==> r[i] == LowerChar(s[i])
  {
    if s == [] then [] else [LowerChar(s[0])] + ToLower(s[1..])
  }

  /** Every character of `t` is an upper-case ASCII letter (as every ticker is). */
  predicate IsUpperWord(t: string)
  {
    forall i :: 0 <= i < |t| ==> IsUpper(t[i])
  }

  /** `s` spells the upper-case word `t` with each letter in either case. */
  predicate IsCasingOf(s: string, t: string)
  {
    && |s| == |t|
    && forall i :: 0 <= i < |s| ==> s[i] == t[i] || s[i] == LowerChar(t[i])
  }

  /** A character upper-cases to the letter `t` exactly when it is `t` or
      its lower-case form. */
  lemma UpperCharIffCasing(c: char, t: char)
    requires IsUpper(t)
    ensures UpperChar(c) == t <==> c == t || c == LowerChar(t)
  {
  }

  /** Upper-casing recognises exactly the casings of an upper-case word. */
  lemma UpperIffCasing(s: string, t: string)
    requires IsUpperWord(t)
    ensures ToUpper(s) == t <==> IsCasingOf(s, t)
  {
    var u := ToUpper(s);
    if |s| == |t| {
      forall i | 0 <= i < |s|
        ensures u[i] == t[i] <==> s[i] == t[i] || s[i] == LowerChar(t[i])
      {
        UpperCharIffCasing(s[i], t[i]);
      }
    }
  }

  /** Lower-casing forgets whatever upper-casing did first. */
  lemma LowerOfUpper(s: string)
    ensures ToLower(ToUpper(s)) == ToLower(s)
  {
    var a, b := ToLower(ToUpper(s)), ToLower(s);
    forall i | 0 <= i < |s|
      ensures a[i] == b[i]
    {
      assert ToUpper(s)[i] == UpperChar(s[i]);
    }
  }

  /** Two strings that upper-case alike also lower-case alike. */
  lemma SameUpperSameLower(s1: string, s2: string)
    requires ToUpper(s1) == ToUpper(s2)
    ensures ToLower(s1) == ToLower(s2)
  {
    LowerOfUpper(s1);
    LowerOfUpper(s2);
  }
}
