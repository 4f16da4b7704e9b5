/** Card and account masks: normalization, and right-aligned matching with wildcards. */
module Masks {
  import Sequences
  import opened Text
  import opened Wrappers

  const WILDCARD := 'X'

  predicate IsWildcard(c: char) { c == 'X' || c == 'x' || c == '*' || c == '#' }

  predicate IsSeparator(c: char) { IsSpace(c) || c == '-' }

  /** Digits and wildcards in place, separators dropped; none when a character is unreadable. */
  function Reduce(s: string): Option<string> {
    if s == "" then Some("") else
      var before := Reduce(s[..|s| - 1]);
      var c := s[|s| - 1];
      if before.None? then None
      else if IsDigit(c) then Some(before.value + [c])
      else if IsWildcard(c) then Some(before.value + [WILDCARD])
      else if IsSeparator(c) then before
      else None
  }

  function Normalized(s: Option<string>): string {
    if s.None? then "" else
      var r := Reduce(s.value);
      if r.Some? then r.value else ""
  }

  lemma {:induction false} RejectedPrefix(s: string, i: nat)
    requires i <= |s| && Reduce(s[..i]).None?
    ensures Reduce(s).None?
  {
    if i < |s| {
      assert s[..|s| - 1][..i] == s[..i];
      RejectedPrefix(s[..|s| - 1], i);
    } else {
      assert s[..i] == s;
    }
  }

  method NormalizeMask(s: Option<string>) returns (r: string)
    ensures r == Normalized(s)
  {
    if s.None? || s.value == "" { return ""; }
    var out := "";
    for i := 0 to |s.value|
      invariant Reduce(s.value[..i]) == Some(out)
    {
      Sequences.PrefixStep(s.value, i);
      var c := s.value[i];
      if IsDigit(c) {
        out := out + [c];
      } else if IsWildcard(c) {
        out := out + [WILDCARD];
      } else if !IsSeparator(c) {
        RejectedPrefix(s.value, i + 1);
        return "";
      }
    }
    assert s.value[..|s.value|] == s.value;
    r := out;
  }

  /** Digits and the one wildcard character only. */
  ghost predicate IsNormal(m: string) {
    forall i | 0 <= i < |m| :: IsDigit(m[i]) || m[i] == WILDCARD
  }

  lemma {:induction false} ReduceIsNormal(s: string)
    ensures Reduce(s).Some? ==> IsNormal(Reduce(s).value)
  {
    hide IsSpace;
    if s != "" { ReduceIsNormal(s[..|s| - 1]); }
  }

  lemma {:induction false} NormalIsFixed(m: string)
    requires IsNormal(m)
    ensures Reduce(m) == Some(m)
  {
    hide IsSpace;
    if m != "" {
      var front, c := m[..|m| - 1], m[|m| - 1];
      NormalIsFixed(front);
      assert IsDigit(c) || c == WILDCARD;
      assert m == front + [c];
    }
  }

  /** Normalizing again changes nothing. */
  lemma {:induction false} NormalizeIdempotent(s: Option<string>)
    ensures IsNormal(Normalized(s))
    ensures Normalized(Some(Normalized(s))) == Normalized(s)
  {
    if s.Some? { ReduceIsNormal(s.value); }
    NormalIsFixed(Normalized(s));
  }

  /** Length of the run of digits at the right edge. */
  function TrailingDigits(m: string): (n: nat)
    ensures n <= |m|
    ensures forall i | |m| - n <= i < |m| :: IsDigit(m[i])
    ensures n < |m| ==> !IsDigit(m[|m| - n - 1])
  {
    if m == "" || !IsDigit(m[|m| - 1]) then 0 else 1 + TrailingDigits(m[..|m| - 1])
  }

  method TrailingVisibleDigits(m: string) returns (n: nat)
    ensures n == TrailingDigits(m)
  {
    n := 0;
    while n < |m|
      invariant n <= |m|
      invariant n + TrailingDigits(m[..|m| - n]) == TrailingDigits(m)
    {
      if !IsDigit(m[|m| - n - 1]) { break; }
      assert m[..|m| - n][..|m| - n - 1] == m[..|m| - n - 1];
      n := n + 1;
    }
  }

  // ---------------------------------------------------------------------------
  // Matching
  // ---------------------------------------------------------------------------

  /** The `i`-th character from the right, counting from one. */
  function FromRight(m: string, i: int): char
    requires 1 <= i <= |m|
  {
    m[|m| - i]
  }

  predicate Compatible(a: char, b: char) { a == WILDCARD || b == WILDCARD || a == b }

  predicate Matches(pattern: string, stored: string) {
    && pattern != "" && stored != ""
    && forall i | 1 <= i <= Min(|pattern|, |stored|) :: Compatible(FromRight(pattern, i), FromRight(stored, i))
  }

  method MaskMatches(pattern: string, stored: string) returns (r: bool)
    ensures r == Matches(pattern, stored)
  {
    if pattern == "" || stored == "" { return false; }
    for i := 1 to Min(|pattern|, |stored|) + 1
      invariant forall j | 1 <= j < i :: Compatible(FromRight(pattern, j), FromRight(stored, j))
    {
      var p, s := FromRight(pattern, i), FromRight(stored, i);
      if p == WILDCARD || s == WILDCARD { continue; }
      if p != s { return false; }
    }
    r := true;
  }

  /** `number` is an account number the mask can stand for: digits that agree, right-aligned,
      with every visible digit of the mask. */
  ghost predicate Denotes(mask: string, number: string) {
    && |mask| <= |number|
    && (forall i | 0 <= i < |number| :: IsDigit(number[i]))
    && forall i | 1 <= i <= |mask| :: FromRight(mask, i) == WILDCARD || FromRight(mask, i) == FromRight(number, i)
  }

  /** The digit two masks agree on at a position from the right, any digit where both hide it. */
  function CommonDigit(p: string, s: string, i: int): char
    requires 1 <= i
  {
    if i <= |p| && FromRight(p, i) != WILDCARD then FromRight(p, i)
    else if i <= |s| && FromRight(s, i) != WILDCARD then FromRight(s, i)
    else '0'
  }

  /** A digit string both masks denote, built position by position from the right. */
  ghost function Common(p: string, s: string): (number: string)
    ensures |number| == Max(|p|, |s|)
    ensures forall i | 1 <= i <= |number| :: FromRight(number, i) == CommonDigit(p, s, i)
  {
    var n := Max(|p|, |s|);
    seq(n, k requires 0 <= k < n => CommonDigit(p, s, n - k))
  }

  /** Matching means what it should: two non-empty normalized masks match exactly when some digit
      string of the longer length agrees with every visible digit of both. */
  lemma {:induction false} MatchesIffCommonNumber(p: string, s: string)
    requires IsNormal(p) && IsNormal(s) && p != "" && s != ""
    ensures Matches(p, s) <==> exists number :: |number| == Max(|p|, |s|) && Denotes(p, number) && Denotes(s, number)
  {
    if Matches(p, s) {
      var number := Common(p, s);
      forall k | 0 <= k < |number| ensures IsDigit(number[k]) {
        var i := |number| - k;
        assert number[k] == FromRight(number, i);
        assert i <= |p| ==> IsDigit(p[|p| - i]) || p[|p| - i] == WILDCARD;
        assert i <= |s| ==> IsDigit(s[|s| - i]) || s[|s| - i] == WILDCARD;
      }
      assert Denotes(p, number) && Denotes(s, number);
    }
    if number :| |number| == Max(|p|, |s|) && Denotes(p, number) && Denotes(s, number) {
      forall i | 1 <= i <= Min(|p|, |s|) ensures Compatible(FromRight(p, i), FromRight(s, i)) {
      }
    }
  }

  /** Which side is the pattern does not matter. */
  lemma {:induction false} MatchesSymmetric(p: string, s: string)
    ensures Matches(p, s) <==> Matches(s, p)
  {
  }

  /** A non-empty mask no longer than an account number matches the number exactly when it
      denotes it; in particular every masked suffix of a number matches it. */
  lemma {:induction false} MatchesNumber(mask: string, number: string)
    requires mask != "" && |mask| <= |number|
    requires forall i | 0 <= i < |number| :: IsDigit(number[i])
    ensures Matches(mask, number) <==> Denotes(mask, number)
  {
  }

  /** Hiding any digits of a suffix leaves a mask that matches the whole number. */
  lemma {:induction false} MaskedSuffixMatches(mask: string, number: string)
    requires mask != "" && |mask| <= |number|
    requires forall i | 0 <= i < |number| :: IsDigit(number[i])
    requires forall i | 0 <= i < |mask| :: mask[i] == WILDCARD || mask[i] == number[|number| - |mask| + i]
    ensures Matches(mask, number)
  {
  }
}
