/** The string operations the services rely on: `strip`, `upper`, `lower`, substring and
    suffix tests, and the order Python puts on strings and on tuples of strings.
    Case mapping covers ASCII letters. */
module Text {

  /** Exactly the characters `str.isspace` accepts one at a time. */
  predicate IsSpace(c: char) {
    || '\U{9}' <= c <= '\U{D}'
    || '\U{1C}' <= c <= '\U{20}'
    || c == '\U{85}' || c == '\U{A0}' || c == '\U{1680}'
    || '\U{2000}' <= c <= '\U{200A}'
    || c == '\U{2028}' || c == '\U{2029}' || c == '\U{202F}' || c == '\U{205F}' || c == '\U{3000}'
  }

  predicate IsDigit(c: char) { '0' <= c <= '9' }

  function TrimLeft(s: string): string {
    if s != "" && IsSpace(s[0]) then TrimLeft(s[1..]) else s
  }

  function TrimRight(s: string): string {
    if s != "" && IsSpace(s[|s| - 1]) then TrimRight(s[..|s| - 1]) else s
  }

  function Strip(s: string): string { TrimRight(TrimLeft(s)) }

  function UpperChar(c: char): char {
    if 'a' <= c <= 'z' then c - 'a' + 'A' else c
  }

  function LowerChar(c: char): char {
    if 'A' <= c <= 'Z' then c - 'A' + 'a' else c
  }

  function Upper(s: string): (r: string)
    ensures |r| == |s|
  {
    if s == "" then "" else [UpperChar(s[0])] + Upper(s[1..])
  }

  function Lower(s: string): (r: string)
    ensures |r| == |s|
  {
    if s == "" then "" else [LowerChar(s[0])] + Lower(s[1..])
  }

  predicate Trimmed(s: string) {
    s != "" ==> !IsSpace(s[0]) && !IsSpace(s[|s| - 1])
  }

  lemma {:induction false} TrimLeftFront(s: string)
    ensures TrimLeft(s) != "" ==> !IsSpace(TrimLeft(s)[0])
  {
    if s != "" { TrimLeftFront(s[1..]); }
  }

  lemma {:induction false} TrimRightEnds(s: string)
    ensures TrimRight(s) != "" ==> !IsSpace(TrimRight(s)[|TrimRight(s)| - 1]) && TrimRight(s)[0] == s[0]
  {
    if s != "" { TrimRightEnds(s[..|s| - 1]); }
  }

  lemma {:induction false} StripTrims(s: string)
    ensures Trimmed(Strip(s))
    ensures Strip(Strip(s)) == Strip(s)
  {
    TrimLeftFront(s);
    TrimRightEnds(TrimLeft(s));
  }

  lemma {:induction false} UpperEnds(s: string)
    requires s != ""
    ensures Upper(s)[0] == UpperChar(s[0]) && Upper(s)[|s| - 1] == UpperChar(s[|s| - 1])
  {
    if |s| > 1 { UpperEnds(s[1..]); }
  }

  lemma {:induction false} LowerEnds(s: string)
    requires s != ""
    ensures Lower(s)[0] == LowerChar(s[0]) && Lower(s)[|s| - 1] == LowerChar(s[|s| - 1])
  {
    if |s| > 1 { LowerEnds(s[1..]); }
  }

  lemma {:induction false} UpperTwice(s: string)
    ensures Upper(Upper(s)) == Upper(s)
  {
    if s != "" {
      UpperTwice(s[1..]);
      assert Upper(s)[1..] == Upper(s[1..]);
    }
  }

  lemma {:induction false} LowerTwice(s: string)
    ensures Lower(Lower(s)) == Lower(s)
  {
    if s != "" {
      LowerTwice(s[1..]);
      assert Lower(s)[1..] == Lower(s[1..]);
    }
  }

  lemma {:induction false} CaseKeepsSpace(c: char)
    ensures IsSpace(UpperChar(c)) == IsSpace(c) == IsSpace(LowerChar(c))
  {
  }

  /** Normalizing an identifier twice is normalizing it once. */
  lemma {:induction false} NormalizeTwice(s: string)
    ensures Upper(Strip(Upper(Strip(s)))) == Upper(Strip(s))
    ensures Lower(Strip(Lower(Strip(s)))) == Lower(Strip(s))
  {
    var t := Strip(s);
    StripTrims(s);
    if t != "" {
      UpperEnds(t);
      LowerEnds(t);
      CaseKeepsSpace(t[0]);
      CaseKeepsSpace(t[|t| - 1]);
    }
    UpperTwice(t);
    LowerTwice(t);
    TrimmedStrip(Upper(t));
    TrimmedStrip(Lower(t));
  }

  lemma {:induction false} TrimmedStrip(s: string)
    requires Trimmed(s)
    ensures Strip(s) == s
  {
  }

  predicate Contains(s: string, part: string) {
    part <= s || (s != "" && Contains(s[1..], part))
  }

  predicate EndsWith(s: string, suffix: string) {
    |suffix| <= |s| && s[|s| - |suffix|..] == suffix
  }

  /** `a < b` on Python strings. */
  predicate StringLess(a: string, b: string) {
    b != "" && (a == "" || a[0] < b[0] || (a[0] == b[0] && StringLess(a[1..], b[1..])))
  }

  /** `a < b` on Python tuples of strings. */
  predicate TupleLess(a: seq<string>, b: seq<string>) {
    b != [] && (a == [] || StringLess(a[0], b[0]) || (a[0] == b[0] && TupleLess(a[1..], b[1..])))
  }

  lemma {:induction false} StringLessIsStrict(a: string)
    ensures !StringLess(a, a)
  {
    if a != "" { StringLessIsStrict(a[1..]); }
  }

  lemma {:induction false} StringLessTransitive(a: string, b: string, c: string)
    requires StringLess(a, b) && StringLess(b, c)
    ensures StringLess(a, c)
  {
    if a != "" && a[0] == b[0] == c[0] { StringLessTransitive(a[1..], b[1..], c[1..]); }
  }

  lemma {:induction false} StringLessTotal(a: string, b: string)
    ensures a == b || StringLess(a, b) || StringLess(b, a)
  {
    if a != "" && b != "" && a[0] == b[0] {
      StringLessTotal(a[1..], b[1..]);
      assert a == [a[0]] + a[1..] && b == [b[0]] + b[1..];
    }
  }

  lemma {:induction false} TupleLessIsStrict(a: seq<string>)
    ensures !TupleLess(a, a)
  {
    if a != [] {
      StringLessIsStrict(a[0]);
      TupleLessIsStrict(a[1..]);
    }
  }

  lemma {:induction false} TupleLessTransitive(a: seq<string>, b: seq<string>, c: seq<string>)
    requires TupleLess(a, b) && TupleLess(b, c)
    ensures TupleLess(a, c)
  {
    if a != [] {
      if StringLess(a[0], b[0]) && StringLess(b[0], c[0]) {
        StringLessTransitive(a[0], b[0], c[0]);
      } else if a[0] == b[0] == c[0] && TupleLess(a[1..], b[1..]) && TupleLess(b[1..], c[1..]) {
        TupleLessTransitive(a[1..], b[1..], c[1..]);
      }
    }
  }

  lemma {:induction false} TupleLessTotal(a: seq<string>, b: seq<string>)
    ensures a == b || TupleLess(a, b) || TupleLess(b, a)
  {
    if a != [] && b != [] {
      StringLessTotal(a[0], b[0]);
      if a[0] == b[0] {
        TupleLessTotal(a[1..], b[1..]);
        assert a == [a[0]] + a[1..] && b == [b[0]] + b[1..];
      }
    }
  }

  lemma {:induction false} StringsBetween(a: string, b: string, c: string)
    ensures !(StringLess(a, b) && StringLess(b, a))
    ensures a == b || StringLess(a, b) || StringLess(b, a)
    ensures StringLess(a, c) ==> StringLess(a, b) || StringLess(b, c)
  {
    StringLessIsStrict(a);
    StringLessTotal(a, b);
    StringLessTotal(b, c);
    if StringLess(a, b) && StringLess(b, a) { StringLessTransitive(a, b, a); }
    if StringLess(a, c) && StringLess(b, a) { StringLessTransitive(b, a, c); }
  }
}
