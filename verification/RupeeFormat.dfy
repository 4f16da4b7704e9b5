/** Printing an exact rupee amount with Indian digit grouping, and reading it back. */
module RupeeFormat {
  import Text
  import opened Wrappers

  const RUPEE: char := '\U{20B9}'

  /** `p` paise are `x` rupees rounded to the nearest paisa, a half going away from zero. */
  predicate RoundedHalfUp(x: real, p: int) {
    var error := p as real - 100.0 * x;
    && -0.5 <= error <= 0.5
    && (error == 0.5 ==> x > 0.0)
    && (error == -0.5 ==> x < 0.0)
  }

  function Quantize(x: real): (p: int)
    ensures RoundedHalfUp(x, p)
  {
    if x < 0.0 then -(0.5 - 100.0 * x).Floor else (100.0 * x + 0.5).Floor
  }

  lemma {:induction false} RoundingIsUnique(x: real, p: int, q: int)
    requires RoundedHalfUp(x, p) && RoundedHalfUp(x, q)
    ensures p == q
  {
  }

  predicate AllDigits(s: string) {
    forall k :: 0 <= k < |s| ==> Text.IsDigit(s[k])
  }

  function ValueOf(c: char): (n: nat)
    requires Text.IsDigit(c)
    ensures n < 10
  {
    c as int - '0' as int
  }

  function Digit(n: nat): (c: char)
    requires n < 10
    ensures Text.IsDigit(c) && ValueOf(c) == n
  {
    '0' + n as char
  }

  /** The decimal digits of a whole number, without leading zeros. */
  function Digits(n: nat): (s: string)
    ensures s != [] && AllDigits(s) && ReadNumber(s) == n
    ensures s[0] == '0' ==> n == 0 && |s| == 1
  {
    if n < 10 then [Digit(n)] else Digits(n / 10) + [Digit(n % 10)]
  }

  function ReadNumber(s: string): nat
    requires AllDigits(s)
  {
    if s == [] then 0 else 10 * ReadNumber(s[..|s| - 1]) + ValueOf(s[|s| - 1])
  }

  function TwoDigits(n: nat): (s: string)
    requires n < 100
    ensures |s| == 2 && AllDigits(s) && ReadNumber(s) == n
  {
    var s := [Digit(n / 10), Digit(n % 10)];
    assert s[..1] == [Digit(n / 10)];
    assert ReadNumber(s[..1]) == n / 10 by { assert s[..1][..0] == []; }
    s
  }

  function Join(groups: seq<string>): string {
    if groups == [] then ""
    else if |groups| == 1 then groups[0]
    else groups[0] + "," + Join(groups[1..])
  }

  /** Twos from the right, and threes at the very end. */
  function Pairs(head: string): string {
    if |head| <= 2 then head else Pairs(head[..|head| - 2]) + "," + head[|head| - 2..]
  }

  function Grouped(digits: string): string {
    if |digits| <= 3 then digits else Pairs(digits[..|digits| - 3]) + "," + digits[|digits| - 3..]
  }

  function Magnitude(p: int): nat {
    if p < 0 then -p else p
  }

  function Printed(p: int): string {
    (if p < 0 then "-" else "") + [RUPEE] + Grouped(Digits(Magnitude(p) / 100)) + "."
    + TwoDigits(Magnitude(p) % 100)
  }

  lemma {:induction false} JoinFirst(group: string, groups: seq<string>)
    requires groups != []
    ensures Join([group] + groups) == group + "," + Join(groups)
  {
  }

  /** The source's grouping loop: `head` shrinks from the right while the list of groups grows at
      the front. */
  method GroupDigits(digits: string) returns (r: string)
    ensures r == Grouped(digits)
  {
    if |digits| <= 3 {
      return digits;
    }
    var head, tail := digits[..|digits| - 3], digits[|digits| - 3..];
    var groups: seq<string> := [];
    while |head| > 2
      invariant head <= digits[..|digits| - 3] && head != []
      invariant Pairs(digits[..|digits| - 3]) + "," + tail == Pairs(head) + "," + Join(groups + [tail])
    {
      ghost var before := groups;
      groups := [head[|head| - 2..]] + groups;
      head := head[..|head| - 2];
      JoinFirst(groups[0], before + [tail]);
      assert groups + [tail] == [groups[0]] + (before + [tail]);
    }
    JoinFirst(head, groups + [tail]);
    groups := [head] + groups;
    groups := groups + [tail];
    assert groups == [head] + (groups[1..|groups| - 1] + [tail]);
    r := Join(groups);
  }

  /** An absent amount prints as zero. */
  function AmountOf(value: Option<real>): real {
    if value.Some? then value.value else 0.0
  }

  method FormatInrExact(value: Option<real>) returns (r: string)
    ensures r == Printed(Quantize(AmountOf(value)))
  {
    var p := Quantize(AmountOf(value));
    var sign := if p < 0 then "-" else "";
    var digits := Digits(Magnitude(p) / 100);
    if |digits| > 3 {
      digits := GroupDigits(digits);
    }
    assert digits == Grouped(Digits(Magnitude(p) / 100));
    r := sign + [RUPEE] + digits + "." + TwoDigits(Magnitude(p) % 100);
  }

  /** Reading the text back: drop the sign, the symbol and the commas, and read rupees and paise on
      the two sides of the point. */
  function WithoutCommas(s: string): string {
    if s == [] then []
    else if s[|s| - 1] == ',' then WithoutCommas(s[..|s| - 1])
    else WithoutCommas(s[..|s| - 1]) + [s[|s| - 1]]
  }

  function ReadBack(s: string): Option<int> {
    var negative := s != [] && s[0] == '-';
    var body := if negative then s[1..] else s;
    if |body| < 4 || body[0] != RUPEE || body[|body| - 3] != '.' then None
    else
      var rupees := WithoutCommas(body[1..|body| - 3]);
      var paise := body[|body| - 2..];
      if !AllDigits(rupees) || !AllDigits(paise) || rupees == [] then None
      else
        var m := 100 * ReadNumber(rupees) + ReadNumber(paise);
        Some(if negative then -m else m)
  }

  lemma {:induction false} WithoutCommasConcat(a: string, b: string)
    ensures WithoutCommas(a + b) == WithoutCommas(a) + WithoutCommas(b)
  {
    if b == [] {
      assert a + b == a;
    } else {
      assert (a + b)[..|a + b| - 1] == a + b[..|b| - 1];
      WithoutCommasConcat(a, b[..|b| - 1]);
    }
  }

  lemma {:induction false} DigitsHaveNoCommas(s: string)
    requires AllDigits(s)
    ensures WithoutCommas(s) == s
  {
    if s != [] {
      DigitsHaveNoCommas(s[..|s| - 1]);
      assert Text.IsDigit(s[|s| - 1]);
    }
  }

  lemma {:induction false} CommaBetween(a: string, b: string)
    ensures WithoutCommas(a + "," + b) == WithoutCommas(a) + WithoutCommas(b)
  {
    WithoutCommasConcat(a + ",", b);
    assert (a + ",")[..|a|] == a;
  }

  lemma {:induction false} PairsKeepDigits(head: string)
    requires AllDigits(head)
    ensures WithoutCommas(Pairs(head)) == head
    decreases |head|
  {
    if |head| <= 2 {
      DigitsHaveNoCommas(head);
    } else {
      var front, last := head[..|head| - 2], head[|head| - 2..];
      PairsKeepDigits(front);
      DigitsHaveNoCommas(last);
      CommaBetween(Pairs(front), last);
    }
  }

  lemma {:induction false} OnlyEmptyHasNone(s: string)
    requires WithoutCommas(s) != []
    ensures s != []
  {
  }

  /** Grouping only inserts commas. */
  lemma {:induction false} GroupingKeepsDigits(digits: string)
    requires AllDigits(digits)
    ensures WithoutCommas(Grouped(digits)) == digits
  {
    hide WithoutCommas, Pairs;
    if |digits| <= 3 {
      DigitsHaveNoCommas(digits);
    } else {
      var front, last := digits[..|digits| - 3], digits[|digits| - 3..];
      assert front + last == digits;
      PairsKeepDigits(front);
      DigitsHaveNoCommas(last);
      CommaBetween(Pairs(front), last);
    }
  }

  lemma {:induction false} BodyReadsBack(grouped: string, paise: string, negative: bool)
    requires AllDigits(paise) && |paise| == 2
    requires AllDigits(WithoutCommas(grouped)) && WithoutCommas(grouped) != []
    ensures
      var m := 100 * ReadNumber(WithoutCommas(grouped)) + ReadNumber(paise);
      ReadBack((if negative then "-" else "") + [RUPEE] + grouped + "." + paise)
      == Some(if negative then -m else m)
  {
    hide WithoutCommas, ReadNumber;
    var body := [RUPEE] + grouped + "." + paise;
    var text := (if negative then "-" else "") + [RUPEE] + grouped + "." + paise;
    if negative {
      assert text[1..] == body;
    } else {
      assert text == body;
    }
    OnlyEmptyHasNone(grouped);
    assert body[1..|body| - 3] == grouped;
    assert body[|body| - 2..] == paise;
  }

  /** The round trip, for every amount in paise. */
  lemma {:induction false} PrintedReadsBack(p: int)
    ensures ReadBack(Printed(p)) == Some(p)
  {
    hide WithoutCommas, ReadNumber, Grouped, ReadBack, Digits, TwoDigits;
    var digits := Digits(Magnitude(p) / 100);
    GroupingKeepsDigits(digits);
    BodyReadsBack(Grouped(digits), TwoDigits(Magnitude(p) % 100), p < 0);
  }

  /** What the printed text of `x` rupees reads back as: the one number of paise that is `x` rounded
      half up. */
  lemma {:induction false} FormattedAmountReadsBack(x: real, p: int)
    ensures ReadBack(Printed(Quantize(x))) == Some(p) <==> RoundedHalfUp(x, p)
  {
    PrintedReadsBack(Quantize(x));
    if RoundedHalfUp(x, p) {
      RoundingIsUnique(x, p, Quantize(x));
    }
  }

  /** Counted from the right, commas stand at exactly every third place of the pairs part. */
  lemma {:induction false} PairsShape(head: string, i: nat)
    requires head != [] && AllDigits(head) && i < |Pairs(head)|
    ensures Pairs(head) != []
    ensures Pairs(head)[|Pairs(head)| - 1 - i] == ',' <==> i % 3 == 2
    ensures |Pairs(head)| % 3 != 0
    decreases |head|
  {
    if |head| > 2 {
      var front, last := head[..|head| - 2], head[|head| - 2..];
      assert Pairs(head) == Pairs(front) + "," + last;
      hide Pairs;
      PairsNonempty(front);
      PairsShape(front, if i >= 3 then i - 3 else 0);
      PairFromRight(Pairs(front), last, i);
      assert AllDigits(last);
      ThreeLess(i);
      ThreeLess(|Pairs(front)| + 3);
    }
  }

  lemma {:induction false} ThreeLess(n: int)
    ensures (n - 3) % 3 == n % 3
  {
  }

  lemma {:induction false} PairFromRight(front: string, last: string, i: nat)
    requires |last| == 2 && i < |front| + 3
    ensures
      var text := front + "," + last;
      text[|text| - 1 - i] == if i < 2 then last[1 - i] else if i == 2 then ',' else front[|front| + 2 - i]
  {
  }

  lemma {:induction false} PairsNonempty(head: string)
    requires head != []
    ensures Pairs(head) != []
  {
  }

  lemma {:induction false} Thirds(n: int)
    ensures (n - 4) % 3 == 2 <==> n % 3 == 0
    ensures (n - 4) % 3 == 0 <==> n % 3 == 1
  {
  }

  lemma {:induction false} CharFromRight(front: string, last: string, i: nat)
    requires |last| == 3 && i < |front| + 4
    ensures
      var text := front + "," + last;
      text[|text| - 1 - i] == if i < 3 then last[2 - i] else if i == 3 then ',' else front[|front| + 3 - i]
  {
  }

  /** The shape of Indian grouping, counted from the right: three digits, then a comma after every
      two more; and never a comma in front. So the last group has three digits, every inner one two,
      and the first one or two. */
  lemma {:induction false} GroupingShape(digits: string, i: nat)
    requires digits != [] && AllDigits(digits) && i < |Grouped(digits)|
    ensures Grouped(digits)[|Grouped(digits)| - 1 - i] == ',' <==> i >= 3 && i % 3 == 0
    ensures |Grouped(digits)| > 3 ==> |Grouped(digits)| % 3 != 1
    ensures |Grouped(digits)| > 3 <==> |digits| > 3
  {
    if |digits| > 3 {
      var front, last := digits[..|digits| - 3], digits[|digits| - 3..];
      assert Grouped(digits) == Pairs(front) + "," + last;
      hide Pairs, Grouped;
      PairsNonempty(front);
      PairsShape(front, 0);
      Thirds(|Pairs(front)| + 4);
      CommasFromRight(front, last, i);
    }
  }

  lemma {:induction false} CommasFromRight(front: string, last: string, i: nat)
    requires front != [] && AllDigits(front) && AllDigits(last) && |last| == 3 && i < |Pairs(front)| + 4
    ensures
      var text := Pairs(front) + "," + last;
      text[|text| - 1 - i] == ',' <==> i >= 3 && i % 3 == 0
  {
    hide Pairs;
    CharFromRight(Pairs(front), last, i);
    if i >= 4 {
      PairsShape(front, i - 4);
      Thirds(i);
    }
  }
}
