/** Recovering the half of the day that some bank alerts leave out. A time printed on a 12-hour
    clock without its marker has two readings; the alert's arrival time selects one.

    Instants and durations are whole microseconds, the resolution of the source's times. A day
    number times MICROS_PER_DAY is that day's midnight in Indian standard time. */
module AmPm {
  import opened Wrappers

  const HOUR: int := 3_600_000_000
  const MICROS_PER_DAY: int := 24 * HOUR
  const FUTURE_TOLERANCE: int := 300_000_000
  const PAST_LIMIT: int := 12 * HOUR
  const IST_OFFSET: int := 19_800_000_000

  /** A time of day: the hour, and the microseconds into that hour. */
  datatype Clock = Clock(hour: int, within: int)
  type Time = c: Clock | 0 <= c.hour < 24 && 0 <= c.within < HOUR witness Clock(0, 0)

  /** The arrival time: without a zone it is already Indian wall time. */
  datatype Received = Naive(wall: int) | Aware(utc: int)

  function WallTime(received: Received): int {
    match received
    case Naive(wall) => wall
    case Aware(utc) => utc + IST_OFFSET
  }

  function Anchored(day: int, t: Time): int {
    day * MICROS_PER_DAY + t.hour * HOUR + t.within
  }

  /** How long after `t` on `day` the alert arrived; negative when it came before. */
  function Delay(day: int, t: Time, received: Received): int {
    WallTime(received) - Anchored(day, t)
  }

  /** The alert neither precedes the transaction by more than the tolerance nor lags it by more than
      half a day. */
  predicate Plausible(d: int) {
    -FUTURE_TOLERANCE <= d <= PAST_LIMIT
  }

  function Gap(d: int): nat {
    if d < 0 then -d else d
  }

  /** Hours 1 to 12 can come from a 12-hour clock; 0 and 13 to 23 cannot. */
  predicate Ambiguous(t: Time) {
    1 <= t.hour <= 12
  }

  /** The two readings of an ambiguous time, morning first. */
  function Morning(t: Time): Time
    requires Ambiguous(t)
  {
    if t.hour == 12 then Clock(0, t.within) else t
  }

  function Evening(t: Time): Time
    requires Ambiguous(t)
  {
    if t.hour == 12 then t else Clock(t.hour + 12, t.within)
  }

  /** What the source promises of the answer `r`: an unambiguous or unanchored time is left alone;
      otherwise `r` is the plausible reading nearest to the arrival, the morning one on a tie, and
      the printed time if neither is plausible. */
  ghost predicate Resolves(parsed: Time, date: Option<int>, received: Option<Received>, r: Time) {
    if date.None? || received.None? || !Ambiguous(parsed) then r == parsed
    else
      var am, pm := Morning(parsed), Evening(parsed);
      var a := Delay(date.value, am, received.value);
      var p := Delay(date.value, pm, received.value);
      if !Plausible(a) && !Plausible(p) then r == parsed
      else
        && (r == am || r == pm)
        && (r == am ==> Plausible(a) && (Plausible(p) ==> Gap(a) <= Gap(p)))
        && (r == pm ==> Plausible(p) && (Plausible(a) ==> Gap(p) < Gap(a)))
  }

  /** The source's loop over the candidates, keeping the best so far. */
  method DisambiguateAmPm(parsed: Time, date: Option<int>, received: Option<Received>) returns (r: Time)
    ensures Resolves(parsed, date, received, r)
  {
    if date.None? || received.None? || parsed.hour == 0 {
      return parsed;
    }
    var candidates: seq<Time>;
    if parsed.hour < 12 {
      candidates := [parsed, Clock(parsed.hour + 12, parsed.within)];
    } else if parsed.hour == 12 {
      candidates := [Clock(0, parsed.within), parsed];
    } else {
      return parsed;
    }
    assert candidates == [Morning(parsed), Evening(parsed)];
    hide Resolves, Morning, Evening;
    var best: Option<(int, Time)> := None;
    ghost var chosen: nat := 0;
    for i := 0 to |candidates|
      invariant best.None? ==> forall k :: 0 <= k < i ==> !Plausible(Delay(date.value, candidates[k], received.value))
      invariant best.Some? ==> Chosen(candidates, date.value, received.value, i, chosen, best.value)
    {
      var delta := Anchored(date.value, candidates[i]) - WallTime(received.value);
      if delta > FUTURE_TOLERANCE || -delta > PAST_LIMIT {
        continue;
      }
      var gap := if delta < 0 then -delta else delta;
      if best.None? || gap < best.value.0 {
        best := Some((gap, candidates[i]));
        chosen := i;
      }
    }
    if best.Some? {
      ChosenResolves(parsed, date.value, received.value, candidates, chosen, best.value);
    } else {
      NoneResolves(parsed, date.value, received.value, candidates);
    }
    r := if best.Some? then best.value.1 else parsed;
  }

  /** Candidate `k` is the first of the plausible ones among the first `n` whose gap is smallest. */
  ghost predicate Chosen(candidates: seq<Time>, day: int, received: Received, n: nat, k: nat, best: (int, Time)) {
    && k < n <= |candidates|
    && best == (Gap(Delay(day, candidates[k], received)), candidates[k])
    && Plausible(Delay(day, candidates[k], received))
    && (forall j :: 0 <= j < n && Plausible(Delay(day, candidates[j], received)) ==>
          && best.0 <= Gap(Delay(day, candidates[j], received))
          && (j < k ==> best.0 < Gap(Delay(day, candidates[j], received))))
  }

  lemma {:induction false} ChosenResolves(
    parsed: Time, day: int, received: Received, candidates: seq<Time>, k: nat, best: (int, Time))
    requires Ambiguous(parsed) && candidates == [Morning(parsed), Evening(parsed)]
    requires Chosen(candidates, day, received, 2, k, best)
    ensures Resolves(parsed, Some(day), Some(received), best.1)
  {
    hide Anchored, WallTime, Delay, Gap, Plausible;
    assert Morning(parsed) != Evening(parsed);
    assert candidates[0] == Morning(parsed) && candidates[1] == Evening(parsed);
  }

  lemma {:induction false} NoneResolves(parsed: Time, day: int, received: Received, candidates: seq<Time>)
    requires Ambiguous(parsed) && candidates == [Morning(parsed), Evening(parsed)]
    requires forall k :: 0 <= k < 2 ==> !Plausible(Delay(day, candidates[k], received))
    ensures Resolves(parsed, Some(day), Some(received), parsed)
  {
    hide Anchored, WallTime, Delay, Gap, Plausible, Morning, Evening;
    assert candidates[0] == Morning(parsed) && candidates[1] == Evening(parsed);
  }

  /** The promise pins the answer down. */
  lemma {:induction false} ResolvesOnce(
    parsed: Time, date: Option<int>, received: Option<Received>, r: Time, s: Time)
    requires Resolves(parsed, date, received, r) && Resolves(parsed, date, received, s)
    ensures r == s
  {
  }

  /** Only the half of the day can change. */
  lemma {:induction false} OnlyTheHalfChanges(parsed: Time, date: Option<int>, received: Option<Received>, r: Time)
    requires Resolves(parsed, date, received, r)
    ensures r.within == parsed.within && (r.hour - parsed.hour) % 12 == 0
  {
  }

  /** What the bank prints for a transaction at `t`: the 12-hour clock, no marker. */
  function Printed(t: Time): (r: Time)
    ensures Ambiguous(r)
    ensures t == Morning(r) || t == Evening(r)
  {
    Clock(if t.hour % 12 == 0 then 12 else t.hour % 12, t.within)
  }

  /** When the alert for a transaction at `t` comes `d` later, this decides whether the printed time
      leads back to `t`. Outside the plausible range the printed time is kept, and is right for the
      hours a 24-hour clock prints the same way. */
  predicate Recoverable(t: Time, d: int) {
    if t.hour < 12 then
      -FUTURE_TOLERANCE <= d < PAST_LIMIT - FUTURE_TOLERANCE
      || (t.hour != 0 && (d < -FUTURE_TOLERANCE || d > 2 * PAST_LIMIT))
    else
      Plausible(d) || (t.hour == 12 && (d < -FUTURE_TOLERANCE - PAST_LIMIT || d > PAST_LIMIT))
  }

  /** The round trip, exactly: the true time comes back if and only if the delay allows it. */
  lemma {:induction false} RecoveredExactly(t: Time, day: int, received: Received, r: Time)
    requires Resolves(Printed(t), Some(day), Some(received), r)
    ensures r == t <==> Recoverable(t, Delay(day, t, received))
  {
  }

  /** Five minutes early up to, but not at, 11 hours 55 minutes late is the widest range of delays
      that brings back every time of the day. */
  lemma {:induction false} WindowIsWidest(d: int)
    ensures (forall t: Time :: Recoverable(t, d)) <==> -FUTURE_TOLERANCE <= d < PAST_LIMIT - FUTURE_TOLERANCE
  {
    var midnight: Time := Clock(0, 0);
    assert Recoverable(midnight, d) <==> -FUTURE_TOLERANCE <= d < PAST_LIMIT - FUTURE_TOLERANCE;
  }

  /** At exactly 11 hours 55 minutes every morning time is misread as the evening. */
  lemma {:induction false} LateMorningAlertMisread(t: Time, day: int, received: Received, r: Time)
    requires t.hour < 12
    requires Delay(day, t, received) == PAST_LIMIT - FUTURE_TOLERANCE
    requires Resolves(Printed(t), Some(day), Some(received), r)
    ensures r == Clock(t.hour + 12, t.within)
  {
  }
}
