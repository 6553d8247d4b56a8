/** The preview of a cron expression: its fields, and the scan for the next five runs. */
module Cron {
  import opened Workflow

  // ---------------------------------------------------------------- fields

  /** A number as written; `None` is a text that is not a whole number. */
  type Written = Option<int>

  datatype Base = Star | Single(n: Written) | Range(from: Written, to: Written)

  /** One comma-separated part: a base and, after a slash, a step. */
  datatype Segment = Segment(base: Base, step: Option<Written>)

  datatype Stride = Stride(from: int, to: int, step: int)

  /** What a part stands for, or nothing if it is not acceptable within the bounds. A single number
      with a step runs on to the upper bound. */
  function StrideOf(seg: Segment, lo: int, hi: int): Option<Stride> {
    var step := if seg.step.None? then Some(1) else seg.step.value;
    var from := match seg.base case Star => Some(lo) case Single(n) => n case Range(a, _) => a;
    var to := match seg.base case Star => Some(hi) case Single(n) => (if seg.step.None? then n else Some(hi)) case Range(_, b) => b;
    if step.Some? && step.value >= 1 && from.Some? && to.Some? && lo <= from.value <= to.value <= hi
    then Some(Stride(from.value, to.value, step.value))
    else None
  }

  function Nth(s: Stride, k: nat): int { s.from + k * s.step }

  /** The value is reached from the start of the stride in whole steps, and not beyond its end. */
  ghost predicate On(x: int, s: Stride) {
    x <= s.to && exists k: nat :: x == Nth(s, k)
  }

  /** What a part may be, and which values it then stands for, as it is written: any value, one number,
      a range, or every so many of the values from a start on. A number with a step runs on to the
      upper bound. */
  lemma PartMeans(seg: Segment, lo: int, hi: int, x: int)
    requires lo <= hi
    ensures var s := StrideOf(seg, lo, hi);
            match seg
            case Segment(Star, None) => s.Some? && (On(x, s.value) <==> lo <= x <= hi)
            case Segment(Single(n), None) => (s.Some? <==> n.Some? && lo <= n.value <= hi) && (s.Some? ==> (On(x, s.value) <==> x == n.value))
            case Segment(Range(a, b), None) =>
              && (s.Some? <==> a.Some? && b.Some? && lo <= a.value <= b.value <= hi)
              && (s.Some? ==> (On(x, s.value) <==> a.value <= x <= b.value))
            case Segment(Star, Some(d)) =>
              && (s.Some? <==> d.Some? && d.value >= 1)
              && (s.Some? ==> (On(x, s.value) <==> lo <= x <= hi && (x - lo) % d.value == 0))
            case Segment(Single(n), Some(d)) =>
              && (s.Some? <==> d.Some? && d.value >= 1 && n.Some? && lo <= n.value <= hi)
              && (s.Some? ==> (On(x, s.value) <==> n.value <= x <= hi && (x - n.value) % d.value == 0))
            case Segment(Range(a, b), Some(d)) =>
              && (s.Some? <==> d.Some? && d.value >= 1 && a.Some? && b.Some? && lo <= a.value <= b.value <= hi)
              && (s.Some? ==> (On(x, s.value) <==> a.value <= x <= b.value && (x - a.value) % d.value == 0))
  {
    var s := StrideOf(seg, lo, hi);
    if s.Some? { OnMeans(s.value, x); }
  }

  lemma OnMeans(s: Stride, x: int)
    requires s.step >= 1
    ensures On(x, s) <==> s.from <= x <= s.to && (x - s.from) % s.step == 0
    ensures s.step == 1 ==> (On(x, s) <==> s.from <= x <= s.to)
  {
    if k: nat :| x == Nth(s, k) {
      var y := x - s.from;
      assert k * s.step >= 0;
      assert y == y / s.step * s.step + y % s.step;
      NoRemainder(k, y / s.step, s.step, y % s.step);
    }
    if s.from <= x && (x - s.from) % s.step == 0 {
      var k := (x - s.from) / s.step;
      assert x == Nth(s, k);
    }
  }

  /** A multiple leaves no remainder. */
  lemma NoRemainder(k: int, q: int, d: int, rest: int)
    requires k * d == q * d + rest && 0 <= rest < d
    ensures rest == 0
  {
    assert (k - q) * d == rest;
    ProductGrows(k - q, d);
  }

  lemma ProductGrows(n: int, d: int)
    requires d >= 1
    ensures (n >= 1 ==> n * d >= d) && (n <= -1 ==> n * d <= -d)
  {
    if n >= 1 {
      assert (n - 1) * d >= 0;
    } else if n <= -1 {
      assert (-1 - n) * d >= 0;
    }
  }

  /** The values that a field allows. */
  ghost predicate Allows(field: seq<Segment>, lo: int, hi: int, x: int) {
    exists i :: 0 <= i < |field| && var s := StrideOf(field[i], lo, hi); s.Some? && On(x, s.value)
  }

  method Collect(s: Stride, found: set<int>) returns (r: set<int>)
    requires s.step >= 1
    ensures forall x :: x in r <==> x in found || On(x, s)
  {
    r := found;
    var x := s.from;
    ghost var k: nat := 0;
    while x <= s.to
      invariant x == Nth(s, k)
      invariant forall y :: y in r <==> y in found || (y <= s.to && exists j: nat :: j < k && y == Nth(s, j))
      decreases s.to - x
    {
      r := r + {x};
      x, k := x + s.step, k + 1;
      assert x == Nth(s, k) by { assert (k - 1) * s.step + s.step == k * s.step; }
    }
    forall j: nat | Nth(s, j) <= s.to ensures j < k {
      NthGrows(s, k, j);
    }
  }

  lemma NthGrows(s: Stride, i: nat, j: nat)
    requires s.step >= 1
    ensures i <= j ==> Nth(s, i) <= Nth(s, j)
  {
    if i <= j {
      assert (j - i) * s.step >= 0;
      assert j * s.step == i * s.step + (j - i) * s.step;
    }
  }

  /** A field is accepted if and only if each of its parts is; it then allows exactly the values its
      parts stand for, all within the bounds, and at least one. */
  method ParseField(field: seq<Segment>, lo: int, hi: int) returns (r: Option<set<int>>)
    requires field != []
    ensures r.Some? <==> forall i :: 0 <= i < |field| ==> StrideOf(field[i], lo, hi).Some?
    ensures r.Some? ==> (forall x :: x in r.value <==> Allows(field, lo, hi, x))
    ensures r.Some? ==> r.value != {} && forall x :: x in r.value ==> lo <= x <= hi
  {
    var out: set<int> := {};
    for i := 0 to |field|
      invariant forall k :: 0 <= k < i ==> StrideOf(field[k], lo, hi).Some?
      invariant forall x :: x in out <==> exists k :: 0 <= k < i && On(x, StrideOf(field[k], lo, hi).value)
    {
      var s := StrideOf(field[i], lo, hi);
      if s.None? {
        return None;
      }
      ghost var was := out;
      out := Collect(s.value, out);
      forall x | x in out ensures exists k :: 0 <= k < i + 1 && On(x, StrideOf(field[k], lo, hi).value) {
        if x !in was { assert On(x, StrideOf(field[i], lo, hi).value); }
      }
    }
    ghost var first := StrideOf(field[0], lo, hi).value;
    assert first.from == Nth(first, 0) && On(first.from, first);
    assert first.from in out;
    forall x | x in out ensures lo <= x <= hi {
      var k :| 0 <= k < |field| && On(x, StrideOf(field[k], lo, hi).value);
      var s := StrideOf(field[k], lo, hi).value;
      var j: nat :| x == Nth(s, j);
      NthGrows(s, 0, j);
    }
    return Some(out);
  }

  // ---------------------------------------------------------------- the scan

  /** What a calendar says of an hour; within an hour only the minute changes. */
  datatype Hour = Hour(month: int, day: int, weekday: int, hour: int)
  type Calendar = nat -> Hour

  datatype Schedule = Schedule(minutes: set<int>, hours: set<int>, days: set<int>, months: set<int>, weekdays: set<int>)

  /** A minute, counted from some beginning of an hour, is due if all five fields allow it: day of the
      month and weekday both have to match. */
  predicate Due(s: Schedule, cal: Calendar, t: nat) {
    var h := cal(t / 60);
    h.month in s.months && h.day in s.days && h.weekday in s.weekdays && h.hour in s.hours && t % 60 in s.minutes
  }

  /** The minute-by-minute scan: all due minutes from `a` up to but not including `b`. */
  function DueIn(s: Schedule, cal: Calendar, a: nat, b: nat): seq<nat>
    requires a <= b
    decreases b - a
  {
    if a == b then []
    else if Due(s, cal, a) then [a] + DueIn(s, cal, a + 1, b)
    else DueIn(s, cal, a + 1, b)
  }

  /** The scan finds the due minutes of the stretch and no others. */
  lemma {:induction false} DueInFinds(s: Schedule, cal: Calendar, a: nat, b: nat, t: nat)
    requires a <= b
    ensures t in DueIn(s, cal, a, b) <==> a <= t < b && Due(s, cal, t)
    decreases b - a
  {
    if a < b { DueInFinds(s, cal, a + 1, b, t); }
  }

  /** The scan finds them in order. */
  lemma {:induction false} DueInOrder(s: Schedule, cal: Calendar, a: nat, b: nat, i: nat, j: nat)
    requires a <= b && i < j < |DueIn(s, cal, a, b)|
    ensures DueIn(s, cal, a, b)[i] < DueIn(s, cal, a, b)[j]
    decreases b - a
  {
    var rest := DueIn(s, cal, a + 1, b);
    if !Due(s, cal, a) {
      DueInOrder(s, cal, a + 1, b, i, j);
    } else if i > 0 {
      DueInOrder(s, cal, a + 1, b, i - 1, j - 1);
    } else {
      DueInFinds(s, cal, a + 1, b, rest[j - 1]);
    }
  }

  lemma {:induction false} DueInSplit(s: Schedule, cal: Calendar, a: nat, m: nat, b: nat)
    requires a <= m <= b
    ensures DueIn(s, cal, a, b) == DueIn(s, cal, a, m) + DueIn(s, cal, m, b)
    decreases m - a
  {
    if a < m {
      DueInSplit(s, cal, a + 1, m, b);
    } else {
      assert [] + DueIn(s, cal, m, b) == DueIn(s, cal, m, b);
    }
  }

  lemma {:induction false} NothingDue(s: Schedule, cal: Calendar, a: nat, b: nat)
    requires a <= b && forall t: nat :: a <= t < b ==> !Due(s, cal, t)
    ensures DueIn(s, cal, a, b) == []
    decreases b - a
  {
    if a < b { NothingDue(s, cal, a + 1, b); }
  }

  /** The hour cannot be due at any minute. */
  predicate Barren(s: Schedule, h: Hour) {
    h.hour !in s.hours || h.month !in s.months || h.day !in s.days
  }

  function NextHour(t: nat): (r: nat)
    ensures t < r
  {
    (t / 60 + 1) * 60
  }

  /** Skipping the rest of a barren hour skips nothing that is due. */
  lemma SkipIsSafe(s: Schedule, cal: Calendar, t: nat)
    requires Barren(s, cal(t / 60))
    ensures DueIn(s, cal, t, NextHour(t)) == []
  {
    forall x: nat | t <= x < NextHour(t)
      ensures !Due(s, cal, x)
    {
      assert x / 60 == t / 60;
    }
    NothingDue(s, cal, t, NextHour(t));
  }

  const HORIZON: nat := 60 * 24 * 400

  /** The scan that leaves out barren hours. It finds exactly what the minute-by-minute scan finds up
      to the minute where it stops: at the fifth run, or not before the horizon. */
  method Preview(s: Schedule, cal: Calendar, now: nat) returns (runs: seq<nat>, ghost end: nat)
    ensures now + 1 <= end && runs == DueIn(s, cal, now + 1, end)
    ensures |runs| <= 5
    ensures |runs| < 5 ==> end >= now + 1 + HORIZON
  {
    runs := [];
    var d := now + 1;
    var guard := 0;
    while guard < HORIZON && |runs| < 5
      invariant 0 <= guard <= HORIZON && d >= now + 1 + guard
      invariant |runs| <= 5 && runs == DueIn(s, cal, now + 1, d)
      decreases HORIZON - guard
    {
      ghost var was := d;
      if Due(s, cal, d) {
        runs := runs + [d];
      }
      if Barren(s, cal(d / 60)) {
        SkipIsSafe(s, cal, d);
        d := NextHour(d);
      } else {
        d := d + 1;
        assert DueIn(s, cal, was, d) == if Due(s, cal, was) then [was] else [];
      }
      DueInSplit(s, cal, now + 1, was, d);
      guard := guard + 1;
    }
    end := d;
  }

  /** Seen from outside: the runs are due, in order, after now; every due minute up to the last of
      them is among them; and if there are fewer than five, nothing else is due before the horizon. */
  lemma PreviewIsComplete(s: Schedule, cal: Calendar, now: nat, runs: seq<nat>, end: nat, t: nat)
    requires now + 1 <= end && runs == DueIn(s, cal, now + 1, end) && |runs| <= 5
    requires |runs| < 5 ==> end >= now + 1 + HORIZON
    requires now < t && Due(s, cal, t)
    ensures runs != [] && t <= runs[|runs| - 1] ==> t in runs
    ensures |runs| < 5 && t < now + 1 + HORIZON ==> t in runs
  {
    DueInFinds(s, cal, now + 1, end, t);
    if runs != [] {
      assert runs[|runs| - 1] in runs;
      DueInFinds(s, cal, now + 1, end, runs[|runs| - 1]);
    }
  }

  // ---------------------------------------------------------------- the whole preview

  /** The bounds of the five fields: minute, hour, day of the month, month and weekday. */
  function Lo(i: nat): int { if i == 2 || i == 3 then 1 else 0 }

  function Hi(i: nat): int { match i case 0 => 59 case 1 => 23 case 2 => 31 case 3 => 12 case _ => 6 }

  predicate Accepted(field: seq<Segment>, lo: int, hi: int) {
    forall i :: 0 <= i < |field| ==> StrideOf(field[i], lo, hi).Some?
  }

  predicate AllAccepted(fields: seq<seq<Segment>>) {
    |fields| == 5 && forall i :: 0 <= i < 5 ==> Accepted(fields[i], Lo(i), Hi(i))
  }

  /** A minute is due by the expression itself. */
  ghost predicate DueBy(fields: seq<seq<Segment>>, cal: Calendar, t: nat)
    requires |fields| == 5
  {
    var h := cal(t / 60);
    && Allows(fields[0], 0, 59, t % 60) && Allows(fields[1], 0, 23, h.hour) && Allows(fields[2], 1, 31, h.day)
    && Allows(fields[3], 1, 12, h.month) && Allows(fields[4], 0, 6, h.weekday)
  }

  /** The sets hold what the fields allow. */
  ghost predicate Parsed(fields: seq<seq<Segment>>, sets: seq<set<int>>) {
    |sets| <= |fields| && forall i :: 0 <= i < |sets| ==> forall x :: x in sets[i] <==> Allows(fields[i], Lo(i), Hi(i), x)
  }

  method ParseAll(fields: seq<seq<Segment>>) returns (r: Option<seq<set<int>>>)
    requires |fields| == 5 && forall i :: 0 <= i < 5 ==> fields[i] != []
    ensures r.Some? <==> AllAccepted(fields)
    ensures r.Some? ==> |r.value| == 5 && Parsed(fields, r.value)
  {
    var sets: seq<set<int>> := [];
    for i := 0 to 5
      invariant |sets| == i && Parsed(fields, sets)
      invariant forall k :: 0 <= k < i ==> Accepted(fields[k], Lo(k), Hi(k))
    {
      var parsed := ParseField(fields[i], Lo(i), Hi(i));
      if parsed.None? {
        assert !Accepted(fields[i], Lo(i), Hi(i));
        return None;
      }
      sets := sets + [parsed.value];
    }
    return Some(sets);
  }

  lemma DueByParsed(fields: seq<seq<Segment>>, sets: seq<set<int>>, cal: Calendar, t: nat)
    requires |fields| == 5 && |sets| == 5 && Parsed(fields, sets)
    ensures Due(Schedule(sets[0], sets[1], sets[2], sets[3], sets[4]), cal, t) <==> DueBy(fields, cal, t)
  {
    var h := cal(t / 60);
    assert t % 60 in sets[0] <==> Allows(fields[0], Lo(0), Hi(0), t % 60);
    assert h.hour in sets[1] <==> Allows(fields[1], Lo(1), Hi(1), h.hour);
    assert h.day in sets[2] <==> Allows(fields[2], Lo(2), Hi(2), h.day);
    assert h.month in sets[3] <==> Allows(fields[3], Lo(3), Hi(3), h.month);
    assert h.weekday in sets[4] <==> Allows(fields[4], Lo(4), Hi(4), h.weekday);
  }

  /** The runs come after now, in order, and are due; no minute before the last of them that is due is
      left out; and there are five, or no other is due before the horizon. */
  ghost predicate FirstDue(fields: seq<seq<Segment>>, cal: Calendar, now: nat, runs: seq<nat>)
    requires |fields| == 5
  {
    && |runs| <= 5
    && (forall i, j :: 0 <= i < j < |runs| ==> runs[i] < runs[j])
    && (forall t :: t in runs ==> now < t && DueBy(fields, cal, t))
    && (forall t: nat :: now < t && DueBy(fields, cal, t) ==>
          (runs != [] && t <= runs[|runs| - 1] ==> t in runs) && (|runs| < 5 && t < now + 1 + HORIZON ==> t in runs))
  }

  /** The preview of an expression: it is accepted if and only if it has five fields and each of them
      is, and then it gives the first due minutes. */
  method CronPreview(fields: seq<seq<Segment>>, cal: Calendar, now: nat) returns (ok: bool, runs: seq<nat>)
    requires forall i :: 0 <= i < |fields| ==> fields[i] != []
    ensures ok <==> AllAccepted(fields)
    ensures if ok then FirstDue(fields, cal, now, runs) else runs == []
  {
    if |fields| != 5 {
      return false, [];
    }
    var sets := ParseAll(fields);
    if sets.None? {
      return false, [];
    }
    var s := Schedule(sets.value[0], sets.value[1], sets.value[2], sets.value[3], sets.value[4]);
    ghost var end;
    runs, end := Preview(s, cal, now);
    ok := true;
    forall t: nat
      ensures Due(s, cal, t) <==> DueBy(fields, cal, t)
    {
      DueByParsed(fields, sets.value, cal, t);
    }
    forall i, j | 0 <= i < j < |runs| ensures runs[i] < runs[j] {
      DueInOrder(s, cal, now + 1, end, i, j);
    }
    forall t | t in runs ensures now < t && DueBy(fields, cal, t) {
      DueInFinds(s, cal, now + 1, end, t);
    }
    forall t: nat | now < t && DueBy(fields, cal, t)
      ensures (runs != [] && t <= runs[|runs| - 1] ==> t in runs) && (|runs| < 5 && t < now + 1 + HORIZON ==> t in runs)
    {
      PreviewIsComplete(s, cal, now, runs, end, t);
    }
  }
}
