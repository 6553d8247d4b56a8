/** Percentage shares with one decimal that add up to exactly 100: the largest-remainder method, in
    tenths of a percent. */
module Shares {
  import opened Helpers

  const WHOLE: nat := 1000

  function Sum(values: seq<int>): int {
    if values == [] then 0 else Sum(values[..|values| - 1]) + values[|values| - 1]
  }

  /** The whole tenths of a percent in `v` of `total`, and what is left over, in units of 1/total. */
  function Floor(v: nat, total: nat): nat
    requires total > 0
  {
    v * WHOLE / total
  }

  function Left(v: nat, total: nat): (r: nat)
    requires total > 0
    ensures r < total && v * WHOLE == Floor(v, total) * total + r
  {
    v * WHOLE - Floor(v, total) * total
  }

  function Floors(values: seq<nat>, total: nat): (r: seq<nat>)
    requires total > 0
    ensures |r| == |values| && forall i :: 0 <= i < |r| ==> r[i] == Floor(values[i], total)
  {
    if values == [] then [] else Floors(values[..|values| - 1], total) + [Floor(values[|values| - 1], total)]
  }

  function Lefts(values: seq<nat>, total: nat): (r: seq<nat>)
    requires total > 0
    ensures |r| == |values| && forall i :: 0 <= i < |r| ==> r[i] == Left(values[i], total)
  {
    if values == [] then [] else Lefts(values[..|values| - 1], total) + [Left(values[|values| - 1], total)]
  }

  // ---------------------------------------------------------------- sorting by remainder

  predicate Below(order: seq<nat>, n: nat) {
    forall a :: 0 <= a < |order| ==> order[a] < n
  }

  /** Puts an index behind all those whose remainder is at least as large. */
  function Place(order: seq<nat>, i: nat, rems: seq<nat>): (r: seq<nat>)
    requires i < |rems| && Below(order, |rems|)
    ensures |r| == |order| + 1 && Below(r, |rems|) && forall x: nat :: x in r <==> x == i || x in order
  {
    if order == [] then [i]
    else if rems[order[0]] >= rems[i] then [order[0]] + Place(order[1..], i, rems)
    else [i] + order
  }

  /** The first `n` indices, largest remainder first, equal remainders in their original order. */
  function Order(rems: seq<nat>, n: nat): (r: seq<nat>)
    requires n <= |rems|
    ensures |r| == n && Below(r, |rems|) && forall x: nat :: x in r <==> x < n
  {
    if n == 0 then [] else Place(Order(rems, n - 1), n - 1, rems)
  }

  /** Larger remainders come first, equal ones in their original order. */
  predicate Descending(order: seq<nat>, rems: seq<nat>)
    requires Below(order, |rems|)
  {
    forall a, b :: 0 <= a < b < |order| ==>
      rems[order[a]] > rems[order[b]] || (rems[order[a]] == rems[order[b]] && order[a] < order[b])
  }

  function Along(order: seq<nat>, rems: seq<nat>): nat
    requires Below(order, |rems|)
  {
    if order == [] then 0 else rems[order[0]] + Along(order[1..], rems)
  }

  predicate NoRepeats(order: seq<nat>) {
    forall a, b :: 0 <= a < b < |order| ==> order[a] != order[b]
  }

  lemma {:induction false} PlaceAlong(order: seq<nat>, i: nat, rems: seq<nat>)
    requires i < |rems| && Below(order, |rems|)
    ensures Along(Place(order, i, rems), rems) == Along(order, rems) + rems[i]
  {
    if order != [] && rems[order[0]] >= rems[i] {
      PlaceAlong(order[1..], i, rems);
      assert Place(order, i, rems)[1..] == Place(order[1..], i, rems);
    } else {
      assert Place(order, i, rems)[1..] == order;
    }
  }

  lemma DescendingTail(order: seq<nat>, rems: seq<nat>)
    requires order != [] && Below(order, |rems|) && Descending(order, rems)
    ensures Below(order[1..], |rems|) && Descending(order[1..], rems)
  {
    forall a, b | 0 <= a < b < |order[1..]|
      ensures rems[order[1..][a]] > rems[order[1..][b]] || (rems[order[1..][a]] == rems[order[1..][b]] && order[1..][a] < order[1..][b])
    {
      assert order[1..][a] == order[a + 1] && order[1..][b] == order[b + 1];
    }
  }

  /** An index before all others of a list. */
  lemma DescendingCons(x: nat, order: seq<nat>, rems: seq<nat>)
    requires x < |rems| && Below(order, |rems|) && Descending(order, rems)
    requires forall b :: 0 <= b < |order| ==> rems[x] > rems[order[b]] || (rems[x] == rems[order[b]] && x < order[b])
    ensures Below([x] + order, |rems|) && Descending([x] + order, rems)
  {
    var r := [x] + order;
    forall a, b | 0 <= a < b < |r|
      ensures rems[r[a]] > rems[r[b]] || (rems[r[a]] == rems[r[b]] && r[a] < r[b])
    {
      assert r[b] == order[b - 1];
      if a > 0 { assert r[a] == order[a - 1]; }
    }
  }

  lemma {:induction false} PlaceDescending(order: seq<nat>, i: nat, rems: seq<nat>)
    requires i < |rems| && Below(order, |rems|) && Descending(order, rems) && forall x :: x in order ==> x < i
    ensures Descending(Place(order, i, rems), rems)
  {
    if order != [] && rems[order[0]] >= rems[i] {
      var tail := Place(order[1..], i, rems);
      DescendingTail(order, rems);
      forall x | x in order[1..] ensures x < i {
        assert x in order;
      }
      PlaceDescending(order[1..], i, rems);
      assert order[0] in order;
      forall b | 0 <= b < |tail|
        ensures rems[order[0]] > rems[tail[b]] || (rems[order[0]] == rems[tail[b]] && order[0] < tail[b])
      {
        assert tail[b] in tail;
        if tail[b] != i {
          var c :| 0 <= c < |order[1..]| && order[1..][c] == tail[b];
          assert order[c + 1] == tail[b];
        }
      }
      DescendingCons(order[0], tail, rems);
    } else if order != [] {
      DescendingCons(i, order, rems);
    }
  }

  lemma {:induction false} PlaceNoRepeats(order: seq<nat>, i: nat, rems: seq<nat>)
    requires i < |rems| && Below(order, |rems|) && NoRepeats(order) && i !in order
    ensures NoRepeats(Place(order, i, rems))
  {
    if order != [] && rems[order[0]] >= rems[i] {
      var tail := Place(order[1..], i, rems);
      PlaceNoRepeats(order[1..], i, rems);
      assert order[0] !in order[1..];
      assert order[0] !in tail;
    }
  }

  lemma {:induction false} OrderIsSorted(rems: seq<nat>, n: nat)
    requires n <= |rems|
    ensures Descending(Order(rems, n), rems) && NoRepeats(Order(rems, n))
  {
    if n > 0 {
      OrderIsSorted(rems, n - 1);
      PlaceDescending(Order(rems, n - 1), n - 1, rems);
      PlaceNoRepeats(Order(rems, n - 1), n - 1, rems);
    }
  }

  lemma {:induction false} OrderAlong(rems: seq<nat>, n: nat)
    requires n <= |rems|
    ensures Along(Order(rems, n), rems) == Sum(rems[..n])
  {
    if n > 0 {
      OrderAlong(rems, n - 1);
      PlaceAlong(Order(rems, n - 1), n - 1, rems);
      assert rems[..n][..n - 1] == rems[..n - 1];
    }
  }

  // ---------------------------------------------------------------- the shares

  function Missing(values: seq<nat>, total: nat): int
    requires total > 0
  {
    WHOLE - Sum(Floors(values, total))
  }

  /** The indices that get one more: the first ones in the order of remainders. */
  function Bonus(values: seq<nat>, total: nat): set<nat>
    requires total > 0 && Missing(values, total) >= 0
  {
    Chosen(Order(Lefts(values, total), |values|), Min(Missing(values, total), |values|))
  }

  /** The first `k` entries. */
  function Chosen(order: seq<nat>, k: nat): (r: set<nat>)
    requires k <= |order|
    ensures forall a :: 0 <= a < k ==> order[a] in r
  {
    if k == 0 then {} else Chosen(order, k - 1) + {order[k - 1]}
  }

  lemma {:induction false} ChosenAt(order: seq<nat>, k: nat, x: nat) returns (a: nat)
    requires k <= |order| && x in Chosen(order, k)
    ensures a < k && order[a] == x
  {
    if order[k - 1] == x {
      a := k - 1;
    } else {
      a := ChosenAt(order, k - 1, x);
    }
  }

  function Total(values: seq<nat>): (t: nat)
    ensures t == Sum(values)
  {
    NonNegative(values);
    Sum(values)
  }

  lemma {:induction false} NonNegative(values: seq<nat>)
    ensures Sum(values) >= 0
  {
    if values != [] { NonNegative(values[..|values| - 1]); }
  }

  function Share(values: seq<nat>, i: nat): nat
    requires i < |values|
  {
    if Total(values) == 0 then 0
    else
      FloorsFit(values, Total(values));
      Floor(values[i], Total(values)) + if i in Bonus(values, Total(values)) then 1 else 0
  }

  /** When there is nothing to share, every share is zero. */
  lemma NothingToShare(values: seq<nat>, i: nat)
    requires i < |values| && forall k :: 0 <= k < |values| ==> values[k] == 0
    ensures Share(values, i) == 0
  {
    ZeroSum(values);
  }

  lemma {:induction false} ZeroSum(values: seq<nat>)
    ensures Sum(values) == 0 <==> forall k :: 0 <= k < |values| ==> values[k] == 0
  {
    if values != [] {
      var n := |values| - 1;
      ZeroSum(values[..n]);
      NonNegative(values[..n]);
      assert forall k :: 0 <= k < n ==> values[..n][k] == values[k];
    }
  }

  function SharesOf(values: seq<nat>, n: nat): (r: seq<nat>)
    requires n <= |values|
    ensures |r| == n && forall i :: 0 <= i < n ==> r[i] == Share(values, i)
  {
    if n == 0 then [] else SharesOf(values, n - 1) + [Share(values, n - 1)]
  }

  // ---------------------------------------------------------------- what is left over

  /** Each value splits into its floor and its remainder. */
  predicate Splits(values: seq<nat>, floors: seq<nat>, lefts: seq<nat>, total: nat) {
    && |floors| == |lefts| == |values|
    && forall i :: 0 <= i < |values| ==> values[i] * WHOLE == floors[i] * total + lefts[i] && lefts[i] < total
  }

  /** The remainders make up exactly the tenths that the floors leave out. */
  lemma {:induction false} LeftsAddUp(values: seq<nat>, floors: seq<nat>, lefts: seq<nat>, total: nat)
    requires total > 0 && Splits(values, floors, lefts, total)
    ensures Sum(values) * WHOLE == Sum(floors) * total + Sum(lefts)
    ensures 0 <= Sum(lefts) <= |values| * (total - 1)
  {
    if values != [] {
      var n := |values| - 1;
      LeftsAddUp(values[..n], floors[..n], lefts[..n], total);
      Distribute(Sum(floors[..n]), floors[n], total);
      Distribute(n, 1, total - 1);
    }
  }

  lemma Distribute(a: int, b: int, c: int)
    ensures (a + b) * c == a * c + b * c
  {
  }

  lemma Scale(a: int, b: int, c: int)
    requires a <= b && c >= 0
    ensures a * c <= b * c
  {
    Distribute(a, b - a, c);
    assert (b - a) * c >= 0;
  }

  lemma FloorsFit(values: seq<nat>, total: nat)
    requires total > 0 && Sum(values) == total
    ensures Missing(values, total) * total == Sum(Lefts(values, total))
    ensures 0 <= Missing(values, total) <= |values|
  {
    var floors, lefts := Floors(values, total), Lefts(values, total);
    forall i | 0 <= i < |values|
      ensures values[i] * WHOLE == floors[i] * total + lefts[i] && lefts[i] < total
    {
    }
    LeftsAddUp(values, floors, lefts, total);
    Fits(Missing(values, total), |values|, total, Sum(floors), Sum(lefts));
  }

  lemma Fits(m: int, n: nat, total: nat, floors: int, lefts: int)
    requires total > 0 && m == WHOLE - floors && total * WHOLE == floors * total + lefts && 0 <= lefts <= n * (total - 1)
    ensures m * total == lefts && 0 <= m <= n
  {
    Distribute(m, floors, total);
    assert m * total == lefts;
    assert n * (total - 1) == n * total - n;
    if m < 0 { Scale(m, -1, total); }
    if m > n { Scale(n + 1, m, total); Distribute(n, 1, total); }
  }

  // ---------------------------------------------------------------- the theorem

  lemma {:induction false} Cut(order: seq<nat>, rems: seq<nat>, k: nat, bound: nat)
    requires Below(order, |rems|) && k <= |order| && forall i :: 0 <= i < |rems| ==> rems[i] <= bound
    requires Descending(order, rems) && (k < |order| ==> rems[order[k]] == 0)
    ensures Along(order, rems) <= k * bound
  {
    if order != [] {
      if k == 0 {
        DescendingTail(order, rems);
        Cut(order[1..], rems, 0, bound);
      } else {
        DescendingTail(order, rems);
        Cut(order[1..], rems, k - 1, bound);
        Distribute(k - 1, 1, bound);
      }
    }
  }

  lemma AlongIsSum(lefts: seq<nat>)
    ensures Along(Order(lefts, |lefts|), lefts) == Sum(lefts)
  {
    OrderAlong(lefts, |lefts|);
    assert lefts[..|lefts|] == lefts;
  }

  /** Whoever gets one more has a remainder. */
  lemma FirstHaveRemainders(lefts: seq<nat>, total: nat, m: int, k: nat)
    requires total > 0 && (forall i :: 0 <= i < |lefts| ==> lefts[i] < total)
    requires Sum(lefts) == m * total && k < m <= |lefts|
    ensures lefts[Order(lefts, |lefts|)[k]] > 0
  {
    OrderIsSorted(lefts, |lefts|);
    AlongIsSum(lefts);
    if lefts[Order(lefts, |lefts|)[k]] == 0 {
      CutAt(Order(lefts, |lefts|), lefts, k, total);
      TooFew(k, m, total, Sum(lefts));
    }
  }

  lemma CutAt(order: seq<nat>, lefts: seq<nat>, k: nat, total: nat)
    requires total > 0 && (forall i :: 0 <= i < |lefts| ==> lefts[i] < total)
    requires Below(order, |lefts|) && Descending(order, lefts) && k < |order| && lefts[order[k]] == 0
    ensures Along(order, lefts) <= k * (total - 1)
  {
    Cut(order, lefts, k, total - 1);
  }

  lemma TooFew(k: nat, m: int, total: nat, s: int)
    requires total > 0 && s == m * total && s <= k * (total - 1)
    ensures m <= k
  {
    Distribute(k, 1, total);
    if m > k { Scale(k + 1, m, total); }
  }

  lemma {:induction false} ChosenSize(order: seq<nat>, k: nat)
    requires NoRepeats(order) && k <= |order|
    ensures |Chosen(order, k)| == k
  {
    if k > 0 {
      ChosenSize(order, k - 1);
      if order[k - 1] in Chosen(order, k - 1) {
        var a := ChosenAt(order, k - 1, order[k - 1]);
        assert false;
      }
    }
  }

  /** How many of the first `n` indices are in the set, counted one by one. */
  function Tally(n: nat, chosen: set<nat>): nat {
    if n == 0 then 0 else Tally(n - 1, chosen) + if n - 1 in chosen then 1 else 0
  }

  lemma {:induction false} TallyIsSize(n: nat, chosen: set<nat>)
    requires forall x :: x in chosen ==> x < n
    ensures Tally(n, chosen) == |chosen|
  {
    if n == 0 {
      assert chosen == {};
    } else if n - 1 in chosen {
      TallyIsSize(n - 1, chosen - {n - 1});
      TallyIgnores(n - 1, chosen);
    } else {
      TallyIsSize(n - 1, chosen);
    }
  }

  lemma {:induction false} TallyIgnores(n: nat, chosen: set<nat>)
    ensures Tally(n, chosen - {n}) == Tally(n, chosen)
  {
    TallyIgnoresAbove(n, chosen, n);
  }

  lemma {:induction false} TallyIgnoresAbove(k: nat, chosen: set<nat>, n: nat)
    requires k <= n
    ensures Tally(k, chosen - {n}) == Tally(k, chosen)
  {
    if k > 0 { TallyIgnoresAbove(k - 1, chosen, n); }
  }

  lemma {:induction false} SharesSum(values: seq<nat>, n: nat)
    requires n <= |values| && Total(values) > 0
    ensures FloorsFitAll(values) && Sum(SharesOf(values, n)) == Sum(Floors(values, Total(values))[..n]) + Tally(n, Bonus(values, Total(values)))
  {
    FloorsFit(values, Total(values));
    if n > 0 {
      SharesSum(values, n - 1);
      var floors := Floors(values, Total(values));
      assert floors[..n][..n - 1] == floors[..n - 1];
      assert SharesOf(values, n)[..n - 1] == SharesOf(values, n - 1);
    }
  }

  predicate FloorsFitAll(values: seq<nat>)
    requires Total(values) > 0
  {
    Missing(values, Total(values)) >= 0
  }

  lemma BonusSize(values: seq<nat>, total: nat)
    requires total > 0 && Sum(values) == total && 0 <= Missing(values, total) <= |values|
    ensures Tally(|values|, Bonus(values, total)) == Missing(values, total)
  {
    var lefts, n := Lefts(values, total), |values|;
    var order := Order(lefts, n);
    OrderIsSorted(lefts, n);
    ChosenSize(order, Missing(values, total));
    forall x | x in Bonus(values, total) ensures x < n {
      var a := ChosenAt(order, Missing(values, total), x);
      assert order[a] in order;
    }
    TallyIsSize(n, Bonus(values, total));
  }

  /** The shares add up to exactly 100.0 percent. */
  lemma SharesAddUp(values: seq<nat>)
    requires Total(values) > 0
    ensures Sum(SharesOf(values, |values|)) == WHOLE
  {
    var total := Total(values);
    FloorsFit(values, total);
    SharesSum(values, |values|);
    BonusSize(values, total);
    var floors := Floors(values, total);
    assert floors[..|values|] == floors;
  }

  lemma BonusLeft(values: seq<nat>, i: nat)
    requires Total(values) > 0 && i < |values| && 0 <= Missing(values, Total(values)) <= |values| && i in Bonus(values, Total(values))
    ensures Left(values[i], Total(values)) > 0
  {
    var total := Total(values);
    var lefts, m := Lefts(values, total), Missing(values, total);
    FloorsFit(values, total);
    var k := ChosenAt(Order(lefts, |values|), m, i);
    FirstHaveRemainders(lefts, total, m, k);
  }

  lemma CloseTo(f: nat, left: nat, total: int, exact: int, extra: nat)
    requires exact == f * total + left && left < total && extra <= 1 && (extra == 1 ==> left > 0)
    ensures -total < (f + extra) * total - exact < total
  {
    Distribute(f, extra, total);
  }

  /** Every share is less than one tenth of a percent away from its exact value. */
  lemma SharesAreClose(values: seq<nat>, i: nat)
    requires Total(values) > 0 && i < |values|
    ensures var total: int := Total(values);
            -total < Share(values, i) * total - values[i] * WHOLE < total
  {
    var total := Total(values);
    FloorsFit(values, total);
    var extra := if i in Bonus(values, total) then 1 else 0;
    if extra == 1 { BonusLeft(values, i); }
    CloseTo(Floor(values[i], total), Left(values[i], total), total, values[i] * WHOLE, extra);
  }

  lemma LargerSplit(v: nat, w: nat, total: nat)
    requires total > 0 && v > w
    ensures Floor(v, total) > Floor(w, total) || (Floor(v, total) == Floor(w, total) && Left(v, total) > Left(w, total))
  {
    var fv, fw := Floor(v, total), Floor(w, total);
    var lv, lw := Left(v, total), Left(w, total);
    if fv < fw {
      Scale(fv + 1, fw, total);
      Distribute(fv, 1, total);
      assert false;
    }
  }

  lemma BonusByRemainder(values: seq<nat>, total: nat, i: nat, j: nat)
    requires total > 0 && 0 <= Missing(values, total) <= |values| && i < |values| && j < |values|
    requires Left(values[i], total) > Left(values[j], total) && j in Bonus(values, total)
    ensures i in Bonus(values, total)
  {
    var lefts, m := Lefts(values, total), Missing(values, total);
    var order := Order(lefts, |values|);
    OrderIsSorted(lefts, |values|);
    var b := ChosenAt(order, m, j);
    assert i in order;
    var a :| 0 <= a < |order| && order[a] == i;
  }

  /** A larger value never gets a smaller share. */
  lemma SharesAreMonotone(values: seq<nat>, i: nat, j: nat)
    requires i < |values| && j < |values| && values[i] > values[j]
    ensures Share(values, i) >= Share(values, j)
  {
    var total := Total(values);
    if total > 0 {
      FloorsFit(values, total);
      LargerSplit(values[i], values[j], total);
      if Floor(values[i], total) == Floor(values[j], total) && j in Bonus(values, total) {
        BonusByRemainder(values, total, i, j);
      }
    }
  }
}
