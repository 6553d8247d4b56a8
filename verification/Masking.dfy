/** Masking sensitive values in the data that a run shows. */
module Masking {
  import opened Workflow

  /** Data as it is shown; `Nothing` is null or undefined. */
  datatype Json =
    | Nothing
    | Flag(b: bool)
    | Number(n: real)
    | Text(s: string)
    | Array(items: seq<Json>)
    | Record(entries: seq<Entry>)

  datatype Entry = Entry(key: string, value: Json)

  /** The rules: which keys a field rule matches, and what a built-in detector makes of a leaf. */
  datatype Rules = Rules(field: string -> bool, detect: (string, Json) -> Option<string>)

  const STARS: Json := Json.Text("******")

  predicate Hard(rules: Rules, key: string, forced: bool) { forced || (key != "" && rules.field(key)) }

  predicate Leaf(v: Json) { v.Number? || v.Text? }

  datatype Masked<T> = Masked(value: T, count: nat)

  // ---------------------------------------------------------------- the walk

  function MaskLeaf(rules: Rules, v: Json, key: string, hard: bool): Masked<Json>
    requires Leaf(v)
  {
    if hard then Masked(STARS, 1)
    else match rules.detect(key, v) case None => Masked(v, 0) case Some(text) => Masked(Json.Text(text), 1)
  }

  function Walk(rules: Rules, v: Json, key: string, forced: bool): Masked<Json>
    decreases v, 0
  {
    var hard := Hard(rules, key, forced);
    match v
    case Array(items) => var r := WalkItems(rules, items, key, hard); Masked(Array(r.value), r.count)
    case Record(entries) => var r := WalkEntries(rules, entries, hard); Masked(Record(r.value), r.count)
    case Nothing => Masked(v, 0)
    case Flag(_) => Masked(v, 0)
    case _ => MaskLeaf(rules, v, key, hard)
  }

  function WalkItems(rules: Rules, items: seq<Json>, key: string, forced: bool): Masked<seq<Json>>
    decreases items, 0
  {
    if items == [] then Masked([], 0)
    else
      var head, tail := Walk(rules, items[0], key, forced), WalkItems(rules, items[1..], key, forced);
      Masked([head.value] + tail.value, head.count + tail.count)
  }

  function WalkEntries(rules: Rules, entries: seq<Entry>, forced: bool): Masked<seq<Entry>>
    decreases entries, 0
  {
    if entries == [] then Masked([], 0)
    else
      var head, tail := Walk(rules, entries[0].value, entries[0].key, forced), WalkEntries(rules, entries[1..], forced);
      Masked([Entry(entries[0].key, head.value)] + tail.value, head.count + tail.count)
  }

  function MaskDeep(rules: Rules, v: Json, all: bool): Masked<Json> { Walk(rules, v, "", all) }

  /** The walk with its running count. */
  class Masker {
    const rules: Rules
    var count: nat

    constructor (rules: Rules)
      ensures this.rules == rules && count == 0
    {
      this.rules := rules;
      count := 0;
    }

    method Mask(v: Json, key: string, forced: bool) returns (r: Json)
      modifies this
      ensures count >= old(count) && Walk(rules, v, key, forced) == Masked(r, count - old(count))
      decreases v, 0
    {
      var hard := Hard(rules, key, forced);
      match v {
        case Array(items) => var list := MaskItems(items, key, hard); r := Array(list);
        case Record(entries) => var list := MaskEntries(entries, hard); r := Record(list);
        case Nothing => r := v;
        case Flag(_) => r := v;
        case _ =>
          r := v;
          if hard {
            count := count + 1;
            r := STARS;
          } else {
            var hit := rules.detect(key, v);
            if hit.Some? {
              count := count + 1;
              r := Json.Text(hit.value);
            }
          }
      }
    }

    method MaskItems(items: seq<Json>, key: string, forced: bool) returns (r: seq<Json>)
      modifies this
      ensures count >= old(count) && WalkItems(rules, items, key, forced) == Masked(r, count - old(count))
      decreases items, 0
    {
      if items == [] {
        return [];
      }
      var head := Mask(items[0], key, forced);
      var tail := MaskItems(items[1..], key, forced);
      r := [head] + tail;
    }

    method MaskEntries(entries: seq<Entry>, forced: bool) returns (r: seq<Entry>)
      modifies this
      ensures count >= old(count) && WalkEntries(rules, entries, forced) == Masked(r, count - old(count))
      decreases entries, 0
    {
      if entries == [] {
        return [];
      }
      var head := Mask(entries[0].value, entries[0].key, forced);
      var tail := MaskEntries(entries[1..], forced);
      r := [Entry(entries[0].key, head)] + tail;
    }
  }

  // ---------------------------------------------------------------- what cannot be told apart

  /** The two differ at most in numbers and texts that stand where a field rule or `all` masks them. */
  predicate Alike(rules: Rules, v: Json, w: Json, key: string, forced: bool)
    decreases v, 0
  {
    var hard := Hard(rules, key, forced);
    match v
    case Array(items) => w.Array? && AlikeItems(rules, items, w.items, key, hard)
    case Record(entries) => w.Record? && AlikeEntries(rules, entries, w.entries, hard)
    case _ => v == w || (hard && Leaf(v) && Leaf(w))
  }

  predicate AlikeItems(rules: Rules, a: seq<Json>, b: seq<Json>, key: string, forced: bool)
    decreases a, 0
  {
    |a| == |b| && (a == [] || (Alike(rules, a[0], b[0], key, forced) && AlikeItems(rules, a[1..], b[1..], key, forced)))
  }

  predicate AlikeEntries(rules: Rules, a: seq<Entry>, b: seq<Entry>, forced: bool)
    decreases a, 0
  {
    |a| == |b| && (a == [] || (&& a[0].key == b[0].key
                               && Alike(rules, a[0].value, b[0].value, a[0].key, forced)
                               && AlikeEntries(rules, a[1..], b[1..], forced)))
  }

  /** Data that differ only where values are masked by a rule or by `all` are shown identically: what
      is shown tells nothing about those values. */
  lemma {:induction false} ShownAlike(rules: Rules, v: Json, w: Json, key: string, forced: bool)
    requires Alike(rules, v, w, key, forced)
    ensures Walk(rules, v, key, forced) == Walk(rules, w, key, forced)
    decreases v, 0
  {
    var hard := Hard(rules, key, forced);
    match v {
      case Array(items) => ShownAlikeItems(rules, items, w.items, key, hard);
      case Record(entries) => ShownAlikeEntries(rules, entries, w.entries, hard);
      case _ =>
    }
  }

  lemma {:induction false} ShownAlikeItems(rules: Rules, a: seq<Json>, b: seq<Json>, key: string, forced: bool)
    requires AlikeItems(rules, a, b, key, forced)
    ensures WalkItems(rules, a, key, forced) == WalkItems(rules, b, key, forced)
    decreases a, 0
  {
    if a != [] {
      ShownAlike(rules, a[0], b[0], key, forced);
      ShownAlikeItems(rules, a[1..], b[1..], key, forced);
    }
  }

  lemma {:induction false} ShownAlikeEntries(rules: Rules, a: seq<Entry>, b: seq<Entry>, forced: bool)
    requires AlikeEntries(rules, a, b, forced)
    ensures WalkEntries(rules, a, forced) == WalkEntries(rules, b, forced)
    decreases a, 0
  {
    if a != [] {
      ShownAlike(rules, a[0].value, b[0].value, a[0].key, forced);
      ShownAlikeEntries(rules, a[1..], b[1..], forced);
    }
  }

  // ---------------------------------------------------------------- how much is masked

  function Leaves(v: Json): nat
    decreases v, 0
  {
    match v
    case Array(items) => LeavesOfItems(items)
    case Record(entries) => LeavesOfEntries(entries)
    case _ => if Leaf(v) then 1 else 0
  }

  function LeavesOfItems(items: seq<Json>): nat
    decreases items, 0
  {
    if items == [] then 0 else Leaves(items[0]) + LeavesOfItems(items[1..])
  }

  function LeavesOfEntries(entries: seq<Entry>): nat
    decreases entries, 0
  {
    if entries == [] then 0 else Leaves(entries[0].value) + LeavesOfEntries(entries[1..])
  }

  /** The data with every number and text replaced by the same constant. */
  function Starred(v: Json): Json
    decreases v, 0
  {
    match v
    case Array(items) => Array(StarredItems(items))
    case Record(entries) => Record(StarredEntries(entries))
    case _ => if Leaf(v) then STARS else v
  }

  function StarredItems(items: seq<Json>): seq<Json>
    decreases items, 0
  {
    if items == [] then [] else [Starred(items[0])] + StarredItems(items[1..])
  }

  function StarredEntries(entries: seq<Entry>): seq<Entry>
    decreases entries, 0
  {
    if entries == [] then [] else [Entry(entries[0].key, Starred(entries[0].value))] + StarredEntries(entries[1..])
  }

  /** Masking keeps the shape, never counts more leaves than there are, and where it is forced it
      replaces and counts every one of them. */
  lemma {:induction false} MaskedLeaves(rules: Rules, v: Json, key: string, forced: bool)
    ensures var r := Walk(rules, v, key, forced);
            && Starred(r.value) == Starred(v) && Leaves(r.value) == Leaves(v) && r.count <= Leaves(v)
            && (Hard(rules, key, forced) ==> r == Masked(Starred(v), Leaves(v)))
    decreases v, 0
  {
    var hard := Hard(rules, key, forced);
    match v {
      case Array(items) => MaskedItems(rules, items, key, hard);
      case Record(entries) => MaskedEntries(rules, entries, hard);
      case _ =>
    }
  }

  lemma {:induction false} MaskedItems(rules: Rules, items: seq<Json>, key: string, forced: bool)
    ensures var r := WalkItems(rules, items, key, forced);
            && StarredItems(r.value) == StarredItems(items) && LeavesOfItems(r.value) == LeavesOfItems(items) && r.count <= LeavesOfItems(items)
            && (forced ==> r == Masked(StarredItems(items), LeavesOfItems(items)))
    decreases items, 0
  {
    if items != [] {
      MaskedLeaves(rules, items[0], key, forced);
      MaskedItems(rules, items[1..], key, forced);
      assert WalkItems(rules, items, key, forced).value[1..] == WalkItems(rules, items[1..], key, forced).value;
    }
  }

  lemma {:induction false} MaskedEntries(rules: Rules, entries: seq<Entry>, forced: bool)
    ensures var r := WalkEntries(rules, entries, forced);
            && StarredEntries(r.value) == StarredEntries(entries) && LeavesOfEntries(r.value) == LeavesOfEntries(entries) && r.count <= LeavesOfEntries(entries)
            && (forced ==> r == Masked(StarredEntries(entries), LeavesOfEntries(entries)))
    decreases entries, 0
  {
    if entries != [] {
      MaskedLeaves(rules, entries[0].value, entries[0].key, forced);
      MaskedEntries(rules, entries[1..], forced);
      assert WalkEntries(rules, entries, forced).value[1..] == WalkEntries(rules, entries[1..], forced).value;
    }
  }

  // ---------------------------------------------------------------- leaf by leaf

  /** A number or text in the data, with the keys that lead to it. */
  datatype Spot = Spot(path: seq<string>, leaf: Json)

  function Spots(v: Json, path: seq<string>): seq<Spot>
    decreases v, 0
  {
    match v
    case Array(items) => SpotsOfItems(items, path)
    case Record(entries) => SpotsOfEntries(entries, path)
    case _ => if Leaf(v) then [Spot(path, v)] else []
  }

  function SpotsOfItems(items: seq<Json>, path: seq<string>): seq<Spot>
    decreases items, 0
  {
    if items == [] then [] else Spots(items[0], path) + SpotsOfItems(items[1..], path)
  }

  function SpotsOfEntries(entries: seq<Entry>, path: seq<string>): seq<Spot>
    decreases entries, 0
  {
    if entries == [] then [] else Spots(entries[0].value, path + [entries[0].key]) + SpotsOfEntries(entries[1..], path)
  }

  /** Some key that leads to the spot matches a field rule. */
  predicate UnderRule(rules: Rules, path: seq<string>) {
    exists i :: 0 <= i < |path| && path[i] != "" && rules.field(path[i])
  }

  function LastKey(path: seq<string>): string { if path == [] then "" else path[|path| - 1] }

  /** What is to be shown instead of the leaf, if it is to be hidden. */
  function Hidden(rules: Rules, all: bool, s: Spot): Option<Json> {
    if all || UnderRule(rules, s.path) then Some(STARS)
    else match rules.detect(LastKey(s.path), s.leaf) case None => None case Some(text) => Some(Json.Text(text))
  }

  function Shown(rules: Rules, all: bool, spots: seq<Spot>): seq<Spot> {
    if spots == [] then []
    else
      var h := Hidden(rules, all, spots[0]);
      [if h.Some? then Spot(spots[0].path, h.value) else spots[0]] + Shown(rules, all, spots[1..])
  }

  function Hits(rules: Rules, all: bool, spots: seq<Spot>): nat {
    if spots == [] then 0 else (if Hidden(rules, all, spots[0]).Some? then 1 else 0) + Hits(rules, all, spots[1..])
  }

  lemma {:induction false} ShownConcat(rules: Rules, all: bool, a: seq<Spot>, b: seq<Spot>)
    ensures Shown(rules, all, a + b) == Shown(rules, all, a) + Shown(rules, all, b)
    ensures Hits(rules, all, a + b) == Hits(rules, all, a) + Hits(rules, all, b)
  {
    if a == [] {
      assert a + b == b;
    } else {
      assert (a + b)[1..] == a[1..] + b;
      ShownConcat(rules, all, a[1..], b);
    }
  }

  lemma UnderLonger(rules: Rules, path: seq<string>, key: string)
    ensures UnderRule(rules, path + [key]) <==> UnderRule(rules, path) || (key != "" && rules.field(key))
  {
    var longer := path + [key];
    if UnderRule(rules, path) {
      var i :| 0 <= i < |path| && path[i] != "" && rules.field(path[i]);
      assert longer[i] == path[i];
    }
    assert longer[|path|] == key;
  }

  lemma {:induction false} WalkSpots(rules: Rules, all: bool, v: Json, path: seq<string>, forced: bool)
    requires Hard(rules, LastKey(path), forced) <==> all || UnderRule(rules, path)
    ensures var r := Walk(rules, v, LastKey(path), forced);
            Spots(r.value, path) == Shown(rules, all, Spots(v, path)) && r.count == Hits(rules, all, Spots(v, path))
    decreases v, 0
  {
    var hard := Hard(rules, LastKey(path), forced);
    match v {
      case Array(items) => WalkItemsSpots(rules, all, items, path, hard);
      case Record(entries) => WalkEntriesSpots(rules, all, entries, path, hard);
      case _ =>
    }
  }

  lemma {:induction false} WalkItemsSpots(rules: Rules, all: bool, items: seq<Json>, path: seq<string>, hard: bool)
    requires hard <==> all || UnderRule(rules, path)
    requires Hard(rules, LastKey(path), hard) <==> hard
    ensures var r := WalkItems(rules, items, LastKey(path), hard);
            && SpotsOfItems(r.value, path) == Shown(rules, all, SpotsOfItems(items, path))
            && r.count == Hits(rules, all, SpotsOfItems(items, path))
    decreases items, 0
  {
    if items != [] {
      WalkSpots(rules, all, items[0], path, hard);
      WalkItemsSpots(rules, all, items[1..], path, hard);
      ShownConcat(rules, all, Spots(items[0], path), SpotsOfItems(items[1..], path));
      assert WalkItems(rules, items, LastKey(path), hard).value[1..] == WalkItems(rules, items[1..], LastKey(path), hard).value;
    }
  }

  lemma {:induction false} WalkEntriesSpots(rules: Rules, all: bool, entries: seq<Entry>, path: seq<string>, hard: bool)
    requires hard <==> all || UnderRule(rules, path)
    ensures var r := WalkEntries(rules, entries, hard);
            && SpotsOfEntries(r.value, path) == Shown(rules, all, SpotsOfEntries(entries, path))
            && r.count == Hits(rules, all, SpotsOfEntries(entries, path))
    decreases entries, 0
  {
    if entries != [] {
      var key := entries[0].key;
      UnderLonger(rules, path, key);
      WalkSpots(rules, all, entries[0].value, path + [key], hard);
      WalkEntriesSpots(rules, all, entries[1..], path, hard);
      ShownConcat(rules, all, Spots(entries[0].value, path + [key]), SpotsOfEntries(entries[1..], path));
      assert WalkEntries(rules, entries, hard).value[1..] == WalkEntries(rules, entries[1..], hard).value;
    }
  }

  /** Leaf by leaf: with `all`, or below any key that matches a field rule, a leaf becomes the
      constant; elsewhere it is what the detectors make of it; and the count is the number of leaves
      that are hidden. */
  lemma MaskedSpots(rules: Rules, v: Json, all: bool)
    ensures var r := MaskDeep(rules, v, all);
            Spots(r.value, []) == Shown(rules, all, Spots(v, [])) && r.count == Hits(rules, all, Spots(v, []))
  {
    WalkSpots(rules, all, v, [], all);
  }
}
