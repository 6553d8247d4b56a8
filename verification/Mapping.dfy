/** Evaluating a field mapping: rows that fill the fields of a target schema, with transforms and
    with nested mappings for the items of a list. */
module Mapping {
  import opened Workflow

  datatype Value =
    | Undefined
    | Null
    | Bool(b: bool)
    | Number(n: real)
    | Str(s: string)
    | List(items: seq<Value>)
    | Object(fields: map<string, Value>)

  datatype FieldType = TextType | NumberType | DateType | ChoiceType | ListType | OtherType

  datatype Field = Field(key: string, kind: FieldType, required: bool, options: Option<seq<string>>, item: seq<Field>)

  datatype Transform = Transform(name: string, arg: string)

  /** A row fills `target` from a source expression or a constant; a row that is marked so fills a
      list from the items of a list, one by one, by the rows in `each`. */
  datatype Row = Row(target: string, source: Option<Expr>, constant: Value, hasEach: bool, each: seq<Row>, transforms: seq<Transform>)

  type Resolve = string -> Value

  datatype Applied = Applied(value: Value, error: Option<string>)

  /** What the mapping leaves to others: reading an expression, applying a transform, writing a value
      as text and recognising dates and blank text. */
  datatype Env = Env(read: (Expr, Resolve) -> Value, apply: (Value, Transform) -> Applied, text: Value -> string,
                     isDate: string -> bool, isBlankText: string -> bool)

  datatype RowResult = RowResult(target: string, value: Value, error: Option<string>)

  datatype Evaluated = Evaluated(value: map<string, Value>, rows: seq<RowResult>, missing: seq<Field>)

  // ---------------------------------------------------------------- checks and transforms

  predicate Empty(v: Value) { v == Undefined || v == Null || v == Str("") }

  function Check(v: Value, f: Field, env: Env): Option<string> {
    if Empty(v) then (if f.required then Some("no value for a required field") else None)
    else if f.kind == NumberType && !v.Number? then Some("not a number")
    else if f.kind == DateType && !env.isDate(env.text(v)) then Some("not a date")
    else if f.kind == ChoiceType && f.options.Some? && env.text(v) !in f.options.value then Some("not an option")
    else if f.kind == ListType && !v.List? then Some("not a list")
    else None
  }

  /** The transforms in order, up to the first that fails. */
  function ApplyAll(v: Value, ts: seq<Transform>, env: Env): Applied
    decreases ts
  {
    if ts == [] then Applied(v, None)
    else
      var out := env.apply(v, ts[0]);
      if out.error.Some? then out else ApplyAll(out.value, ts[1..], env)
  }

  /** The values that the first transforms go through, one application after the other, none of which
      fails but perhaps the last. */
  ghost predicate IsTrail(v: Value, ts: seq<Transform>, env: Env, values: seq<Value>) {
    && 0 < |values| <= |ts| + 1 && values[0] == v
    && forall i :: 0 <= i < |values| - 1 ==>
         && values[i + 1] == env.apply(values[i], ts[i]).value
         && (i < |values| - 2 ==> env.apply(values[i], ts[i]).error.None?)
  }

  /** The trail ends after the last transform, or at one that failed; it has that one's error. */
  ghost predicate Ends(ts: seq<Transform>, env: Env, values: seq<Value>, error: Option<string>)
    requires 0 < |values| <= |ts| + 1
  {
    var n := |values| - 1;
    if n == 0 then ts == [] && error.None?
    else error == env.apply(values[n - 1], ts[n - 1]).error && (n == |ts| || error.Some?)
  }

  /** The value went through all transforms, or up to the first that failed; it is what that one made
      of it, with its error. */
  ghost predicate Outcome(v: Value, ts: seq<Transform>, env: Env, value: Value, error: Option<string>) {
    exists values: seq<Value> :: IsTrail(v, ts, env, values) && Ends(ts, env, values, error) && value == values[|values| - 1]
  }

  method RunTransforms(v: Value, ts: seq<Transform>, env: Env) returns (value: Value, error: Option<string>)
    ensures Outcome(v, ts, env, value, error) && Applied(value, error) == ApplyAll(v, ts, env)
  {
    value, error := v, None;
    ghost var values := [v];
    var i := 0;
    while i < |ts|
      invariant 0 <= i <= |ts| && error.None?
      invariant |values| == i + 1 && values[i] == value && IsTrail(v, ts, env, values)
      invariant i > 0 ==> env.apply(values[i - 1], ts[i - 1]).error.None?
      invariant ApplyAll(v, ts, env) == ApplyAll(value, ts[i..], env)
    {
      var out := env.apply(value, ts[i]);
      assert ts[i..][0] == ts[i] && ts[i..][1..] == ts[i + 1..];
      values := values + [out.value];
      value := out.value;
      if out.error.Some? {
        error := out.error;
        break;
      }
      i := i + 1;
    }
    assert IsTrail(v, ts, env, values) && Ends(ts, env, values, error);
  }

  /** There is one outcome. */
  lemma OutcomeIsOne(v: Value, ts: seq<Transform>, env: Env, value: Value, error: Option<string>)
    ensures Outcome(v, ts, env, value, error) <==> Applied(value, error) == ApplyAll(v, ts, env)
  {
    ApplyAllEnds(v, ts, env);
    if Outcome(v, ts, env, value, error) {
      var values: seq<Value> :| IsTrail(v, ts, env, values) && Ends(ts, env, values, error) && value == values[|values| - 1];
      TrailEnds(v, ts, env, values, error);
    }
  }

  lemma {:induction false} TrailEnds(v: Value, ts: seq<Transform>, env: Env, values: seq<Value>, error: Option<string>)
    requires IsTrail(v, ts, env, values) && Ends(ts, env, values, error)
    ensures ApplyAll(v, ts, env) == Applied(values[|values| - 1], error)
    decreases ts
  {
    if |values| > 1 && env.apply(v, ts[0]).error.None? {
      var rest := values[1..];
      forall i | 0 <= i < |rest| - 1
        ensures rest[i + 1] == env.apply(rest[i], ts[1..][i]).value
        ensures i < |rest| - 2 ==> env.apply(rest[i], ts[1..][i]).error.None?
      {
        assert values[i + 2] == env.apply(values[i + 1], ts[i + 1]).value;
      }
      TrailEnds(values[1], ts[1..], env, rest, error);
    }
  }

  lemma {:induction false} ApplyAllEnds(v: Value, ts: seq<Transform>, env: Env)
    ensures Outcome(v, ts, env, ApplyAll(v, ts, env).value, ApplyAll(v, ts, env).error)
    decreases ts
  {
    if ts == [] {
      assert IsTrail(v, ts, env, [v]) && Ends(ts, env, [v], None);
    } else {
      var out := env.apply(v, ts[0]);
      if out.error.Some? {
        assert IsTrail(v, ts, env, [v, out.value]) && Ends(ts, env, [v, out.value], out.error);
      } else {
        ApplyAllEnds(out.value, ts[1..], env);
        var r := ApplyAll(out.value, ts[1..], env);
        var rest: seq<Value> :| IsTrail(out.value, ts[1..], env, rest) && Ends(ts[1..], env, rest, r.error) && r.value == rest[|rest| - 1];
        TrailLonger(v, ts, env, rest, r.error);
      }
    }
  }

  lemma TrailLonger(v: Value, ts: seq<Transform>, env: Env, rest: seq<Value>, error: Option<string>)
    requires ts != [] && env.apply(v, ts[0]).error.None?
    requires IsTrail(env.apply(v, ts[0]).value, ts[1..], env, rest) && Ends(ts[1..], env, rest, error)
    ensures Outcome(v, ts, env, rest[|rest| - 1], error)
  {
    var values := [v] + rest;
    forall i | 0 <= i < |values| - 1
      ensures values[i + 1] == env.apply(values[i], ts[i]).value
      ensures i < |values| - 2 ==> env.apply(values[i], ts[i]).error.None?
    {
      if i > 0 {
        assert values[i] == rest[i - 1] && ts[1..][i - 1] == ts[i];
        assert rest[i - 1 + 1] == env.apply(rest[i - 1], ts[1..][i - 1]).value;
      }
    }
    assert IsTrail(v, ts, env, values);
    if |rest| > 1 { assert values[|values| - 2] == rest[|rest| - 2] && ts[1..][|rest| - 2] == ts[|rest| - 1]; }
    assert Ends(ts, env, values, error);
  }

  /** There is no error if and only if every transform was applied and none failed. */
  lemma NoErrorMeansAllApplied(v: Value, ts: seq<Transform>, env: Env, values: seq<Value>, error: Option<string>)
    requires IsTrail(v, ts, env, values) && Ends(ts, env, values, error)
    ensures error.None? <==> |values| == |ts| + 1 && forall i :: 0 <= i < |ts| ==> env.apply(values[i], ts[i]).error.None?
  {
  }

  function FindField(schema: seq<Field>, key: string): (r: Option<Field>)
    ensures r.Some? ==> r.value in schema && r.value.key == key
    ensures r.None? ==> forall f :: f in schema ==> f.key != key
  {
    if schema == [] then None
    else if schema[0].key == key then Some(schema[0])
    else FindField(schema[1..], key)
  }

  // ---------------------------------------------------------------- evaluation

  predicate PerItem(row: Row, field: Option<Field>) { row.hasEach && field.Some? && field.value.kind == ListType }

  function SourceValue(row: Row, resolve: Resolve, env: Env): Value {
    if row.source.Some? then env.read(row.source.value, resolve) else row.constant
  }

  function ItemsOf(v: Value): seq<Value> { if v.List? then v.items else [] }

  function WithItem(resolve: Resolve, item: Value): Resolve {
    (head: string) => if head == "item" then item else resolve(head)
  }

  function Checked(target: string, v: Value, error: Option<string>, field: Option<Field>, env: Env): RowResult {
    RowResult(target, v, if error.None? && field.Some? then Check(v, field.value, env) else error)
  }

  function EvalRow(row: Row, resolve: Resolve, field: Option<Field>, env: Env): (r: RowResult)
    ensures r.target == row.target
    decreases row, 0
  {
    var v := SourceValue(row, resolve, env);
    if PerItem(row, field) then
      var results := EvalItems(ItemsOf(v), row.each, resolve, field.value.item, env);
      Checked(row.target, List(Objects(results)), FirstError(results), field, env)
    else
      var out := ApplyAll(v, row.transforms, env);
      Checked(row.target, out.value, out.error, field, env)
  }

  /** One result per item, in which the word `item` stands for that item. */
  function EvalItems(items: seq<Value>, rows: seq<Row>, resolve: Resolve, schema: seq<Field>, env: Env): (r: seq<Evaluated>)
    ensures |r| == |items|
    decreases rows, |items| + 1
  {
    if items == [] then []
    else [EvalMapping(rows, WithItem(resolve, items[0]), schema, env)] + EvalItems(items[1..], rows, resolve, schema, env)
  }

  function EvalRows(rows: seq<Row>, resolve: Resolve, schema: seq<Field>, env: Env): seq<RowResult>
    decreases rows, 0
  {
    if rows == [] then []
    else
      (if rows[0].target == "" then [] else [EvalRow(rows[0], resolve, FindField(schema, rows[0].target), env)])
      + EvalRows(rows[1..], resolve, schema, env)
  }

  function EvalMapping(rows: seq<Row>, resolve: Resolve, schema: seq<Field>, env: Env): Evaluated
    decreases rows, 1
  {
    var results := EvalRows(rows, resolve, schema, env);
    Evaluated(Collect(results), results, MissingFields(schema, rows, env))
  }

  /** Later rows win. */
  function Collect(results: seq<RowResult>): map<string, Value> {
    if results == [] then map[]
    else Collect(results[..|results| - 1])[results[|results| - 1].target := results[|results| - 1].value]
  }

  function Objects(results: seq<Evaluated>): (r: seq<Value>)
    ensures |r| == |results| && forall i :: 0 <= i < |r| ==> r[i] == Object(results[i].value)
  {
    if results == [] then [] else [Object(results[0].value)] + Objects(results[1..])
  }

  function RowError(rows: seq<RowResult>): (r: Option<string>)
    ensures r.None? <==> NoErrors(rows)
  {
    if rows == [] then None else if rows[0].error.Some? then rows[0].error else RowError(rows[1..])
  }

  /** The first error of the nested rows; what is missing inside an item is not looked at. */
  function FirstError(results: seq<Evaluated>): (r: Option<string>)
    ensures r.None? <==> forall i :: 0 <= i < |results| ==> NoErrors(results[i].rows)
  {
    if results == [] then None
    else if RowError(results[0].rows).Some? then RowError(results[0].rows)
    else FirstError(results[1..])
  }

  predicate NoErrors(rows: seq<RowResult>) { forall i :: 0 <= i < |rows| ==> rows[i].error.None? }

  predicate Blank(v: Value, env: Env) { v == Undefined || v == Null || (v.Str? && env.isBlankText(v.s)) }

  predicate HasDefault(ts: seq<Transform>) { exists i :: 0 <= i < |ts| && ts[i].name == "default" }

  predicate Fills(row: Row, key: string, env: Env) {
    row.target == key && (row.source.Some? || !Blank(row.constant, env) || HasDefault(row.transforms))
  }

  predicate Filled(rows: seq<Row>, key: string, env: Env) { exists i :: 0 <= i < |rows| && Fills(rows[i], key, env) }

  function MissingFields(schema: seq<Field>, rows: seq<Row>, env: Env): (r: seq<Field>)
    ensures forall f :: f in r <==> f in schema && f.required && !Filled(rows, f.key, env)
  {
    if schema == [] then []
    else (if schema[0].required && !Filled(rows, schema[0].key, env) then [schema[0]] else []) + MissingFields(schema[1..], rows, env)
  }

  // ---------------------------------------------------------------- soundness

  predicate Targeted(rows: seq<Row>, key: string) { exists i :: 0 <= i < |rows| && rows[i].target == key }

  /** A row without an error has a value that passes the check of its field. */
  lemma RowPasses(row: Row, resolve: Resolve, field: Option<Field>, env: Env)
    requires EvalRow(row, resolve, field, env).error.None? && field.Some?
    ensures Check(EvalRow(row, resolve, field, env).value, field.value, env).None?
  {
  }

  /** Every result comes from a row with a target, and each such row has its result. */
  lemma {:induction false} ResultFromRow(rows: seq<Row>, resolve: Resolve, schema: seq<Field>, env: Env, i: nat) returns (k: nat)
    requires i < |EvalRows(rows, resolve, schema, env)|
    ensures k < |rows| && rows[k].target != ""
    ensures EvalRows(rows, resolve, schema, env)[i] == EvalRow(rows[k], resolve, FindField(schema, rows[k].target), env)
    decreases rows
  {
    if rows[0].target == "" {
      k := ResultFromRow(rows[1..], resolve, schema, env, i);
      k := k + 1;
    } else if i == 0 {
      k := 0;
    } else {
      k := ResultFromRow(rows[1..], resolve, schema, env, i - 1);
      k := k + 1;
    }
  }

  lemma {:induction false} RowHasResult(rows: seq<Row>, resolve: Resolve, schema: seq<Field>, env: Env, k: nat) returns (i: nat)
    requires k < |rows| && rows[k].target != ""
    ensures i < |EvalRows(rows, resolve, schema, env)|
    ensures EvalRows(rows, resolve, schema, env)[i] == EvalRow(rows[k], resolve, FindField(schema, rows[k].target), env)
    decreases rows
  {
    if k == 0 {
      i := 0;
    } else {
      i := RowHasResult(rows[1..], resolve, schema, env, k - 1);
      if rows[0].target != "" { i := i + 1; }
    }
  }

  /** The object has exactly the targets as keys, each with the value of its last row. */
  lemma {:induction false} CollectHas(results: seq<RowResult>, key: string) returns (i: int)
    ensures i >= -1 && (key in Collect(results) <==> i >= 0)
    ensures i >= 0 ==> i < |results| && results[i].target == key && Collect(results)[key] == results[i].value
    ensures forall j :: i < j < |results| ==> results[j].target != key
  {
    if results == [] {
      i := -1;
    } else {
      var n := |results| - 1;
      if results[n].target == key {
        i := n;
      } else {
        i := CollectHas(results[..n], key);
        assert i >= 0 ==> results[..n][i] == results[i];
        forall j | i < j < |results| ensures results[j].target != key {
          if j < n { assert results[..n][j] == results[j]; }
        }
      }
    }
  }

  /** The keys of the result are the targets of the rows. */
  lemma KeysAreTargets(rows: seq<Row>, resolve: Resolve, schema: seq<Field>, env: Env, key: string)
    ensures key in EvalMapping(rows, resolve, schema, env).value <==> key != "" && Targeted(rows, key)
  {
    var results := EvalRows(rows, resolve, schema, env);
    var i := CollectHas(results, key);
    if i >= 0 {
      var k := ResultFromRow(rows, resolve, schema, env, i);
    }
    if key != "" && Targeted(rows, key) {
      var k :| 0 <= k < |rows| && rows[k].target == key;
      var j := RowHasResult(rows, resolve, schema, env, k);
      assert results[j].target == key;
    }
  }

  /** Without row errors, whatever stands under the key of a schema field passes that field's check,
      however many rows have that target. */
  lemma MappedFieldPasses(rows: seq<Row>, resolve: Resolve, schema: seq<Field>, env: Env, key: string)
    requires NoErrors(EvalMapping(rows, resolve, schema, env).rows)
    requires key in EvalMapping(rows, resolve, schema, env).value && FindField(schema, key).Some?
    ensures Check(EvalMapping(rows, resolve, schema, env).value[key], FindField(schema, key).value, env).None?
  {
    var results := EvalRows(rows, resolve, schema, env);
    var i := CollectHas(results, key);
    var k := ResultFromRow(rows, resolve, schema, env, i);
    RowPasses(rows[k], resolve, FindField(schema, key), env);
  }

  /** A row that is not per item goes from its source, or its constant if it has none, through its
      transforms; its error is that of the transforms, or else of the check. */
  lemma RowGoesThrough(row: Row, resolve: Resolve, field: Option<Field>, env: Env) returns (failed: Option<string>)
    requires !PerItem(row, field)
    ensures var r := EvalRow(row, resolve, field, env);
            && Outcome(if row.source.Some? then env.read(row.source.value, resolve) else row.constant, row.transforms, env, r.value, failed)
            && r.target == row.target
            && r.error == if failed.Some? then failed else if field.Some? then Check(r.value, field.value, env) else None
  {
    var v := SourceValue(row, resolve, env);
    failed := ApplyAll(v, row.transforms, env).error;
    ApplyAllEnds(v, row.transforms, env);
  }

  /** Under a key stands what its last row gives. */
  lemma LastRowWins(rows: seq<Row>, resolve: Resolve, schema: seq<Field>, env: Env, k: nat)
    requires k < |rows| && rows[k].target != "" && forall l :: k < l < |rows| ==> rows[l].target != rows[k].target
    ensures var r, key := EvalMapping(rows, resolve, schema, env).value, rows[k].target;
            key in r && r[key] == EvalRow(rows[k], resolve, FindField(schema, key), env).value
  {
    var results, key := EvalRows(rows, resolve, schema, env), rows[k].target;
    LastResult(rows, resolve, schema, env, k);
    CollectLast(results, key, EvalRow(rows[k], resolve, FindField(schema, key), env));
  }

  /** The last result with a target is that of the last row with it. */
  ghost predicate IsLast(results: seq<RowResult>, key: string, r: RowResult) {
    exists i :: 0 <= i < |results| && results[i] == r && r.target == key
             && forall j :: i < j < |results| ==> results[j].target != key
  }

  lemma {:induction false} NoResult(rows: seq<Row>, resolve: Resolve, schema: seq<Field>, env: Env, key: string)
    requires forall l :: 0 <= l < |rows| ==> rows[l].target != key
    ensures forall i :: 0 <= i < |EvalRows(rows, resolve, schema, env)| ==> EvalRows(rows, resolve, schema, env)[i].target != key
    decreases rows
  {
    if rows != [] { NoResult(rows[1..], resolve, schema, env, key); }
  }

  lemma {:induction false} LastResult(rows: seq<Row>, resolve: Resolve, schema: seq<Field>, env: Env, k: nat)
    requires k < |rows| && rows[k].target != "" && forall l :: k < l < |rows| ==> rows[l].target != rows[k].target
    ensures var key := rows[k].target;
            IsLast(EvalRows(rows, resolve, schema, env), key, EvalRow(rows[k], resolve, FindField(schema, key), env))
    decreases rows
  {
    var key, results, rest := rows[k].target, EvalRows(rows, resolve, schema, env), EvalRows(rows[1..], resolve, schema, env);
    var r := EvalRow(rows[k], resolve, FindField(schema, key), env);
    if k == 0 {
      NoResult(rows[1..], resolve, schema, env, key);
      assert results == [r] + rest;
      assert results[0] == r;
    } else {
      LastResult(rows[1..], resolve, schema, env, k - 1);
      var i :| 0 <= i < |rest| && rest[i] == r && forall j :: i < j < |rest| ==> rest[j].target != key;
      var d := |results| - |rest|;
      assert results[i + d] == r;
      forall j | i + d < j < |results| ensures results[j].target != key {
        assert results[j] == rest[j - d];
      }
    }
  }

  lemma CollectLast(results: seq<RowResult>, key: string, r: RowResult)
    requires IsLast(results, key, r)
    ensures key in Collect(results) && Collect(results)[key] == r.value
  {
    var i :| 0 <= i < |results| && results[i] == r && r.target == key && forall j :: i < j < |results| ==> results[j].target != key;
    var k := CollectHas(results, key);
  }

  /** What passes the check of a field, kind by kind. */
  lemma CheckMeans(v: Value, f: Field, env: Env)
    ensures Empty(v) ==> (Check(v, f, env).None? <==> !f.required)
    ensures !Empty(v) ==>
              (Check(v, f, env).None? <==>
                 match f.kind
                 case NumberType => v.Number?
                 case DateType => env.isDate(env.text(v))
                 case ChoiceType => f.options.Some? ==> env.text(v) in f.options.value
                 case ListType => v.List?
                 case _ => true)
  {
  }

  predicate DistinctKeys(schema: seq<Field>) {
    forall i, j :: 0 <= i < j < |schema| ==> schema[i].key != schema[j].key
  }

  lemma {:induction false} FindsItself(schema: seq<Field>, i: nat)
    requires DistinctKeys(schema) && i < |schema|
    ensures FindField(schema, schema[i].key) == Some(schema[i])
  {
    if i > 0 {
      assert DistinctKeys(schema[1..]) by {
        forall a, b | 0 <= a < b < |schema[1..]| ensures schema[1..][a].key != schema[1..][b].key {
          assert schema[a + 1].key != schema[b + 1].key;
        }
      }
      assert schema[0].key != schema[i].key;
      FindsItself(schema[1..], i - 1);
    }
  }

  /** If nothing is reported, every required field is there with a value that passes its check. */
  lemma RequiredFieldPresent(rows: seq<Row>, resolve: Resolve, schema: seq<Field>, env: Env, i: nat)
    requires DistinctKeys(schema) && i < |schema| && schema[i].required && schema[i].key != ""
    requires NoErrors(EvalMapping(rows, resolve, schema, env).rows) && EvalMapping(rows, resolve, schema, env).missing == []
    ensures var r, f := EvalMapping(rows, resolve, schema, env).value, schema[i];
            f.key in r && Check(r[f.key], f, env).None? && !Empty(r[f.key])
  {
    var f := schema[i];
    assert f in schema && f !in MissingFields(schema, rows, env);
    var k :| 0 <= k < |rows| && Fills(rows[k], f.key, env);
    FindsItself(schema, i);
    KeysAreTargets(rows, resolve, schema, env, f.key);
    MappedFieldPasses(rows, resolve, schema, env, f.key);
  }

  // ---------------------------------------------------------------- items of lists

  lemma {:induction false} ItemResult(items: seq<Value>, rows: seq<Row>, resolve: Resolve, schema: seq<Field>, env: Env, j: nat)
    requires j < |items|
    ensures EvalItems(items, rows, resolve, schema, env)[j] == EvalMapping(rows, WithItem(resolve, items[j]), schema, env)
  {
    if j > 0 { ItemResult(items[1..], rows, resolve, schema, env, j - 1); }
  }

  /** A per-item row without an error gives a list with one object per item of its source. In each of
      them every mapped field passes its check. A field is there if and only if it is mapped: required
      fields of the item that no row maps are absent, and nothing reports them. */
  lemma ItemFields(row: Row, resolve: Resolve, field: Field, env: Env, j: nat, key: string)
    requires PerItem(row, Some(field)) && EvalRow(row, resolve, Some(field), env).error.None?
    requires j < |ItemsOf(SourceValue(row, resolve, env))|
    ensures var v := EvalRow(row, resolve, Some(field), env).value;
            && v.List? && |v.items| == |ItemsOf(SourceValue(row, resolve, env))| && v.items[j].Object?
            && (key in v.items[j].fields <==> key != "" && Targeted(row.each, key))
            && (key in v.items[j].fields && FindField(field.item, key).Some? ==>
                  Check(v.items[j].fields[key], FindField(field.item, key).value, env).None?)
  {
    var items, rows := ItemsOf(SourceValue(row, resolve, env)), row.each;
    var results := EvalItems(items, rows, resolve, field.item, env);
    ItemResult(items, rows, resolve, field.item, env, j);
    assert FirstError(results).None?;
    assert NoErrors(results[j].rows);
    KeysAreTargets(rows, WithItem(resolve, items[j]), field.item, env, key);
    if key in results[j].value && FindField(field.item, key).Some? {
      MappedFieldPasses(rows, WithItem(resolve, items[j]), field.item, env, key);
    }
  }

  /** What a row inside a per-item row gives for an item: it reads the item under the word `item`, and
      everything else as outside. */
  lemma ItemRowGoesThrough(row: Row, resolve: Resolve, field: Field, env: Env, j: nat, k: nat)
    returns (inside: Resolve, failed: Option<string>)
    requires PerItem(row, Some(field)) && j < |ItemsOf(SourceValue(row, resolve, env))|
    requires k < |row.each| && row.each[k].target != "" && !PerItem(row.each[k], FindField(field.item, row.each[k].target))
    requires forall l :: k < l < |row.each| ==> row.each[l].target != row.each[k].target
    ensures inside("item") == ItemsOf(SourceValue(row, resolve, env))[j] && forall h :: h != "item" ==> inside(h) == resolve(h)
    ensures var v, inner := EvalRow(row, resolve, Some(field), env).value, row.each[k];
            && v.List? && j < |v.items| && v.items[j].Object? && inner.target in v.items[j].fields
            && Outcome(if inner.source.Some? then env.read(inner.source.value, inside) else inner.constant, inner.transforms, env,
                       v.items[j].fields[inner.target], failed)
  {
    var items := ItemsOf(SourceValue(row, resolve, env));
    inside := WithItem(resolve, items[j]);
    ItemResult(items, row.each, resolve, field.item, env, j);
    LastRowWins(row.each, inside, field.item, env, k);
    failed := RowGoesThrough(row.each[k], inside, FindField(field.item, row.each[k].target), env);
  }

  /** A per-item row fails if and only if a row of some item fails, or else the list its check. */
  lemma ItemErrors(row: Row, resolve: Resolve, field: Field, env: Env)
    requires PerItem(row, Some(field))
    ensures var items, r := ItemsOf(SourceValue(row, resolve, env)), EvalRow(row, resolve, Some(field), env);
            r.error.None? <==>
              && (forall j :: 0 <= j < |items| ==> NoErrors(EvalMapping(row.each, WithItem(resolve, items[j]), field.item, env).rows))
              && Check(r.value, field, env).None?
  {
    var items := ItemsOf(SourceValue(row, resolve, env));
    var results := EvalItems(items, row.each, resolve, field.item, env);
    forall j | 0 <= j < |items|
      ensures results[j] == EvalMapping(row.each, WithItem(resolve, items[j]), field.item, env)
    {
      ItemResult(items, row.each, resolve, field.item, env, j);
    }
    if FirstError(results).None? {
      forall j | 0 <= j < |items|
        ensures NoErrors(EvalMapping(row.each, WithItem(resolve, items[j]), field.item, env).rows)
      {
        assert NoErrors(results[j].rows);
      }
    } else {
      var j :| 0 <= j < |results| && !NoErrors(results[j].rows);
      assert !NoErrors(EvalMapping(row.each, WithItem(resolve, items[j]), field.item, env).rows);
    }
  }

  /** A list field whose items need a name, and a row that maps none of the item fields. */
  function NeedsName(): Field {
    Field("rows", ListType, true, None, [Field("name", TextType, true, None, [])])
  }

  function MapsNothing(): Row { Row("rows", None, List([Null]), true, [], []) }

  /** Nothing is reported, and the required field of the item is not there. */
  lemma MissingItemFieldUnreported(resolve: Resolve, env: Env)
    ensures var r := EvalMapping([MapsNothing()], resolve, [NeedsName()], env);
            && NoErrors(r.rows) && r.missing == [] && "rows" in r.value
            && r.value["rows"] == List([Object(map[])])
  {
    var row, field := MapsNothing(), NeedsName();
    assert EvalItems([Null], [], resolve, field.item, env) == [EvalMapping([], WithItem(resolve, Null), field.item, env)];
    assert EvalRow(row, resolve, Some(field), env) == RowResult("rows", List([Object(map[])]), None);
    var result := RowResult("rows", List([Object(map[])]), None);
    assert [row][1..] == [] && [field][1..] == [] && [result][..0] == [];
    assert EvalRows([row], resolve, [field], env) == [result];
    assert Collect([result]) == map["rows" := List([Object(map[])])];
    assert Fills([row][0], "rows", env);
    assert MissingFields([field], [row], env) == [];
  }

  /** A per-item row whose source is not a list gives an empty list and no error, even for a required
      field: the message for a source that is not a list is never shown. */
  lemma NotAListIsNoError(row: Row, resolve: Resolve, field: Field, env: Env)
    requires PerItem(row, Some(field)) && !SourceValue(row, resolve, env).List?
    ensures EvalRow(row, resolve, Some(field), env) == RowResult(row.target, List([]), None)
  {
  }
}
