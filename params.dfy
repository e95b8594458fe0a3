/**
 * Parameterised statements as the engines build them: one tuple of 1-based `$n` placeholder
 * indices per record, and the `values` array the indices refer to. `Bind*` is how the
 * database reads such a statement back, so the builders can be proved against it.
 */
module Params {
  import opened Wrappers
  import opened Users
  import opened Chunking
  import opened Arith

  /** The largest number of bind parameters one statement may carry (the PostgreSQL wire protocol counts them in 16 bits). */
  const MaxBindParams: nat := 65535

  /** One element of `values`: `::text` and `::integer` parameters, either of which may be NULL. */
  datatype Param = TextParam(text: Option<string>) | IntParam(number: Option<int>)

  datatype Statement =
    | InsertRows(tuples: seq<seq<nat>>, values: seq<Param>)    // INSERT INTO users (name, email, age) VALUES ...
    | MergeUpdate(tuples: seq<seq<nat>>, values: seq<Param>)   // UPDATE users AS u SET ... FROM (VALUES ...) AS c WHERE c.id = u.id

  /** The placeholders of the record at chunk index `idx`: `$idx*width+1 .. $idx*width+width`. */
  function Tuple(idx: nat, width: nat): (t: seq<nat>)
    ensures |t| == width
    ensures forall k :: 0 <= k < width ==> t[k] == idx * width + k + 1
  {
    seq(width, k requires 0 <= k < width => idx * width + k + 1)
  }

  /** The placeholder tuples of a chunk of `count` records, numbered from `$1`. */
  function Tuples(count: nat, width: nat): (ts: seq<seq<nat>>)
    ensures |ts| == count
    ensures forall idx :: 0 <= idx < count ==> ts[idx] == Tuple(idx, width)
  {
    seq(count, idx requires 0 <= idx < count => Tuple(idx, width))
  }

  function Range(lo: nat, hi: nat): (r: seq<nat>)
    requires lo <= hi
    ensures |r| == hi - lo
    ensures forall j :: 0 <= j < hi - lo ==> r[j] == lo + j
  {
    seq(hi - lo, j requires 0 <= j < hi - lo => lo + j)
  }

  lemma {:induction false} FlattenAppend<T>(cs: seq<seq<T>>, c: seq<T>)
    ensures Flatten(cs + [c]) == Flatten(cs) + c
  {
    if cs != [] {
      assert (cs + [c])[1..] == cs[1..] + [c];
      FlattenAppend(cs[1..], c);
    }
  }

  /**
   * Read in order, the placeholders of a chunk are exactly `$1, $2, ..., $count*width`:
   * every parameter is referred to once and no index is skipped or repeated.
   */
  lemma {:induction false} TuplesNumberParams(count: nat, width: nat)
    ensures Flatten(Tuples(count, width)) == Range(1, count * width + 1)
  {
    if count > 0 {
      var n := count - 1;
      TuplesNumberParams(n, width);
      assert Tuples(count, width) == Tuples(n, width) + [Tuple(n, width)];
      FlattenAppend(Tuples(n, width), Tuple(n, width));
      assert count * width == n * width + width;
      assert Range(1, count * width + 1) == Range(1, n * width + 1) + Tuple(n, width);
    }
  }

  /** No placeholder of a chunk of at most `BatchSize` records exceeds `BatchSize * width`. */
  lemma {:induction false} TuplesBounded(count: nat, width: nat, idx: nat, k: nat)
    requires count <= BatchSize && idx < count && k < width
    ensures 1 <= Tuples(count, width)[idx][k] <= BatchSize * width
  {
    assert Tuples(count, width)[idx][k] == idx * width + k + 1;
    assert (idx + 1) * width == idx * width + width;
    MulMono(idx + 1, count, width);
    MulMono(count, BatchSize, width);
  }

  /** `$p` has a value. */
  predicate Supplied(p: nat, values: seq<Param>)
  {
    1 <= p <= |values|
  }

  /** A `(name, email, age)` tuple whose placeholders are supplied with text, text and integer values. */
  predicate InsertTupleOk(t: seq<nat>, values: seq<Param>)
  {
    && |t| == 3
    && Supplied(t[0], values) && Supplied(t[1], values) && Supplied(t[2], values)
    && values[t[0] - 1].TextParam? && values[t[1] - 1].TextParam? && values[t[2] - 1].IntParam?
  }

  /** An `(id::integer, name::text, email::text, age::integer)` tuple whose placeholders are supplied with values of those types. */
  predicate UpdateTupleOk(t: seq<nat>, values: seq<Param>)
  {
    && |t| == 4
    && Supplied(t[0], values) && Supplied(t[1], values) && Supplied(t[2], values) && Supplied(t[3], values)
    && values[t[0] - 1].IntParam? && values[t[1] - 1].TextParam?
    && values[t[2] - 1].TextParam? && values[t[3] - 1].IntParam?
  }

  /**
   * A statement the database accepts: a non-empty VALUES list, no more parameters than the
   * protocol allows, and placeholders that, read in order, number the parameters `$1 .. $n`
   * with none left unreferenced (PostgreSQL cannot type an unreferenced `$k`, and refuses a bind
   * message with more values than the statement names). The in-order numbering is this model's
   * rule and stricter than PostgreSQL's, which also accepts placeholders out of order or repeated;
   * every statement the engines build meets it.
   */
  predicate Acceptable(tuples: seq<seq<nat>>, values: seq<Param>)
  {
    0 < |tuples| && |values| <= MaxBindParams && Flatten(tuples) == Range(1, |values| + 1)
  }

  /** The row the tuple `($a, $b, $c)` of an INSERT describes. */
  function InsertRowOf(t: seq<nat>, values: seq<Param>): User
    requires InsertTupleOk(t, values)
  {
    User(values[t[0] - 1].text, values[t[1] - 1].text, values[t[2] - 1].number)
  }

  /** The `c(id, name, email, age)` record the tuple `($a, $b, $c, $d)` of a merge UPDATE describes. */
  function UpdateRecordOf(t: seq<nat>, values: seq<Param>): UserInput
    requires UpdateTupleOk(t, values)
  {
    UserInput(values[t[0] - 1].number, values[t[1] - 1].text, values[t[2] - 1].text, values[t[3] - 1].number)
  }

  /** The rows an INSERT statement adds, or None when the database rejects it. */
  function BindInsert(tuples: seq<seq<nat>>, values: seq<Param>): (r: Option<seq<User>>)
    ensures r.Some? ==> |r.value| == |tuples|
  {
    if Acceptable(tuples, values) && forall i :: 0 <= i < |tuples| ==> InsertTupleOk(tuples[i], values) then
      Some(seq(|tuples|, i requires 0 <= i < |tuples| && InsertTupleOk(tuples[i], values) => InsertRowOf(tuples[i], values)))
    else
      None
  }

  /** The `c(id, name, email, age)` records an UPDATE statement joins against, or None when the database rejects it. */
  function BindUpdate(tuples: seq<seq<nat>>, values: seq<Param>): (r: Option<seq<UserInput>>)
    ensures r.Some? ==> |r.value| == |tuples|
  {
    if Acceptable(tuples, values) && forall i :: 0 <= i < |tuples| ==> UpdateTupleOk(tuples[i], values) then
      Some(seq(|tuples|, i requires 0 <= i < |tuples| && UpdateTupleOk(tuples[i], values) => UpdateRecordOf(tuples[i], values)))
    else
      None
  }

  /** The `values` array of the insert engine: the name, email and age of each record, in order. */
  function InsertValues(batch: seq<UserInput>): (values: seq<Param>)
    ensures |values| == 3 * |batch|
    decreases |batch|
  {
    if batch == [] then []
    else
      var last := batch[|batch| - 1];
      InsertValues(batch[..|batch| - 1]) + [TextParam(last.name), TextParam(last.email), IntParam(last.age)]
  }

  /** The `values` array of the update engine: the id, name, email and age of each record, in order. */
  function UpdateValues(batch: seq<UserInput>): (values: seq<Param>)
    ensures |values| == 4 * |batch|
    decreases |batch|
  {
    if batch == [] then []
    else
      var last := batch[|batch| - 1];
      UpdateValues(batch[..|batch| - 1]) + [IntParam(last.id), TextParam(last.name), TextParam(last.email), IntParam(last.age)]
  }

  /** The record at `idx` owns parameters `$3*idx+1 .. $3*idx+3`: its name, email and age. */
  lemma {:induction false} InsertValuesAt(batch: seq<UserInput>, idx: nat)
    requires idx < |batch|
    ensures var values := InsertValues(batch);
      && values[3 * idx] == TextParam(batch[idx].name)
      && values[3 * idx + 1] == TextParam(batch[idx].email)
      && values[3 * idx + 2] == IntParam(batch[idx].age)
    decreases |batch|
  {
    var prefix := batch[..|batch| - 1];
    if idx < |prefix| {
      assert prefix[idx] == batch[idx];
      InsertValuesAt(prefix, idx);
    }
  }

  /** The record at `idx` owns parameters `$4*idx+1 .. $4*idx+4`: its id, name, email and age. */
  lemma {:induction false} UpdateValuesAt(batch: seq<UserInput>, idx: nat)
    requires idx < |batch|
    ensures var values := UpdateValues(batch);
      && values[4 * idx] == IntParam(batch[idx].id)
      && values[4 * idx + 1] == TextParam(batch[idx].name)
      && values[4 * idx + 2] == TextParam(batch[idx].email)
      && values[4 * idx + 3] == IntParam(batch[idx].age)
    decreases |batch|
  {
    var prefix := batch[..|batch| - 1];
    if idx < |prefix| {
      assert prefix[idx] == batch[idx];
      UpdateValuesAt(prefix, idx);
    }
  }

  /** `INSERT INTO users (name, email, age) VALUES ($1, $2, $3), ...` for `batch`. */
  function InsertStatement(batch: seq<UserInput>): Statement
  {
    InsertRows(Tuples(|batch|, 3), InsertValues(batch))
  }

  /** The merge `UPDATE ... FROM (VALUES ($1::integer, $2::text, $3::text, $4::integer), ...)` for `batch`. */
  function UpdateStatement(batch: seq<UserInput>): Statement
  {
    MergeUpdate(Tuples(|batch|, 4), UpdateValues(batch))
  }

  /** The placeholders of the record at `idx` in the INSERT of `batch` are typed, and read back that record's row. */
  lemma {:induction false} InsertRecordAt(batch: seq<UserInput>, idx: nat)
    requires idx < |batch|
    ensures InsertTupleOk(Tuples(|batch|, 3)[idx], InsertValues(batch))
    ensures InsertRowOf(Tuples(|batch|, 3)[idx], InsertValues(batch)) == NewRow(batch[idx])
  {
    assert Tuples(|batch|, 3)[idx] == [3 * idx + 1, 3 * idx + 2, 3 * idx + 3];
    InsertValuesAt(batch, idx);
  }

  /** The placeholders of the record at `idx` in the merge UPDATE of `batch` are typed, and read back that record. */
  lemma {:induction false} UpdateRecordAt(batch: seq<UserInput>, idx: nat)
    requires idx < |batch|
    ensures UpdateTupleOk(Tuples(|batch|, 4)[idx], UpdateValues(batch))
    ensures UpdateRecordOf(Tuples(|batch|, 4)[idx], UpdateValues(batch)) == batch[idx]
  {
    assert Tuples(|batch|, 4)[idx] == [4 * idx + 1, 4 * idx + 2, 4 * idx + 3, 4 * idx + 4];
    UpdateValuesAt(batch, idx);
  }

  /** An accepted INSERT whose every tuple is typed and reads back `rows[i]` adds exactly `rows`. */
  lemma {:induction false} BindInsertReads(tuples: seq<seq<nat>>, values: seq<Param>, rows: seq<User>)
    requires |tuples| == |rows| && Acceptable(tuples, values)
    requires forall i :: 0 <= i < |tuples| ==> InsertTupleOk(tuples[i], values) && InsertRowOf(tuples[i], values) == rows[i]
    ensures BindInsert(tuples, values) == Some(rows)
  {
    assert BindInsert(tuples, values).value == rows;
  }

  /** An accepted merge UPDATE whose every tuple is typed and reads back `batch[i]` joins against exactly `batch`. */
  lemma {:induction false} BindUpdateReads(tuples: seq<seq<nat>>, values: seq<Param>, batch: seq<UserInput>)
    requires |tuples| == |batch| && Acceptable(tuples, values)
    requires forall i :: 0 <= i < |tuples| ==> UpdateTupleOk(tuples[i], values) && UpdateRecordOf(tuples[i], values) == batch[i]
    ensures BindUpdate(tuples, values) == Some(batch)
  {
    assert BindUpdate(tuples, values).value == batch;
  }

  /** The INSERT of a chunk of one to `BatchSize` records adds exactly the rows of the chunk, in order. */
  lemma {:induction false} InsertStatementBinds(batch: seq<UserInput>)
    requires 0 < |batch| <= BatchSize
    ensures BindInsert(InsertStatement(batch).tuples, InsertStatement(batch).values) == Some(NewRows(batch))
  {
    var tuples, values := Tuples(|batch|, 3), InsertValues(batch);
    assert Acceptable(tuples, values) by { TuplesNumberParams(|batch|, 3); }
    forall i | 0 <= i < |tuples| ensures InsertTupleOk(tuples[i], values) && InsertRowOf(tuples[i], values) == NewRows(batch)[i] {
      InsertRecordAt(batch, i);
    }
    BindInsertReads(tuples, values, NewRows(batch));
  }

  /** The merge UPDATE of a chunk of one to `BatchSize` records joins against exactly the records of the chunk, in order. */
  lemma {:induction false} UpdateStatementBinds(batch: seq<UserInput>)
    requires 0 < |batch| <= BatchSize
    ensures BindUpdate(UpdateStatement(batch).tuples, UpdateStatement(batch).values) == Some(batch)
  {
    var tuples, values := Tuples(|batch|, 4), UpdateValues(batch);
    assert Acceptable(tuples, values) by { TuplesNumberParams(|batch|, 4); }
    forall i | 0 <= i < |tuples| ensures UpdateTupleOk(tuples[i], values) && UpdateRecordOf(tuples[i], values) == batch[i] {
      UpdateRecordAt(batch, i);
    }
    BindUpdateReads(tuples, values, batch);
  }

  /**
   * The `batch.forEach` of the insert engine: the record at `idx` gets placeholders
   * `$idx*3+1 .. $idx*3+3`, and its name, email and age are pushed onto `values` in that order.
   */
  method BuildInsertParams(batch: seq<UserInput>) returns (placeholders: seq<seq<nat>>, values: seq<Param>)
    ensures InsertRows(placeholders, values) == InsertStatement(batch)
  {
    placeholders, values := [], [];
    for idx := 0 to |batch|
      invariant placeholders == Tuples(idx, 3)
      invariant values == InsertValues(batch[..idx])
    {
      var paramsOffset := idx * 3;
      assert [paramsOffset + 1, paramsOffset + 2, paramsOffset + 3] == Tuple(idx, 3);
      assert Tuples(idx + 1, 3) == Tuples(idx, 3) + [Tuple(idx, 3)];
      assert batch[..idx + 1][..idx] == batch[..idx];
      placeholders := placeholders + [[paramsOffset + 1, paramsOffset + 2, paramsOffset + 3]];
      values := values + [TextParam(batch[idx].name)];
      values := values + [TextParam(batch[idx].email)];
      values := values + [IntParam(batch[idx].age)];
    }
    assert batch[..|batch|] == batch;
  }

  /**
   * The `batch.forEach` of the update engine: the record at `idx` gets placeholders
   * `$idx*4+1 .. $idx*4+4`, and its id, name, email and age are pushed onto `values` in that order.
   */
  method BuildUpdateParams(batch: seq<UserInput>) returns (valueStrings: seq<seq<nat>>, values: seq<Param>)
    ensures MergeUpdate(valueStrings, values) == UpdateStatement(batch)
  {
    valueStrings, values := [], [];
    for idx := 0 to |batch|
      invariant valueStrings == Tuples(idx, 4)
      invariant values == UpdateValues(batch[..idx])
    {
      var paramsOffset := idx * 4;
      assert [paramsOffset + 1, paramsOffset + 2, paramsOffset + 3, paramsOffset + 4] == Tuple(idx, 4);
      assert Tuples(idx + 1, 4) == Tuples(idx, 4) + [Tuple(idx, 4)];
      assert batch[..idx + 1][..idx] == batch[..idx];
      valueStrings := valueStrings + [[paramsOffset + 1, paramsOffset + 2, paramsOffset + 3, paramsOffset + 4]];
      values := values + [IntParam(batch[idx].id)];
      values := values + [TextParam(batch[idx].name)];
      values := values + [TextParam(batch[idx].email)];
      values := values + [IntParam(batch[idx].age)];
    }
    assert batch[..|batch|] == batch;
  }
}
