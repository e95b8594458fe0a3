/**
 * The relational store as the worker and the controller see it: the `users` table as a map
 * from id to row, the identity sequence that assigns new ids, and the transaction that
 * BEGIN opens and COMMIT or ROLLBACK closes.
 */
module Store {
  import opened Wrappers
  import opened Users
  import opened Params

  type Rows = map<int, User>

  /** What one client sent to the database, in order. */
  datatype Command = Begin | Run(stmt: Statement) | Commit | Rollback

  /** Every stored id was drawn from the sequence before `next`. */
  ghost predicate IdsBelow(rows: Rows, next: int)
  {
    forall id :: id in rows ==> id < next
  }

  /** A multi-row INSERT: the rows get the ids `next, next+1, ...` in VALUES order. */
  function ExecInsert(rows: Rows, next: int, added: seq<User>): Rows
    decreases |added|
  {
    if added == [] then rows else ExecInsert(rows[next := added[0]], next + 1, added[1..])
  }

  /** After the INSERT, id `next + j` holds `added[j]`, every other stored row is as it was, and no other id appears. */
  lemma {:induction false} ExecInsertContents(rows: Rows, next: int, added: seq<User>)
    ensures var r := ExecInsert(rows, next, added);
      && (forall id :: next <= id < next + |added| ==> id in r && r[id] == added[id - next])
      && (forall id :: id in rows && !(next <= id < next + |added|) ==> id in r && r[id] == rows[id])
      && (forall id :: id in r ==> id in rows || next <= id < next + |added|)
    decreases |added|
  {
    if added != [] {
      var rows', rest := rows[next := added[0]], added[1..];
      ExecInsertContents(rows', next + 1, rest);
      var r := ExecInsert(rows, next, added);
      assert r == ExecInsert(rows', next + 1, rest);
      forall id | next < id < next + |added| ensures r[id] == added[id - next] {
        assert rest[id - (next + 1)] == added[id - next];
      }
    }
  }

  /** An insert into a store whose ids are all below `next` adds exactly `|added|` rows. */
  lemma {:induction false} ExecInsertSize(rows: Rows, next: int, added: seq<User>)
    requires IdsBelow(rows, next)
    ensures IdsBelow(ExecInsert(rows, next, added), next + |added|)
    ensures |ExecInsert(rows, next, added)| == |rows| + |added|
    decreases |added|
  {
    if added != [] {
      assert next !in rows;
      ExecInsertSize(rows[next := added[0]], next + 1, added[1..]);
    }
  }

  /** Inserting `a` and then, from the next id on, `b`, is inserting `a + b`. */
  lemma {:induction false} ExecInsertAppend(rows: Rows, next: int, a: seq<User>, b: seq<User>)
    ensures ExecInsert(ExecInsert(rows, next, a), next + |a|, b) == ExecInsert(rows, next, a + b)
    decreases |a|
  {
    if a == [] {
      assert a + b == b;
    } else {
      ExecInsertAppend(rows[next := a[0]], next + 1, a[1..], b);
      assert (a + b)[0] == a[0] && (a + b)[1..] == a[1..] + b;
      assert ExecInsert(rows, next, a) == ExecInsert(rows[next := a[0]], next + 1, a[1..]);
      assert ExecInsert(rows, next, a + b) == ExecInsert(rows[next := a[0]], next + 1, a[1..] + b);
    }
  }

  /**
   * The first record of `batch` whose id is `id`. When no other record names `id`, it is the one
   * `c` row that `WHERE c.id = u.id` joins to row `id`. When several do, PostgreSQL does not say
   * which of them the join uses; every contract below that depends on the choice requires
   * distinct ids.
   */
  function Lookup(batch: seq<UserInput>, id: int): (r: Option<UserInput>)
    ensures r.Some? ==> r.value in batch && r.value.id == Some(id)
    ensures r.None? ==> forall j :: 0 <= j < |batch| ==> batch[j].id != Some(id)
  {
    if batch == [] then None
    else if batch[0].id == Some(id) then Some(batch[0])
    else Lookup(batch[1..], id)
  }

  /** No two records of a batch name the same id (records without an id join no row). */
  ghost predicate DistinctIds(batch: seq<UserInput>)
    decreases |batch|
  {
    || batch == []
    || (&& (forall j :: 0 < j < |batch| && batch[0].id.Some? ==> batch[j].id != batch[0].id)
        && DistinctIds(batch[1..]))
  }

  /** Any two records of a batch with distinct ids name different ids. */
  lemma {:induction false} DistinctPair(batch: seq<UserInput>, i: nat, j: nat)
    requires DistinctIds(batch) && i < j < |batch| && batch[i].id.Some?
    ensures batch[i].id != batch[j].id
    decreases i
  {
    if i > 0 {
      assert batch[1..][i - 1] == batch[i] && batch[1..][j - 1] == batch[j];
      DistinctPair(batch[1..], i - 1, j - 1);
    }
  }

  lemma {:induction false} DistinctPrefix(batch: seq<UserInput>, n: nat)
    requires DistinctIds(batch) && n <= |batch|
    ensures DistinctIds(batch[..n])
    decreases n
  {
    if n > 0 {
      assert batch[..n][1..] == batch[1..][..n - 1];
      DistinctPrefix(batch[1..], n - 1);
      assert forall j :: 0 < j < n ==> batch[..n][j] == batch[j];
    }
  }

  lemma {:induction false} DistinctDrop(batch: seq<UserInput>, n: nat)
    requires DistinctIds(batch) && n <= |batch|
    ensures DistinctIds(batch[n..])
    decreases n
  {
    if n > 0 {
      DistinctDrop(batch[1..], n - 1);
      assert batch[1..][n - 1..] == batch[n..];
    }
  }

  /** Records that name no id join no row, so they never clash. */
  lemma {:induction false} NoIdsDistinct(batch: seq<UserInput>)
    requires forall j :: 0 <= j < |batch| ==> batch[j].id.None?
    ensures DistinctIds(batch)
    decreases |batch|
  {
    if batch != [] {
      NoIdsDistinct(batch[1..]);
    }
  }

  /** The merge UPDATE of one chunk: every row joined by a record is merged with it; no row is added or removed. */
  function ExecUpdate(rows: Rows, batch: seq<UserInput>): (r: Rows)
    ensures r.Keys == rows.Keys
  {
    map id | id in rows :: match Lookup(batch, id) case Some(input) => Merge(rows[id], input) case None => rows[id]
  }

  /** With distinct ids, the record that names a stored row is the one merged into it. */
  lemma {:induction false} LookupDistinct(batch: seq<UserInput>, j: nat)
    requires DistinctIds(batch) && j < |batch| && batch[j].id.Some?
    ensures Lookup(batch, batch[j].id.value) == Some(batch[j])
  {
    if j > 0 {
      assert batch[1..][j - 1] == batch[j];
      LookupDistinct(batch[1..], j - 1);
    }
  }

  /**
   * Merge semantics of the bulk update: each stored row named by a record takes the record's
   * supplied columns and keeps the others; every other row, and the set of ids, is unchanged.
   */
  lemma {:induction false} UpdateSemantics(rows: Rows, batch: seq<UserInput>, j: nat, id: int)
    requires DistinctIds(batch) && j < |batch| && batch[j].id == Some(id) && id in rows
    ensures ExecUpdate(rows, batch)[id] == Merge(rows[id], batch[j])
  {
    LookupDistinct(batch, j);
  }

  /** An empty batch joins no row. */
  lemma {:induction false} UpdateEmpty(rows: Rows, batch: seq<UserInput>)
    requires batch == []
    ensures ExecUpdate(rows, batch) == rows
  {
  }

  /** A row whose id no record names is left as it was; ids missing from the store add nothing. */
  lemma {:induction false} UpdateLeavesOthers(rows: Rows, batch: seq<UserInput>, id: int)
    requires id in rows && forall j :: 0 <= j < |batch| ==> batch[j].id != Some(id)
    ensures ExecUpdate(rows, batch)[id] == rows[id]
  {
  }

  /** Running the same update batch, with distinct ids, twice leaves the store as running it once. */
  lemma {:induction false} UpdateIdempotent(rows: Rows, batch: seq<UserInput>)
    requires DistinctIds(batch)
    ensures ExecUpdate(ExecUpdate(rows, batch), batch) == ExecUpdate(rows, batch)
  {
    var once := ExecUpdate(rows, batch);
    forall id | id in rows ensures ExecUpdate(once, batch)[id] == once[id] {
      match Lookup(batch, id) {
        case Some(input) => MergeIdempotent(rows[id], input);
        case None =>
      }
    }
  }

  lemma {:induction false} LookupAppend(a: seq<UserInput>, b: seq<UserInput>, id: int)
    ensures Lookup(a + b, id) == if Lookup(a, id).Some? then Lookup(a, id) else Lookup(b, id)
  {
    if a == [] {
      assert a + b == b;
    } else {
      assert (a + b)[0] == a[0] && (a + b)[1..] == a[1..] + b;
      LookupAppend(a[1..], b, id);
    }
  }

  /** Where the record `Lookup` finds sits in the batch. */
  lemma {:induction false} LookupIndex(batch: seq<UserInput>, id: int) returns (i: nat)
    requires Lookup(batch, id).Some?
    ensures i < |batch| && batch[i] == Lookup(batch, id).value
  {
    if batch[0].id == Some(id) {
      i := 0;
    } else {
      var rest := LookupIndex(batch[1..], id);
      i := rest + 1;
    }
  }

  /** `UpdateAppend` at one stored row. */
  lemma {:induction false} UpdateAppendAt(rows: Rows, a: seq<UserInput>, b: seq<UserInput>, id: int)
    requires DistinctIds(a + b) && id in rows
    ensures ExecUpdate(ExecUpdate(rows, a), b)[id] == ExecUpdate(rows, a + b)[id]
  {
    LookupAppend(a, b, id);
    if Lookup(a, id).Some? {
      var i := LookupIndex(a, id);
      forall j | 0 <= j < |b| ensures b[j].id != Some(id) {
        assert (a + b)[i] == a[i] && (a + b)[|a| + j] == b[j];
        DistinctPair(a + b, i, |a| + j);
      }
      UpdateLeavesOthers(ExecUpdate(rows, a), b, id);
    }
  }

  /** With distinct ids, running the batch `a + b` as two chunks, `a` then `b`, is running it as one. */
  lemma {:induction false} UpdateAppend(rows: Rows, a: seq<UserInput>, b: seq<UserInput>)
    requires DistinctIds(a + b)
    ensures ExecUpdate(ExecUpdate(rows, a), b) == ExecUpdate(rows, a + b)
  {
    forall id | id in rows ensures ExecUpdate(ExecUpdate(rows, a), b)[id] == ExecUpdate(rows, a + b)[id] {
      UpdateAppendAt(rows, a, b, id);
    }
  }

  /** Merge UPDATEs of `batches`, one statement after another, in order. */
  function ExecUpdates(rows: Rows, batches: seq<seq<UserInput>>): (r: Rows)
    ensures r.Keys == rows.Keys
    decreases |batches|
  {
    if batches == [] then rows
    else ExecUpdate(ExecUpdates(rows, batches[..|batches| - 1]), batches[|batches| - 1])
  }

  /** The columns the statements `batches` write into row `id`: each statement's joined record laid over the earlier ones. */
  function ColumnsWritten(batches: seq<seq<UserInput>>, id: int): UserInput
    decreases |batches|
  {
    if batches == [] then NoColumns
    else
      var before := ColumnsWritten(batches[..|batches| - 1], id);
      match Lookup(batches[|batches| - 1], id)
      case Some(input) => Overlay(before, input)
      case None => before
  }

  /** No statement of `batches` names one id twice. */
  ghost predicate EachDistinct(batches: seq<seq<UserInput>>)
  {
    forall k :: 0 <= k < |batches| ==> DistinctIds(batches[k])
  }

  /** After the statements `batches`, each stored row is its old self merged with the columns they wrote into it, later statements winning. */
  lemma {:induction false} ExecUpdatesAt(rows: Rows, batches: seq<seq<UserInput>>, id: int)
    requires id in rows && EachDistinct(batches)
    ensures ExecUpdates(rows, batches)[id] == Merge(rows[id], ColumnsWritten(batches, id))
    decreases |batches|
  {
    MergeOverlay(rows[id], NoColumns, NoColumns);
    if batches != [] {
      var init := batches[..|batches| - 1];
      assert EachDistinct(init) by {
        assert forall k :: 0 <= k < |init| ==> init[k] == batches[k];
      }
      ExecUpdatesAt(rows, init, id);
      match Lookup(batches[|batches| - 1], id) {
        case Some(input) => MergeOverlay(rows[id], ColumnsWritten(init, id), input);
        case None =>
      }
    }
  }

  /** Running the same statements, none naming an id twice, again leaves the store as running them once. */
  lemma {:induction false} UpdatesIdempotent(rows: Rows, batches: seq<seq<UserInput>>)
    requires EachDistinct(batches)
    ensures ExecUpdates(ExecUpdates(rows, batches), batches) == ExecUpdates(rows, batches)
  {
    var once := ExecUpdates(rows, batches);
    forall id | id in rows ensures ExecUpdates(once, batches)[id] == once[id] {
      ExecUpdatesAt(rows, batches, id);
      ExecUpdatesAt(once, batches, id);
      MergeIdempotent(rows[id], ColumnsWritten(batches, id));
    }
  }

  lemma {:induction false} ApplyInsert(rows: Rows, next: int, stmt: Statement, added: seq<User>)
    requires stmt.InsertRows? && BindInsert(stmt.tuples, stmt.values) == Some(added)
    ensures Apply(rows, next, stmt) == Some((ExecInsert(rows, next, added), next + |added|))
  {
  }

  lemma {:induction false} ApplyUpdate(rows: Rows, next: int, stmt: Statement, batch: seq<UserInput>)
    requires stmt.MergeUpdate? && BindUpdate(stmt.tuples, stmt.values) == Some(batch)
    ensures Apply(rows, next, stmt) == Some((ExecUpdate(rows, batch), next))
  {
  }

  /** What a statement does to the rows and the sequence, or None when the database rejects it. */
  function Apply(rows: Rows, next: int, stmt: Statement): Option<(Rows, int)>
  {
    match stmt
    case InsertRows(tuples, values) =>
      (match BindInsert(tuples, values)
       case Some(added) => Some((ExecInsert(rows, next, added), next + |added|))
       case None => None)
    case MergeUpdate(tuples, values) =>
      (match BindUpdate(tuples, values)
       case Some(batch) => Some((ExecUpdate(rows, batch), next))
       case None => None)
  }

  /**
   * The PostgreSQL database behind the connection pool. `snapshot` holds the rows as they were at
   * BEGIN while a transaction is open; `nextId` is the identity sequence, which a rollback does not
   * give back; `log` records what the bulk worker's client sent.
   */
  class Database {
    var rows: Rows
    var nextId: int
    var snapshot: Option<Rows>
    var clientHeld: bool
    var log: seq<Command>

    ghost predicate Valid()
      reads this
    {
      && IdsBelow(rows, nextId)
      && (snapshot.Some? ==> IdsBelow(snapshot.value, nextId))
    }

    constructor ()
      ensures Valid()
      ensures rows == map[] && nextId == 1 && snapshot == None && !clientHeld && log == []
    {
      rows, nextId, snapshot, clientHeld, log := map[], 1, None, false, [];
    }

    /** `pool.connect()`. */
    method Connect()
      modifies this`clientHeld
      ensures clientHeld
    {
      clientHeld := true;
    }

    /** `client.release()`. */
    method Release()
      modifies this`clientHeld
      ensures !clientHeld
    {
      clientHeld := false;
    }

    /** `client.query('BEGIN')`. */
    method Begin()
      requires Valid() && snapshot.None?
      modifies this`snapshot, this`log
      ensures Valid()
      ensures snapshot == Some(rows) && log == old(log) + [Command.Begin]
    {
      snapshot := Some(rows);
      log := log + [Command.Begin];
    }

    /**
     * `client.query(query, values)` inside the transaction. It fails when `fails` says the
     * database raises an error (a constraint, a lost connection) or when it cannot bind the
     * statement; a failed statement changes nothing.
     */
    method Execute(stmt: Statement, fails: bool) returns (ok: bool)
      requires Valid() && snapshot.Some?
      modifies this`rows, this`nextId, this`log
      ensures Valid()
      ensures log == old(log) + [Run(stmt)]
      ensures ok <==> !fails && Apply(old(rows), old(nextId), stmt).Some?
      ensures ok ==> Apply(old(rows), old(nextId), stmt) == Some((rows, nextId))
      ensures !ok ==> rows == old(rows) && nextId == old(nextId)
    {
      log := log + [Run(stmt)];
      var effect := Apply(rows, nextId, stmt);
      ok := !fails && effect.Some?;
      if ok {
        if stmt.InsertRows? {
          ExecInsertSize(rows, nextId, BindInsert(stmt.tuples, stmt.values).value);
        }
        rows, nextId := effect.value.0, effect.value.1;
      }
    }

    /** `client.query('COMMIT')`: the rows stay as they are. */
    method Commit()
      requires Valid() && snapshot.Some?
      modifies this`snapshot, this`log
      ensures Valid()
      ensures snapshot == None && log == old(log) + [Command.Commit]
    {
      snapshot := None;
      log := log + [Command.Commit];
    }

    /** `client.query('ROLLBACK')`: the rows go back to what they were at BEGIN. */
    method Rollback()
      requires Valid() && snapshot.Some?
      modifies this`rows, this`snapshot, this`log
      ensures Valid()
      ensures rows == old(snapshot).value && snapshot == None && log == old(log) + [Command.Rollback]
    {
      rows := snapshot.value;
      snapshot := None;
      log := log + [Command.Rollback];
    }
  }
}
