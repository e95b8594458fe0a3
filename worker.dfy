/**
 * The bulk-mutation worker: the insert and update engines, each running all chunks of one job
 * inside one transaction on one pooled client, and the dispatcher that routes a job by name.
 */
module Worker {
  import opened Wrappers
  import opened Users
  import opened Chunking
  import opened Params
  import opened Store

  datatype Status = Completed

  /** `{ processed: users.length, status: 'completed' }`. */
  datatype JobResult = JobResult(processed: nat, status: Status)

  /** The error a chunk's statement threw; the engine re-throws it after ROLLBACK. */
  datatype JobError = StatementFailed(chunk: nat)

  type Outcome = Result<JobResult, JobError>

  /** The first chunk index in `[from, count)` whose statement fails, if any. */
  function FirstFailure(failing: set<nat>, from: nat, count: nat): (r: Option<nat>)
    ensures r.Some? ==> from <= r.value < count && r.value in failing
    ensures r.Some? ==> forall j :: from <= j < r.value ==> j !in failing
    ensures r.None? <==> forall j :: from <= j < count ==> j !in failing
    decreases count - from
  {
    if from >= count then None
    else if from in failing then Some(from)
    else FirstFailure(failing, from + 1, count)
  }

  /** `cmds` are the INSERTs of the first `|cmds|` chunks of `users`, in order. */
  ghost predicate InsertTranscript(cmds: seq<Command>, users: seq<UserInput>)
  {
    && |cmds| <= NumChunks(|users|)
    && forall j :: 0 <= j < |cmds| ==> cmds[j] == Run(InsertStatement(Chunks(users)[j]))
  }

  /** `cmds` are the merge UPDATEs of the first `|cmds|` chunks of `users`, in order. */
  ghost predicate UpdateTranscript(cmds: seq<Command>, users: seq<UserInput>)
  {
    && |cmds| <= NumChunks(|users|)
    && forall j :: 0 <= j < |cmds| ==> cmds[j] == Run(UpdateStatement(Chunks(users)[j]))
  }

  /** The INSERT the create engine builds for chunk `k`, which starts at offset `i`: it adds exactly that chunk's rows. */
  method InsertChunkStatement(users: seq<UserInput>, i: nat, ghost k: nat) returns (stmt: Statement)
    requires i < |users| && i == BatchSize * k
    ensures stmt == InsertStatement(Chunks(users)[k])
    ensures BindInsert(stmt.tuples, stmt.values) == Some(NewRows(Chunks(users)[k]))
  {
    ChunkIsSlice(users, k);
    var batch := users[i..Min(i + BatchSize, |users|)];
    var placeholders, values := BuildInsertParams(batch);
    stmt := InsertRows(placeholders, values);
    InsertStatementBinds(batch);
  }

  /** The merge UPDATE the update engine builds for chunk `k`, which starts at offset `i`: it joins against exactly that chunk's records. */
  method UpdateChunkStatement(users: seq<UserInput>, i: nat, ghost k: nat) returns (stmt: Statement)
    requires i < |users| && i == BatchSize * k
    ensures stmt == UpdateStatement(Chunks(users)[k])
    ensures BindUpdate(stmt.tuples, stmt.values) == Some(Chunks(users)[k])
  {
    ChunkIsSlice(users, k);
    var batch := users[i..Min(i + BatchSize, |users|)];
    var valueStrings, values := BuildUpdateParams(batch);
    stmt := MergeUpdate(valueStrings, values);
    UpdateStatementBinds(batch);
  }

  /**
   * The log went from `log0` to `log0 + [BEGIN] + (ran statements) + [last]`, where `ran` is every
   * chunk on success and the chunks up to and including the failing one on failure.
   */
  ghost predicate Bracketed(log0: seq<Command>, log: seq<Command>, users: seq<UserInput>, result: Outcome)
  {
    var ran := if result.Success? then NumChunks(|users|) else result.error.chunk + 1;
    && |log| == |log0| + ran + 2
    && log[..|log0|] == log0
    && log[|log0|] == Command.Begin
    && log[|log| - 1] == (if result.Success? then Command.Commit else Command.Rollback)
  }

  /**
   * Everything a bulk-create job does, from rows `rows0`, sequence value `next0` and log `log0`
   * to `rows`, `next` and `log`: all chunks commit or none does.
   */
  ghost predicate CreateEffect(users: seq<UserInput>, failing: set<nat>,
                               rows0: Rows, next0: int, log0: seq<Command>,
                               rows: Rows, next: int, log: seq<Command>, result: Outcome)
  {
    var first := FirstFailure(failing, 0, NumChunks(|users|));
    && (result.Success? <==> first.None?)
    && (result.Success? ==>
          && result.value == JobResult(|users|, Completed)
          && rows == ExecInsert(rows0, next0, NewRows(users))
          && |rows| == |rows0| + |users|
          && next == next0 + |users|)
    && (result.Failure? ==>
          && first == Some(result.error.chunk)
          && rows == rows0
          && next == next0 + BatchSize * result.error.chunk)
    && Bracketed(log0, log, users, result)
    && InsertTranscript(log[|log0| + 1 .. |log| - 1], users)
  }

  /**
   * No chunk of the job holds two records naming one id. Within one statement PostgreSQL leaves
   * unspecified which of two such records the join uses; across chunks the later statement runs
   * later, so repeated ids in different chunks are fine.
   */
  ghost predicate ChunksDistinct(users: seq<UserInput>)
  {
    EachDistinct(Chunks(users))
  }

  /** Everything a bulk-update job does: on success the chunks' UPDATEs applied in turn; `next` does not move. */
  ghost predicate UpdateEffect(users: seq<UserInput>, failing: set<nat>,
                               rows0: Rows, next0: int, log0: seq<Command>,
                               rows: Rows, next: int, log: seq<Command>, result: Outcome)
  {
    var first := FirstFailure(failing, 0, NumChunks(|users|));
    && (result.Success? <==> first.None?)
    && (result.Success? ==>
          && result.value == JobResult(|users|, Completed)
          && rows == ExecUpdates(rows0, Chunks(users)))
    && (result.Failure? ==> first == Some(result.error.chunk) && rows == rows0)
    && next == next0
    && Bracketed(log0, log, users, result)
    && UpdateTranscript(log[|log0| + 1 .. |log| - 1], users)
  }

  lemma {:induction false} FirstFailureAt(failing: set<nat>, count: nat, k: nat)
    requires k < count && k in failing && forall j :: 0 <= j < k ==> j !in failing
    ensures FirstFailure(failing, 0, count) == Some(k)
  {
  }

  lemma {:induction false} ExtendInsertTranscript(cmds: seq<Command>, users: seq<UserInput>, stmt: Statement)
    requires InsertTranscript(cmds, users) && |cmds| < NumChunks(|users|)
    requires stmt == InsertStatement(Chunks(users)[|cmds|])
    ensures InsertTranscript(cmds + [Run(stmt)], users)
  {
    var ext := cmds + [Run(stmt)];
    forall j | 0 <= j < |ext| ensures ext[j] == Run(InsertStatement(Chunks(users)[j])) {
      if j < |cmds| {
        assert ext[j] == cmds[j];
      }
    }
  }

  lemma {:induction false} ExtendUpdateTranscript(cmds: seq<Command>, users: seq<UserInput>, stmt: Statement)
    requires UpdateTranscript(cmds, users) && |cmds| < NumChunks(|users|)
    requires stmt == UpdateStatement(Chunks(users)[|cmds|])
    ensures UpdateTranscript(cmds + [Run(stmt)], users)
  {
    var ext := cmds + [Run(stmt)];
    forall j | 0 <= j < |ext| ensures ext[j] == Run(UpdateStatement(Chunks(users)[j])) {
      if j < |cmds| {
        assert ext[j] == cmds[j];
      }
    }
  }

  /** The statements between BEGIN and the closing command are `cmds`. */
  lemma {:induction false} Bracket(log0: seq<Command>, cmds: seq<Command>, last: Command)
    ensures var log := log0 + [Command.Begin] + cmds + [last];
      && |log| == |log0| + |cmds| + 2
      && log[..|log0|] == log0 && log[|log0|] == Command.Begin && log[|log| - 1] == last
      && log[|log0| + 1 .. |log| - 1] == cmds
  {
    var log := log0 + [Command.Begin] + cmds + [last];
    assert log[..|log0|] == log0;
    assert log[|log0| + 1 .. |log| - 1] == cmds;
  }

  lemma {:induction false} CreateFailed(users: seq<UserInput>, failing: set<nat>, rows0: Rows, next0: int, log0: seq<Command>,
                     cmds: seq<Command>, k: nat)
    requires k < NumChunks(|users|) && k in failing && forall j :: 0 <= j < k ==> j !in failing
    requires |cmds| == k + 1 && InsertTranscript(cmds, users)
    ensures CreateEffect(users, failing, rows0, next0, log0, rows0, next0 + BatchSize * k,
                         log0 + [Command.Begin] + cmds + [Command.Rollback], Failure(StatementFailed(k)))
  {
    FirstFailureAt(failing, NumChunks(|users|), k);
    Bracket(log0, cmds, Command.Rollback);
  }

  lemma {:induction false} CreateSucceeded(users: seq<UserInput>, failing: set<nat>, rows0: Rows, next0: int, log0: seq<Command>,
                        cmds: seq<Command>)
    requires IdsBelow(rows0, next0)
    requires forall j :: 0 <= j < NumChunks(|users|) ==> j !in failing
    requires |cmds| == NumChunks(|users|) && InsertTranscript(cmds, users)
    ensures CreateEffect(users, failing, rows0, next0, log0, ExecInsert(rows0, next0, NewRows(users)), next0 + |users|,
                         log0 + [Command.Begin] + cmds + [Command.Commit], Success(JobResult(|users|, Completed)))
  {
    ExecInsertSize(rows0, next0, NewRows(users));
    Bracket(log0, cmds, Command.Commit);
  }

  lemma {:induction false} UpdateFailed(users: seq<UserInput>, failing: set<nat>, rows0: Rows, next0: int, log0: seq<Command>,
                     cmds: seq<Command>, k: nat)
    requires k < NumChunks(|users|) && k in failing && forall j :: 0 <= j < k ==> j !in failing
    requires |cmds| == k + 1 && UpdateTranscript(cmds, users)
    ensures UpdateEffect(users, failing, rows0, next0, log0, rows0, next0,
                         log0 + [Command.Begin] + cmds + [Command.Rollback], Failure(StatementFailed(k)))
  {
    FirstFailureAt(failing, NumChunks(|users|), k);
    Bracket(log0, cmds, Command.Rollback);
  }

  lemma {:induction false} UpdateSucceeded(users: seq<UserInput>, failing: set<nat>, rows0: Rows, next0: int, log0: seq<Command>,
                        cmds: seq<Command>)
    requires forall j :: 0 <= j < NumChunks(|users|) ==> j !in failing
    requires |cmds| == NumChunks(|users|) && UpdateTranscript(cmds, users)
    ensures UpdateEffect(users, failing, rows0, next0, log0, ExecUpdates(rows0, Chunks(users)), next0,
                         log0 + [Command.Begin] + cmds + [Command.Commit], Success(JobResult(|users|, Completed)))
  {
    Bracket(log0, cmds, Command.Commit);
  }

  /** An empty bulk-create job runs no statement: BEGIN, COMMIT, and `processed = 0`. */
  lemma {:induction false} EmptyCreateJob(failing: set<nat>, rows0: Rows, next0: int, log0: seq<Command>,
                       rows: Rows, next: int, log: seq<Command>, result: Outcome)
    requires CreateEffect([], failing, rows0, next0, log0, rows, next, log, result)
    ensures result == Success(JobResult(0, Completed))
    ensures rows == rows0 && next == next0
    ensures log == log0 + [Command.Begin, Command.Commit]
  {
    assert NumChunks(0) == 0;
    assert result.Success?;
    assert log == log[..|log0|] + [log[|log0|], log[|log0| + 1]];
  }

  /**
   * The queue delivers a job at least once. Running a bulk-update job again after a first attempt,
   * whether that attempt committed or rolled back, leaves the rows as one successful run does.
   */
  lemma {:induction false} UpdateJobRedelivered(users: seq<UserInput>, failing1: set<nat>, failing2: set<nat>,
                             rows0: Rows, next0: int, log0: seq<Command>,
                             rows1: Rows, next1: int, log1: seq<Command>, result1: Outcome,
                             rows2: Rows, next2: int, log2: seq<Command>, result2: Outcome)
    requires UpdateEffect(users, failing1, rows0, next0, log0, rows1, next1, log1, result1)
    requires UpdateEffect(users, failing2, rows1, next1, log1, rows2, next2, log2, result2)
    requires ChunksDistinct(users) && result2.Success?
    ensures rows2 == ExecUpdates(rows0, Chunks(users))
  {
    if result1.Success? {
      UpdatesIdempotent(rows0, Chunks(users));
    }
  }

  /** Running a bulk-create job again after it committed inserts every record a second time, under new ids. */
  lemma {:induction false} CreateJobRedelivered(users: seq<UserInput>, failing1: set<nat>, failing2: set<nat>,
                             rows0: Rows, next0: int, log0: seq<Command>,
                             rows1: Rows, next1: int, log1: seq<Command>, result1: Outcome,
                             rows2: Rows, next2: int, log2: seq<Command>, result2: Outcome)
    requires IdsBelow(rows0, next0)
    requires CreateEffect(users, failing1, rows0, next0, log0, rows1, next1, log1, result1)
    requires CreateEffect(users, failing2, rows1, next1, log1, rows2, next2, log2, result2)
    requires result1.Success? && result2.Success?
    ensures |rows2| == |rows0| + 2 * |users|
    ensures rows2 == ExecInsert(rows0, next0, NewRows(users) + NewRows(users))
  {
    ExecInsertAppend(rows0, next0, NewRows(users), NewRows(users));
  }

  /** When the INSERT of chunk `k` runs after the chunks before it, the first `end` records are inserted. */
  lemma {:induction false} InsertChunkStep(rows0: Rows, next0: int, users: seq<UserInput>, k: nat, stmt: Statement)
    requires BatchSize * k < |users|
    requires stmt.InsertRows? && BindInsert(stmt.tuples, stmt.values) == Some(NewRows(Chunks(users)[k]))
    ensures var done, end := Min(BatchSize * k, |users|), Min(BatchSize * (k + 1), |users|);
      Apply(ExecInsert(rows0, next0, NewRows(users[..done])), next0 + done, stmt)
        == Some((ExecInsert(rows0, next0, NewRows(users[..end])), next0 + end))
  {
    var i := BatchSize * k;
    var end := Min(i + BatchSize, |users|);
    assert Chunks(users)[k] == users[i..end] by { ChunkIsSlice(users, k); }
    assert Min(BatchSize * k, |users|) == i && Min(BatchSize * (k + 1), |users|) == end;
    InsertSliceStep(rows0, next0, users, i, end, stmt);
  }

  /** An INSERT of the records `i..end` after the first `i` were inserted leaves the first `end` inserted. */
  lemma {:induction false} InsertSliceStep(rows0: Rows, next0: int, users: seq<UserInput>, i: nat, end: nat, stmt: Statement)
    requires i <= end <= |users|
    requires stmt.InsertRows? && BindInsert(stmt.tuples, stmt.values) == Some(NewRows(users[i..end]))
    ensures Apply(ExecInsert(rows0, next0, NewRows(users[..i])), next0 + i, stmt)
         == Some((ExecInsert(rows0, next0, NewRows(users[..end])), next0 + end))
  {
    var done, sent := NewRows(users[..i]), NewRows(users[i..end]);
    assert users[..i] + users[i..end] == users[..end];
    NewRowsAppend(users[..i], users[i..end]);
    assert done + sent == NewRows(users[..end]);
    ApplyInsert(ExecInsert(rows0, next0, done), next0 + i, stmt, sent);
    ExecInsertAppend(rows0, next0, done, sent);
  }

  /** When the merge UPDATE of chunk `k` runs after the chunks before it, chunks `0..k` have run. */
  lemma {:induction false} UpdateChunkStep(rows0: Rows, next: int, users: seq<UserInput>, k: nat, stmt: Statement)
    requires k < |Chunks(users)|
    requires stmt.MergeUpdate? && BindUpdate(stmt.tuples, stmt.values) == Some(Chunks(users)[k])
    ensures Apply(ExecUpdates(rows0, Chunks(users)[..k]), next, stmt)
         == Some((ExecUpdates(rows0, Chunks(users)[..k + 1]), next))
  {
    var cs := Chunks(users);
    assert cs[..k + 1][..k] == cs[..k];
    ApplyUpdate(ExecUpdates(rows0, cs[..k]), next, stmt, cs[k]);
  }

  /** A job with distinct ids has distinct ids in every chunk. */
  lemma {:induction false} DistinctJobChunks(users: seq<UserInput>)
    requires DistinctIds(users)
    ensures ChunksDistinct(users)
  {
    forall k | 0 <= k < |Chunks(users)| ensures DistinctIds(Chunks(users)[k]) {
      var i, end := BatchSize * k, Min(BatchSize * k + BatchSize, |users|);
      ChunkIsSlice(users, k);
      DistinctPrefix(users, end);
      DistinctDrop(users[..end], i);
      assert users[..end][i..] == users[i..end];
    }
  }

  /** With distinct ids in the whole job, the UPDATEs of the first `k` chunks do what one UPDATE of their records does. */
  lemma {:induction false} ChunkedUpdatePrefix(rows0: Rows, users: seq<UserInput>, k: nat)
    requires DistinctIds(users) && k <= |Chunks(users)|
    ensures ExecUpdates(rows0, Chunks(users)[..k]) == ExecUpdate(rows0, users[..Min(BatchSize * k, |users|)])
    decreases k
  {
    var cs := Chunks(users);
    if k == 0 {
      assert cs[..0] == [] && users[..Min(0, |users|)] == [];
      UpdateEmpty(rows0, []);
    } else {
      var j := k - 1;
      var i, end := BatchSize * j, Min(BatchSize * j + BatchSize, |users|);
      var before := ExecUpdate(rows0, users[..i]);
      assert ExecUpdates(rows0, cs[..j]) == before by {
        ChunkedUpdatePrefix(rows0, users, j);
        ChunkIsSlice(users, j);
      }
      assert ExecUpdates(rows0, cs[..k]) == ExecUpdate(before, users[i..end]) by {
        assert cs[..k][..j] == cs[..j];
        ChunkIsSlice(users, j);
      }
      assert Min(BatchSize * k, |users|) == end;
      UpdateSliceStep(rows0, users, i, end);
    }
  }

  /** The UPDATE of records `i..end`, after one UPDATE of the first `i`, leaves the first `end` applied. */
  lemma {:induction false} UpdateSliceStep(rows0: Rows, users: seq<UserInput>, i: nat, end: nat)
    requires i <= end <= |users| && DistinctIds(users)
    ensures ExecUpdate(ExecUpdate(rows0, users[..i]), users[i..end]) == ExecUpdate(rows0, users[..end])
  {
    assert users[..i] + users[i..end] == users[..end];
    DistinctPrefix(users, end);
    UpdateAppend(rows0, users[..i], users[i..end]);
  }

  /** With distinct ids in the whole job, running it chunk after chunk is one UPDATE of every record. */
  lemma {:induction false} DistinctJobUpdate(rows0: Rows, users: seq<UserInput>)
    requires DistinctIds(users)
    ensures ExecUpdates(rows0, Chunks(users)) == ExecUpdate(rows0, users)
  {
    var n := |Chunks(users)|;
    ChunkedUpdatePrefix(rows0, users, n);
    assert Chunks(users)[..n] == Chunks(users);
    assert Min(BatchSize * n, |users|) == |users| && users[..|users|] == users;
  }

  /**
   * A job of 101 records whose first and last both name row 7, with ages 30 and 31. The two
   * records fall in different chunks, so the job is accepted, and the second chunk's UPDATE runs
   * last, so row 7 ends with age 31.
   */
  lemma {:induction false} LaterChunkWins(rows0: Rows, users: seq<UserInput>)
    requires 7 in rows0 && |users| == 101
    requires users[0] == UserInput(Some(7), None, None, Some(30)) && users[100] == UserInput(Some(7), None, None, Some(31))
    requires forall j :: 0 < j < 100 ==> users[j].id.None?
    ensures ChunksDistinct(users) && !DistinctIds(users)
    ensures ExecUpdates(rows0, Chunks(users))[7].age == Some(31)
  {
    var cs := Chunks(users);
    assert |cs| == 2;
    assert cs[0] == users[..100] by { ChunkIsSlice(users, 0); }
    assert cs[1] == [users[100]] by { ChunkIsSlice(users, 1); }
    assert DistinctIds(cs[0]) by {
      NoIdsDistinct(users[1..100]);
      assert cs[0][1..] == users[1..100];
    }
    assert DistinctIds(cs[1]) by { assert cs[1][1..] == []; }
    assert !DistinctIds(users) by {
      if DistinctIds(users) {
        DistinctPair(users, 0, 100);
      }
    }
    var before := ExecUpdates(rows0, cs[..1]);
    assert ExecUpdates(rows0, cs) == ExecUpdate(before, cs[1]);
    assert Lookup(cs[1], 7) == Some(users[100]);
  }

  /**
   * The open transaction of the insert engine after the chunks in `cmds` ran and succeeded: the
   * log is BEGIN and those statements, and the rows and the id sequence are those of inserting
   * every record those chunks hold.
   */
  ghost predicate InsertProgress(db: Database, users: seq<UserInput>, rows0: Rows, next0: int,
                                 log0: seq<Command>, cmds: seq<Command>)
    reads db
  {
    var done := Min(BatchSize * |cmds|, |users|);
    && db.Valid() && db.snapshot.Some?
    && db.log == log0 + [Command.Begin] + cmds && InsertTranscript(cmds, users)
    && db.rows == ExecInsert(rows0, next0, NewRows(users[..done])) && db.nextId == next0 + done
  }

  /** The open transaction of the update engine after the chunks in `cmds` ran and succeeded. */
  ghost predicate UpdateProgress(db: Database, users: seq<UserInput>, rows0: Rows,
                                 log0: seq<Command>, cmds: seq<Command>)
    reads db
  {
    && db.Valid() && db.snapshot.Some?
    && db.log == log0 + [Command.Begin] + cmds && UpdateTranscript(cmds, users)
    && db.rows == ExecUpdates(rows0, Chunks(users)[..|cmds|])
  }

  /** The transaction is open, and its log is BEGIN and the statements `cmds` of the chunks tried so far. */
  ghost predicate Logged(db: Database, log0: seq<Command>, cmds: seq<Command>)
    reads db
  {
    db.Valid() && db.snapshot.Some? && db.log == log0 + [Command.Begin] + cmds
  }

  /**
   * One turn of the insert engine's loop: build the INSERT for the chunk `users[i..i + BatchSize]`
   * and send it. When it succeeds, one more chunk is done; when it throws, nothing but the log changed.
   */
  method SendInsertChunk(db: Database, users: seq<UserInput>, i: nat, failing: bool,
                         ghost rows0: Rows, ghost next0: int, ghost log0: seq<Command>, ghost cmds: seq<Command>)
    returns (ok: bool, stmt: Statement)
    requires i < |users| && i == BatchSize * |cmds|
    requires InsertProgress(db, users, rows0, next0, log0, cmds)
    modifies db`rows, db`nextId, db`log
    ensures ok == !failing
    ensures Logged(db, log0, cmds + [Run(stmt)]) && InsertTranscript(cmds + [Run(stmt)], users)
    ensures ok ==> InsertProgress(db, users, rows0, next0, log0, cmds + [Run(stmt)])
    ensures !ok ==> db.rows == old(db.rows) && db.nextId == old(db.nextId)
  {
    ghost var k := |cmds|;
    ghost var end := Min(BatchSize * (k + 1), |users|);
    ghost var after := ExecInsert(rows0, next0, NewRows(users[..end]));
    stmt := InsertChunkStatement(users, i, k);
    ExtendInsertTranscript(cmds, users, stmt);
    assert Apply(db.rows, db.nextId, stmt) == Some((after, next0 + end)) by {
      InsertChunkStep(rows0, next0, users, k, stmt);
    }
    ok := db.Execute(stmt, failing);
    assert db.log == log0 + [Command.Begin] + (cmds + [Run(stmt)]);
    assert |cmds + [Run(stmt)]| == k + 1;
    assert ok ==> db.rows == after && db.nextId == next0 + end;
  }

  /**
   * One turn of the update engine's loop: build the merge UPDATE for the chunk
   * `users[i..i + BatchSize]` and send it. When it succeeds, one more chunk is done.
   */
  method SendUpdateChunk(db: Database, users: seq<UserInput>, i: nat, failing: bool,
                         ghost rows0: Rows, ghost log0: seq<Command>, ghost cmds: seq<Command>)
    returns (ok: bool, stmt: Statement)
    requires ChunksDistinct(users)
    requires i < |users| && i == BatchSize * |cmds|
    requires UpdateProgress(db, users, rows0, log0, cmds)
    modifies db`rows, db`nextId, db`log
    ensures ok == !failing
    ensures Logged(db, log0, cmds + [Run(stmt)]) && UpdateTranscript(cmds + [Run(stmt)], users)
    ensures ok ==> UpdateProgress(db, users, rows0, log0, cmds + [Run(stmt)])
    ensures !ok ==> db.rows == old(db.rows)
    ensures db.nextId == old(db.nextId)
  {
    ghost var k := |cmds|;
    ghost var after := ExecUpdates(rows0, Chunks(users)[..k + 1]);
    stmt := UpdateChunkStatement(users, i, k);
    ExtendUpdateTranscript(cmds, users, stmt);
    assert Apply(db.rows, db.nextId, stmt) == Some((after, db.nextId)) by {
      UpdateChunkStep(rows0, db.nextId, users, k, stmt);
    }
    ok := db.Execute(stmt, failing);
    assert db.log == log0 + [Command.Begin] + (cmds + [Run(stmt)]);
    assert |cmds + [Run(stmt)]| == k + 1;
    assert ok ==> db.rows == after;
  }

  /**
   * The chunk loop of `processBulkCreate`, inside the open transaction: send chunk after chunk
   * and stop at the first whose statement throws, reporting its index.
   */
  method InsertChunks(db: Database, users: seq<UserInput>, failing: set<nat>,
                      ghost rows0: Rows, ghost next0: int, ghost log0: seq<Command>)
    returns (failed: Option<nat>, ghost cmds: seq<Command>)
    requires db.Valid() && db.snapshot.Some?
    requires db.rows == rows0 && db.nextId == next0 && db.log == log0 + [Command.Begin]
    modifies db`rows, db`nextId, db`log
    ensures Logged(db, log0, cmds) && InsertTranscript(cmds, users)
    ensures failed == FirstFailure(failing, 0, NumChunks(|users|))
    ensures failed.None? ==>
              && |cmds| == NumChunks(|users|)
              && db.rows == ExecInsert(rows0, next0, NewRows(users))
              && db.nextId == next0 + |users|
    ensures failed.Some? ==> |cmds| == failed.value + 1 && db.nextId == next0 + BatchSize * failed.value
  {
    cmds := [];
    assert users[..0] == [];
    var i := 0;
    var k: nat := 0;  // i / BatchSize: the index of the chunk being sent
    while i < |users|
      invariant k <= NumChunks(|users|) && i == BatchSize * k && |cmds| == k
      invariant i < |users| || k == NumChunks(|users|)
      invariant forall j :: 0 <= j < k ==> j !in failing
      invariant InsertProgress(db, users, rows0, next0, log0, cmds)
    {
      var ok, stmt := SendInsertChunk(db, users, i, k in failing, rows0, next0, log0, cmds);
      cmds := cmds + [Run(stmt)];
      if !ok {
        FirstFailureAt(failing, NumChunks(|users|), k);
        return Some(k), cmds;
      }
      i := i + BatchSize;
      k := k + 1;
    }
    assert users[..Min(i, |users|)] == users;
    failed := None;
  }
  /** `processBulkCreate(users)`, where the statement of chunk `k` throws exactly when `k in failing`. */
  method ProcessBulkCreate(db: Database, users: seq<UserInput>, failing: set<nat>) returns (result: Outcome)
    requires db.Valid() && db.snapshot.None?
    modifies db
    ensures db.Valid() && db.snapshot.None? && !db.clientHeld
    ensures CreateEffect(users, failing, old(db.rows), old(db.nextId), old(db.log), db.rows, db.nextId, db.log, result)
  {
    db.Connect();
    db.Begin();
    ghost var rows0, next0, log0 := db.rows, db.nextId, old(db.log);
    var failed;
    ghost var cmds;
    failed, cmds := InsertChunks(db, users, failing, rows0, next0, log0);
    if failed.Some? {
      db.Rollback();
      db.Release();
      CreateFailed(users, failing, rows0, next0, log0, cmds, failed.value);
      return Failure(StatementFailed(failed.value));
    }
    db.Commit();
    db.Release();
    CreateSucceeded(users, failing, rows0, next0, log0, cmds);
    return Success(JobResult(|users|, Completed));
  }

  /**
   * The chunk loop of `processBulkUpdate`, inside the open transaction: send chunk after chunk
   * and stop at the first whose statement throws, reporting its index.
   */
  method UpdateChunks(db: Database, users: seq<UserInput>, failing: set<nat>,
                      ghost rows0: Rows, ghost log0: seq<Command>)
    returns (failed: Option<nat>, ghost cmds: seq<Command>)
    requires db.Valid() && db.snapshot.Some?
    requires ChunksDistinct(users)
    requires db.rows == rows0 && db.log == log0 + [Command.Begin]
    modifies db`rows, db`nextId, db`log
    ensures Logged(db, log0, cmds) && UpdateTranscript(cmds, users)
    ensures db.nextId == old(db.nextId)
    ensures failed == FirstFailure(failing, 0, NumChunks(|users|))
    ensures failed.None? ==> |cmds| == NumChunks(|users|) && db.rows == ExecUpdates(rows0, Chunks(users))
    ensures failed.Some? ==> |cmds| == failed.value + 1
  {
    cmds := [];
    assert Chunks(users)[..0] == [];
    var i := 0;
    var k: nat := 0;  // i / BatchSize: the index of the chunk being sent
    while i < |users|
      invariant k <= NumChunks(|users|) && i == BatchSize * k && |cmds| == k
      invariant i < |users| || k == NumChunks(|users|)
      invariant forall j :: 0 <= j < k ==> j !in failing
      invariant UpdateProgress(db, users, rows0, log0, cmds) && db.nextId == old(db.nextId)
    {
      var ok, stmt := SendUpdateChunk(db, users, i, k in failing, rows0, log0, cmds);
      cmds := cmds + [Run(stmt)];
      if !ok {
        FirstFailureAt(failing, NumChunks(|users|), k);
        return Some(k), cmds;
      }
      i := i + BatchSize;
      k := k + 1;
    }
    assert Chunks(users)[..k] == Chunks(users);
    failed := None;
  }
  /** `processBulkUpdate(users)`, for a job no chunk of which names one id twice. */
  method ProcessBulkUpdate(db: Database, users: seq<UserInput>, failing: set<nat>) returns (result: Outcome)
    requires db.Valid() && db.snapshot.None?
    requires ChunksDistinct(users)
    modifies db
    ensures db.Valid() && db.snapshot.None? && !db.clientHeld
    ensures UpdateEffect(users, failing, old(db.rows), old(db.nextId), old(db.log), db.rows, db.nextId, db.log, result)
  {
    db.Connect();
    db.Begin();
    ghost var rows0, next0, log0 := db.rows, db.nextId, old(db.log);
    var failed;
    ghost var cmds;
    failed, cmds := UpdateChunks(db, users, failing, rows0, log0);
    if failed.Some? {
      db.Rollback();
      db.Release();
      UpdateFailed(users, failing, rows0, next0, log0, cmds, failed.value);
      return Failure(StatementFailed(failed.value));
    }
    db.Commit();
    db.Release();
    UpdateSucceeded(users, failing, rows0, next0, log0, cmds);
    return Success(JobResult(|users|, Completed));
  }

  /** A job as the queue delivers it: its name and `job.data.users`. */
  datatype Job = Job(name: string, users: seq<UserInput>)

  /**
   * The handler `initWorker` registers: `bulk-create` runs only the insert engine, `bulk-update`
   * only the update engine, and any other name matches neither branch, returns nothing and
   * touches nothing.
   */
  method HandleJob(db: Database, job: Job, failing: set<nat>) returns (outcome: Option<Outcome>)
    requires db.Valid() && db.snapshot.None?
    requires job.name == "bulk-update" ==> ChunksDistinct(job.users)
    modifies db
    ensures db.Valid() && db.snapshot.None?
    ensures job.name == "bulk-create" ==>
      && outcome.Some? && !db.clientHeld
      && CreateEffect(job.users, failing, old(db.rows), old(db.nextId), old(db.log), db.rows, db.nextId, db.log, outcome.value)
    ensures job.name == "bulk-update" ==>
      && outcome.Some? && !db.clientHeld
      && UpdateEffect(job.users, failing, old(db.rows), old(db.nextId), old(db.log), db.rows, db.nextId, db.log, outcome.value)
    ensures job.name != "bulk-create" && job.name != "bulk-update" ==> outcome.None? && unchanged(db)
  {
    if job.name == "bulk-create" {
      var r := ProcessBulkCreate(db, job.users, failing);
      outcome := Some(r);
    } else if job.name == "bulk-update" {
      var r := ProcessBulkUpdate(db, job.users, failing);
      outcome := Some(r);
    } else {
      outcome := None;
    }
  }
}
