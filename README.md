# Bulk user mutations: a Dafny model

This project models the user service's bulk-mutation worker and its single-record request handlers.

The worker takes a `bulk-create` or `bulk-update` job from the queue. It splits the job's records into chunks of at most 100. Each chunk becomes one parameterised statement: a multi-row `INSERT` or a merge `UPDATE ... FROM (VALUES ...)`. Every chunk of a job runs on one pooled client inside one transaction. The job commits when every statement succeeds. Otherwise it rolls back and re-throws the error.

The handlers create, read, update, delete and list users against the same table. The read goes through a key-value cache (cache-aside): update refreshes the cached entry and delete evicts it.

The model is organised as follows:

- `wrappers.dfy`: `Option` (SQL NULL, an absent JavaScript property) and `Result`.
- `users.dfy`: a stored row, a job or request record with every field optional, and the `COALESCE` merge.
- `chunking.dfy`: the `for (i = 0; i < n; i += 100)` split, as a function of the input.
- `params.dfy`: the statements the engines build.
  - A statement is a list of placeholder-index tuples plus the `values` array they index.
  - `BindInsert`/`BindUpdate` state how the database reads a statement back. They reject an empty `VALUES` list, a missing or wrongly typed parameter, and more than 65535 parameters. They also reject placeholders that, read in order, do not number the parameters `$1 .. $n`. That rule is the model's own and is stricter than PostgreSQL, which accepts placeholders in any order and repeated; every statement the engines build meets it.
  - The builders are loops proved against the statement functions.
- `store.dfy`: the `users` table as `map<int, User>`, the identity sequence, and a `Database` class.
  - The class models BEGIN (a snapshot of the rows), one statement, COMMIT, ROLLBACK (restore the snapshot), and the client connect/release flag.
  - It keeps a log of the commands the client sent.
- `worker.dfy`: the two engines.
  - Each engine is a loop over chunks that mutates the database, with an oracle that picks which chunks' statements throw.
  - The whole effect of one job is stated as `CreateEffect`/`UpdateEffect`.
  - `HandleJob` is the dispatcher.
- `pagination.dfy`: the page, limit, offset and page-count arithmetic of `listUsers`.
- `controller.dfy`: the handlers, as a class holding the database and the cache.
  - The class invariant `KeyedById` says every cached entry sits under its row's key. `Coherent` adds that the entry equals the stored row; each handler keeps it, and a bulk update can break it.
  - `RouteKeyedController` is the same handlers with the cache keyed by the raw route text, as the code writes it.
- `arith.dfy`: two monotonicity facts about multiplication, used by the arithmetic proofs.

## Model

| member | source | states |
|---|---|---|
| Users.Merge | workers/userWorker.js:96-98 | each column becomes the supplied value when one is given and keeps the stored value otherwise |
| Users.MergeIdempotent | workers/userWorker.js:96-98 | merging the same record twice gives the same row as merging it once |
| Users.MergeAgeOnly | workers/userWorker.js:96-98 | a record that supplies only `age` leaves `name` and `email` as stored |
| Users.NewRow | workers/userWorker.js:20-29 | the row an INSERT of a record creates: its name, email and age |
| Users.NewRows | workers/userWorker.js:20-30 | one row per record, in record order |
| Users.MergeOverlay | workers/userWorker.js:96-105 | merging record a and then record b is one merge with b's supplied columns laid over a's (the later value wins); merging a record that supplies nothing keeps the row |
| Users.MergeNeverClears | workers/userWorker.js:96-98 | a merge never turns a stored value into NULL |
| Chunking.NumChunks | workers/userWorker.js:12 | the loop runs ceil(n / 100) times: enough chunks to cover n, no extra one, and none for n = 0 |
| Chunking.Chunks | workers/userWorker.js:12-13 | there are NumChunks(n) chunks, each of 1 to 100 records |
| Chunking.ChunkIsSlice | workers/userWorker.js:12-13 | chunk k is `users.slice(100k, 100k + 100)` and starts inside the input |
| Chunking.FlattenChunks | workers/userWorker.js:12-13 | concatenating the chunks in order gives back the input |
| Chunking.TwoHundredFifty | workers/userWorker.js:10-13 | 250 records run as three chunks of 100, 100 and 50 |
| Params.TuplesNumberParams | workers/userWorker.js:17-22 | a fresh chunk's placeholders, read in order, are exactly `$1 .. $count*width`: none skipped or repeated |
| Params.TuplesBounded | workers/userWorker.js:79-85 | no placeholder of a chunk exceeds 100 * width: 300 for the insert, 400 for the update |
| Params.InsertValues | workers/userWorker.js:17-26 | the `values` array of a chunk: name, email, age of each record in order, three per record |
| Params.UpdateValues | workers/userWorker.js:79-91 | the `values` array of a chunk: id, name, email, age of each record in order, four per record |
| Params.InsertStatement | workers/userWorker.js:17-33 | the INSERT sent for a chunk: its placeholder tuples and its `values` |
| Params.UpdateStatement | workers/userWorker.js:79-105 | the merge UPDATE sent for a chunk: its placeholder tuples and its `values` |
| Params.InsertValuesAt | workers/userWorker.js:20-26 | `values[3*idx .. 3*idx+2]` are the name, email and age of record `idx` |
| Params.UpdateValuesAt | workers/userWorker.js:82-91 | `values[4*idx .. 4*idx+3]` are the id, name, email and age of record `idx` |
| Params.BuildInsertParams | workers/userWorker.js:17-26 | the forEach builds exactly the INSERT of the batch: tuple `idx` is `($3idx+1, $3idx+2, $3idx+3)` and the values are pushed in record order |
| Params.BuildUpdateParams | workers/userWorker.js:79-91 | the forEach builds exactly the merge UPDATE of the batch: tuple `idx` is `($4idx+1 .. $4idx+4)` and the values are pushed as id, name, email, age |
| Params.BindInsert | workers/userWorker.js:28-33 | the database's reading of an INSERT: one row per VALUES tuple, taken from the parameters the tuple names; rejected for an empty list, a missing or mistyped parameter, more than 65535 parameters, or placeholders that do not number the parameters `$1 .. $n` in order with none left over (a rule of the model, stricter than PostgreSQL) |
| Params.BindUpdate | workers/userWorker.js:93-103 | the database's reading of the merge UPDATE: one `c(id, name, email, age)` record per VALUES tuple, with the same rejections |
| Params.InsertRecordAt | workers/userWorker.js:20-26 | record `idx`'s placeholders are typed text, text, integer and read back its row |
| Params.UpdateRecordAt | workers/userWorker.js:82-91 | record `idx`'s placeholders are typed integer, text, text, integer and read back that record |
| Params.InsertStatementBinds | workers/userWorker.js:20-33 | the database accepts the INSERT of a chunk of 1 to 100 records, its placeholders numbering `$1 .. $3n` exactly, and reads it as exactly the rows of those records, in order |
| Params.UpdateStatementBinds | workers/userWorker.js:82-105 | the database accepts the merge UPDATE of a chunk of 1 to 100 records, its placeholders numbering `$1 .. $4n` exactly, and reads it as exactly those records, in order |
| Store.ExecInsert | workers/userWorker.js:28-33 | the multi-row INSERT: record j of the VALUES list becomes the row under id `next + j`; its contents are stated by ExecInsertContents |
| Store.ExecInsertContents | workers/userWorker.js:28-33 | after a multi-row INSERT, the new ids hold the new rows in VALUES order; every other row is as it was; no other id appears |
| Store.ExecInsertSize | workers/userWorker.js:28-33 | an INSERT of k rows adds exactly k rows and keeps every id below the sequence |
| Store.ExecInsertAppend | workers/userWorker.js:12-34 | inserting chunk after chunk is inserting all the records at once |
| Store.Lookup | workers/userWorker.js:101-102 | the first record of the batch naming `id` carries that id; when there is none, no record of the batch names it. With distinct ids it is the one record the join matches |
| Store.ExecUpdate | workers/userWorker.js:93-103 | the merge UPDATE neither adds nor removes a row |
| Store.UpdateSemantics | workers/userWorker.js:93-102 | with distinct ids, the row a record names becomes the merge of the stored row and that record |
| Store.UpdateLeavesOthers | workers/userWorker.js:102 | a row that no record names is unchanged |
| Store.UpdateIdempotent | workers/userWorker.js:93-105 | running the same UPDATE batch, no two of its records naming one id, twice leaves the rows as running it once |
| Store.UpdateAppend | workers/userWorker.js:76-106 | with distinct ids, updating chunk after chunk is updating with all the records at once |
| Store.ExecUpdates | workers/userWorker.js:76-106 | the merge UPDATEs of the chunks, one statement after another; no row is added or removed |
| Store.ColumnsWritten | workers/userWorker.js:96-102 | the columns a sequence of statements writes into one row: each statement's joined record laid over the earlier ones |
| Store.ExecUpdatesAt | workers/userWorker.js:76-106 | after the statements, none naming an id twice, each stored row is its old value merged with the columns they wrote into it, a later statement's value winning |
| Store.UpdatesIdempotent | workers/userWorker.js:76-106 | running the same sequence of UPDATE statements, none naming an id twice, twice leaves the rows as running it once |
| Store.Apply | workers/userWorker.js:28-33 | what `client.query` does to the rows and the sequence: an accepted INSERT adds the rows it binds under the next ids, an accepted UPDATE merges the records it binds; a statement the database rejects has no effect and makes `Execute` throw |
| Store.Database.Connect | workers/userWorker.js:5 | `pool.connect()` takes a client |
| Store.Database.Begin | workers/userWorker.js:7 | BEGIN snapshots the rows and is logged |
| Store.Database.Execute | workers/userWorker.js:33 | a statement either applies its bound effect to the rows and sequence, or throws and changes nothing but the log |
| Store.Database.Commit | workers/userWorker.js:36 | COMMIT keeps the rows and closes the transaction |
| Store.Database.Rollback | workers/userWorker.js:39 | ROLLBACK restores the rows of BEGIN and closes the transaction |
| Store.Database.Release | workers/userWorker.js:42 | `client.release()` gives the client back |
| Worker.FirstFailure | workers/userWorker.js:12-34 | the loop stops at the first chunk whose statement throws: it is in range, it throws, and none before it does |
| Worker.InsertChunkStatement | workers/userWorker.js:13-31 | the statement built for chunk k is that chunk's INSERT, and it binds to exactly that chunk's rows |
| Worker.UpdateChunkStatement | workers/userWorker.js:77-103 | the statement built for chunk k is that chunk's merge UPDATE, and it binds to exactly that chunk's records |
| Worker.InsertSliceStep | workers/userWorker.js:12-33 | the INSERT of records `i..end`, after the first `i` were inserted, leaves the first `end` inserted with the next `end - i` ids |
| Worker.InsertChunkStep | workers/userWorker.js:12-34 | the INSERT of chunk k, after chunks `0..k-1`, leaves exactly the records of chunks `0..k` inserted |
| Worker.UpdateChunkStep | workers/userWorker.js:76-106 | the merge UPDATE of chunk k, after the statements of chunks `0..k-1`, leaves the statements of chunks `0..k` applied |
| Worker.ChunksDistinct | workers/userWorker.js:77-102 | no chunk holds two records naming one id; ids may repeat in different chunks |
| Worker.DistinctJobChunks | workers/userWorker.js:77 | a job with distinct ids has distinct ids in every chunk |
| Worker.UpdateSliceStep | workers/userWorker.js:76-105 | with distinct ids, one UPDATE of records `i..end` after one UPDATE of the first `i` is one UPDATE of the first `end` |
| Worker.ChunkedUpdatePrefix | workers/userWorker.js:76-106 | with distinct ids in the whole job, the UPDATEs of the first k chunks are one UPDATE of their records |
| Worker.DistinctJobUpdate | workers/userWorker.js:76-106 | with distinct ids in the whole job, running it chunk after chunk is one UPDATE of every record |
| Worker.LaterChunkWins | workers/userWorker.js:76-106 | a 101-record job whose records 0 and 100 both name row 7, with ages 30 and 31, is accepted although its ids are not distinct, and leaves row 7 with age 31 |
| Worker.SendInsertChunk | workers/userWorker.js:13-33 | one turn of the insert loop: on success one more chunk is inserted; on a throw the rows and the sequence stay as they were and only the log grows |
| Worker.SendUpdateChunk | workers/userWorker.js:77-105 | one turn of the update loop: on success one more chunk is applied; on a throw the rows stay as they were; the sequence never moves; it requires that no chunk of the job hold two records naming one id |
| Worker.InsertChunks | workers/userWorker.js:12-34 | the insert loop sends the chunks' INSERTs in order and stops at the first failure; without one, every record is inserted under the next ids |
| Worker.UpdateChunks | workers/userWorker.js:76-106 | the update loop sends the chunks' UPDATEs in order and stops at the first failure; without one, the rows are those of the chunks' UPDATEs applied in turn |
| Worker.ProcessBulkCreate | workers/userWorker.js:4-44 | all or nothing: every chunk inserted, `{processed: n, status: completed}` and n new rows on success; rows as before, a re-thrown error and a ROLLBACK on failure; one BEGIN, one statement per chunk tried, the client released |
| Worker.ProcessBulkUpdate | workers/userWorker.js:46-116 | for any job no chunk of which names one id twice, all or nothing for the merge update: the chunks' UPDATEs applied in turn on success, unchanged on failure, exactly the chunks tried logged between BEGIN and COMMIT or ROLLBACK, the client released |
| Worker.CreateEffect | workers/userWorker.js:4-44 | a bulk-create job's whole effect: success exactly when no chunk throws, then every record inserted under the next ids and `processed = n`; otherwise the rows before the job and the first failing chunk; the log is BEGIN, the chunks tried, COMMIT or ROLLBACK |
| Worker.UpdateEffect | workers/userWorker.js:46-116 | a bulk-update job's whole effect: success exactly when no chunk throws, then the chunks' UPDATEs applied in turn; otherwise the rows before the job; the sequence untouched; the same log shape |
| Worker.CreateFailed | workers/userWorker.js:38-40 | the first failing chunk k rolls back to the rows before the job and reports chunk k |
| Worker.CreateSucceeded | workers/userWorker.js:36-37 | with no failing chunk, the job commits n new rows and reports `processed = n` |
| Worker.UpdateFailed | workers/userWorker.js:110-112 | the first failing chunk rolls the merge update back to the rows before the job |
| Worker.UpdateSucceeded | workers/userWorker.js:108-109 | with no failing chunk, the merge update commits the chunks' UPDATEs applied in turn and reports `processed = n` |
| Worker.EmptyCreateJob | workers/userWorker.js:10-37 | an empty job runs no statement: BEGIN, COMMIT, `processed = 0`, rows unchanged |
| Worker.UpdateJobRedelivered | workers/userWorker.js:46-116 | a re-delivered update job that succeeds leaves the rows as one successful run, whether the first run committed or rolled back, ids repeated across chunks included; it requires that no chunk name an id twice |
| Worker.CreateJobRedelivered | workers/userWorker.js:4-44 | a re-delivered create job that commits twice inserts every record twice, under fresh ids |
| Worker.HandleJob | workers/userWorker.js:122-126 | `bulk-create` runs only the insert engine, `bulk-update` only the update engine, and any other name returns nothing and leaves the database untouched |
| Pagination.OrDefault | controllers/userController.js:95-96 | `parseInt(x)` or else the default: every nonzero number is kept, and NaN and 0 fall back to the default |
| Pagination.PageWindow | controllers/userController.js:95-97 | page and limit are never 0, and `offset + limit == page * limit` |
| Pagination.AcceptedIff | controllers/userController.js:97-102 | PostgreSQL accepts the `bigint` LIMIT/OFFSET exactly when 1 <= limit <= 2^63-1 and 1 <= page <= (2^63-1)/limit + 1 |
| Pagination.OffsetBound | controllers/userController.js:97-102 | `pages * limit` fits a `bigint` exactly when `pages <= (2^63-1) / limit` |
| Pagination.OversizedWindowRefused | controllers/userController.js:102-113 | `?page=1&limit=10^19` and `?page=10^10&limit=10^10` overflow `bigint` and answer 500 |
| Pagination.TotalPages | controllers/userController.js:109 | `Math.ceil(total / limit)`: the fewest pages of `limit` rows that hold `total` rows, 0 exactly for no rows |
| Pagination.ListPage | controllers/userController.js:95-110 | the listing succeeds exactly when 1 <= limit <= 2^63-1 and 1 <= page <= (2^63-1)/limit + 1, with the defaulted page and limit, `offset = (page-1)*limit`, the row count, and ceil(total/limit) pages |
| Pagination.DefaultWindow | controllers/userController.js:95-96 | with no page and limit in the query, page 1 of 10 rows at offset 0 |
| Pagination.OffsetAligned | controllers/userController.js:97 | an accepted offset is non-negative and exactly `page - 1` whole pages |
| Pagination.PageHasRows | controllers/userController.js:102-109 | a page holds rows exactly when its number is at most totalPages |
| Controller.ParseId | controllers/userController.js:32 | a route id the database accepts lies within the 32-bit `integer` range |
| Controller.IdText | controllers/userController.js:25 | how JavaScript writes a number into `user:${id}`: a minus sign for negative ids, then the decimal digits; its inverse is stated by ParseIdText |
| Controller.ParseIdText | controllers/userController.js:25-32 | the canonical decimal text of every 32-bit id reads back as that id |
| Controller.CacheKeyInjective | controllers/userController.js:25 | two rows never share a cache key |
| Controller.RouteKey | controllers/userController.js:25 | the key as written: `user:` followed by the route text as the request spelled it |
| Controller.CacheKey | controllers/userController.js:25 | the key of the corrected handlers: `user:` followed by the canonical decimal text of the row id |
| Controller.KeyedById | controllers/userController.js:25-38 | every cached entry sits under the key of the row it was read from |
| Controller.Coherent | controllers/userController.js:27-38 | every cached entry sits under its row's key and equals the stored row |
| Controller.SevenSpellings | controllers/userController.js:25-32 | `7` and `07` both read as row 7, but give two different route keys |
| Controller.RouteKeyedController.GetUserById | controllers/userController.js:22-44 | as written: a hit under the route text answers the cached entry; a miss reads the store, answers 404 or 500, or caches the row under the route text and answers it |
| Controller.RouteKeyedController.UpdateUser | controllers/userController.js:47-71 | as written: the row becomes the merge of the body, which is answered and cached under the route text; 404 or 500 change nothing |
| Controller.RouteKeyedController.DeleteUser | controllers/userController.js:74-90 | as written: the row and the entry under the route text are removed; 404 or 500 change nothing |
| Controller.StaleReadAsWritten | controllers/userController.js:22-71 | with the handlers as written, `GET /users/7`, `PUT /users/07` with age 30, `GET /users/7` answers the row as the first read cached it, while the store holds age 30 |
| Controller.FreshReadCorrected | controllers/userController.js:22-71 | with the cache keyed by row id, the same three requests answer the updated row |
| Controller.StaleReadAfterBulkUpdate | workers/userWorker.js:46-116 | a committed bulk update of row 7 between two reads leaves the second read answering the old row, since the worker touches no cache entry |
| Controller.BulkUpdateLeavesCacheStale | workers/userWorker.js:93-108 | a bulk update commits without touching the cache, so a cached row it merges stops matching the store |
| Controller.BulkInsertKeepsCoherent | workers/userWorker.js:28-33 | a bulk insert keeps a coherent cache coherent, because it only adds rows under new ids |
| Controller.UserController.CreateUser | controllers/userController.js:5-19 | exactly one new row under the next id, answered 201 with that row; a database error answers 500 and changes nothing; a coherent cache stays coherent |
| Controller.UserController.GetUserById | controllers/userController.js:22-44 | a hit answers the cached entry without reading the store; a miss with no row answers 404 and caches nothing; a miss with a row caches it under its key and answers it; every answer is the row the id names; when the cache was coherent it stays coherent and every answered row equals the stored one |
| Controller.UserController.UpdateUser | controllers/userController.js:47-71 | the stored row becomes the merge of the body, which is answered and cached under the row's key; no row means 404 with store and cache unchanged; an error means 500 with nothing changed; a coherent cache stays coherent |
| Controller.UserController.DeleteUser | controllers/userController.js:74-90 | the row and its cache entry are removed; no row means 404 with store and cache unchanged; a coherent cache stays coherent |
| Controller.UserController.ListUsers | controllers/userController.js:93-114 | the reply is the listing of `ListPage` over the current row count, or 500 when LIMIT or OFFSET is out of the `bigint` range or the database fails; it needs nothing of the cache |

## Left out

- The BullMQ `Worker` construction, the Redis connection, and the `completed`/`failed` logging are library wiring and console output.
- SQL text, the rendered `$n` strings and the `::integer`/`::text` casts are not modelled. A statement is modelled as index tuples plus typed parameters. The database's reading of it is `BindInsert`/`BindUpdate`.
- Which statement throws is an oracle parameter (`failing`, a set of chunk indices, or `fails` for a handler). Constraint violations, a lost connection and other database errors are not modelled individually.
- A failed INSERT is modelled as drawing no ids from the sequence. A real PostgreSQL statement may use up some ids before it fails.
- The sequence is not given back on ROLLBACK, as in PostgreSQL, so `CreateEffect` states `next0 + 100k` after a failure at chunk k.
- A failure of BEGIN, COMMIT or ROLLBACK itself is not modelled. Neither is a failure of `pool.connect()`.
- Concurrency is not modelled: two worker slots or handlers interleaving, and isolation levels.
- Worker.ProcessBulkUpdate, UpdateChunks, SendUpdateChunk, UpdateJobRedelivered and HandleJob require that no chunk hold two records naming one id. Store.UpdateIdempotent, ExecUpdatesAt and UpdatesIdempotent require the same of each statement. The reason is that PostgreSQL leaves unspecified which of two such records one `UPDATE ... FROM` joins. `Store.Lookup` picks the first; no contract depends on that choice. Ids repeated in different chunks are modelled: the later chunk's statement runs later, and its supplied columns win.
- Cache expiry after `CACHE_EXPIRATION` seconds is time-based and is not modelled. Neither are Redis errors: a Redis failure in a handler would answer 500.
- JSON serialisation and the HTTP response objects are reduced to the `Reply` and `ListReply` values.
- Controller.UserController.ListUsers does not model the page of rows that `ORDER BY id LIMIT $1 OFFSET $2` returns. It models the page arithmetic and the row count only.
- Pagination.OrDefault takes the result of `parseInt` as an optional integer. It does not model JavaScript's parsing of the query text or non-integral floats.
- Pagination.ListPage computes `(page - 1) * limit` and the page and limit exactly. JavaScript holds them as doubles, which are inexact above 2^53, so near the `bigint` bound the offset the code sends can differ from the exact product.
- Controller.ParseId accepts only an optional sign and decimal digits. PostgreSQL also accepts surrounding whitespace and, from version 16, `0x`/`0o`/`0b` prefixes and `_` between digits. Those spellings are answered 500 in the model; each would be one more key for the same row in the code as written.
- Controller.UserController.GetUserById, UpdateUser and DeleteUser key the cache by the parsed id, not by the raw route text; `Controller.RouteKeyedController` models the handlers as written. See Findings.
- The bulk worker invalidates no cache entries after it commits, and the model follows that: `Controller.BulkUpdateLeavesCacheStale` and `Controller.StaleReadAfterBulkUpdate` show the resulting stale read. No invalidation call after a committed job is added, because the code makes none.

## Findings

| source | as written | input that shows it | evidently intended | confidence | as-written member | corrected member |
|---|---|---|---|---|---|---|
| controllers/userController.js:25 | the cache key is `user:` plus the route parameter exactly as spelled, while the database compares it as an integer, so one row can sit under several keys | `GET /users/7`, then `PUT /users/07` with `{"age": 30}`, then `GET /users/7` answers the old age | one key per row, so an update or delete reaches the entry a later read uses | not executed; high that the read is stale, medium that the authors cared about non-canonical ids | Controller.StaleReadAsWritten | Controller.FreshReadCorrected |

`Controller.RouteKeyedController` models the handlers as written, and `StaleReadAsWritten` runs the three requests through it. The corrected `Controller.UserController` keys the cache by the row id (`CacheKey`, proved injective by `CacheKeyInjective`), and `FreshReadCorrected` runs the same requests through it. Each corrected handler keeps a coherent cache coherent, so no request sequence of the handlers alone can leave a stale entry. They run in an incoherent cache too: after a bulk update the cache can be stale, and `StaleReadAfterBulkUpdate` shows a hit then answering the old row.
