/**
 * The single-record request handlers: create, cache-aside read, merge update, delete, and the
 * paginated list. The store is the `users` table of the database; the cache maps a key to the row
 * it last saw, as the JSON text the handlers write holds it.
 */
module Controller {
  import opened Wrappers
  import opened Users
  import opened Store
  import opened Pagination
  import Worker
  import Chunking

  // ---------------------------------------------------------------------------------------------
  // Ids as text: the route parameter, and the id inside a cache key.

  predicate IsDigit(c: char)
  {
    '0' <= c <= '9'
  }

  predicate AllDigits(s: string)
  {
    forall i :: 0 <= i < |s| ==> IsDigit(s[i])
  }

  function DigitChar(d: nat): (c: char)
    requires d < 10
    ensures IsDigit(c)
  {
    ('0' as int + d) as char
  }

  /** The number a string of decimal digits denotes. */
  function DigitsValue(s: string): nat
    requires AllDigits(s)
    decreases |s|
  {
    if s == [] then 0 else 10 * DigitsValue(s[..|s| - 1]) + ((s[|s| - 1] as int) - ('0' as int))
  }

  /** The decimal digits of `n`, without leading zeros. */
  function NatText(n: nat): (s: string)
    ensures |s| > 0 && AllDigits(s)
  {
    if n < 10 then [DigitChar(n)] else NatText(n / 10) + [DigitChar(n % 10)]
  }

  /** Reading back the digits of `n` gives `n`. */
  lemma {:induction false} NatTextValue(n: nat)
    ensures DigitsValue(NatText(n)) == n
  {
    if n >= 10 {
      var s := NatText(n);
      assert s[..|s| - 1] == NatText(n / 10);
      NatTextValue(n / 10);
    }
  }

  /** How JavaScript writes a number into a template string such as `user:${id}`. */
  function IdText(id: int): string
  {
    if id < 0 then "-" + NatText(-id) else NatText(id)
  }

  const MinInteger: int := -0x8000_0000
  const MaxInteger: int := 0x7FFF_FFFF

  /**
   * How PostgreSQL reads a text parameter compared with the `integer` column `id`, restricted to
   * the spellings this model covers: an optional sign and decimal digits, within 32 bits. Text
   * outside those spellings is treated as making the query fail.
   */
  function ParseId(text: string): (r: Option<int>)
    ensures r.Some? ==> MinInteger <= r.value <= MaxInteger
  {
    var signed := |text| > 0 && (text[0] == '-' || text[0] == '+');
    var digits := if signed then text[1..] else text;
    if digits == [] || !AllDigits(digits) then None
    else
      var n: int := DigitsValue(digits);
      var v := if signed && text[0] == '-' then -n else n;
      if MinInteger <= v <= MaxInteger then Some(v) else None
  }

  /** The canonical spelling of an id reads back as that id. */
  lemma {:induction false} ParseIdText(id: int)
    requires MinInteger <= id <= MaxInteger
    ensures ParseId(IdText(id)) == Some(id)
  {
    var t := IdText(id);
    if id < 0 {
      var digits := NatText(-id);
      assert t == "-" + digits && t[1..] == digits;
      NatTextValue(-id);
      assert DigitsValue(t[1..]) == -id;
    } else {
      assert t == NatText(id) && IsDigit(t[0]);
      NatTextValue(id);
      assert DigitsValue(t) == id;
    }
  }

  /** The text of an id starts with `-` exactly when the id is negative. */
  lemma {:induction false} IdTextSign(id: int)
    ensures |IdText(id)| > 0 && (IdText(id)[0] == '-' <==> id < 0)
  {
    if id >= 0 {
      assert IsDigit(NatText(id)[0]);
    }
  }

  lemma {:induction false} IdTextInjective(a: int, b: int)
    requires IdText(a) == IdText(b)
    ensures a == b
  {
    IdTextSign(a);
    IdTextSign(b);
    if a < 0 {
      assert IdText(a)[1..] == NatText(-a) && IdText(b)[1..] == NatText(-b);
      NatTextValue(-a);
      NatTextValue(-b);
    } else {
      NatTextValue(a);
      NatTextValue(b);
    }
  }

  // ---------------------------------------------------------------------------------------------
  // Cache keys.

  /** `user:${id}` with `id` the route parameter exactly as the request spelled it. */
  function RouteKey(idText: string): string
  {
    "user:" + idText
  }

  /** The key of the row with this id, spelled the one way the store's id is written. */
  function CacheKey(id: int): string
  {
    "user:" + IdText(id)
  }

  /** Distinct rows have distinct cache keys. */
  lemma {:induction false} CacheKeyInjective(a: int, b: int)
    requires CacheKey(a) == CacheKey(b)
    ensures a == b
  {
    assert CacheKey(a)[5..] == IdText(a) && CacheKey(b)[5..] == IdText(b);
    IdTextInjective(a, b);
  }

  /** A row as the handlers answer it and the cache holds it: `RETURNING *`, id included. */
  datatype Entry = Entry(id: int, user: User)

  type Cache = map<string, Entry>

  /**
   * Every cache entry sits under the key of the row it was read from. Only the handlers write the
   * cache, and each writes an entry under its own row's key, so this holds whatever the store does.
   */
  ghost predicate KeyedById(cache: Cache)
  {
    forall key :: key in cache ==> key == CacheKey(cache[key].id)
  }

  /** Every cache entry sits under its row's key and holds exactly what the store holds for that row. */
  ghost predicate Coherent(rows: Rows, cache: Cache)
  {
    forall key :: key in cache ==>
      && key == CacheKey(cache[key].id)
      && cache[key].id in rows
      && rows[cache[key].id] == cache[key].user
  }

  /** `7` and `07` are two spellings of row 7, and two different route keys. */
  lemma SevenSpellings()
    ensures ParseId("7") == Some(7) && ParseId("07") == Some(7)
    ensures RouteKey("7") != RouteKey("07")
  {
    assert "7"[1..] == [] && "07"[1..] == "7";
    assert |RouteKey("7")| != |RouteKey("07")|;
  }

  /** A bulk update through the worker does not touch the cache: a cached row it merges goes stale. */
  lemma BulkUpdateLeavesCacheStale()
    ensures var stored := User(Some("Ann"), Some("ann@example.com"), Some(29));
      var rows := map[7 := stored];
      var cache := map[CacheKey(7) := Entry(7, stored)];
      && Coherent(rows, cache)
      && !Coherent(ExecUpdate(rows, [UserInput(Some(7), None, None, Some(30))]), cache)
  {
    var stored := User(Some("Ann"), Some("ann@example.com"), Some(29));
    var batch := [UserInput(Some(7), None, None, Some(30))];
    var cache := map[CacheKey(7) := Entry(7, stored)];
    assert Lookup(batch, 7) == Some(batch[0]);
    assert CacheKey(7) in cache;
  }

  /** A bulk insert keeps a coherent cache coherent: it only adds rows under ids no row had. */
  lemma {:induction false} BulkInsertKeepsCoherent(rows: Rows, next: int, added: seq<User>, cache: Cache)
    requires IdsBelow(rows, next) && Coherent(rows, cache)
    ensures Coherent(ExecInsert(rows, next, added), cache)
  {
    ExecInsertContents(rows, next, added);
  }

  // ---------------------------------------------------------------------------------------------
  // Answers.

  /** What a handler sends: the row (200), the new row (201), the deletion message (200), 404 or 500. */
  datatype Reply = Ok(entry: Entry) | Created(entry: Entry) | Deleted | NotFound | ServerError

  /** What `listUsers` sends apart from the rows: the page arithmetic and the row count, or 500. */
  datatype ListReply = Listed(listing: Listing) | ListFailed

  /**
   * The handlers over the shared database and the cache, with the cache keyed by the row id.
   * `fails` says that the database raises an error for the request's query; the handler then
   * answers 500 and nothing changes. The handlers run in every state of the cache, a stale one
   * included; each keeps a coherent cache coherent.
   */
  class UserController {
    const db: Database
    var cache: Cache

    ghost predicate Valid()
      reads this, db
    {
      db.Valid() && KeyedById(cache)
    }

    constructor (db: Database)
      requires db.Valid()
      ensures Valid()
      ensures this.db == db && cache == map[]
    {
      this.db := db;
      cache := map[];
    }

    /** `createUser`: one INSERT of the body's name, email and age; 201 with the new row. */
    method CreateUser(body: UserInput, fails: bool) returns (reply: Reply)
      requires Valid()
      modifies db`rows, db`nextId
      ensures Valid()
      ensures Coherent(old(db.rows), cache) ==> Coherent(db.rows, cache)
      ensures fails ==> reply == ServerError && db.rows == old(db.rows) && db.nextId == old(db.nextId)
      ensures !fails ==>
        && reply == Created(Entry(old(db.nextId), NewRow(body)))
        && old(db.nextId) !in old(db.rows)
        && db.rows == old(db.rows)[old(db.nextId) := NewRow(body)]
        && |db.rows| == |old(db.rows)| + 1
        && db.nextId == old(db.nextId) + 1
    {
      if fails {
        return ServerError;
      }
      var id := db.nextId;
      assert id !in db.rows;
      db.rows := db.rows[id := NewRow(body)];
      db.nextId := id + 1;
      reply := Created(Entry(id, NewRow(body)));
    }

    /**
     * `getUserById`: answer from the cache when it holds the row's key; otherwise read the store,
     * answer 404 when no row has the id, and cache the row before answering it. A hit answers the
     * cached entry whether or not it still matches the store.
     */
    method GetUserById(idText: string, fails: bool) returns (reply: Reply)
      requires Valid()
      modifies this`cache
      ensures Valid()
      ensures ParseId(idText).None? ==> reply == ServerError && cache == old(cache)
      ensures ParseId(idText).Some? ==>
        var id := ParseId(idText).value;
        var key := CacheKey(id);
        && (key in old(cache) ==> reply == Ok(old(cache)[key]) && cache == old(cache))
        && (key !in old(cache) && fails ==> reply == ServerError && cache == old(cache))
        && (key !in old(cache) && !fails && id !in db.rows ==> reply == NotFound && cache == old(cache))
        && (key !in old(cache) && !fails && id in db.rows ==>
              reply == Ok(Entry(id, db.rows[id])) && cache == old(cache)[key := Entry(id, db.rows[id])])
      ensures reply.Ok? ==> ParseId(idText) == Some(reply.entry.id)
      ensures Coherent(db.rows, old(cache)) ==>
        && Coherent(db.rows, cache)
        && (reply.Ok? ==> reply.entry.id in db.rows && db.rows[reply.entry.id] == reply.entry.user)
    {
      var parsed := ParseId(idText);
      if parsed.None? {
        return ServerError;
      }
      var id := parsed.value;
      var key := CacheKey(id);
      if key in cache {
        CacheKeyInjective(id, cache[key].id);
        return Ok(cache[key]);
      }
      if fails {
        return ServerError;
      }
      if id !in db.rows {
        return NotFound;
      }
      var entry := Entry(id, db.rows[id]);
      cache := cache[key := entry];
      reply := Ok(entry);
    }

    /**
     * `updateUser`: merge the body's supplied columns into the row with the id, answer 404 when no
     * row has it, and put the merged row in the cache.
     */
    method UpdateUser(idText: string, body: UserInput, fails: bool) returns (reply: Reply)
      requires Valid()
      modifies db`rows, this`cache
      ensures Valid()
      ensures Coherent(old(db.rows), old(cache)) ==> Coherent(db.rows, cache)
      ensures ParseId(idText).None? || fails ==>
        reply == ServerError && db.rows == old(db.rows) && cache == old(cache)
      ensures ParseId(idText).Some? && !fails ==>
        var id := ParseId(idText).value;
        && (id !in old(db.rows) ==> reply == NotFound && db.rows == old(db.rows) && cache == old(cache))
        && (id in old(db.rows) ==>
              var merged := Merge(old(db.rows)[id], body);
              && reply == Ok(Entry(id, merged))
              && db.rows == old(db.rows)[id := merged]
              && cache == old(cache)[CacheKey(id) := Entry(id, merged)])
    {
      var parsed := ParseId(idText);
      if parsed.None? || fails {
        return ServerError;
      }
      var id := parsed.value;
      if id !in db.rows {
        return NotFound;
      }
      var merged := Merge(db.rows[id], body);
      db.rows := db.rows[id := merged];
      cache := cache[CacheKey(id) := Entry(id, merged)];
      reply := Ok(Entry(id, merged));
    }

    /** `deleteUser`: remove the row with the id and its cache entry; 404, touching nothing, when there is none. */
    method DeleteUser(idText: string, fails: bool) returns (reply: Reply)
      requires Valid()
      modifies db`rows, this`cache
      ensures Valid()
      ensures Coherent(old(db.rows), old(cache)) ==> Coherent(db.rows, cache)
      ensures ParseId(idText).None? || fails ==>
        reply == ServerError && db.rows == old(db.rows) && cache == old(cache)
      ensures ParseId(idText).Some? && !fails ==>
        var id := ParseId(idText).value;
        && (id !in old(db.rows) ==> reply == NotFound && db.rows == old(db.rows) && cache == old(cache))
        && (id in old(db.rows) ==>
              && reply == Deleted
              && db.rows == old(db.rows) - {id}
              && cache == old(cache) - {CacheKey(id)})
    {
      var parsed := ParseId(idText);
      if parsed.None? || fails {
        return ServerError;
      }
      var id := parsed.value;
      if id !in db.rows {
        return NotFound;
      }
      db.rows := db.rows - {id};
      cache := cache - {CacheKey(id)};
      reply := Deleted;
    }

    /** `listUsers`: count the rows, ask for one page of them, and report the page arithmetic. */
    method ListUsers(pageArg: Option<int>, limitArg: Option<int>, fails: bool) returns (reply: ListReply)
      ensures var r := ListPage(pageArg, limitArg, |db.rows|);
        && (reply.Listed? <==> !fails && r.Success?)
        && (reply.Listed? ==> reply.listing == r.value && reply.listing.total == |db.rows|)
    {
      var r := ListPage(pageArg, limitArg, |db.rows|);
      if fails || r.Failure? {
        return ListFailed;
      }
      reply := Listed(r.value);
    }
  }

  /**
   * The cache-aside handlers as the source writes them: the cache key is `user:` followed by the
   * route parameter exactly as the request spelled it, while the store reads that parameter as a
   * number.
   */
  class RouteKeyedController {
    const db: Database
    var cache: Cache

    constructor (db: Database)
      ensures this.db == db && cache == map[]
    {
      this.db := db;
      cache := map[];
    }

    /** `getUserById`, looking the cache up under the route text before reading the store. */
    method GetUserById(idText: string, fails: bool) returns (reply: Reply)
      modifies this`cache
      ensures var key := RouteKey(idText);
        && (key in old(cache) ==> reply == Ok(old(cache)[key]) && cache == old(cache))
        && (key !in old(cache) && (fails || ParseId(idText).None?) ==> reply == ServerError && cache == old(cache))
        && (key !in old(cache) && !fails && ParseId(idText).Some? ==>
              var id := ParseId(idText).value;
              && (id !in db.rows ==> reply == NotFound && cache == old(cache))
              && (id in db.rows ==>
                    reply == Ok(Entry(id, db.rows[id])) && cache == old(cache)[key := Entry(id, db.rows[id])]))
    {
      var key := RouteKey(idText);
      if key in cache {
        return Ok(cache[key]);
      }
      var parsed := ParseId(idText);
      if fails || parsed.None? {
        return ServerError;
      }
      var id := parsed.value;
      if id !in db.rows {
        return NotFound;
      }
      var entry := Entry(id, db.rows[id]);
      cache := cache[key := entry];
      reply := Ok(entry);
    }

    /** `updateUser`, refreshing the entry under the route text. */
    method UpdateUser(idText: string, body: UserInput, fails: bool) returns (reply: Reply)
      modifies db`rows, this`cache
      ensures ParseId(idText).None? || fails ==>
        reply == ServerError && db.rows == old(db.rows) && cache == old(cache)
      ensures ParseId(idText).Some? && !fails ==>
        var id := ParseId(idText).value;
        && (id !in old(db.rows) ==> reply == NotFound && db.rows == old(db.rows) && cache == old(cache))
        && (id in old(db.rows) ==>
              var merged := Merge(old(db.rows)[id], body);
              && reply == Ok(Entry(id, merged))
              && db.rows == old(db.rows)[id := merged]
              && cache == old(cache)[RouteKey(idText) := Entry(id, merged)])
    {
      var parsed := ParseId(idText);
      if parsed.None? || fails {
        return ServerError;
      }
      var id := parsed.value;
      if id !in db.rows {
        return NotFound;
      }
      var merged := Merge(db.rows[id], body);
      db.rows := db.rows[id := merged];
      cache := cache[RouteKey(idText) := Entry(id, merged)];
      reply := Ok(Entry(id, merged));
    }

    /** `deleteUser`, evicting the entry under the route text. */
    method DeleteUser(idText: string, fails: bool) returns (reply: Reply)
      modifies db`rows, this`cache
      ensures ParseId(idText).None? || fails ==>
        reply == ServerError && db.rows == old(db.rows) && cache == old(cache)
      ensures ParseId(idText).Some? && !fails ==>
        var id := ParseId(idText).value;
        && (id !in old(db.rows) ==> reply == NotFound && db.rows == old(db.rows) && cache == old(cache))
        && (id in old(db.rows) ==>
              && reply == Deleted
              && db.rows == old(db.rows) - {id}
              && cache == old(cache) - {RouteKey(idText)})
    {
      var parsed := ParseId(idText);
      if parsed.None? || fails {
        return ServerError;
      }
      var id := parsed.value;
      if id !in db.rows {
        return NotFound;
      }
      db.rows := db.rows - {id};
      cache := cache - {RouteKey(idText)};
      reply := Deleted;
    }
  }

  /** Row 7 as stored before the requests below, and the body of the `PUT`. */
  const Ann: User := User(Some("Ann"), Some("ann@example.com"), Some(29))
  const AgeThirty: UserInput := UserInput(None, None, None, Some(30))

  /**
   * With the handlers as written: `GET /users/7`, then `PUT /users/07` with `{"age": 30}`, then
   * `GET /users/7`. The second read answers the row as the first read cached it, not as stored.
   */
  method StaleReadAsWritten() returns (first: Reply, second: Reply, stored: User)
    ensures first == Ok(Entry(7, Ann)) && second == first
    ensures stored == Merge(Ann, AgeThirty) && second.entry.user != stored
  {
    var db := new Database();
    db.rows, db.nextId := map[7 := Ann], 8;
    var handlers := new RouteKeyedController(db);
    SevenSpellings();
    first := handlers.GetUserById("7", false);
    var put := handlers.UpdateUser("07", AgeThirty, false);
    second := handlers.GetUserById("7", false);
    stored := db.rows[7];
  }

  /** The same three requests with the cache keyed by the row id: the second read answers the updated row. */
  method FreshReadCorrected() returns (first: Reply, second: Reply, stored: User)
    ensures first == Ok(Entry(7, Ann))
    ensures stored == Merge(Ann, AgeThirty) && second == Ok(Entry(7, stored))
  {
    var db := new Database();
    db.rows, db.nextId := map[7 := Ann], 8;
    var handlers := new UserController(db);
    SevenSpellings();
    first := handlers.GetUserById("7", false);
    var put := handlers.UpdateUser("07", AgeThirty, false);
    second := handlers.GetUserById("7", false);
    stored := db.rows[7];
  }

  /**
   * With the cache keyed by the row id, a bulk-update job still leaves a cached row stale:
   * `GET /users/7`, a committed `bulk-update` job setting row 7's age to 30, then `GET /users/7`
   * answers the row as it was before the job.
   */
  method StaleReadAfterBulkUpdate() returns (first: Reply, second: Reply, stored: User)
    ensures first == Ok(Entry(7, Ann)) && second == first
    ensures stored == Merge(Ann, AgeThirty) && second.entry.user != stored
  {
    var db := new Database();
    db.rows, db.nextId := map[7 := Ann], 8;
    var handlers := new UserController(db);
    assert ParseId("7") == Some(7) by { SevenSpellings(); }
    first := handlers.GetUserById("7", false);
    assert CacheKey(7) in handlers.cache && handlers.cache[CacheKey(7)] == Entry(7, Ann);
    var job := [UserInput(Some(7), None, None, Some(30))];
    assert Lookup(job, 7) == Some(job[0]);
    ghost var rows0 := db.rows;
    assert DistinctIds(job) by { assert job[1..] == []; }
    assert Worker.ChunksDistinct(job) by { Worker.DistinctJobChunks(job); }
    var result := Worker.ProcessBulkUpdate(db, job, {});
    assert result.Success? by { assert Chunking.NumChunks(1) == 1; }
    assert db.rows == ExecUpdate(rows0, job) by { Worker.DistinctJobUpdate(rows0, job); }
    second := handlers.GetUserById("7", false);
    stored := db.rows[7];
  }
}
