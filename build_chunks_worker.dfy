/**
 * The chunk-scan step of the build-chunks background worker.
 *
 * Each call queries the chunk catalog for the next batch of chunks that need
 * building, moves the worker's scan cursor, hands a non-empty batch to the map
 * builder and returns the delay (in milliseconds) before the next call.
 *
 * The catalog is a sequence of chunk records; the database query
 * (filter, sort by `_id` descending, limit) is the pure function FindBatch.
 * The clock, the outcome of the database call and the outcome of the builder
 * are parameters of the step.
 */
module BuildChunksWorker {
  import opened Optional

  /** A chunk's `_id`; the catalog orders ids totally. */
  type ChunkId = int

  /** Milliseconds since the epoch. */
  type Time = int

  /** The fields of a chunk record that the query reads. An unset field is None. */
  datatype Chunk = Chunk(id: ChunkId, lastBuild: Option<Time>, building: Option<Time>, deleted: Option<Time>)

  /** The inputs of one catalog query. */
  datatype Query = Query(now: Time, timeSinceLastBuild: int, buildingTimeout: int, cursor: Option<ChunkId>)

  /** Outcome of a call into a collaborator (the database, the map builder). */
  datatype Outcome = Succeeded | Failed

  /** Delay before the next call while a cursor is held (more of the pass remains). */
  const CONTINUE_DELAY: nat := 100
  /** Delay before the next call once the pass is over. */
  const END_DELAY: nat := 60000
  /** Delay before the next call after any failure. */
  const ERROR_DELAY: nat := 10000

  // ---------------------------------------------------------------------------
  // The query predicate

  /** `last_build` is unset or older than `now - time_since_last_build`. */
  predicate Stale(c: Chunk, q: Query) {
    c.lastBuild.None? || c.lastBuild.value < q.now - q.timeSinceLastBuild
  }

  /** `building` is unset or older than `now - building_timeout`. */
  predicate Unclaimed(c: Chunk, q: Query) {
    c.building.None? || c.building.value < q.now - q.buildingTimeout
  }

  /** `_id` is below the cursor when one is held. */
  predicate BelowCursor(c: Chunk, q: Query) {
    q.cursor.None? || c.id < q.cursor.value
  }

  /** The whole query filter: not deleted, stale, unclaimed and below the cursor. */
  predicate Matches(c: Chunk, q: Query) {
    c.deleted.None? && Stale(c, q) && Unclaimed(c, q) && BelowCursor(c, q)
  }

  // ---------------------------------------------------------------------------
  // Batch selection: filter, sort by id descending, limit

  /** The chunk ids of the collection are unique (the `_id` index). */
  predicate DistinctIds(s: seq<Chunk>) {
    forall i, j :: 0 <= i < j < |s| ==> s[i].id != s[j].id
  }

  /** Ids strictly decrease along `s`. */
  predicate StrictlyDescending(s: seq<Chunk>) {
    forall i, j :: 0 <= i < j < |s| ==> s[i].id > s[j].id
  }

  /** The chunks of `s` that match `q`, in catalog order. */
  function Filter(s: seq<Chunk>, q: Query): (r: seq<Chunk>)
    ensures forall c :: c in r <==> c in s && Matches(c, q)
    ensures DistinctIds(s) ==> DistinctIds(r)
  {
    if s == [] then []
    else
      var rest := Filter(s[1..], q);
      if Matches(s[0], q) then
        if DistinctIds(s) then
          assert forall d :: d in rest ==> d.id != s[0].id by {
            forall d | d in rest ensures d.id != s[0].id {
              var j :| 0 <= j < |s[1..]| && s[1..][j] == d;
              assert s[j + 1] == d;
            }
          }
          PrependDistinct(s[0], rest);
          [s[0]] + rest
        else
          [s[0]] + rest
      else rest
  }

  lemma PrependDistinct(c: Chunk, s: seq<Chunk>)
    requires DistinctIds(s)
    requires forall d :: d in s ==> d.id != c.id
    ensures DistinctIds([c] + s)
  {
    forall i, j | 0 <= i < j < |[c] + s| ensures ([c] + s)[i].id != ([c] + s)[j].id {
      if i == 0 {
        assert ([c] + s)[j] == s[j - 1];
      } else {
        assert ([c] + s)[i] == s[i - 1] && ([c] + s)[j] == s[j - 1];
      }
    }
  }

  lemma PrependDescending(c: Chunk, s: seq<Chunk>)
    requires StrictlyDescending(s)
    requires forall d :: d in s ==> d.id < c.id
    ensures StrictlyDescending([c] + s)
  {
    forall i, j | 0 <= i < j < |[c] + s| ensures ([c] + s)[i].id > ([c] + s)[j].id {
      if i == 0 {
        assert ([c] + s)[j] == s[j - 1];
      } else {
        assert ([c] + s)[i] == s[i - 1] && ([c] + s)[j] == s[j - 1];
      }
    }
  }

  /** Inserts `c` into `s`, which is sorted by id descending. */
  function InsertDescending(c: Chunk, s: seq<Chunk>): (r: seq<Chunk>)
    ensures multiset(r) == multiset(s) + multiset{c}
  {
    if s == [] || c.id > s[0].id then [c] + s
    else
      assert s == [s[0]] + s[1..];
      [s[0]] + InsertDescending(c, s[1..])
  }

  /** Inserting a chunk whose id is new into a strictly descending sequence keeps it strictly descending. */
  lemma {:induction false} InsertKeepsDescending(c: Chunk, s: seq<Chunk>)
    requires StrictlyDescending(s)
    requires forall d :: d in s ==> d.id != c.id
    ensures StrictlyDescending(InsertDescending(c, s))
  {
    if s == [] || c.id > s[0].id {
      assert forall d :: d in s ==> d.id < c.id by {
        forall d | d in s ensures d.id < c.id {
          var j :| 0 <= j < |s| && s[j] == d;
          assert j == 0 || s[0].id > s[j].id;
        }
      }
      PrependDescending(c, s);
    } else {
      var rest := InsertDescending(c, s[1..]);
      InsertKeepsDescending(c, s[1..]);
      assert forall d :: d in rest ==> d.id < s[0].id by {
        forall d | d in rest ensures d.id < s[0].id {
          assert d in multiset(rest);
          if d != c {
            var j :| 0 <= j < |s[1..]| && s[1..][j] == d;
            assert s[j + 1] == d;
          } else {
            assert s[0] in s;
          }
        }
      }
      PrependDescending(s[0], rest);
    }
  }

  /** `s` sorted by id descending (the query's `sort('-_id')`). */
  function SortDescending(s: seq<Chunk>): (r: seq<Chunk>)
    ensures multiset(r) == multiset(s)
    ensures DistinctIds(s) ==> StrictlyDescending(r)
  {
    if s == [] then []
    else
      var rest := SortDescending(s[1..]);
      assert s == [s[0]] + s[1..];
      if DistinctIds(s) then
        assert forall d :: d in rest ==> d.id != s[0].id by {
          forall d | d in rest ensures d.id != s[0].id {
            assert d in multiset(rest);
            var j :| 0 <= j < |s[1..]| && s[1..][j] == d;
            assert s[j + 1] == d;
          }
        }
        InsertKeepsDescending(s[0], rest);
        InsertDescending(s[0], rest)
      else
        InsertDescending(s[0], rest)
  }

  /** MongoDB's `limit(n)`: the first `n` documents, where a limit of 0 means no limit. */
  function Limit(s: seq<Chunk>, n: nat): (r: seq<Chunk>)
    ensures n == 0 ==> r == s
    ensures n > 0 ==> |r| == if |s| < n then |s| else n
    ensures r == s[..|r|]
  {
    if n == 0 || |s| <= n then s else s[..n]
  }

  /**
   * The query `find(q).limit(batchSize).sort('-_id')` over the catalog. It
   * returns at most `batchSize` chunks (no bound when the limit is 0), and a
   * batch that is not full holds every matching chunk of the catalog.
   */
  function FindBatch(catalog: seq<Chunk>, q: Query, batchSize: nat): (batch: seq<Chunk>)
    ensures batchSize > 0 ==> |batch| <= batchSize
    ensures (batchSize == 0 || |batch| < batchSize) ==>
      forall c :: c in catalog && Matches(c, q) ==> c in batch
  {
    var sorted := SortDescending(Filter(catalog, q));
    assert forall c :: c in catalog && Matches(c, q) ==> c in sorted by {
      forall c | c in catalog && Matches(c, q) ensures c in sorted {
        assert c in multiset(Filter(catalog, q));
      }
    }
    Limit(sorted, batchSize)
  }

  // ---------------------------------------------------------------------------
  // What the selected batch is

  /** Every chunk of the batch is a catalog chunk that is not deleted, stale, unclaimed and below the cursor. */
  lemma BatchMatches(catalog: seq<Chunk>, q: Query, batchSize: nat)
    ensures forall c :: c in FindBatch(catalog, q, batchSize) ==>
      c in catalog && c.deleted.None? && Stale(c, q) && Unclaimed(c, q) && BelowCursor(c, q)
  {
    var sorted := SortDescending(Filter(catalog, q));
    forall c | c in FindBatch(catalog, q, batchSize)
      ensures c in catalog && Matches(c, q)
    {
      assert c in multiset(sorted);
    }
  }

  /** With a cursor held, every chunk of the batch lies strictly below it. */
  lemma BatchBelowCursor(catalog: seq<Chunk>, q: Query, batchSize: nat)
    requires q.cursor.Some?
    ensures forall c :: c in FindBatch(catalog, q, batchSize) ==> c.id < q.cursor.value
  {
    BatchMatches(catalog, q, batchSize);
  }

  /** The batch has strictly decreasing ids. */
  lemma BatchShape(catalog: seq<Chunk>, q: Query, batchSize: nat)
    requires DistinctIds(catalog)
    ensures StrictlyDescending(FindBatch(catalog, q, batchSize))
  {
    var sorted := SortDescending(Filter(catalog, q));
    assert StrictlyDescending(sorted);
  }

  /**
   * The batch is the newest matching chunks: a matching catalog chunk left out
   * of it was cut off by a full batch, and every chunk of the batch has a
   * higher id than it.
   */
  lemma BatchIsNewest(catalog: seq<Chunk>, q: Query, batchSize: nat, e: Chunk)
    requires DistinctIds(catalog)
    requires e in catalog && Matches(e, q)
    requires e !in FindBatch(catalog, q, batchSize)
    ensures batchSize > 0 && |FindBatch(catalog, q, batchSize)| == batchSize
    ensures forall c :: c in FindBatch(catalog, q, batchSize) ==> c.id > e.id
  {
    var sorted := SortDescending(Filter(catalog, q));
    var batch := FindBatch(catalog, q, batchSize);
    assert e in multiset(sorted);
    var j :| 0 <= j < |sorted| && sorted[j] == e;
    assert batch == sorted[..|batch|];
    assert forall k :: 0 <= k < |batch| ==> sorted[k] != e;
    forall c | c in batch ensures c.id > e.id {
      var i :| 0 <= i < |batch| && batch[i] == c;
      assert sorted[i] == c;
    }
  }

  /** The batch's first chunk has the highest id; every later chunk is below it. */
  lemma FirstIsHighest(catalog: seq<Chunk>, q: Query, batchSize: nat)
    requires DistinctIds(catalog)
    requires FindBatch(catalog, q, batchSize) != []
    ensures forall i :: 1 <= i < |FindBatch(catalog, q, batchSize)| ==>
      FindBatch(catalog, q, batchSize)[i].id < FindBatch(catalog, q, batchSize)[0].id
  {
    BatchShape(catalog, q, batchSize);
  }

  /**
   * A cursor taken from a batch selected under a held cursor is strictly below
   * the held one, so consecutive full batches move the cursor down.
   */
  lemma CursorMovesDown(catalog: seq<Chunk>, q: Query, batchSize: nat)
    requires q.cursor.Some?
    requires FindBatch(catalog, q, batchSize) != []
    ensures FindBatch(catalog, q, batchSize)[0].id < q.cursor.value
  {
    BatchMatches(catalog, q, batchSize);
    assert FindBatch(catalog, q, batchSize)[0] in FindBatch(catalog, q, batchSize);
  }

  /**
   * With the cursor at the batch's first (highest) id, the next query's cursor
   * bound excludes that chunk only: every other chunk of the batch passes it.
   */
  lemma NextBoundAdmitsRestOfBatch(catalog: seq<Chunk>, q: Query, batchSize: nat, next: Query)
    requires DistinctIds(catalog)
    requires FindBatch(catalog, q, batchSize) != []
    requires next.cursor == Some(FindBatch(catalog, q, batchSize)[0].id)
    ensures !BelowCursor(FindBatch(catalog, q, batchSize)[0], next)
    ensures forall i :: 1 <= i < |FindBatch(catalog, q, batchSize)| ==>
      BelowCursor(FindBatch(catalog, q, batchSize)[i], next)
  {
    FirstIsHighest(catalog, q, batchSize);
  }

  // ---------------------------------------------------------------------------
  // The worker

  /** The worker object: its configuration and the cursor it carries between calls. */
  class Worker {
    var lastChunkId: Option<ChunkId>
    var timeSinceLastBuild: int
    var buildingTimeout: int
    var batchSize: nat

    constructor (timeSinceLastBuild: int, buildingTimeout: int, batchSize: nat)
      ensures lastChunkId == None
      ensures this.timeSinceLastBuild == timeSinceLastBuild
      ensures this.buildingTimeout == buildingTimeout
      ensures this.batchSize == batchSize
    {
      lastChunkId := None;
      this.timeSinceLastBuild := timeSinceLastBuild;
      this.buildingTimeout := buildingTimeout;
      this.batchSize := batchSize;
    }

    /** The query this worker issues at time `now`. */
    function CurrentQuery(now: Time): (q: Query)
      reads this
    {
      Query(now, timeSinceLastBuild, buildingTimeout, lastChunkId)
    }

    /**
     * One call of the background worker. `dbResult` is the outcome of the
     * database call, `builderResult` that of `MapBuilder.run()`; `built` is the
     * batch handed to the builder, None when the builder was not invoked.
     */
    method BackgroundWorker(catalog: seq<Chunk>, now: Time, dbResult: Outcome, builderResult: Outcome)
      returns (delay: nat, built: Option<seq<Chunk>>)
      modifies this`lastChunkId
      ensures timeSinceLastBuild == old(timeSinceLastBuild) && buildingTimeout == old(buildingTimeout)
      ensures batchSize == old(batchSize)
      // a failed query: nothing is written, nothing is built
      ensures dbResult.Failed? ==> delay == ERROR_DELAY && built.None? && lastChunkId == old(lastChunkId)
      ensures dbResult.Succeeded? ==>
        var batch := FindBatch(catalog, old(CurrentQuery(now)), batchSize);
        if batchSize == 0 && batch == [] then
          // `chunks[0]._id` on an empty result throws before the cursor is written
          delay == ERROR_DELAY && built.None? && lastChunkId == old(lastChunkId)
        else
          // the cursor is written before the builder runs, and a builder failure keeps it
          && lastChunkId == (if |batch| == batchSize then Some(batch[0].id) else None)
          && built == (if batch != [] then Some(batch) else None)
          && delay == (if batch != [] && builderResult.Failed? then ERROR_DELAY
                       else if lastChunkId.Some? then CONTINUE_DELAY
                       else END_DELAY)
    {
      if dbResult.Failed? {
        return ERROR_DELAY, None;
      }
      var chunks := FindBatch(catalog, CurrentQuery(now), batchSize);

      // update the cursor for the next call
      if |chunks| == batchSize {
        if |chunks| == 0 {
          return ERROR_DELAY, None;
        }
        lastChunkId := Some(chunks[0].id);
      } else {
        lastChunkId := None;
      }

      built := None;
      if |chunks| > 0 {
        built := Some(chunks);
        if builderResult.Failed? {
          return ERROR_DELAY, built;
        }
      }

      if lastChunkId.Some? {
        delay := CONTINUE_DELAY;
      } else {
        delay := END_DELAY;
      }
    }
  }
}
