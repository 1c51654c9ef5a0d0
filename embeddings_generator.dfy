/** The backfill loop of `bulk-embeddings-generator.js`: count and select the
    documents that have a plot but no embedding, walk the selection in batches
    of `batchSize`, ask the embedding service for each document's vector,
    write each vector back with a point `$set`, and keep the `processed` /
    `errors` counters and the inter-batch delay decision.

    The embedding service is an oracle from a document to a result; the clock
    is the parameter `clock`, the time `new Date()` reads when a given
    document is written (a single time `now` where one write is concerned);
    the batch's concurrent promises are settled one
    after the other (each settles exactly once, independently). */
module EmbeddingsGenerator {
  import opened Store
  import opened Batching

  /** The script's `config`, without the connection string and API key. */
  datatype Config = Config(batchSize: nat, delayBetweenRequests: nat, embeddingModel: string)

  const CONFIG := Config(10, 1000, "text-embedding-3-small")

  const PLOT := "plot"
  const PLOT_EMBEDDING := "plot_embedding"
  const GENERATED_AT := "embedding_generated_at"

  /** The filter `{ plot: { $exists: true, $ne: "" }, plot_embedding:
      { $exists: false } }` that both `countDocuments` and `find` use. */
  predicate Pending(d: Document) {
    PLOT in d && d[PLOT] != Str("") && PLOT_EMBEDDING !in d
  }

  /** What `getEmbeddings` settles to: the vector, or a thrown error. */
  datatype EmbedResult = Embedded(vector: seq<real>) | Failed(message: string)

  /** The `processed` and `errors` counters. */
  datatype Tally = Tally(processed: nat, errors: nat)

  /** `t` is the counters `a` with the counts `b` added on. */
  predicate SumOf(t: Tally, a: Tally, b: Tally) {
    t.processed == a.processed + b.processed && t.errors == a.errors + b.errors
  }

  /** What the run reports after one batch: the batch is the documents the
      cursor yielded at positions `start` up to `end`; then the counters as
      printed in the progress line, and whether it waits
      `delayBetweenRequests` before the next batch. */
  datatype BatchReport = BatchReport(start: nat, end: nat, progress: Tally, delayAfter: bool)

  /** A whole run: `totalDocs`, whether the cursor was opened at all, one
      report per batch, and the final counters. */
  datatype Run = Run(total: nat, cursorOpened: bool, batches: seq<BatchReport>, final: Tally)

  /** The `$set` document processDocument sends. */
  function EmbeddingFields(vector: seq<real>, now: int): Document {
    map[PLOT_EMBEDDING := Vector(vector), GENERATED_AT := Date(now)]
  }

  /** The store after processDocument has settled for `doc` with `result`:
      on success a point update of two fields of that one document, on
      failure no write at all. */
  function Write(docs: map<Id, Document>, doc: Entry, result: EmbedResult, now: int): (r: map<Id, Document>)
    ensures result.Failed? ==> r == docs
    ensures r.Keys == docs.Keys
    ensures forall id :: id in docs && id != doc.id ==> r[id] == docs[id]
    ensures result.Embedded? && doc.id in docs ==>
      && r[doc.id].Keys == docs[doc.id].Keys + {PLOT_EMBEDDING, GENERATED_AT}
      && r[doc.id][PLOT_EMBEDDING] == Vector(result.vector)
      && r[doc.id][GENERATED_AT] == Date(now)
      && (forall f :: f in docs[doc.id] && f != PLOT_EMBEDDING && f != GENERATED_AT ==>
            r[doc.id][f] == docs[doc.id][f])
      && !Pending(r[doc.id])
  {
    match result
    case Embedded(vector) => SetFields(docs, doc.id, EmbeddingFields(vector, now))
    case Failed(_) => docs
  }

  /** processDocument: ask for the embedding of `doc.plot`; on success
      `updateOne({ _id }, { $set })` and fulfil, on failure write nothing
      and reject (the error is logged and rethrown). */
  method ProcessDocument(coll: Collection, doc: Entry, oracle: Entry -> EmbedResult, now: int)
    returns (fulfilled: bool)
    requires coll.Valid()
    modifies coll
    ensures coll.Valid() && coll.order == old(coll.order)
    ensures fulfilled <==> oracle(doc).Embedded?
    ensures coll.docs == Write(old(coll.docs), doc, oracle(doc), now)
  {
    var result := oracle(doc);
    match result {
      case Embedded(vector) =>
        coll.UpdateOne(doc.id, EmbeddingFields(vector, now));
        fulfilled := true;
      case Failed(_) =>
        fulfilled := false;
    }
  }

  /** Applying the same successful result again changes nothing but the
      timestamp: the stored vector stays the same, and with the same clock
      the second write is a no-op. */
  lemma {:induction false} ReapplyEmbedding(docs: map<Id, Document>, doc: Entry, vector: seq<real>, t1: int, t2: int)
    ensures var once := Write(docs, doc, Embedded(vector), t1);
      var twice := Write(once, doc, Embedded(vector), t2);
      && twice == Write(docs, doc, Embedded(vector), t2)
      && (doc.id in docs ==> twice[doc.id][PLOT_EMBEDDING] == once[doc.id][PLOT_EMBEDDING])
      && (t1 == t2 ==> twice == once)
  {
    var update1 := EmbeddingFields(vector, t1);
    var update2 := EmbeddingFields(vector, t2);
    if doc.id in docs {
      assert docs[doc.id] + update1 + update2 == docs[doc.id] + update2;
    }
  }

  /** The counters after the results of `es` have been counted: each
      fulfilled result adds one to `processed`, each rejected one to
      `errors`. */
  function Tallied(es: seq<Entry>, oracle: Entry -> EmbedResult): Tally
    decreases |es|
  {
    if es == [] then Tally(0, 0)
    else
      var t := Tallied(es[..|es| - 1], oracle);
      if oracle(es[|es| - 1]).Embedded? then Tally(t.processed + 1, t.errors)
      else Tally(t.processed, t.errors + 1)
  }

  /** Every settled result is counted exactly once. */
  lemma {:induction false} TalliedSize(es: seq<Entry>, oracle: Entry -> EmbedResult)
    ensures Tallied(es, oracle).processed + Tallied(es, oracle).errors == |es|
    decreases |es|
  {
    if es != [] {
      TalliedSize(es[..|es| - 1], oracle);
    }
  }

  /** The positions of `es` whose embedding request fails. */
  function FailedAt(es: seq<Entry>, oracle: Entry -> EmbedResult): set<nat> {
    set k | 0 <= k < |es| && oracle(es[k]).Failed?
  }

  /** `errors` is the number of rejected documents, `processed` the number
      of fulfilled ones. */
  lemma {:induction false} TalliedCountsOutcomes(es: seq<Entry>, oracle: Entry -> EmbedResult)
    ensures Tallied(es, oracle).errors == |FailedAt(es, oracle)|
    ensures Tallied(es, oracle).processed == |es| - |FailedAt(es, oracle)|
    decreases |es|
  {
    if es != [] {
      var front := es[..|es| - 1];
      TalliedCountsOutcomes(front, oracle);
      var last := |es| - 1;
      if oracle(es[last]).Failed? {
        assert FailedAt(es, oracle) == FailedAt(front, oracle) + {last};
      } else {
        assert FailedAt(es, oracle) == FailedAt(front, oracle);
      }
    }
  }

  /** Counting two stretches of results one after the other adds up. */
  lemma {:induction false} TalliedAppend(a: seq<Entry>, b: seq<Entry>, oracle: Entry -> EmbedResult)
    ensures Tallied(a + b, oracle).processed == Tallied(a, oracle).processed + Tallied(b, oracle).processed
    ensures Tallied(a + b, oracle).errors == Tallied(a, oracle).errors + Tallied(b, oracle).errors
    decreases |b|
  {
    if b == [] {
      assert a + b == a;
    } else {
      var front := b[..|b| - 1];
      assert (a + b)[..|a + b| - 1] == a + front;
      assert (a + b)[|a + b| - 1] == b[|b| - 1];
      TalliedAppend(a, front, oracle);
    }
  }

  /** A successful write takes its document out of the pending set and
      touches no other document's status; a failed one changes nothing. */
  lemma WritePending(docs: map<Id, Document>, doc: Entry, result: EmbedResult, now: int)
    ensures MatchingIds(Write(docs, doc, result, now), Pending)
         == if result.Embedded? then MatchingIds(docs, Pending) - {doc.id} else MatchingIds(docs, Pending)
  {
    var r := Write(docs, doc, result, now);
    if result.Embedded? {
      forall id | id in MatchingIds(r, Pending) ensures id in MatchingIds(docs, Pending) - {doc.id} {
        assert id != doc.id;
      }
    }
  }

  /** The store after processDocument has settled, in order, for every
      document of `es`, document `e` being written at time `clock(e)`. */
  function Backfill(docs: map<Id, Document>, es: seq<Entry>, oracle: Entry -> EmbedResult, clock: Entry -> int): map<Id, Document>
    decreases |es|
  {
    if es == [] then docs
    else
      var last := es[|es| - 1];
      Write(Backfill(docs, es[..|es| - 1], oracle, clock), last, oracle(last), clock(last))
  }

  /** Backfilling one more document of the cursor is one more write. */
  lemma BackfillNext(docs: map<Id, Document>, cursor: seq<Entry>, end: nat, oracle: Entry -> EmbedResult, clock: Entry -> int)
    requires end < |cursor|
    ensures Backfill(docs, cursor[..end + 1], oracle, clock)
         == Write(Backfill(docs, cursor[..end], oracle, clock), cursor[end], oracle(cursor[end]), clock(cursor[end]))
  {
    assert cursor[..end + 1][..end] == cursor[..end];
  }

  /** The `_id`s of the documents of `es` whose embedding request succeeds. */
  function Succeeded(es: seq<Entry>, oracle: Entry -> EmbedResult): set<Id> {
    set e | e in es && oracle(e).Embedded? :: e.id
  }

  /** Backfilling never adds or removes documents; it takes exactly the
      successfully embedded documents out of the pending set and leaves
      every failed one as it was. */
  lemma {:induction false} BackfillPending(docs: map<Id, Document>, es: seq<Entry>, oracle: Entry -> EmbedResult, clock: Entry -> int)
    ensures Backfill(docs, es, oracle, clock).Keys == docs.Keys
    ensures MatchingIds(Backfill(docs, es, oracle, clock), Pending) == MatchingIds(docs, Pending) - Succeeded(es, oracle)
    decreases |es|
  {
    if es != [] {
      var front := es[..|es| - 1];
      var last := es[|es| - 1];
      BackfillPending(docs, front, oracle, clock);
      assert es == front + [last];
      var before := Backfill(docs, front, oracle, clock);
      var after := Backfill(docs, es, oracle, clock);
      WritePending(before, last, oracle(last), clock(last));
      if oracle(last).Embedded? {
        assert Succeeded(es, oracle) == Succeeded(front, oracle) + {last.id};
      } else {
        assert Succeeded(es, oracle) == Succeeded(front, oracle);
      }
    }
  }

  /** Without repeated `_id`s, `processed` is the number of documents that
      received an embedding. */
  lemma {:induction false} SucceededCount(es: seq<Entry>, oracle: Entry -> EmbedResult)
    requires Distinct(Ids(es))
    ensures |Succeeded(es, oracle)| == Tallied(es, oracle).processed
    decreases |es|
  {
    if es != [] {
      var front := es[..|es| - 1];
      var last := es[|es| - 1];
      assert es == front + [last];
      assert Ids(front) == Ids(es)[0..|es| - 1];
      DistinctSlice(Ids(es), 0, |es| - 1);
      SucceededCount(front, oracle);
      forall e | e in front ensures e.id != last.id {
        var k :| 0 <= k < |front| && front[k] == e;
        assert At(Ids(es), k) != At(Ids(es), |es| - 1);
      }
      if oracle(last).Embedded? {
        assert Succeeded(es, oracle) == Succeeded(front, oracle) + {last.id};
      } else {
        assert Succeeded(es, oracle) == Succeeded(front, oracle);
      }
    }
  }

  /** The snapshot the cursor `find(Pending)` yields. */
  function Cursor(docs: map<Id, Document>, order: seq<Id>): seq<Entry>
    requires WellFormed(docs, order)
  {
    Select(docs, order, Pending)
  }

  /** Counting `es[i..l]` is counting `es[i..j]` and then `es[j..l]`. */
  lemma {:induction false} TalliedSlices(es: seq<Entry>, i: nat, j: nat, l: nat, oracle: Entry -> EmbedResult)
    requires i <= j <= l <= |es|
    ensures SumOf(Tallied(es[i..l], oracle), Tallied(es[i..j], oracle), Tallied(es[j..l], oracle))
  {
    assert es[i..l] == es[i..j] + es[j..l];
    TalliedAppend(es[i..j], es[j..l], oracle);
  }

  /** Counting the prefix `es[..l]` is counting `es[..j]` and then `es[j..l]`. */
  lemma {:induction false} TalliedPrefix(es: seq<Entry>, j: nat, l: nat, oracle: Entry -> EmbedResult)
    requires j <= l <= |es|
    ensures SumOf(Tallied(es[..l], oracle), Tallied(es[..j], oracle), Tallied(es[j..l], oracle))
  {
    assert es[..l] == es[..j] + es[j..l];
    TalliedAppend(es[..j], es[j..l], oracle);
  }

  /** The reports of the batches that start at cursor position `pos`, when
      the counters stand at `done` before the first of them. */
  function ReportsFrom(cursor: seq<Entry>, batchSize: nat, pos: nat, total: nat, oracle: Entry -> EmbedResult, done: Tally): seq<BatchReport>
    requires batchSize > 0
    decreases |cursor| - pos
  {
    if pos >= |cursor| then []
    else
      var end := Min(pos + batchSize, |cursor|);
      var b := Tallied(cursor[pos..end], oracle);
      var t := Tally(done.processed + b.processed, done.errors + b.errors);
      [BatchReport(pos, end, t, t.processed < total)]
        + ReportsFrom(cursor, batchSize, pos + batchSize, total, oracle, t)
  }

  /** One report for each batch that `Batching.ChunksFrom` cuts from the
      cursor's `_id`s at position `pos`. */
  lemma {:induction false} ReportsCount(cursor: seq<Entry>, batchSize: nat, pos: nat, total: nat, oracle: Entry -> EmbedResult, done: Tally)
    requires batchSize > 0
    ensures |ReportsFrom(cursor, batchSize, pos, total, oracle, done)| == |ChunksFrom(Ids(cursor), batchSize, pos)|
    decreases |cursor| - pos
  {
    if pos < |cursor| {
      var end := Min(pos + batchSize, |cursor|);
      var b := Tallied(cursor[pos..end], oracle);
      var t := Tally(done.processed + b.processed, done.errors + b.errors);
      var rest := ReportsFrom(cursor, batchSize, pos + batchSize, total, oracle, t);
      assert ReportsFrom(cursor, batchSize, pos, total, oracle, done)
          == [BatchReport(pos, end, t, t.processed < total)] + rest;
      var ids := Ids(cursor);
      assert ChunksFrom(ids, batchSize, pos) == [ids[pos..end]] + ChunksFrom(ids, batchSize, pos + batchSize);
      ReportsCount(cursor, batchSize, pos + batchSize, total, oracle, t);
    }
  }

  /** There are ceil(|cursor| / batchSize) reports. */
  lemma {:induction false} ReportsBound(cursor: seq<Entry>, batchSize: nat, total: nat, oracle: Entry -> EmbedResult, done: Tally)
    requires batchSize > 0
    ensures var c := |ReportsFrom(cursor, batchSize, 0, total, oracle, done)|;
      (c - 1) * batchSize < |cursor| <= c * batchSize
  {
    ReportsCount(cursor, batchSize, 0, total, oracle, done);
    ChunkCount(Ids(cursor), batchSize, 0);
  }

  /** Batch `k` from position `pos` is the stretch of the cursor that starts
      at `BatchStart(pos, batchSize, k)` and ends `batchSize` later or at the
      end of the cursor, and it is the last batch iff it reaches the end. */
  lemma {:induction false} ReportsShape(cursor: seq<Entry>, batchSize: nat, pos: nat, total: nat, oracle: Entry -> EmbedResult, done: Tally, k: nat)
    requires batchSize > 0 && k < |ReportsFrom(cursor, batchSize, pos, total, oracle, done)|
    ensures var r := ReportsFrom(cursor, batchSize, pos, total, oracle, done);
      && r[k].start == BatchStart(pos, batchSize, k) < |cursor|
      && r[k].end == Min(r[k].start + batchSize, |cursor|)
      && (k == |r| - 1 <==> r[k].start + batchSize >= |cursor|)
    decreases k
  {
    var r := ReportsFrom(cursor, batchSize, pos, total, oracle, done);
    var end := Min(pos + batchSize, |cursor|);
    var b := Tallied(cursor[pos..end], oracle);
    var t := Tally(done.processed + b.processed, done.errors + b.errors);
    var rest := ReportsFrom(cursor, batchSize, pos + batchSize, total, oracle, t);
    assert r[1..] == rest;
    if k > 0 {
      ReportsShape(cursor, batchSize, pos + batchSize, total, oracle, t, k - 1);
    }
  }

  /** Batch `k` from position `pos` adds the counts of its own documents to
      the counters the batch before it left, and a delay follows it iff
      `processed` is still below `totalDocs`. */
  lemma {:induction false} ReportsStep(cursor: seq<Entry>, batchSize: nat, pos: nat, total: nat, oracle: Entry -> EmbedResult, done: Tally, k: nat)
    requires batchSize > 0 && k < |ReportsFrom(cursor, batchSize, pos, total, oracle, done)|
    ensures var r := ReportsFrom(cursor, batchSize, pos, total, oracle, done);
      var before := if k == 0 then done else r[k - 1].progress;
      && r[k].start <= r[k].end <= |cursor|
      && SumOf(r[k].progress, before, Tallied(cursor[r[k].start..r[k].end], oracle))
      && r[k].delayAfter == (r[k].progress.processed < total)
    decreases k
  {
    var r := ReportsFrom(cursor, batchSize, pos, total, oracle, done);
    var end := Min(pos + batchSize, |cursor|);
    var b := Tallied(cursor[pos..end], oracle);
    var t := Tally(done.processed + b.processed, done.errors + b.errors);
    var rest := ReportsFrom(cursor, batchSize, pos + batchSize, total, oracle, t);
    assert r[1..] == rest;
    if k > 0 {
      assert r[0].progress == t;
      ReportsStep(cursor, batchSize, pos + batchSize, total, oracle, t, k - 1);
    }
  }

  /** `ReportsShape` and `ReportsStep` together. */
  lemma {:induction false} ReportsAt(cursor: seq<Entry>, batchSize: nat, pos: nat, total: nat, oracle: Entry -> EmbedResult, done: Tally, k: nat)
    requires batchSize > 0 && k < |ReportsFrom(cursor, batchSize, pos, total, oracle, done)|
    ensures var r := ReportsFrom(cursor, batchSize, pos, total, oracle, done);
      var before := if k == 0 then done else r[k - 1].progress;
      && r[k].start == BatchStart(pos, batchSize, k) < |cursor|
      && r[k].end == Min(r[k].start + batchSize, |cursor|)
      && (k == |r| - 1 <==> r[k].start + batchSize >= |cursor|)
      && SumOf(r[k].progress, before, Tallied(cursor[r[k].start..r[k].end], oracle))
      && r[k].delayAfter == (r[k].progress.processed < total)
  {
    ReportsShape(cursor, batchSize, pos, total, oracle, done, k);
    ReportsStep(cursor, batchSize, pos, total, oracle, done, k);
  }

  /** The reports from `start` are the report of the batch `start..end`,
      whose counters are `t`, followed by the reports from `end`. */
  lemma {:induction false} ReportsNext(cursor: seq<Entry>, batchSize: nat, start: nat, end: nat, total: nat, oracle: Entry -> EmbedResult, done: Tally, t: Tally)
    requires batchSize > 0 && start < |cursor| && end == Min(start + batchSize, |cursor|)
    requires SumOf(t, done, Tallied(cursor[start..end], oracle))
    ensures ReportsFrom(cursor, batchSize, start, total, oracle, done)
         == [BatchReport(start, end, t, t.processed < total)] + ReportsFrom(cursor, batchSize, end, total, oracle, t)
  {
    var b := Tallied(cursor[start..end], oracle);
    assert t == Tally(done.processed + b.processed, done.errors + b.errors);
    if end != start + batchSize {
      assert ReportsFrom(cursor, batchSize, start + batchSize, total, oracle, t) == [];
      assert ReportsFrom(cursor, batchSize, end, total, oracle, t) == [];
    }
  }

  /** One turn of the batch loop: appending the report of the batch
      `start..end` keeps the reports so far followed by the reports still to
      come equal to the whole run's, and the counters are those of the
      cursor up to `end`. */
  lemma {:induction false} BatchLoopStep(cursor: seq<Entry>, batchSize: nat, start: nat, end: nat, total: nat, oracle: Entry -> EmbedResult,
                                         reports: seq<BatchReport>, whole: seq<BatchReport>, before: Tally, t: Tally)
    requires batchSize > 0 && start < |cursor| && end == Min(start + batchSize, |cursor|)
    requires before == Tallied(cursor[..start], oracle)
    requires reports + ReportsFrom(cursor, batchSize, start, total, oracle, before) == whole
    requires SumOf(t, before, Tallied(cursor[start..end], oracle))
    ensures (reports + [BatchReport(start, end, t, t.processed < total)]) + ReportsFrom(cursor, batchSize, end, total, oracle, t) == whole
    ensures t == Tallied(cursor[..end], oracle)
  {
    TalliedPrefix(cursor, start, end, oracle);
    ReportsNext(cursor, batchSize, start, end, total, oracle, before, t);
    var report := BatchReport(start, end, t, t.processed < total);
    var rest := ReportsFrom(cursor, batchSize, end, total, oracle, t);
    assert (reports + [report]) + rest == reports + ([report] + rest);
  }

  /** The whole run, as processAllDocuments performs it on a collection
      whose documents are `docs` in natural order `order`. */
  function Expected(docs: map<Id, Document>, order: seq<Id>, batchSize: nat, oracle: Entry -> EmbedResult): Run
    requires WellFormed(docs, order) && batchSize > 0
  {
    var total := |MatchingIds(docs, Pending)|;
    if total == 0 then Run(0, false, [], Tally(0, 0))
    else
      var cursor := Cursor(docs, order);
      Run(total, true, ReportsFrom(cursor, batchSize, 0, total, oracle, Tally(0, 0)), Tallied(cursor, oracle))
  }

  /** `countDocuments` and `find` use the same filter: the cursor yields
      every pending document once and nothing else, so it is exactly
      `totalDocs` long. */
  lemma {:induction false} CountAndCursorAgree(docs: map<Id, Document>, order: seq<Id>)
    requires WellFormed(docs, order)
    ensures var cursor := Cursor(docs, order);
      && |cursor| == |MatchingIds(docs, Pending)|
      && Distinct(Ids(cursor))
      && IdSet(Ids(cursor)) == MatchingIds(docs, Pending)
      && forall k :: 0 <= k < |cursor| ==>
           cursor[k].id in docs && cursor[k].fields == docs[cursor[k].id] && Pending(cursor[k].fields)
  {
    SelectCount(docs, order, Pending);
  }

  /** With nothing pending the run stops before opening the cursor and
      writes nothing; otherwise it runs at least one batch. */
  lemma {:induction false} EarlyExit(docs: map<Id, Document>, order: seq<Id>, batchSize: nat, oracle: Entry -> EmbedResult, clock: Entry -> int)
    requires WellFormed(docs, order) && batchSize > 0
    ensures var run := Expected(docs, order, batchSize, oracle);
      && (run.total == 0 <==> MatchingIds(docs, Pending) == {})
      && (run.total == 0 ==>
            && !run.cursorOpened && run.batches == [] && run.final == Tally(0, 0)
            && Backfill(docs, Cursor(docs, order), oracle, clock) == docs)
      && (run.total > 0 ==> run.cursorOpened && run.batches != [])
  {
    SelectCount(docs, order, Pending);
  }

  /** Batch `k` of the run over `cursor` is the stretch from `start`, which
      is `BatchStart(0, batchSize, k)` (`k * batchSize`, by
      `Batching.BatchStartIs`), to `end`: `batchSize` documents, or between
      one and `batchSize` for the last batch, which ends the cursor. The
      first batch starts at 0 and each later one where the one before it
      ended, so the batches cover the cursor in order, each document once. */
  lemma {:induction false} ReportsTile(cursor: seq<Entry>, batchSize: nat, total: nat, oracle: Entry -> EmbedResult, done: Tally, k: nat)
    requires batchSize > 0 && k < |ReportsFrom(cursor, batchSize, 0, total, oracle, done)|
    ensures var r := ReportsFrom(cursor, batchSize, 0, total, oracle, done);
      var b := r[k];
      && b.start == BatchStart(0, batchSize, k)
      && b.start < b.end <= |cursor|
      && b.end - b.start <= batchSize
      && (k == 0 ==> b.start == 0)
      && (k > 0 ==> b.start == r[k - 1].end)
      && (k < |r| - 1 ==> b.end - b.start == batchSize)
      && (k == |r| - 1 ==> b.end == |cursor|)
  {
    ReportsAt(cursor, batchSize, 0, total, oracle, done, k);
    if k > 0 {
      ReportsAt(cursor, batchSize, 0, total, oracle, done, k - 1);
      BatchStartNext(0, batchSize, k - 1);
    }
  }

  /** After batch `k`, the counters are `done` plus the counts of every
      document the cursor has yielded so far. */
  lemma {:induction false} ReportsProgress(cursor: seq<Entry>, batchSize: nat, total: nat, oracle: Entry -> EmbedResult, done: Tally, k: nat)
    requires batchSize > 0 && k < |ReportsFrom(cursor, batchSize, 0, total, oracle, done)|
    ensures var r := ReportsFrom(cursor, batchSize, 0, total, oracle, done);
      && r[k].end <= |cursor|
      && SumOf(r[k].progress, done, Tallied(cursor[0..r[k].end], oracle))
    decreases k
  {
    var r := ReportsFrom(cursor, batchSize, 0, total, oracle, done);
    ReportsTile(cursor, batchSize, total, oracle, done, k);
    ReportsStep(cursor, batchSize, 0, total, oracle, done, k);
    if k > 0 {
      ReportsProgress(cursor, batchSize, total, oracle, done, k - 1);
      TalliedSlices(cursor, 0, r[k].start, r[k].end, oracle);
    }
  }

  /** Batch `k` holds the `_id`s of the `k`-th slice `Batching.Chunks` cuts
      from the cursor's `_id`s, and there is one batch per slice. */
  lemma {:induction false} ReportsChunk(cursor: seq<Entry>, batchSize: nat, total: nat, oracle: Entry -> EmbedResult, done: Tally, k: nat)
    requires batchSize > 0 && k < |ReportsFrom(cursor, batchSize, 0, total, oracle, done)|
    ensures var r := ReportsFrom(cursor, batchSize, 0, total, oracle, done);
      var ids := Ids(cursor);
      && |r| == |Chunks(ids, batchSize)|
      && r[k].start <= r[k].end <= |ids|
      && ids[r[k].start..r[k].end] == Chunks(ids, batchSize)[k]
  {
    ReportsCount(cursor, batchSize, 0, total, oracle, done);
    ReportsAt(cursor, batchSize, 0, total, oracle, done, k);
    ChunkAt(Ids(cursor), batchSize, 0, k);
  }

  /** Batch `k` raises `processed` by its fulfilled documents and `errors`
      by its rejected ones, so their sum grows by exactly the batch's size;
      after the last batch the counters are `done` plus those of the whole
      cursor. */
  lemma {:induction false} ReportsCounters(cursor: seq<Entry>, batchSize: nat, total: nat, oracle: Entry -> EmbedResult, done: Tally, k: nat)
    requires batchSize > 0 && k < |ReportsFrom(cursor, batchSize, 0, total, oracle, done)|
    ensures var r := ReportsFrom(cursor, batchSize, 0, total, oracle, done);
      var before := if k == 0 then done else r[k - 1].progress;
      var b := r[k];
      && b.start <= b.end <= |cursor|
      && SumOf(b.progress, before, Tallied(cursor[b.start..b.end], oracle))
      && b.progress.processed + b.progress.errors == before.processed + before.errors + (b.end - b.start)
      && (k == |r| - 1 ==> SumOf(b.progress, done, Tallied(cursor, oracle)))
  {
    var r := ReportsFrom(cursor, batchSize, 0, total, oracle, done);
    ReportsAt(cursor, batchSize, 0, total, oracle, done, k);
    TalliedSize(cursor[r[k].start..r[k].end], oracle);
    if k == |r| - 1 {
      ReportsProgress(cursor, batchSize, total, oracle, done, k);
      assert cursor[0..r[k].end] == cursor;
    }
  }

  /** The delay rule `if (processed < totalDocs)` when `totalDocs` is the
      cursor's length: a wait after every batch but the last, and after the
      last one exactly when some document failed. */
  lemma {:induction false} ReportsDelay(cursor: seq<Entry>, batchSize: nat, oracle: Entry -> EmbedResult, k: nat)
    requires batchSize > 0 && k < |ReportsFrom(cursor, batchSize, 0, |cursor|, oracle, Tally(0, 0))|
    ensures var r := ReportsFrom(cursor, batchSize, 0, |cursor|, oracle, Tally(0, 0));
      && (r[k].delayAfter <==> r[k].progress.processed < |cursor|)
      && (k < |r| - 1 ==> r[k].delayAfter)
      && (k == |r| - 1 ==> (r[k].delayAfter <==> Tallied(cursor, oracle).errors > 0))
  {
    var r := ReportsFrom(cursor, batchSize, 0, |cursor|, oracle, Tally(0, 0));
    ReportsAt(cursor, batchSize, 0, |cursor|, oracle, Tally(0, 0), k);
    if k < |r| - 1 {
      ReportsProgress(cursor, batchSize, |cursor|, oracle, Tally(0, 0), k);
      TalliedSize(cursor[0..r[k].end], oracle);
    } else {
      ReportsCounters(cursor, batchSize, |cursor|, oracle, Tally(0, 0), k);
      TalliedSize(cursor, oracle);
    }
  }

  /** `ReportsTile` for the run: the batches split `0..totalDocs` into
      consecutive stretches of `batchSize`, the last one possibly shorter. */
  lemma {:induction false} BatchAt(docs: map<Id, Document>, order: seq<Id>, batchSize: nat, oracle: Entry -> EmbedResult, k: nat)
    requires WellFormed(docs, order) && batchSize > 0
    requires k < |Expected(docs, order, batchSize, oracle).batches|
    ensures var run := Expected(docs, order, batchSize, oracle);
      var b := run.batches[k];
      && b.start == BatchStart(0, batchSize, k)
      && b.start < b.end <= run.total
      && b.end - b.start <= batchSize
      && (k == 0 ==> b.start == 0)
      && (k > 0 ==> b.start == run.batches[k - 1].end)
      && (k < |run.batches| - 1 ==> b.end - b.start == batchSize)
      && (k == |run.batches| - 1 ==> b.end == run.total)
  {
    var run := Expected(docs, order, batchSize, oracle);
    SelectCount(docs, order, Pending);
    ReportsTile(Cursor(docs, order), batchSize, run.total, oracle, Tally(0, 0), k);
  }

  /** `ReportsChunk` for the run. */
  lemma {:induction false} BatchIsChunk(docs: map<Id, Document>, order: seq<Id>, batchSize: nat, oracle: Entry -> EmbedResult, k: nat)
    requires WellFormed(docs, order) && batchSize > 0
    requires k < |Expected(docs, order, batchSize, oracle).batches|
    ensures var run := Expected(docs, order, batchSize, oracle);
      var ids := Ids(Cursor(docs, order));
      var b := run.batches[k];
      && |run.batches| == |Chunks(ids, batchSize)|
      && b.start <= b.end <= |ids|
      && ids[b.start..b.end] == Chunks(ids, batchSize)[k]
  {
    var run := Expected(docs, order, batchSize, oracle);
    ReportsChunk(Cursor(docs, order), batchSize, run.total, oracle, Tally(0, 0), k);
  }

  /** There are ceil(totalDocs / batchSize) batches. */
  lemma {:induction false} BatchCount(docs: map<Id, Document>, order: seq<Id>, batchSize: nat, oracle: Entry -> EmbedResult)
    requires WellFormed(docs, order) && batchSize > 0
    ensures var run := Expected(docs, order, batchSize, oracle);
      (|run.batches| - 1) * batchSize < run.total <= |run.batches| * batchSize
  {
    var run := Expected(docs, order, batchSize, oracle);
    SelectCount(docs, order, Pending);
    ReportsBound(Cursor(docs, order), batchSize, run.total, oracle, Tally(0, 0));
  }

  /** `ReportsCounters` for the run: after the last batch the progress line
      shows the final counters. */
  lemma {:induction false} ProgressAfterBatch(docs: map<Id, Document>, order: seq<Id>, batchSize: nat, oracle: Entry -> EmbedResult, k: nat)
    requires WellFormed(docs, order) && batchSize > 0
    requires k < |Expected(docs, order, batchSize, oracle).batches|
    ensures var run := Expected(docs, order, batchSize, oracle);
      var cursor := Cursor(docs, order);
      var before := if k == 0 then Tally(0, 0) else run.batches[k - 1].progress;
      var b := run.batches[k];
      && b.start <= b.end <= |cursor|
      && SumOf(b.progress, before, Tallied(cursor[b.start..b.end], oracle))
      && b.progress.processed + b.progress.errors == before.processed + before.errors + (b.end - b.start)
      && (k == |run.batches| - 1 ==> b.progress == run.final)
  {
    var run := Expected(docs, order, batchSize, oracle);
    ReportsCounters(Cursor(docs, order), batchSize, run.total, oracle, Tally(0, 0), k);
  }

  /** `ReportsDelay` for the run, whose `totalDocs` is the cursor's length. */
  lemma {:induction false} DelayRule(docs: map<Id, Document>, order: seq<Id>, batchSize: nat, oracle: Entry -> EmbedResult, k: nat)
    requires WellFormed(docs, order) && batchSize > 0
    requires k < |Expected(docs, order, batchSize, oracle).batches|
    ensures var run := Expected(docs, order, batchSize, oracle);
      && (run.batches[k].delayAfter <==> run.batches[k].progress.processed < run.total)
      && (k < |run.batches| - 1 ==> run.batches[k].delayAfter)
      && (k == |run.batches| - 1 ==> (run.batches[k].delayAfter <==> run.final.errors > 0))
  {
    SelectCount(docs, order, Pending);
    ReportsDelay(Cursor(docs, order), batchSize, oracle, k);
  }

  /** Only documents the cursor yielded can succeed. */
  lemma {:induction false} SucceededPending(docs: map<Id, Document>, cursor: seq<Entry>, oracle: Entry -> EmbedResult)
    requires IdSet(Ids(cursor)) == MatchingIds(docs, Pending)
    ensures Succeeded(cursor, oracle) <= MatchingIds(docs, Pending)
  {
    forall id | id in Succeeded(cursor, oracle) ensures id in IdSet(Ids(cursor)) {
      var e :| e in cursor && oracle(e).Embedded? && e.id == id;
      var k :| 0 <= k < |cursor| && cursor[k] == e;
      assert Ids(cursor)[k] == id;
    }
  }

  /** With distinct `_id`s, a failed document is not among the succeeded. */
  lemma {:induction false} FailedNotSucceeded(cursor: seq<Entry>, oracle: Entry -> EmbedResult, k: nat)
    requires Distinct(Ids(cursor)) && k < |cursor| && oracle(cursor[k]).Failed?
    ensures cursor[k].id !in Succeeded(cursor, oracle)
  {
    forall e | e in cursor && oracle(e).Embedded? ensures e.id != cursor[k].id {
      var j :| 0 <= j < |cursor| && cursor[j] == e;
      if j < k {
        assert At(Ids(cursor), j) != At(Ids(cursor), k);
      } else {
        assert At(Ids(cursor), k) != At(Ids(cursor), j);
      }
    }
  }

  /** After backfilling a cursor that yields each pending document once,
      a document of the cursor is still pending iff its request failed. */
  lemma {:induction false} FailedStayPending(docs: map<Id, Document>, cursor: seq<Entry>, oracle: Entry -> EmbedResult, clock: Entry -> int, k: nat)
    requires Distinct(Ids(cursor)) && IdSet(Ids(cursor)) == MatchingIds(docs, Pending)
    requires k < |cursor|
    ensures cursor[k].id in MatchingIds(Backfill(docs, cursor, oracle, clock), Pending) <==> oracle(cursor[k]).Failed?
  {
    BackfillPending(docs, cursor, oracle, clock);
    assert Ids(cursor)[k] in IdSet(Ids(cursor));
    if oracle(cursor[k]).Failed? {
      FailedNotSucceeded(cursor, oracle, k);
    } else {
      assert cursor[k] in cursor;
    }
  }

  /** Backfilling a cursor that yields each pending document once lowers
      the pending count by `processed`. */
  lemma {:induction false} PendingCount(docs: map<Id, Document>, cursor: seq<Entry>, oracle: Entry -> EmbedResult, clock: Entry -> int)
    requires Distinct(Ids(cursor)) && IdSet(Ids(cursor)) == MatchingIds(docs, Pending)
    ensures |MatchingIds(Backfill(docs, cursor, oracle, clock), Pending)| == |cursor| - Tallied(cursor, oracle).processed
  {
    DistinctCard(Ids(cursor));
    BackfillPending(docs, cursor, oracle, clock);
    SucceededCount(cursor, oracle);
    SucceededPending(docs, cursor, oracle);
    var pending := MatchingIds(docs, Pending);
    var done := Succeeded(cursor, oracle);
    assert |pending - done| == |pending| - |done| by {
      assert pending == (pending - done) + done;
    }
  }

  /** Backfilling a cursor that yields each pending document once leaves
      exactly its failed documents pending: the pending count drops by
      `processed`. */
  lemma {:induction false} BackfillLeavesFailed(docs: map<Id, Document>, cursor: seq<Entry>, oracle: Entry -> EmbedResult, clock: Entry -> int)
    requires Distinct(Ids(cursor)) && IdSet(Ids(cursor)) == MatchingIds(docs, Pending)
    ensures var after := Backfill(docs, cursor, oracle, clock);
      && after.Keys == docs.Keys
      && |MatchingIds(after, Pending)| == |cursor| - Tallied(cursor, oracle).processed
      && forall k :: 0 <= k < |cursor| ==>
           (cursor[k].id in MatchingIds(after, Pending) <==> oracle(cursor[k]).Failed?)
  {
    BackfillPending(docs, cursor, oracle, clock);
    PendingCount(docs, cursor, oracle, clock);
    forall k | 0 <= k < |cursor|
      ensures cursor[k].id in MatchingIds(Backfill(docs, cursor, oracle, clock), Pending) <==> oracle(cursor[k]).Failed?
    {
      FailedStayPending(docs, cursor, oracle, clock, k);
    }
  }

  /** After the run, the pending count has dropped by exactly `processed`:
      each document whose embedding was written has left the pending set,
      each failed one is still in it. */
  lemma {:induction false} PendingAfterRun(docs: map<Id, Document>, order: seq<Id>, batchSize: nat, oracle: Entry -> EmbedResult, clock: Entry -> int)
    requires WellFormed(docs, order) && batchSize > 0
    ensures var run := Expected(docs, order, batchSize, oracle);
      var cursor := Cursor(docs, order);
      var after := Backfill(docs, cursor, oracle, clock);
      && after.Keys == docs.Keys
      && |MatchingIds(after, Pending)| == run.total - run.final.processed
      && forall k :: 0 <= k < |cursor| ==>
           (cursor[k].id in MatchingIds(after, Pending) <==> oracle(cursor[k]).Failed?)
  {
    CountAndCursorAgree(docs, order);
    BackfillLeavesFailed(docs, Cursor(docs, order), oracle, clock);
  }

  /** Batch `k` of the run over `cursor` told without batch arithmetic: the
      first batch starts at 0 and each later one where the one before it
      ended; each ends `batchSize` later or at the end of the cursor, which
      only the last one reaches; and after it the counters are `done` plus
      the counts of everything read so far. */
  lemma {:induction false} ReportsChain(cursor: seq<Entry>, batchSize: nat, total: nat, oracle: Entry -> EmbedResult, done: Tally, k: nat)
    requires batchSize > 0 && k < |ReportsFrom(cursor, batchSize, 0, total, oracle, done)|
    ensures var r := ReportsFrom(cursor, batchSize, 0, total, oracle, done);
      && r[k].start < r[k].end <= |cursor|
      && r[k].end == Min(r[k].start + batchSize, |cursor|)
      && (k == 0 ==> r[k].start == 0)
      && (k > 0 ==> r[k].start == r[k - 1].end)
      && (k == |r| - 1 <==> r[k].end == |cursor|)
      && SumOf(r[k].progress, done, Tallied(cursor[0..r[k].end], oracle))
      && r[k].delayAfter == (r[k].progress.processed < total)
  {
    ReportsTile(cursor, batchSize, total, oracle, done, k);
    ReportsAt(cursor, batchSize, 0, total, oracle, done, k);
    ReportsProgress(cursor, batchSize, total, oracle, done, k);
  }

  /** One failure among 25 documents, at a position between 10 and 19: the
      first 10 all succeed, the first 20 hold the one failure. */
  lemma {:induction false} OneFailureCounts(cursor: seq<Entry>, oracle: Entry -> EmbedResult, failing: nat)
    requires |cursor| == 25 && 10 <= failing < 20
    requires FailedAt(cursor, oracle) == {failing}
    ensures Tallied(cursor[0..10], oracle) == Tally(10, 0)
    ensures Tallied(cursor[0..20], oracle) == Tally(19, 1)
    ensures Tallied(cursor, oracle) == Tally(24, 1)
  {
    assert FailedAt(cursor[0..10], oracle) == {} by {
      forall k | 0 <= k < 10 ensures oracle(cursor[0..10][k]).Embedded? {
        assert k !in FailedAt(cursor, oracle);
      }
    }
    assert FailedAt(cursor[0..20], oracle) == {failing} by {
      assert failing in FailedAt(cursor, oracle);
      forall k | 0 <= k < 20 && k != failing ensures oracle(cursor[0..20][k]).Embedded? {
        assert k !in FailedAt(cursor, oracle);
      }
    }
    TalliedCountsOutcomes(cursor[0..10], oracle);
    TalliedCountsOutcomes(cursor[0..20], oracle);
    TalliedCountsOutcomes(cursor, oracle);
  }

  /** 25 documents in batches of 10: three batches, of 10, 10 and 5. */
  lemma {:induction false} TwentyFiveEntriesBatches(cursor: seq<Entry>, total: nat, oracle: Entry -> EmbedResult, done: Tally)
    requires |cursor| == 25
    ensures var r := ReportsFrom(cursor, 10, 0, total, oracle, done);
      && |r| == 3
      && r[0].start == 0 && r[0].end == 10
      && r[1].start == 10 && r[1].end == 20
      && r[2].start == 20 && r[2].end == 25
  {
    ReportsBound(cursor, 10, total, oracle, done);
    ReportsChain(cursor, 10, total, oracle, done, 0);
    ReportsChain(cursor, 10, total, oracle, done, 1);
    ReportsChain(cursor, 10, total, oracle, done, 2);
  }

  /** The scenario of 25 pending documents, `batchSize` 10, and one failure
      in the second batch, on the cursor: counters 10/0, 19/1 and 24/1 after
      the three batches, and a delay after each, the last one included. */
  lemma {:induction false} TwentyFiveEntriesOneFailure(cursor: seq<Entry>, oracle: Entry -> EmbedResult, done: Tally, failing: nat)
    requires |cursor| == 25 && 10 <= failing < 20
    requires FailedAt(cursor, oracle) == {failing}
    requires done.processed == 0 && done.errors == 0
    ensures var r := ReportsFrom(cursor, 10, 0, 25, oracle, done);
      && |r| == 3
      && r[0].progress == Tally(10, 0)
      && r[1].progress == Tally(19, 1)
      && r[2].progress == Tally(24, 1)
      && Tallied(cursor, oracle) == Tally(24, 1)
      && r[0].delayAfter && r[1].delayAfter && r[2].delayAfter
  {
    TwentyFiveEntriesBatches(cursor, 25, oracle, done);
    OneFailureCounts(cursor, oracle, failing);
    ReportsChain(cursor, 10, 25, oracle, done, 0);
    ReportsChain(cursor, 10, 25, oracle, done, 1);
    ReportsChain(cursor, 10, 25, oracle, done, 2);
    assert cursor[0..25] == cursor;
  }

  /** The same scenario on a collection with 25 pending documents and the
      script's own `CONFIG`; one document is still pending afterwards. */
  lemma {:induction false} TwentyFiveDocumentsOneFailure(docs: map<Id, Document>, order: seq<Id>, oracle: Entry -> EmbedResult, clock: Entry -> int, failing: nat)
    requires WellFormed(docs, order)
    requires |MatchingIds(docs, Pending)| == 25
    requires 10 <= failing < 20
    requires FailedAt(Cursor(docs, order), oracle) == {failing}
    ensures var run := Expected(docs, order, CONFIG.batchSize, oracle);
      && |run.batches| == 3
      && run.batches[0].start == 0 && run.batches[0].end == 10
      && run.batches[1].start == 10 && run.batches[1].end == 20
      && run.batches[2].start == 20 && run.batches[2].end == 25
      && run.batches[0].progress == Tally(10, 0)
      && run.batches[1].progress == Tally(19, 1)
      && run.batches[2].progress == Tally(24, 1)
      && run.final == Tally(24, 1)
      && run.batches[0].delayAfter && run.batches[1].delayAfter && run.batches[2].delayAfter
      && |MatchingIds(Backfill(docs, Cursor(docs, order), oracle, clock), Pending)| == 1
  {
    assert CONFIG.batchSize == 10;
    SelectCount(docs, order, Pending);
    PendingAfterRun(docs, order, 10, oracle, clock);
    TwentyFiveEntriesBatches(Cursor(docs, order), 25, oracle, Tally(0, 0));
    TwentyFiveEntriesOneFailure(Cursor(docs, order), oracle, Tally(0, 0), failing);
  }

  /** Create one batch: read up to `batchSize` documents from cursor
      position `start` and start processDocument on each as it is read; the
      results are the settled outcomes, `true` for fulfilled. */
  method StartBatch(coll: Collection, cursor: seq<Entry>, start: nat, batchSize: nat,
                    oracle: Entry -> EmbedResult, clock: Entry -> int, ghost docs0: map<Id, Document>)
    returns (end: nat, results: seq<bool>)
    requires coll.Valid() && start <= |cursor|
    requires coll.docs == Backfill(docs0, cursor[..start], oracle, clock)
    modifies coll
    ensures end == Min(start + batchSize, |cursor|) && |results| == end - start
    ensures coll.Valid() && coll.order == old(coll.order)
    ensures coll.docs == Backfill(docs0, cursor[..end], oracle, clock)
    ensures forall j :: 0 <= j < |results| ==> (results[j] <==> oracle(cursor[start + j]).Embedded?)
  {
    end := start;
    results := [];
    var i := 0;
    while i < batchSize && end < |cursor|
      invariant i <= batchSize && end == start + i && end <= |cursor| && |results| == i
      invariant coll.Valid() && coll.order == old(coll.order)
      invariant coll.docs == Backfill(docs0, cursor[..end], oracle, clock)
      invariant forall j :: 0 <= j < i ==> (results[j] <==> oracle(cursor[start + j]).Embedded?)
    {
      BackfillNext(docs0, cursor, end, oracle, clock);
      var fulfilled := ProcessDocument(coll, cursor[end], oracle, clock(cursor[end]));
      results := results + [fulfilled];
      end := end + 1;
      i := i + 1;
    }
  }

  /** Count the settled results of `batch`: one more `processed` per
      fulfilled result, one more `errors` per rejected one. */
  method CountResults(results: seq<bool>, processed: nat, errors: nat,
                      ghost batch: seq<Entry>, oracle: Entry -> EmbedResult)
    returns (processedAfter: nat, errorsAfter: nat)
    requires |results| == |batch|
    requires forall j :: 0 <= j < |results| ==> (results[j] <==> oracle(batch[j]).Embedded?)
    ensures SumOf(Tally(processedAfter, errorsAfter), Tally(processed, errors), Tallied(batch, oracle))
  {
    processedAfter, errorsAfter := processed, errors;
    for j := 0 to |results|
      invariant SumOf(Tally(processedAfter, errorsAfter), Tally(processed, errors), Tallied(batch[..j], oracle))
    {
      if results[j] {
        processedAfter := processedAfter + 1;
      } else {
        errorsAfter := errorsAfter + 1;
      }
      assert batch[..j + 1][..j] == batch[..j];
    }
    assert batch[..|results|] == batch;
  }

  /** The batch loop of processAllDocuments over the opened cursor: per
      batch, start processing up to `batchSize` documents, count the settled
      results, and decide whether to wait. */
  method ProcessBatches(coll: Collection, cursor: seq<Entry>, totalDocs: nat, batchSize: nat, oracle: Entry -> EmbedResult, clock: Entry -> int)
    returns (reports: seq<BatchReport>, processed: nat, errors: nat)
    requires coll.Valid() && batchSize > 0
    modifies coll
    ensures coll.Valid() && coll.order == old(coll.order)
    ensures coll.docs == Backfill(old(coll.docs), cursor, oracle, clock)
    ensures reports == ReportsFrom(cursor, batchSize, 0, totalDocs, oracle, Tally(0, 0))
    ensures Tally(processed, errors) == Tallied(cursor, oracle)
  {
    ghost var docs0 := coll.docs;
    processed, errors := 0, 0;
    ghost var whole := ReportsFrom(cursor, batchSize, 0, totalDocs, oracle, Tally(processed, errors));
    var pos := 0;
    reports := [];
    while pos < |cursor|
      invariant pos <= |cursor|
      invariant coll.Valid() && coll.order == old(coll.order)
      invariant coll.docs == Backfill(docs0, cursor[..pos], oracle, clock)
      invariant Tally(processed, errors) == Tallied(cursor[..pos], oracle)
      invariant reports + ReportsFrom(cursor, batchSize, pos, totalDocs, oracle, Tally(processed, errors)) == whole
      decreases |cursor| - pos
    {
      var start := pos;
      ghost var before := Tally(processed, errors);
      var results;
      pos, results := StartBatch(coll, cursor, start, batchSize, oracle, clock, docs0);
      processed, errors := CountResults(results, processed, errors, cursor[start..pos], oracle);
      BatchLoopStep(cursor, batchSize, start, pos, totalDocs, oracle, reports, whole, before, Tally(processed, errors));
      var delayAfter := processed < totalDocs;
      reports := reports + [BatchReport(start, pos, Tally(processed, errors), delayAfter)];
    }
    assert cursor[..pos] == cursor;
  }

  /** processAllDocuments: count, exit early when nothing is pending, open
      the cursor, and run the batches over it. */
  method ProcessAllDocuments(coll: Collection, config: Config, oracle: Entry -> EmbedResult, clock: Entry -> int)
    returns (run: Run)
    requires coll.Valid()
    requires config.batchSize > 0
    modifies coll
    ensures coll.Valid() && coll.order == old(coll.order)
    ensures run == Expected(old(coll.docs), old(coll.order), config.batchSize, oracle)
    ensures coll.docs == Backfill(old(coll.docs), Cursor(old(coll.docs), old(coll.order)), oracle, clock)
    ensures run.total == 0 ==> coll.docs == old(coll.docs)
    ensures |MatchingIds(coll.docs, Pending)| == run.total - run.final.processed
  {
    ghost var docs0, order0 := coll.docs, coll.order;
    EarlyExit(docs0, order0, config.batchSize, oracle, clock);
    PendingAfterRun(docs0, order0, config.batchSize, oracle, clock);
    var totalDocs := coll.CountDocuments(Pending);
    if totalDocs == 0 {
      return Run(0, false, [], Tally(0, 0));
    }
    var cursor := coll.Find(Pending);
    var reports, processed, errors := ProcessBatches(coll, cursor, totalDocs, config.batchSize, oracle, clock);
    run := Run(totalDocs, true, reports, Tally(processed, errors));
  }

  /** The response of a throttled embedding request: wait and retry, or
      give up. */
  datatype Backoff = Retry(waitMs: nat) | GiveUp

  const RATE_LIMIT_STATUS := "429"
  const MAX_RETRIES := 3
  const BASE_WAIT_MS := 1000

  /** `fragment` occurs in `message` starting at index `i`. */
  predicate OccursAt(message: string, fragment: string, i: int) {
    0 <= i && i + |fragment| <= |message| && message[i..i + |fragment|] == fragment
  }

  /** `message.includes(fragment)`, scanning from the left. */
  function Contains(message: string, fragment: string): bool
    decreases |message|
  {
    if |fragment| > |message| then false
    else message[..|fragment|] == fragment || (message != [] && Contains(message[1..], fragment))
  }

  /** The scan finds `fragment` exactly when it occurs somewhere. */
  lemma {:induction false} ContainsIff(message: string, fragment: string)
    ensures Contains(message, fragment) <==> exists i :: OccursAt(message, fragment, i)
    decreases |message|
  {
    if |fragment| > |message| {
      forall i ensures !OccursAt(message, fragment, i) {
      }
    } else if message[..|fragment|] == fragment {
      assert OccursAt(message, fragment, 0);
    } else {
      var tail := message[1..];
      ContainsIff(tail, fragment);
      if Contains(tail, fragment) {
        var i :| OccursAt(tail, fragment, i);
        assert message[i + 1..i + 1 + |fragment|] == tail[i..i + |fragment|];
        assert OccursAt(message, fragment, i + 1);
      }
      if exists i :: OccursAt(message, fragment, i) {
        var i :| OccursAt(message, fragment, i);
        assert i != 0;
        assert tail[i - 1..i - 1 + |fragment|] == message[i..i + |fragment|];
        assert OccursAt(tail, fragment, i - 1);
      }
    }
  }

  function Pow2(n: nat): (r: nat)
    ensures r > 0
  {
    if n == 0 then 1 else 2 * Pow2(n - 1)
  }

  /** handleRateLimit: retry a "429" failure while fewer than three retries
      have been made, after waiting 2^retryCount seconds. */
  function HandleRateLimit(message: string, retryCount: nat): (d: Backoff)
    ensures d.Retry? <==> Contains(message, RATE_LIMIT_STATUS) && retryCount < MAX_RETRIES
    ensures d.Retry? ==> d.waitMs in {1000, 2000, 4000}
  {
    if Contains(message, RATE_LIMIT_STATUS) && retryCount < MAX_RETRIES then
      assert Pow2(retryCount) in {1, 2, 4} by {
        if retryCount == 1 {
          assert Pow2(1) == 2 * Pow2(0);
        } else if retryCount == 2 {
          assert Pow2(2) == 2 * Pow2(1);
        }
      }
      Retry(Pow2(retryCount) * BASE_WAIT_MS)
    else
      GiveUp
  }

  /** Each further retry waits twice as long as the one before. */
  lemma {:induction false} BackoffDoubles(message: string, retryCount: nat)
    requires HandleRateLimit(message, retryCount + 1).Retry?
    ensures HandleRateLimit(message, retryCount).Retry?
    ensures HandleRateLimit(message, retryCount + 1).waitMs == 2 * HandleRateLimit(message, retryCount).waitMs
  {
  }

  /** For a "429" message the successive decisions are: wait 1000 ms, wait
      2000 ms, wait 4000 ms, give up. */
  lemma {:induction false} BackoffSchedule(message: string)
    requires Contains(message, RATE_LIMIT_STATUS)
    ensures HandleRateLimit(message, 0) == Retry(1000)
    ensures HandleRateLimit(message, 1) == Retry(2000)
    ensures HandleRateLimit(message, 2) == Retry(4000)
    ensures forall n: nat :: n >= 3 ==> HandleRateLimit(message, n) == GiveUp
  {
  }
}
