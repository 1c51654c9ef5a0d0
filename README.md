# Backfill and bulk delete over a document collection, in Dafny

This project models the two loops of a small MongoDB tooling repository
that carry logic of their own:

- **The embedding backfill** (`bulk-embeddings-generator.js`).
  `processAllDocuments` counts the `movies` documents that have a
  non-empty `plot` and no `plot_embedding`, and stops early when there are
  none. Otherwise it opens a cursor with the same filter and walks it in
  batches of `config.batchSize` (10). It runs `processDocument` on every
  document of a batch and waits for all of them to settle. It then counts
  fulfilled results into `processed` and rejected ones into `errors`, and
  waits `delayBetweenRequests` before the next batch while
  `processed < totalDocs`. `processDocument` asks the embedding service
  for the plot's vector. On success it `$set`s `plot_embedding` and
  `embedding_generated_at` on that one document; on failure it writes
  nothing and rethrows. `handleRateLimit` is the exponential backoff
  decision for a "429" error.
- **The bulk delete** (`bulk-delete.js`). It selects the first 10000
  documents by ascending `_id` and slices them into batches of 1000. It
  sends each batch as one `bulkWrite` of `deleteOne`-by-`_id` operations
  and prints `Deleted batch i / 1000 + 1` after each.

The Dafny modules follow that structure:

- `Store` (`store.dfy`) is the in-memory collection that both scripts act
  on. The `Collection` class holds a map from `_id` to document and the
  natural order an unsorted `find()` follows. Its methods model
  `countDocuments`, `find`, `find().sort({_id: 1}).limit(n)`, `updateOne`
  with `$set`, `deleteOne` and `bulkWrite`.
- `Batching` (`batching.dfy`) covers the slicing loop
  `for (i = 0; i < n; i += size) s.slice(i, i + size)` of the bulk delete.
  `ChunksFrom` is that loop as a function, with its count, size,
  position and concatenation properties. The backfill slices nothing: it
  reads its cursor with `hasNext`/`next` until a batch is full. That the
  batches it reads are exactly the slices `ChunksFrom` cuts from the
  cursor is a theorem of the model (`ReportsChunk`, `BatchIsChunk`).
- `EmbeddingsGenerator` (`embeddings_generator.dfy`) holds the imperative
  loops and their specification functions. The methods are
  `ProcessDocument`, `StartBatch` (the inner `for` loop), `CountResults`
  (the `forEach` over settled results), `ProcessBatches` (the `while`
  loop) and `ProcessAllDocuments`. `Expected` describes a whole run, and
  `Backfill` the store after it. `handleRateLimit` is the pure function
  `HandleRateLimit`.
- `BulkDelete` (`bulk_delete.dfy`) holds the selection and the delete
  loop. `DeleteBatches` is the `for` loop and `DeleteSample` the whole
  script. `Plan` lists the `bulkWrite` calls and printed batch numbers
  the loop produces.

Inputs from outside the program are parameters:

- The embedding service is an oracle `Entry -> EmbedResult`, giving for
  each document either a vector or a failure.
- The clock behind `new Date()` is the parameter `clock`, which gives the
  time read when a document is written. Methods and lemmas about a
  single write take that one time as `now`.
- The documents of one batch settle independently and each exactly once,
  so `Promise.allSettled` is modelled as processing them one after the
  other.
- The cursor is the snapshot `Select(docs, order, Pending)` taken when
  the loop starts.

Two behaviours of the code are worth knowing:

- The delay test compares `processed`, not `processed + errors`, with
  `totalDocs`. A run in which any document failed therefore also waits
  after its last batch (`DelayRule`, `TwentyFiveDocumentsOneFailure`).
- The header comment of `bulk-delete.js` speaks of 20000 documents, but
  the code's `.limit(10000)` governs, and the model follows the code.

## Model

| member | source | states |
|---|---|---|
| Store.Collection.CountDocuments | bulk-embeddings-generator.js:63-66 | `totalDocs` is the number of stored documents the filter matches |
| Store.Collection.Find | bulk-embeddings-generator.js:79-82 | the cursor is the matching documents in natural order, each with its stored fields, and it is exactly as long as `countDocuments` says |
| Store.SelectCount | bulk-embeddings-generator.js:63-82 | over a collection whose natural order lists each `_id` once, `find` yields each matching document exactly once and nothing else |
| Store.Collection.UpdateOne | bulk-embeddings-generator.js:141-149 | `updateOne({_id}, {$set})` replaces the document with its `$set` merge and keeps the collection well formed |
| Store.SetFields | bulk-embeddings-generator.js:141-149 | `$set` on one `_id` overwrites exactly the listed fields of that document, keeps its other fields, and leaves every other document and the key set as they were |
| Store.Collection.DeleteOne | bulk-delete.js:10-11 | `deleteOne({_id})` removes that one document and its place in the natural order |
| Store.Collection.BulkWrite | bulk-delete.js:14 | `bulkWrite` of `deleteOne` operations removes exactly the targeted `_id`s and keeps the rest of the collection |
| Store.Ascending | bulk-delete.js:6 | `sort({_id: 1})` lists every `_id` of the set exactly once, in strictly ascending order |
| Store.Take | bulk-delete.js:6 | `limit(n)` for `n > 0` keeps the first `min(len, n)` elements, and `limit(0)` is no limit and keeps them all |
| Store.Collection.FindSortedById | bulk-delete.js:6 | `find().sort({_id: 1}).limit(n).toArray()` is the documents of the first `n` ascending `_id`s for `n > 0`, and of all of them for `n = 0` |
| Batching.ChunkSizes | bulk-delete.js:9-10 | every batch the slicing loop cuts holds at least one and at most `batchSize` elements |
| Batching.ChunkCount | bulk-delete.js:9 | the slicing loop cuts `ceil(len / batchSize)` batches |
| Batching.ChunkAt | bulk-delete.js:9-10 | batch `k` is the slice that starts at `k * batchSize` and ends `batchSize` later or at the end |
| Batching.FlattenChunks | bulk-delete.js:9-10 | concatenated in order, the batches give back exactly the sliced sequence |
| Batching.BatchStartIs | bulk-delete.js:9 | after `k` steps of `i += batchSize`, `i` is `k * batchSize` |
| EmbeddingsGenerator.Write | bulk-embeddings-generator.js:129-159 | after processDocument settles: on success only `plot_embedding` and `embedding_generated_at` of the document with that `_id` change, the document stops matching the pending filter, and all other fields and documents stay; on failure nothing is written |
| EmbeddingsGenerator.ProcessDocument | bulk-embeddings-generator.js:129-159 | the promise is fulfilled iff the embedding request succeeds, and the store afterwards is `Write` of the old store |
| EmbeddingsGenerator.ReapplyEmbedding | bulk-embeddings-generator.js:141-149 | writing the same successful result twice is the same as writing it once at the later time: `plot_embedding` keeps its value, only `embedding_generated_at` is re-stamped, and with the same clock the second write changes nothing |
| EmbeddingsGenerator.WritePending | bulk-embeddings-generator.js:141-149 | a successful write takes its document out of the pending set and changes no other document's status; a failed one changes nothing |
| EmbeddingsGenerator.TalliedSize | bulk-embeddings-generator.js:97-104 | every settled result is counted exactly once: `processed + errors` is the number of results |
| EmbeddingsGenerator.TalliedCountsOutcomes | bulk-embeddings-generator.js:97-104 | `errors` is the number of rejected results and `processed` the number of fulfilled ones |
| EmbeddingsGenerator.TalliedAppend | bulk-embeddings-generator.js:94-104 | counting two stretches of results one after the other adds their counts |
| EmbeddingsGenerator.BackfillPending | bulk-embeddings-generator.js:141-149 | backfilling keeps the set of `_id`s and removes from the pending set exactly the documents whose embedding succeeded |
| EmbeddingsGenerator.SucceededCount | bulk-embeddings-generator.js:97-104 | without repeated `_id`s, `processed` is the number of documents that received an embedding |
| EmbeddingsGenerator.ReportsCount | bulk-embeddings-generator.js:84-91 | the batches the `hasNext`/`next` loop reads give one progress report each, as many as the slices `ChunksFrom` cuts from the cursor |
| EmbeddingsGenerator.ReportsBound | bulk-embeddings-generator.js:84-91 | there are `ceil(len / batchSize)` batches |
| EmbeddingsGenerator.ReportsShape | bulk-embeddings-generator.js:84-91 | batch `k` starts at `k` steps of `batchSize`, ends `batchSize` later or at the end of the cursor, and is the last batch iff it reaches the end |
| EmbeddingsGenerator.ReportsStep | bulk-embeddings-generator.js:94-113 | each batch adds its own results to the counters the previous batch left, and it is followed by a delay iff `processed < totalDocs` |
| EmbeddingsGenerator.BatchLoopStep | bulk-embeddings-generator.js:84-113 | one turn of the `while` loop appends exactly the next report and keeps the counters equal to the count of everything read so far |
| EmbeddingsGenerator.CountAndCursorAgree | bulk-embeddings-generator.js:63-82 | the count and the cursor use the same filter: the cursor yields every pending document once and nothing else, so it is `totalDocs` long |
| EmbeddingsGenerator.EarlyExit | bulk-embeddings-generator.js:70-73 | `totalDocs == 0` iff nothing is pending; then no cursor is opened, there are no batches and no document is written; otherwise at least one batch runs |
| EmbeddingsGenerator.ReportsTile | bulk-embeddings-generator.js:84-91 | the batches are non-empty, at most `batchSize` long, consecutive from 0, full except the last, and the last ends the cursor |
| EmbeddingsGenerator.ReportsProgress | bulk-embeddings-generator.js:94-108 | after batch `k` the counters are the counts of every document read so far |
| EmbeddingsGenerator.ReportsChunk | bulk-embeddings-generator.js:84-91 | batch `k` holds the `_id`s of the `k`-th slice of the cursor's `_id`s |
| EmbeddingsGenerator.ReportsCounters | bulk-embeddings-generator.js:94-108 | each batch raises `processed + errors` by exactly its size, and after the last batch the counters are those of the whole cursor |
| EmbeddingsGenerator.ReportsDelay | bulk-embeddings-generator.js:110-113 | with `totalDocs` the cursor's length, there is a delay after every batch but the last, and after the last one iff some document failed |
| EmbeddingsGenerator.BatchAt | bulk-embeddings-generator.js:84-91 | for a run, the batches split `0..totalDocs` into consecutive stretches of `batchSize`, the last one possibly shorter |
| EmbeddingsGenerator.BatchIsChunk | bulk-embeddings-generator.js:84-91 | for a run, batch `k` is the `k`-th slice of the pending `_id`s |
| EmbeddingsGenerator.BatchCount | bulk-embeddings-generator.js:84-91 | a run has `ceil(totalDocs / batchSize)` batches |
| EmbeddingsGenerator.ProgressAfterBatch | bulk-embeddings-generator.js:94-108 | for a run, each batch adds its own results to the counters, and the last progress line shows the final counters |
| EmbeddingsGenerator.DelayRule | bulk-embeddings-generator.js:110-113 | for a run, a delay follows a batch iff `processed < totalDocs`: after every batch but the last, and after the last iff some document failed |
| EmbeddingsGenerator.FailedStayPending | bulk-embeddings-generator.js:141-149 | after the backfill, a document of the cursor is still pending iff its request failed |
| EmbeddingsGenerator.PendingCount | bulk-embeddings-generator.js:141-149 | the backfill lowers the pending count by exactly `processed` |
| EmbeddingsGenerator.PendingAfterRun | bulk-embeddings-generator.js:141-149 | after a run the pending count is `totalDocs - processed`, the failed documents are exactly the ones still pending, and no document was added or removed |
| EmbeddingsGenerator.TwentyFiveEntriesBatches | bulk-embeddings-generator.js:84-91 | 25 documents in batches of 10 give batches `0..10`, `10..20` and `20..25` |
| EmbeddingsGenerator.TwentyFiveDocumentsOneFailure | bulk-embeddings-generator.js:84-113 | 25 pending documents, `batchSize` 10 and one failure in the second batch give counters 10/0, 19/1 and 24/1, a delay after all three batches, and one document still pending |
| EmbeddingsGenerator.StartBatch | bulk-embeddings-generator.js:88-91 | the inner `for` loop reads `min(batchSize, remaining)` documents, processes each in order, and collects which were fulfilled |
| EmbeddingsGenerator.CountResults | bulk-embeddings-generator.js:94-104 | the `forEach` adds one to `processed` per fulfilled result and one to `errors` per rejected one |
| EmbeddingsGenerator.ProcessBatches | bulk-embeddings-generator.js:84-114 | the `while` loop yields exactly the reports of `ReportsFrom`, final counters equal to the count of the whole cursor, and the backfilled store |
| EmbeddingsGenerator.ProcessAllDocuments | bulk-embeddings-generator.js:50-126 | the run is `Expected`; the store is the backfill of the cursor, unchanged when nothing was pending; the pending count after the run is `totalDocs - processed` |
| EmbeddingsGenerator.ContainsIff | bulk-embeddings-generator.js:164 | `message.includes("429")` holds iff "429" occurs somewhere in the message |
| EmbeddingsGenerator.HandleRateLimit | bulk-embeddings-generator.js:163-171 | retry iff the message contains "429" and `retryCount < 3`; the wait is then 1000, 2000 or 4000 ms |
| EmbeddingsGenerator.BackoffDoubles | bulk-embeddings-generator.js:165 | each further retry waits twice as long as the one before |
| EmbeddingsGenerator.BackoffSchedule | bulk-embeddings-generator.js:163-171 | for a "429" message the decisions are: wait 1000 ms, 2000 ms, 4000 ms, then give up for good |
| BulkDelete.SelectionSmallest | bulk-delete.js:6 | the selection is `min(n, 10000)` stored `_id`s in strictly ascending order, and every `_id` left out is larger than every one selected |
| BulkDelete.SelectionDistinct | bulk-delete.js:6 | the selection names `min(n, 10000)` different stored documents |
| BulkDelete.SampleDeleted | bulk-delete.js:6-16 | the script removes exactly the selected documents and leaves every other document as it was |
| BulkDelete.SampleDeletedCount | bulk-delete.js:6-16 | the script removes `min(n, 10000)` of the `n` stored documents |
| BulkDelete.DeleteOpsTargets | bulk-delete.js:10-12 | there is one operation per document of the batch, and the operations target exactly the batch's `_id`s |
| BulkDelete.PlanChunks | bulk-delete.js:9-15 | turn `k` of the loop sends the deletes for the `k`-th slice and prints `i / 1000 + k + 1` |
| BulkDelete.PlanCount | bulk-delete.js:9 | there are `ceil(n / 1000)` turns, and none when nothing was selected |
| BulkDelete.PlanAt | bulk-delete.js:9-15 | turn `k` deletes the documents at positions `k * 1000` up to `(k + 1) * 1000` or the end, between 1 and 1000 of them, and prints `k + 1` |
| BulkDelete.PlanCovers | bulk-delete.js:9-14 | the operations of all turns, in order, are one delete per selected document, in selection order |
| BulkDelete.PlanDisjoint | bulk-delete.js:9-14 | with distinct `_id`s, two different turns never target the same document |
| BulkDelete.DeleteStep | bulk-delete.js:9-16 | one turn of the loop removes the next batch, and the turns still to come are those from `i + 1000` |
| BulkDelete.DeleteBatches | bulk-delete.js:9-16 | the loop performs exactly the turns of `Plan`, and the store loses exactly the selected `_id`s, the remaining documents keeping their natural order |
| BulkDelete.DeleteSample | bulk-delete.js:5-16 | the script reports `min(n, 10000)` documents found, performs the turns of `Plan` over the selection, and removes exactly the selection, the remaining documents keeping their natural order |

## Left out

- The embedding HTTP request (`getEmbeddings`) is replaced by the oracle parameter. Its status codes, response parsing and vector contents (opaque `seq<real>`) are not modelled.
- Connecting to and closing the MongoDB client, all `console.log`/`print` output, the `try`/`catch`/`finally` around each script and the top-level `.catch` are left out. The printed values that carry information are kept as outputs: the progress counters, the found count and the batch numbers.
- The timing of `delay`/`setTimeout` is left out; only the decision to wait (`delayAfter`) is recorded.
- `Promise.allSettled` concurrency is not modelled: each batch's documents are processed one after another, which is equivalent because their outcomes are independent and each is counted once.
- Store failures are not modelled. `updateOne` and `bulkWrite` never fail in the in-memory store, so a rejected `processDocument` comes only from the embedding request, and the delete script never stops early.
- The cursor is a snapshot taken when the loop starts. Changes that other clients make to the collection while the cursor is open are not modelled.
- `ObjectId`s are natural numbers; only their order matters to the scripts.
- `EmbeddingsGenerator.ProcessBatches`, `EmbeddingsGenerator.ProcessAllDocuments`: require `batchSize > 0`; with a batch size of 0 the script's `while` loop would never end (the configured value is 10).
- `EmbeddingsGenerator.HandleRateLimit`: `retryCount` is a natural number with no default; the script's default `retryCount = 0` is the call `HandleRateLimit(message, 0)`, and negative or fractional retry counts are not modelled. The script never calls `handleRateLimit`, and so no retry is wrapped around the embedding request in the model either.
- `BulkDelete.PlanFrom` computes the printed number `i / batchSize + 1` with integer division. JavaScript divides in floating point, but `i` is always a multiple of 1000, so the two agree (`PlanAt` shows the number is `k + 1`).
- atlas-vector-search.js and create-search-index.js are not part of this model: the first is a single remote `$vectorSearch` query plus display, the second a declarative index definition.
