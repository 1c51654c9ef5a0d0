/** The bulk delete script: select the first 10000 documents of `movies` by
    ascending `_id`, cut them into batches of 1000 and send each batch as
    one `bulkWrite` of `deleteOne` operations, printing the batch number
    after each. */
module BulkDelete {
  import opened Store
  import opened Batching

  const BATCH_SIZE: nat := 1000
  const SELECTION_LIMIT: nat := 10000

  /** The `_id`s `find().sort({ _id: 1 }).limit(10000)` selects. */
  function SelectedIds(docs: map<Id, Document>): seq<Id> {
    Take(Ascending(docs.Keys), SELECTION_LIMIT)
  }

  /** `docs`: the selected documents as `toArray()` returns them. */
  function Selected(docs: map<Id, Document>): seq<Entry> {
    Entries(docs, SelectedIds(docs))
  }

  /** `batch.map((doc) => ({ deleteOne: { filter: { _id: doc._id } } }))`. */
  function DeleteOps(batch: seq<Entry>): seq<WriteOp> {
    seq(|batch|, k requires 0 <= k < |batch| => DeleteOne(batch[k].id))
  }

  /** One turn of the loop: the list handed to `bulkWrite` and the number
      printed in `Deleted batch ${number}`. */
  datatype Step = Step(ops: seq<WriteOp>, number: nat)

  /** The turns of `for (; i < docs.length; i += batchSize)` from `i` on. */
  function PlanFrom(docs: seq<Entry>, i: nat): seq<Step>
    decreases |docs| - i
  {
    if i >= |docs| then []
    else
      [Step(DeleteOps(docs[i..Min(i + BATCH_SIZE, |docs|)]), i / BATCH_SIZE + 1)]
        + PlanFrom(docs, i + BATCH_SIZE)
  }

  function Plan(docs: seq<Entry>): seq<Step> {
    PlanFrom(docs, 0)
  }

  /** Every operation sent, batch after batch. */
  function AllOps(steps: seq<Step>): seq<WriteOp> {
    if steps == [] then [] else steps[0].ops + AllOps(steps[1..])
  }

  /** The selection is the `min(n, 10000)` smallest `_id`s of the collection,
      in strictly ascending order: every `_id` left out is larger than every
      one selected. */
  lemma SelectionSmallest(docs: map<Id, Document>)
    ensures var sel := SelectedIds(docs);
      && |sel| == Min(|docs|, SELECTION_LIMIT)
      && (forall k :: 0 <= k < |sel| ==> sel[k] in docs)
      && (forall i, j :: 0 <= i < j < |sel| ==> sel[i] < sel[j])
      && (forall id, k :: id in docs && id !in sel && 0 <= k < |sel| ==> sel[k] < id)
  {
    var all := Ascending(docs.Keys);
    var sel := SelectedIds(docs);
    assert |docs| == |docs.Keys|;
    assert forall t :: 0 <= t < |sel| ==> sel[t] == all[t];
    forall id, k | id in docs && id !in sel && 0 <= k < |sel| ensures sel[k] < id {
      var j :| 0 <= j < |all| && all[j] == id;
      assert |sel| <= j;
      assert sel[k] == all[k] < all[j];
    }
  }

  /** `toArray()` hands out the selected `_id`s, in order. */
  lemma SelectedIdsOf(docs: map<Id, Document>)
    ensures Ids(Selected(docs)) == SelectedIds(docs)
  {
  }

  /** The selection names `min(n, 10000)` different stored documents. */
  lemma SelectionDistinct(docs: map<Id, Document>)
    ensures IdSet(SelectedIds(docs)) <= docs.Keys
    ensures |IdSet(SelectedIds(docs))| == Min(|docs|, SELECTION_LIMIT)
  {
    var sel := SelectedIds(docs);
    SelectionSmallest(docs);
    assert Distinct(sel) by {
      forall i, j | 0 <= i < j < |sel| ensures At(sel, i) != At(sel, j) {
        assert sel[i] < sel[j];
      }
    }
    DistinctCard(sel);
  }

  /** The script removes exactly the selected documents and leaves every
      other document as it was. */
  lemma SampleDeleted(docs: map<Id, Document>)
    ensures var after := docs - IdSet(Ids(Selected(docs)));
      && (forall id :: id in after <==> id in docs && id !in SelectedIds(docs))
      && (forall id :: id in after ==> after[id] == docs[id])
  {
    SelectedIdsOf(docs);
  }

  /** It removes `min(n, 10000)` of the `n` stored documents. */
  lemma SampleDeletedCount(docs: map<Id, Document>)
    ensures |docs - IdSet(Ids(Selected(docs)))| == |docs| - Min(|docs|, SELECTION_LIMIT)
  {
    SelectedIdsOf(docs);
    SelectionDistinct(docs);
    var gone := IdSet(SelectedIds(docs));
    assert (docs - gone).Keys == docs.Keys - gone;
    CardMinus(docs.Keys, gone);
  }

  lemma CardMinus(keys: set<Id>, gone: set<Id>)
    requires gone <= keys
    ensures |keys - gone| == |keys| - |gone|
  {
    assert keys == (keys - gone) + gone;
  }

  /** Each operation deletes exactly the document it was made from. */
  lemma DeleteOpsTargets(batch: seq<Entry>)
    ensures |DeleteOps(batch)| == |batch|
    ensures Targets(DeleteOps(batch)) == IdSet(Ids(batch))
  {
    var ops := DeleteOps(batch);
    forall id | id in IdSet(Ids(batch)) ensures id in Targets(ops) {
      var k :| 0 <= k < |batch| && Ids(batch)[k] == id;
      assert ops[k] in ops;
    }
    forall id | id in Targets(ops) ensures id in IdSet(Ids(batch)) {
      var op :| op in ops && op.filterId == id;
      var k :| 0 <= k < |ops| && ops[k] == op;
      assert Ids(batch)[k] == id;
    }
  }

  /** Mapping a split sequence maps each part. */
  lemma DeleteOpsAppend(a: seq<Entry>, b: seq<Entry>)
    ensures DeleteOps(a + b) == DeleteOps(a) + DeleteOps(b)
  {
  }

  /** Turn `k` from `i` sends the operations for chunk `k` that
      `Batching.ChunksFrom` cuts at `i`, and prints `i / 1000 + k + 1`. */
  lemma {:induction false} PlanChunks(docs: seq<Entry>, i: nat)
    ensures |PlanFrom(docs, i)| == |ChunksFrom(docs, BATCH_SIZE, i)|
    ensures forall k :: 0 <= k < |PlanFrom(docs, i)| ==>
      PlanFrom(docs, i)[k] == Step(DeleteOps(ChunksFrom(docs, BATCH_SIZE, i)[k]), i / BATCH_SIZE + k + 1)
    decreases |docs| - i
  {
    if i < |docs| {
      var e := Min(i + BATCH_SIZE, |docs|);
      var p := PlanFrom(docs, i);
      var c := ChunksFrom(docs, BATCH_SIZE, i);
      var prest := PlanFrom(docs, i + BATCH_SIZE);
      var crest := ChunksFrom(docs, BATCH_SIZE, i + BATCH_SIZE);
      assert p == [Step(DeleteOps(docs[i..e]), i / BATCH_SIZE + 1)] + prest;
      assert c == [docs[i..e]] + crest;
      PlanChunks(docs, i + BATCH_SIZE);
      forall k | 0 < k < |p|
        ensures p[k] == Step(DeleteOps(c[k]), i / BATCH_SIZE + k + 1)
      {
        assert p[k] == prest[k - 1] && c[k] == crest[k - 1];
      }
    }
  }

  /** There are ceil(n / 1000) turns for `n` selected documents, none when
      nothing was selected. */
  lemma PlanCount(docs: seq<Entry>)
    ensures var c := |Plan(docs)|;
      && (c - 1) * BATCH_SIZE < |docs| <= c * BATCH_SIZE
      && (c == 0 <==> docs == [])
  {
    PlanChunks(docs, 0);
    ChunkCount(docs, BATCH_SIZE, 0);
  }

  /** Turn `k` deletes the documents at positions `k * 1000` up to
      `(k + 1) * 1000`, or to the end of the selection: between 1 and 1000
      of them; and it prints `k + 1`. */
  lemma PlanAt(docs: seq<Entry>, k: nat)
    requires k < |Plan(docs)|
    ensures var start := k * BATCH_SIZE;
      var step := Plan(docs)[k];
      && start < |docs|
      && step.ops == DeleteOps(docs[start..Min(start + BATCH_SIZE, |docs|)])
      && 1 <= |step.ops| <= BATCH_SIZE
      && step.number == k + 1
  {
    PlanChunks(docs, 0);
    ChunkAt(docs, BATCH_SIZE, 0, k);
    ChunkSizes(docs, BATCH_SIZE, 0);
    BatchStartIs(0, BATCH_SIZE, k);
  }

  /** Sent one after the other, the turns delete the selection in order,
      each document once. */
  lemma {:induction false} PlanCovers(docs: seq<Entry>, i: nat)
    requires i <= |docs|
    ensures AllOps(PlanFrom(docs, i)) == DeleteOps(docs[i..])
    decreases |docs| - i
  {
    if i < |docs| {
      var e := Min(i + BATCH_SIZE, |docs|);
      var step := Step(DeleteOps(docs[i..e]), i / BATCH_SIZE + 1);
      var rest := PlanFrom(docs, i + BATCH_SIZE);
      assert PlanFrom(docs, i) == [step] + rest;
      AllOpsCons(step, rest);
      DeleteOpsAppend(docs[i..e], docs[e..]);
      SliceSplit(docs, i, e);
      if i + BATCH_SIZE < |docs| {
        PlanCovers(docs, i + BATCH_SIZE);
      } else {
        assert rest == [] && docs[e..] == [];
        assert AllOps(rest) == [];
      }
    }
  }

  lemma AllOpsCons(step: Step, steps: seq<Step>)
    ensures AllOps([step] + steps) == step.ops + AllOps(steps)
  {
    assert ([step] + steps)[1..] == steps;
  }

  /** With distinct `_id`s, two different turns never target the same
      document. */
  lemma PlanDisjoint(docs: seq<Entry>, k: nat, l: nat)
    requires Distinct(Ids(docs))
    requires k < l < |Plan(docs)|
    ensures Targets(Plan(docs)[k].ops) !! Targets(Plan(docs)[l].ops)
  {
    var plan := Plan(docs);
    PlanAt(docs, k);
    PlanAt(docs, l);
    var sk, sl := k * BATCH_SIZE, l * BATCH_SIZE;
    var ek, el := Min(sk + BATCH_SIZE, |docs|), Min(sl + BATCH_SIZE, |docs|);
    assert ek <= sl;
    DeleteOpsTargets(docs[sk..ek]);
    DeleteOpsTargets(docs[sl..el]);
    forall id | id in Targets(plan[k].ops) ensures id !in Targets(plan[l].ops) {
      var p :| 0 <= p < ek - sk && Ids(docs[sk..ek])[p] == id;
      forall q | 0 <= q < el - sl ensures Ids(docs[sl..el])[q] != id {
        assert At(Ids(docs), sk + p) != At(Ids(docs), sl + q);
      }
    }
  }

  /** The ids of a prefix grow by the ids of the next stretch. */
  lemma IdSetSplit(docs: seq<Entry>, i: nat, e: nat)
    requires i <= e <= |docs|
    ensures IdSet(Ids(docs[..e])) == IdSet(Ids(docs[..i])) + IdSet(Ids(docs[i..e]))
  {
    assert Ids(docs[..e]) == Ids(docs[..i]) + Ids(docs[i..e]);
  }

  /** One turn of the loop: after `bulkWrite` of the batch at `i` the store
      has lost the selection up to that batch's end, and the turns still to
      come are those from `i + 1000`. */
  lemma DeleteStep(docs: seq<Entry>, i: nat, before: map<Id, Document>,
                   now: map<Id, Document>, steps: seq<Step>)
    requires i < |docs|
    requires steps + PlanFrom(docs, i) == Plan(docs)
    requires now == before - IdSet(Ids(docs[..i]))
    ensures var e := Min(i + BATCH_SIZE, |docs|);
      var step := Step(DeleteOps(docs[i..e]), i / BATCH_SIZE + 1);
      && steps + [step] + PlanFrom(docs, i + BATCH_SIZE) == Plan(docs)
      && now - Targets(step.ops) == before - IdSet(Ids(docs[..e]))
  {
    var e := Min(i + BATCH_SIZE, |docs|);
    var step := Step(DeleteOps(docs[i..e]), i / BATCH_SIZE + 1);
    assert PlanFrom(docs, i) == [step] + PlanFrom(docs, i + BATCH_SIZE);
    DeleteOpsTargets(docs[i..e]);
    IdSetSplit(docs, i, e);
  }

  /** The `for` loop over the selection `docs`: one `bulkWrite` per batch
      of at most 1000, each followed by its batch number. */
  method DeleteBatches(coll: Collection, docs: seq<Entry>) returns (steps: seq<Step>)
    requires coll.Valid()
    modifies coll
    ensures coll.Valid()
    ensures steps == Plan(docs)
    ensures coll.docs == old(coll.docs) - IdSet(Ids(docs))
    ensures coll.order == Without(old(coll.order), IdSet(Ids(docs)))
  {
    ghost var before := coll.docs;
    ghost var order0 := coll.order;
    steps := [];
    var i := 0;
    assert before - IdSet(Ids(docs[..0])) == before;
    assert IdSet(Ids(docs[..0])) == {};
    WithoutNothing(order0);
    while i < |docs|
      invariant coll.Valid()
      invariant steps + PlanFrom(docs, i) == Plan(docs)
      invariant coll.docs == before - IdSet(Ids(docs[..Min(i, |docs|)]))
      invariant coll.order == Without(order0, IdSet(Ids(docs[..Min(i, |docs|)])))
      decreases |docs| - i
    {
      var end := Min(i + BATCH_SIZE, |docs|);
      var batch := DeleteOps(docs[i..end]);
      DeleteStep(docs, i, before, coll.docs, steps);
      DeleteOpsTargets(docs[i..end]);
      IdSetSplit(docs, i, end);
      WithoutTwice(order0, IdSet(Ids(docs[..i])), Targets(batch));
      coll.BulkWrite(batch);
      steps := steps + [Step(batch, i / BATCH_SIZE + 1)];
      i := i + BATCH_SIZE;
    }
    assert docs[..|docs|] == docs;
  }

  /** The script: select, then delete batch by batch. `found` is the count
      printed in `Found ${docs.length} docs to delete`, `steps` the
      `bulkWrite` calls with the batch numbers printed after them. */
  method DeleteSample(coll: Collection) returns (found: nat, steps: seq<Step>)
    requires coll.Valid()
    modifies coll
    ensures coll.Valid()
    ensures found == |Selected(old(coll.docs))|
    ensures steps == Plan(Selected(old(coll.docs)))
    ensures coll.docs == old(coll.docs) - IdSet(Ids(Selected(old(coll.docs))))
    ensures coll.order == Without(old(coll.order), IdSet(Ids(Selected(old(coll.docs)))))
  {
    var docs := coll.FindSortedById(SELECTION_LIMIT);
    found := |docs|;
    steps := DeleteBatches(coll, docs);
  }
}
