/** An in-memory model of the MongoDB `movies` collection that both scripts
    act on: documents keyed by `_id`, a natural order for unsorted `find()`,
    and the handful of server operations the scripts call. */
module Store {

  /** A document's `_id`. Natural numbers stand in for ObjectIds; the only
      property of ObjectIds the scripts rely on is their order. */
  type Id = nat

  /** A field value, distinguishing only the kinds the scripts read or write. */
  datatype Value =
    | Str(s: string)
    | Num(n: int)
    | Null
    | Vector(components: seq<real>)  // an embedding, kept opaque
    | Date(ms: int)

  /** A document's fields other than `_id`. */
  type Document = map<string, Value>

  /** A document as a cursor or `toArray()` hands it out. */
  datatype Entry = Entry(id: Id, fields: Document)

  /** One operation of a `bulkWrite` list: `{ deleteOne: { filter: { _id } } }`. */
  datatype WriteOp = DeleteOne(filterId: Id)

  /** `s[i]`, under a name of its own: `Distinct` speaks of `At`, so a
      proof that needs two positions to differ names them, instead of the
      solver comparing every pair of positions it has seen. */
  function At(s: seq<Id>, i: nat): Id
    requires i < |s|
  {
    s[i]
  }

  /** No `_id` occurs twice. */
  predicate Distinct(s: seq<Id>) {
    forall i, j :: 0 <= i < j < |s| ==> At(s, i) != At(s, j)
  }

  /** The natural order lists every stored `_id` exactly once. */
  predicate WellFormed(docs: map<Id, Document>, order: seq<Id>) {
    Distinct(order) &&
    (forall id :: id in order ==> id in docs) &&
    (forall id :: id in docs ==> id in order)
  }

  function Ids(es: seq<Entry>): seq<Id> {
    seq(|es|, k requires 0 <= k < |es| => es[k].id)
  }

  /** The `_id`s a query filter matches: what `countDocuments` counts. */
  function MatchingIds(docs: map<Id, Document>, p: Document -> bool): set<Id> {
    set id | id in docs && p(docs[id])
  }

  /** The documents that `p` matches, visited in the order `ids`: the
      snapshot a cursor over that order yields. */
  function Select(docs: map<Id, Document>, ids: seq<Id>, p: Document -> bool): (r: seq<Entry>)
    requires forall id :: id in ids ==> id in docs
    ensures |r| <= |ids|
    ensures forall k :: 0 <= k < |r| ==>
      r[k].id in ids && r[k].id in docs && r[k].fields == docs[r[k].id] && p(r[k].fields)
    ensures forall id :: id in ids && p(docs[id]) ==> id in Ids(r)
    decreases |ids|
  {
    if ids == [] then []
    else
      var rest := Select(docs, ids[1..], p);
      if p(docs[ids[0]]) then
        var e := Entry(ids[0], docs[ids[0]]);
        assert Ids([e] + rest) == [e.id] + Ids(rest);
        [e] + rest
      else rest
  }

  function IdSet(s: seq<Id>): set<Id> {
    set id | id in s
  }

  /** A stretch of a sequence without repetitions has none either. */
  lemma DistinctSlice(s: seq<Id>, a: nat, b: nat)
    requires Distinct(s) && a <= b <= |s|
    ensures Distinct(s[a..b])
  {
    forall i, j | 0 <= i < j < b - a ensures At(s[a..b], i) != At(s[a..b], j) {
      assert At(s[a..b], i) == At(s, a + i) && At(s[a..b], j) == At(s, a + j);
    }
  }

  /** The first element of a sequence without repetitions is not in the rest. */
  lemma DistinctHead(s: seq<Id>)
    requires Distinct(s) && s != []
    ensures s[0] !in s[1..] && Distinct(s[1..])
  {
    forall k | 0 <= k < |s| - 1 ensures s[1..][k] != s[0] {
      assert At(s, 0) != At(s, k + 1);
    }
    DistinctSlice(s, 1, |s|);
    assert s[1..|s|] == s[1..];
  }

  /** Putting a new id in front keeps a sequence free of repetitions. */
  lemma DistinctCons(x: Id, s: seq<Id>)
    requires x !in s && Distinct(s)
    ensures Distinct([x] + s)
  {
    var r := [x] + s;
    forall i, j | 0 <= i < j < |r| ensures At(r, i) != At(r, j) {
      assert At(r, j) == s[j - 1];
      if i > 0 {
        assert At(r, i) == At(s, i - 1) && At(r, j) == At(s, j - 1);
      }
    }
  }

  /** Over a natural order without repetitions, `find` yields no document
      twice. */
  lemma {:induction false} SelectDistinct(docs: map<Id, Document>, ids: seq<Id>, p: Document -> bool)
    requires forall id :: id in ids ==> id in docs
    requires Distinct(ids)
    ensures Distinct(Ids(Select(docs, ids, p)))
    decreases |ids|
  {
    if ids != [] {
      DistinctHead(ids);
      SelectDistinct(docs, ids[1..], p);
      var rest := Select(docs, ids[1..], p);
      if p(docs[ids[0]]) {
        var e := Entry(ids[0], docs[ids[0]]);
        assert Ids([e] + rest) == [ids[0]] + Ids(rest);
        forall k | 0 <= k < |rest| ensures Ids(rest)[k] != ids[0] {
          assert rest[k].id in ids[1..];
        }
        DistinctCons(ids[0], Ids(rest));
      }
    }
  }

  /** A sequence without repetitions has as many elements as its set. */
  lemma {:induction false} DistinctCard(s: seq<Id>)
    requires Distinct(s)
    ensures |IdSet(s)| == |s|
    decreases |s|
  {
    if s != [] {
      DistinctHead(s);
      DistinctCard(s[1..]);
      assert s == [s[0]] + s[1..];
      assert IdSet(s) == {s[0]} + IdSet(s[1..]);
    }
  }

  /** `find(filter)` over a well-formed collection yields each matching
      document exactly once, so the cursor is as long as `countDocuments`
      with the same filter says. */
  lemma SelectCount(docs: map<Id, Document>, order: seq<Id>, p: Document -> bool)
    requires WellFormed(docs, order)
    ensures var r := Select(docs, order, p);
      Distinct(Ids(r)) && IdSet(Ids(r)) == MatchingIds(docs, p) &&
      |r| == |MatchingIds(docs, p)|
  {
    var r := Select(docs, order, p);
    assert IdSet(Ids(r)) == MatchingIds(docs, p) by {
      forall id | id in Ids(r) ensures id in MatchingIds(docs, p) {
        var k :| 0 <= k < |r| && r[k].id == id;
      }
    }
    SelectDistinct(docs, order, p);
    DistinctCard(Ids(r));
  }

  /** The least element of a non-empty finite set of ids. */
  function MinOf(s: set<Id>): (m: Id)
    requires s != {}
    ensures m in s && forall k :: k in s ==> m <= k
  {
    MinExists(s);
    var m :| m in s && forall k :: k in s ==> m <= k; m
  }

  lemma {:induction false} MinExists(s: set<Id>)
    requires s != {}
    ensures exists m :: m in s && forall k :: k in s ==> m <= k
  {
    var x :| x in s;
    if s != {x} {
      MinExists(s - {x});
      var m :| m in s - {x} && forall k :: k in s - {x} ==> m <= k;
      var least := if x < m then x else m;
      forall k | k in s ensures least <= k {
        if k != x {
          assert k in s - {x};
        }
      }
    } else {
      assert forall k :: k in s ==> x <= k;
    }
  }

  /** The ids of `s` in ascending order: the order of `sort({ _id: 1 })`. */
  function Ascending(s: set<Id>): (r: seq<Id>)
    ensures |r| == |s|
    ensures forall id :: id in r <==> id in s
    ensures forall i, j :: 0 <= i < j < |r| ==> r[i] < r[j]
    decreases |s|
  {
    if s == {} then []
    else
      var m := MinOf(s);
      [m] + Ascending(s - {m})
  }

  /** `cursor.limit(n)`: at most the first `n` elements, where a limit of
      0 means no limit at all. */
  function Take<T>(s: seq<T>, n: nat): (r: seq<T>)
    ensures |r| == if n == 0 || |s| <= n then |s| else n
    ensures r == s[..|r|]
  {
    if n == 0 || |s| <= n then s else s[..n]
  }

  /** The entries of `ids`, in that order. */
  function Entries(docs: map<Id, Document>, ids: seq<Id>): seq<Entry>
    requires forall id :: id in ids ==> id in docs
  {
    seq(|ids|, k requires 0 <= k < |ids| => Entry(ids[k], docs[ids[k]]))
  }

  /** `ids` with every member of `gone` filtered out, order kept. */
  function Without(ids: seq<Id>, gone: set<Id>): (r: seq<Id>)
    ensures forall id :: id in r <==> id in ids && id !in gone
    decreases |ids|
  {
    if ids == [] then []
    else
      var rest := Without(ids[1..], gone);
      if ids[0] in gone then rest else [ids[0]] + rest
  }

  /** Filtering keeps a sequence free of repetitions. */
  lemma {:induction false} WithoutDistinct(ids: seq<Id>, gone: set<Id>)
    requires Distinct(ids)
    ensures Distinct(Without(ids, gone))
    decreases |ids|
  {
    if ids != [] {
      DistinctHead(ids);
      WithoutDistinct(ids[1..], gone);
      if ids[0] !in gone {
        DistinctCons(ids[0], Without(ids[1..], gone));
      }
    }
  }

  lemma {:induction false} WithoutTwice(ids: seq<Id>, a: set<Id>, b: set<Id>)
    ensures Without(Without(ids, a), b) == Without(ids, a + b)
    decreases |ids|
  {
    if ids != [] {
      WithoutTwice(ids[1..], a, b);
    }
  }

  /** `updateOne({ _id: id }, { $set: fields })`: a point update that
      overwrites exactly the listed fields of the one matching document. */
  function SetFields(docs: map<Id, Document>, id: Id, fields: Document): (r: map<Id, Document>)
    ensures r.Keys == docs.Keys
    ensures forall other :: other in docs && other != id ==> r[other] == docs[other]
    ensures id in docs ==> r[id].Keys == docs[id].Keys + fields.Keys
    ensures id in docs ==> forall f :: f in fields ==> r[id][f] == fields[f]
    ensures id in docs ==> forall f :: f in docs[id] && f !in fields ==> r[id][f] == docs[id][f]
  {
    if id in docs then docs[id := docs[id] + fields] else docs
  }

  /** The ids a list of delete operations targets. */
  function Targets(ops: seq<WriteOp>): set<Id> {
    set op | op in ops :: op.filterId
  }

  /** One more operation targets one more id. */
  lemma TargetsNext(ops: seq<WriteOp>, j: nat)
    requires j < |ops|
    ensures Targets(ops[..j + 1]) == Targets(ops[..j]) + {ops[j].filterId}
  {
    assert ops[..j + 1] == ops[..j] + [ops[j]];
  }

  /** The collection. `order` is the natural order an unsorted `find()`
      follows; it lists every stored `_id` once. */
  class Collection {
    var docs: map<Id, Document>
    var order: seq<Id>

    ghost predicate Valid()
      reads this
    {
      WellFormed(docs, order)
    }

    constructor (docs: map<Id, Document>, order: seq<Id>)
      requires WellFormed(docs, order)
      ensures Valid() && this.docs == docs && this.order == order
    {
      this.docs := docs;
      this.order := order;
    }

    /** `countDocuments(filter)`. */
    method CountDocuments(p: Document -> bool) returns (n: nat)
      ensures n == |MatchingIds(docs, p)|
    {
      n := |MatchingIds(docs, p)|;
    }

    /** `find(filter)`, read as a snapshot in natural order. */
    method Find(p: Document -> bool) returns (cursor: seq<Entry>)
      requires Valid()
      ensures cursor == Select(docs, order, p)
      ensures |cursor| == |MatchingIds(docs, p)|
      ensures forall k :: 0 <= k < |cursor| ==>
        cursor[k].id in docs && cursor[k].fields == docs[cursor[k].id] && p(cursor[k].fields)
    {
      cursor := Select(docs, order, p);
      SelectCount(docs, order, p);
    }

    /** `find().sort({ _id: 1 }).limit(limit).toArray()`. */
    method FindSortedById(limit: nat) returns (result: seq<Entry>)
      ensures result == Entries(docs, Take(Ascending(docs.Keys), limit))
    {
      result := Entries(docs, Take(Ascending(docs.Keys), limit));
    }

    /** `updateOne({ _id: id }, { $set: fields })`. */
    method UpdateOne(id: Id, fields: Document)
      requires Valid()
      modifies this
      ensures Valid() && order == old(order)
      ensures docs == SetFields(old(docs), id, fields)
    {
      docs := SetFields(docs, id, fields);
    }

    /** `deleteOne({ _id: id })`. */
    method DeleteOne(id: Id)
      requires Valid()
      modifies this
      ensures Valid()
      ensures docs == old(docs) - {id} && order == Without(old(order), {id})
    {
      WithoutDistinct(order, {id});
      docs := docs - {id};
      order := Without(order, {id});
    }

    /** `bulkWrite(ops)` of `deleteOne` operations, applied in list order. */
    method BulkWrite(ops: seq<WriteOp>)
      requires Valid()
      modifies this
      ensures Valid()
      ensures docs == old(docs) - Targets(ops)
      ensures order == Without(old(order), Targets(ops))
    {
      WithoutNothing(order);
      assert Targets(ops[..0]) == {};
      for j := 0 to |ops|
        invariant Valid()
        invariant docs == old(docs) - Targets(ops[..j])
        invariant order == Without(old(order), Targets(ops[..j]))
      {
        var target := ops[j].filterId;
        WithoutTwice(old(order), Targets(ops[..j]), {target});
        TargetsNext(ops, j);
        DeleteOne(target);
      }
      assert ops[..|ops|] == ops;
    }
  }

  lemma {:induction false} WithoutNothing(ids: seq<Id>)
    ensures Without(ids, {}) == ids
    decreases |ids|
  {
    if ids != [] {
      WithoutNothing(ids[1..]);
    }
  }
}
