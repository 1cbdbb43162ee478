/**
 * Read queries against a collection and the `pre(/^find/)` hook that every
 * schema with a soft-delete flag installs. A collection is a sequence of
 * documents whose index is the document's id.
 */
module Query {
  import opened Wrappers
  import opened Schema

  /** One condition of a query filter: `{ _id: id }`, `{ _id: { $ne: id } }`,
      or a condition on the document's fields. */
  datatype Cond<!T> = IdIs(id: Id) | IdNot(id: Id) | Where(holds: T -> bool)

  /** A filter is the conjunction of its conditions. */
  type Filter<!T> = seq<Cond<T>>

  predicate Satisfies<T>(id: Id, doc: T, c: Cond<T>) {
    match c
    case IdIs(j) => id == j
    case IdNot(j) => id != j
    case Where(holds) => holds(doc)
  }

  predicate Matches<T>(id: Id, doc: T, q: Filter<T>) {
    forall k :: 0 <= k < |q| ==> Satisfies(id, doc, q[k])
  }

  /** The hook `this.find({ <flag>: { $ne: false } })`: conjoins the
      soft-delete condition `live` to whatever the caller asked for. */
  function WithSoftDelete<T>(q: Filter<T>, live: T -> bool): Filter<T> {
    q + [Where(live)]
  }

  /** After the hook, a document matches iff it matched the caller's filter
      and it is live: no query can reach a deactivated document, and the
      hook hides nothing else. */
  lemma SoftDeleteMatches<T>(id: Id, doc: T, q: Filter<T>, live: T -> bool)
    ensures Matches(id, doc, WithSoftDelete(q, live)) <==> Matches(id, doc, q) && live(doc)
  {
    var r := WithSoftDelete(q, live);
    assert r[|q|] == Where(live);
    assert forall k :: 0 <= k < |q| ==> r[k] == q[k];
  }

  predicate Increasing(ids: seq<Id>) {
    forall a, b :: 0 <= a < b < |ids| ==> ids[a] < ids[b]
  }

  /** `find(filter)`: every matching document, in natural order. */
  method FindAll<T>(docs: seq<T>, q: Filter<T>) returns (ids: seq<Id>)
    ensures Increasing(ids)
    ensures forall k :: 0 <= k < |ids| ==> ids[k] < |docs| && Matches(ids[k], docs[ids[k]], q)
    ensures forall i :: 0 <= i < |docs| && Matches(i, docs[i], q) ==> i in ids
  {
    ids := [];
    var i := 0;
    while i < |docs|
      invariant i <= |docs|
      invariant Increasing(ids)
      invariant forall k :: 0 <= k < |ids| ==> ids[k] < i && Matches(ids[k], docs[ids[k]], q)
      invariant forall j :: 0 <= j < i && Matches(j, docs[j], q) ==> j in ids
    {
      if Matches(i, docs[i], q) {
        ids := ids + [i];
      }
      i := i + 1;
    }
  }

  /** `findOne(filter)`: the first matching document in natural order, or
      null when there is none. */
  method FindFirst<T>(docs: seq<T>, q: Filter<T>) returns (r: Option<Id>)
    ensures r.Some? ==> r.value < |docs| && Matches(r.value, docs[r.value], q)
    ensures r.Some? ==> forall j :: 0 <= j < r.value ==> !Matches(j, docs[j], q)
    ensures r.None? <==> forall i :: 0 <= i < |docs| ==> !Matches(i, docs[i], q)
  {
    var i := 0;
    while i < |docs|
      invariant i <= |docs|
      invariant forall j :: 0 <= j < i ==> !Matches(j, docs[j], q)
    {
      if Matches(i, docs[i], q) {
        return Some(i);
      }
      i := i + 1;
    }
    return None;
  }

  /** `find(filter)` after the soft-delete hook: the ids of the live
      documents that match, in natural order. */
  method FindLive<T>(docs: seq<T>, q: Filter<T>, live: T -> bool) returns (ids: seq<Id>)
    ensures Increasing(ids)
    ensures forall k :: 0 <= k < |ids| ==>
      ids[k] < |docs| && live(docs[ids[k]]) && Matches(ids[k], docs[ids[k]], q)
    ensures forall i :: 0 <= i < |docs| && live(docs[i]) && Matches(i, docs[i], q) ==> i in ids
  {
    ids := FindAll(docs, WithSoftDelete(q, live));
    forall k | 0 <= k < |ids|
      ensures live(docs[ids[k]]) && Matches(ids[k], docs[ids[k]], q)
    {
      SoftDeleteMatches(ids[k], docs[ids[k]], q, live);
    }
    forall i | 0 <= i < |docs| && live(docs[i]) && Matches(i, docs[i], q)
      ensures i in ids
    {
      SoftDeleteMatches(i, docs[i], q, live);
    }
  }

  /** `findOne(filter)` after the soft-delete hook. */
  method FindOneLive<T>(docs: seq<T>, q: Filter<T>, live: T -> bool) returns (r: Option<Id>)
    ensures r.Some? ==> r.value < |docs| && live(docs[r.value]) && Matches(r.value, docs[r.value], q)
    ensures r.None? <==> forall i :: 0 <= i < |docs| ==> !(live(docs[i]) && Matches(i, docs[i], q))
  {
    r := FindFirst(docs, WithSoftDelete(q, live));
    if r.Some? {
      SoftDeleteMatches(r.value, docs[r.value], q, live);
    }
    forall i | 0 <= i < |docs|
      ensures Matches(i, docs[i], WithSoftDelete(q, live)) <==> live(docs[i]) && Matches(i, docs[i], q)
    {
      SoftDeleteMatches(i, docs[i], q, live);
    }
  }

  /** `findById(id)` after the soft-delete hook: a document that is not
      live is never returned. */
  method FindLiveById<T>(docs: seq<T>, id: Id, live: T -> bool) returns (r: Option<T>)
    ensures r.Some? <==> id < |docs| && live(docs[id])
    ensures r.Some? ==> r.value == docs[id]
  {
    var found := FindOneLive(docs, [IdIs(id)], live);
    if found.Some? {
      assert Satisfies(found.value, docs[found.value], [IdIs(id)][0]);
      r := Some(docs[id]);
    } else {
      if id < |docs| {
        assert Matches(id, docs[id], [IdIs(id)]);
      }
      r := None;
    }
  }
}
