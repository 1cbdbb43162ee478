/**
 * A collection of items and what `item.model.js` installs on it: the
 * `pre(/^find/)` soft-delete filter, which on this schema tests `active`
 * rather than `isActive`, and the `isEmailTaken`, `isPasswordMatch` and
 * `pre('save')` members copied from the account schemas although the item
 * schema declares neither `email` nor `password`.
 *
 * A document's id is its index in `docs`.
 */
module ItemStore {
  import opened Wrappers
  import opened Schema
  import opened Query
  import opened Items

  /** `bcrypt.compare(password, undefined)` rejects with "Illegal arguments". */
  datatype CompareError = IllegalArguments

  class ItemCollection {
    /** Whether queries drop conditions on paths the schema does not declare
        (Mongoose's `strictQuery` option, whose default differs between
        major versions). */
    const strictQuery: bool
    var docs: seq<Item>

    /** Every stored item passed validation when it was saved. */
    ghost predicate Valid()
      reads this
    {
      forall i :: 0 <= i < |docs| ==> ItemWellFormed(docs[i])
    }

    /** A document a find-style query can see: the hook's `active != false`. */
    static predicate Live(it: Item) {
      it.active
    }

    constructor (strictQuery: bool)
      ensures this.strictQuery == strictQuery
      ensures docs == [] && Valid()
    {
      this.strictQuery := strictQuery;
      docs := [];
    }

    /** The `pre('save')` hook. An item has no `password` path, so strict
        mode never lets one be set, `isModified('password')` is false, and
        the hook leaves every declared item field as it was. */
    method PreSave(doc: Item) returns (saved: Item)
      ensures saved == doc
    {
      saved := doc;
    }

    /** `Item.create(body)`: build, validate, run the hook, insert. */
    method Create(d: ItemDraft) returns (r: Result<Id, SaveError<ItemPath>>)
      requires Valid()
      modifies this
      ensures Valid()
      ensures r.Ok? <==> ItemWellFormed(PrepareItem(d))
      ensures r.Ok? ==> r.value == |old(docs)| && docs == old(docs) + [PrepareItem(d)]
      ensures r.Err? ==>
        && docs == old(docs)
        && r.error == ValidationError(ItemErrors(PrepareItem(d)))
    {
      var v := ValidateItem(d);
      match v
      case Err(errs) =>
        r := Err(ValidationError(errs));
      case Ok(it) =>
        var saved := PreSave(it);
        docs := docs + [saved];
        r := Ok(|docs| - 1);
    }

    /** `Object.assign(item, body); item.save()` on the item loaded under
        `id`: the merged document is validated as a whole and replaces the
        stored one. Loading goes through `findById`, so an unknown or
        deactivated id is not found. */
    method Update(id: Id, d: ItemDraft) returns (r: Result<(), SaveError<ItemPath>>)
      requires Valid()
      modifies this
      ensures Valid()
      ensures r == Err(NotFound) <==> id >= |old(docs)| || !Live(old(docs)[id])
      ensures r.Ok? <==>
        id < |old(docs)| && Live(old(docs)[id]) && ItemWellFormed(AssignItem(old(docs)[id], d))
      ensures r.Err? ==> docs == old(docs)
      ensures r.Ok? ==>
        && ItemWellFormed(AssignItem(old(docs)[id], d))
        && docs == old(docs)[id := AssignItem(old(docs)[id], d)]
      ensures r.Err? && r != Err(NotFound) ==>
        r.error == ValidationError(ItemErrors(AssignItem(old(docs)[id], d)))
    {
      if id >= |docs| || !Live(docs[id]) {
        return Err(NotFound);
      }
      var merged := AssignItem(docs[id], d);
      var errs := ItemErrors(merged);
      if errs != [] {
        return Err(ValidationError(errs));
      }
      var saved := PreSave(merged);
      docs := docs[id := saved];
      r := Ok(());
    }

    /** `find(filter)` after the soft-delete hook. */
    method Find(q: Filter<Item>) returns (ids: seq<Id>)
      ensures Increasing(ids)
      ensures forall k :: 0 <= k < |ids| ==>
        ids[k] < |docs| && Live(docs[ids[k]]) && Matches(ids[k], docs[ids[k]], q)
      ensures forall i :: 0 <= i < |docs| && Live(docs[i]) && Matches(i, docs[i], q) ==> i in ids
    {
      ids := FindLive(docs, q, Live);
    }

    /** `findOne(filter)` after the soft-delete hook. */
    method FindOne(q: Filter<Item>) returns (r: Option<Id>)
      ensures r.Some? ==> r.value < |docs| && Live(docs[r.value]) && Matches(r.value, docs[r.value], q)
      ensures r.None? <==> forall i :: 0 <= i < |docs| ==> !(Live(docs[i]) && Matches(i, docs[i], q))
    {
      r := FindOneLive(docs, q, Live);
    }

    /** `findById(id)`: an item whose `active` is false is never returned. */
    method FindById(id: Id) returns (r: Option<Item>)
      ensures r.Some? <==> id < |docs| && Live(docs[id])
      ensures r.Some? ==> r.value == docs[id]
    {
      r := FindLiveById(docs, id, Live);
    }

    /** The copied static `isEmailTaken(email, excludeUserId)`. No item has
        an email: under `strictQuery` the condition on the undeclared path
        is dropped and the method answers whether any other live item
        exists; otherwise the condition matches no item. */
    method IsEmailTaken(email: string, exclude: Option<Id>) returns (taken: bool)
      ensures taken <==>
        && strictQuery
        && exists i :: 0 <= i < |docs| && Live(docs[i]) && (exclude.None? || i != exclude.value)
    {
      var q := ItemEmailQuery(strictQuery, exclude);
      forall i | 0 <= i < |docs|
        ensures Matches(i, docs[i], q) <==> strictQuery && (exclude.None? || i != exclude.value)
      {
        ItemEmailQueryMatches(i, docs[i], strictQuery, exclude);
      }
      var found := FindOne(q);
      taken := found.Some?;
    }

    /** The copied instance method `isPasswordMatch(password)` on the item
        under `id`: the item has no password, so the comparison is always
        refused, and nothing changes. */
    method IsPasswordMatch(id: Id, plain: string) returns (r: Result<bool, CompareError>)
      requires id < |docs|
      ensures r == Err(IllegalArguments)
    {
      r := Err(IllegalArguments);
    }
  }

  /** The filter `{ email, _id: { $ne: excludeUserId } }` as the item
      schema sees it: with `strictQuery` the `email` condition is removed;
      without it, it is kept and no item has that path. */
  function ItemEmailQuery(strictQuery: bool, exclude: Option<Id>): Filter<Item> {
    (if strictQuery then [] else [Where((it: Item) => false)])
    + if exclude.Some? then [IdNot(exclude.value)] else []
  }

  lemma ItemEmailQueryMatches(i: Id, it: Item, strictQuery: bool, exclude: Option<Id>)
    ensures Matches(i, it, ItemEmailQuery(strictQuery, exclude)) <==>
      strictQuery && (exclude.None? || i != exclude.value)
  {
    var q := ItemEmailQuery(strictQuery, exclude);
    if !strictQuery {
      assert !Satisfies(i, it, q[0]);
    } else if exclude.Some? {
      assert q == [IdNot(exclude.value)];
      assert Satisfies(i, it, q[0]) <==> i != exclude.value;
    }
  }
}
