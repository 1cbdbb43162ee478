/**
 * A collection of accounts of one kind (the `User`, `Admin`, `Merchant` or
 * `Shop` model) and the hooks and methods each of those schemas installs:
 * the `pre(/^find/)` soft-delete filter on `isActive`, the static
 * `isEmailTaken`, the instance method `isPasswordMatch`, and the
 * `pre('save')` hook that hashes the password when it was modified.
 *
 * A document's id is its index in `docs`. The plaintext and salt behind
 * every stored hash are kept in the ghost `secrets`, so that what the hook
 * promises can be stated.
 */
module AccountStore {
  import opened Wrappers
  import opened Text
  import opened Schema
  import opened Query
  import opened Credentials
  import opened Accounts

  class AccountCollection {
    const kind: Kind
    const lib: Library
    var docs: seq<Account>
    ghost var secrets: seq<Secret>

    /** A stored document: of this kind, of the right shape, and accepted by
        every validator except that of `password`, which holds a hash. */
    ghost predicate Stored(a: Account) {
      && a.kind == kind && Shape(a)
      && forall p :: Declares(kind, p) && p != PasswordField ==> FieldOk(a, p, lib.isEmail)
    }

    /** Every stored password is the hash of a plaintext that met the policy
        when it was saved. */
    ghost predicate Valid()
      reads this
    {
      && |secrets| == |docs|
      && (forall i :: 0 <= i < |docs| ==> Stored(docs[i]))
      && (forall i :: 0 <= i < |docs| ==>
            PasswordPolicy(secrets[i].plain)
            && docs[i].password == lib.hash(secrets[i].plain, secrets[i].salt))
    }

    /** A document a find-style query can see: the hook's `isActive != false`. */
    static predicate Live(a: Account) {
      a.isActive
    }

    constructor (kind: Kind, lib: Library)
      ensures this.kind == kind && this.lib == lib
      ensures docs == [] && Valid()
    {
      this.kind := kind;
      this.lib := lib;
      docs := [];
      secrets := [];
    }

    /** The `pre('save')` hook: the password is replaced by its hash when
        the password path was modified, and nothing else is touched. */
    method PreSave(doc: Account, passwordModified: bool, salt: Salt) returns (saved: Account)
      ensures passwordModified ==> saved == WithPassword(doc, lib.hash(doc.password, salt))
      ensures !passwordModified ==> saved == doc
    {
      saved := doc;
      if passwordModified {
        saved := WithPassword(doc, lib.hash(doc.password, salt));
      }
    }

    /** Replacing the password of a document that is stored, or accepted
        by every validator, gives a stored document. */
    lemma HashedStored(a: Account, password: string)
      requires a.kind == kind && Shape(a)
      requires forall p :: Declares(kind, p) && p != PasswordField ==> FieldOk(a, p, lib.isEmail)
      ensures Stored(WithPassword(a, password))
    {
      var saved := WithPassword(a, password);
      WithPasswordOnlyPassword(a, password, NameField);
      forall p | Declares(kind, p) && p != PasswordField
        ensures FieldOk(saved, p, lib.isEmail)
      {
        WithPasswordOnlyPassword(a, password, p);
        FieldOkLocal(a, saved, p, lib.isEmail);
      }
    }

    /** An assignment to a stored document whose modified paths all pass
        their validators gives a stored document: validating the modified
        paths suffices. */
    lemma AssignedStored(a: Account, d: Draft)
      requires Stored(a)
      requires Errors(Assign(a, d), Modified(a, d), lib.isEmail) == []
      ensures Stored(Assign(a, d))
    {
      var b := Assign(a, d);
      AssignKeepsShape(a, d);
      forall p | Declares(kind, p) && p != PasswordField
        ensures FieldOk(b, p, lib.isEmail)
      {
        if p !in Modified(a, d) {
          FieldOkLocal(a, b, p, lib.isEmail);
        }
      }
    }

    /** `Model.create(body)`: build the document, validate it, run the
        pre-save hook (a new password is always modified) and insert it. */
    method Create(d: Draft, salt: Salt) returns (r: Result<Id, SaveError<Path>>)
      requires Valid()
      modifies this
      ensures Valid()
      ensures r.Ok? <==> WellFormed(Prepare(kind, d), lib.isEmail)
      ensures r.Ok? ==>
        && r.value == |old(docs)|
        && docs == old(docs) + [WithPassword(Prepare(kind, d), lib.hash(Prepare(kind, d).password, salt))]
      ensures r.Err? ==>
        && docs == old(docs)
        && r.error == ValidationError(Errors(Prepare(kind, d), Declared(kind), lib.isEmail))
    {
      var v := Validate(kind, d, lib.isEmail);
      match v
      case Err(errs) =>
        r := Err(ValidationError(errs));
      case Ok(a) =>
        assert FieldOk(a, PasswordField, lib.isEmail);
        var saved := PreSave(a, true, salt);
        HashedStored(a, saved.password);
        docs := docs + [saved];
        secrets := secrets + [Secret(a.password, salt)];
        r := Ok(|docs| - 1);
    }

    /** `Object.assign(doc, body); doc.save()` on the document loaded under
        `id`: the assignment goes through the setters, the modified paths
        are validated, and the hook hashes a modified password. Loading goes
        through `findById`, so an unknown or deactivated id is not found. */
    method Update(id: Id, d: Draft, salt: Salt) returns (r: Result<(), SaveError<Path>>)
      requires Valid()
      modifies this
      ensures Valid()
      ensures r == Err(NotFound) <==> id >= |old(docs)| || !Live(old(docs)[id])
      ensures r.Ok? <==>
        && id < |old(docs)| && Live(old(docs)[id])
        && Errors(Assign(old(docs)[id], d), Modified(old(docs)[id], d), lib.isEmail) == []
      ensures r.Err? ==> docs == old(docs)
      ensures r.Ok? ==>
        && |docs| == |old(docs)|
        && (forall j :: 0 <= j < |docs| && j != id ==> docs[j] == old(docs)[j])
      ensures r.Ok? ==>
        var a := old(docs)[id];
        var b := Assign(a, d);
        && Errors(b, Modified(a, d), lib.isEmail) == []
        && docs[id] == (if PasswordField in Modified(a, d)
                        then WithPassword(b, lib.hash(b.password, salt)) else b)
      ensures r.Err? && r != Err(NotFound) ==>
        var a := old(docs)[id];
        r.error == ValidationError(Errors(Assign(a, d), Modified(a, d), lib.isEmail))
    {
      if id >= |docs| || !Live(docs[id]) {
        return Err(NotFound);
      }
      var a := docs[id];
      var b := Assign(a, d);
      var modified := Modified(a, d);
      var errs := Errors(b, modified, lib.isEmail);
      if errs != [] {
        return Err(ValidationError(errs));
      }
      var rehash := PasswordField in modified;
      var saved := PreSave(b, rehash, salt);
      AssignedStored(a, d);
      HashedStored(b, saved.password);
      ghost var secret := secrets[id];
      if rehash {
        assert FieldOk(b, PasswordField, lib.isEmail);
        secret := Secret(b.password, salt);
      } else {
        assert SameAt(a, b, PasswordField);
      }
      Put(id, saved, secret);
      r := Ok(());
    }

    /** Writes a saved document back under `id`, with the plaintext and
        salt its hash was made from. */
    method Put(id: Id, saved: Account, ghost secret: Secret)
      requires Valid() && id < |docs|
      requires Stored(saved) && PasswordPolicy(secret.plain)
      requires saved.password == lib.hash(secret.plain, secret.salt)
      modifies this
      ensures Valid()
      ensures docs == old(docs)[id := saved]
    {
      docs := docs[id := saved];
      secrets := secrets[id := secret];
    }

    /** `find(filter)` after the soft-delete hook. */
    method Find(q: Filter<Account>) returns (ids: seq<Id>)
      ensures Increasing(ids)
      ensures forall k :: 0 <= k < |ids| ==>
        ids[k] < |docs| && Live(docs[ids[k]]) && Matches(ids[k], docs[ids[k]], q)
      ensures forall i :: 0 <= i < |docs| && Live(docs[i]) && Matches(i, docs[i], q) ==> i in ids
    {
      ids := FindLive(docs, q, Live);
    }

    /** `findOne(filter)` after the soft-delete hook. */
    method FindOne(q: Filter<Account>) returns (r: Option<Id>)
      ensures r.Some? ==> r.value < |docs| && Live(docs[r.value]) && Matches(r.value, docs[r.value], q)
      ensures r.None? <==> forall i :: 0 <= i < |docs| ==> !(Live(docs[i]) && Matches(i, docs[i], q))
    {
      r := FindOneLive(docs, q, Live);
    }

    /** `findById(id)`: a deactivated document is never returned. */
    method FindById(id: Id) returns (r: Option<Account>)
      ensures r.Some? <==> id < |docs| && Live(docs[id])
      ensures r.Some? ==> r.value == docs[id]
    {
      r := FindLiveById(docs, id, Live);
    }

    /** The static `isEmailTaken(email, excludeUserId)`: a `findOne` on the
        email (which the query casts through the path's setters) and
        `_id != excludeUserId`; an absent id excludes nothing. It only
        reads. */
    method IsEmailTaken(email: string, exclude: Option<Id>) returns (taken: bool)
      ensures taken <==>
        exists i :: 0 <= i < |docs| && Live(docs[i]) && docs[i].email == Normalize(email)
                    && (exclude.None? || i != exclude.value)
    {
      var q := EmailQuery(Normalize(email), exclude);
      forall i | 0 <= i < |docs|
        ensures Matches(i, docs[i], q) <==>
          docs[i].email == Normalize(email) && (exclude.None? || i != exclude.value)
      {
        EmailQueryMatches(i, docs[i], Normalize(email), exclude);
      }
      var found := FindOne(q);
      taken := found.Some?;
    }

    /** The instance method `isPasswordMatch(password)` on the document
        under `id`: compares and changes nothing. When the stored hash was
        made from `plain`, it matches. */
    method IsPasswordMatch(id: Id, plain: string) returns (ok: bool)
      requires id < |docs|
      ensures ok == lib.compare(plain, docs[id].password)
      ensures Valid() && lib.Sound() && plain == secrets[id].plain ==> ok
    {
      ok := lib.compare(plain, docs[id].password);
    }
  }

  /** The filter `{ email, _id: { $ne: excludeUserId } }`. */
  function EmailQuery(key: string, exclude: Option<Id>): Filter<Account> {
    [Where((a: Account) => a.email == key)] + if exclude.Some? then [IdNot(exclude.value)] else []
  }

  lemma EmailQueryMatches(i: Id, doc: Account, key: string, exclude: Option<Id>)
    ensures Matches(i, doc, EmailQuery(key, exclude)) <==>
      doc.email == key && (exclude.None? || i != exclude.value)
  {
    var q := EmailQuery(key, exclude);
    assert Satisfies(i, doc, q[0]) <==> doc.email == key;
    if exclude.Some? {
      assert Satisfies(i, doc, q[1]) <==> i != exclude.value;
    }
  }
}
