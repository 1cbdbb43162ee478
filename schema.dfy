/**
 * What every schema shares: document identifiers, the validation error a
 * failed save reports (one entry per failing path), and
 * the validators that several schemas declare the same way.
 */
module Schema {
  import opened Wrappers
  import opened Text

  /** An ObjectId; the store hands them out. */
  type Id = nat

  /** A Date, as milliseconds since the epoch. */
  type Time = int

  /** Which of a path's validators failed: `required`, `minlength`, `min`,
      `max`, `enum`, or a custom `validate` function. */
  datatype Reason = Required | MinLength | Min | Max | NotInEnum | Invalid

  datatype FieldError<P> = FieldError(path: P, reason: Reason)

  /** Why a save was refused: validation failed, or the document to save
      could not be loaded. */
  datatype SaveError<P> = ValidationError(errors: seq<FieldError<P>>) | NotFound

  /** The error list names path `p`. */
  ghost predicate Reports<P>(errs: seq<FieldError<P>>, p: P) {
    exists e :: e in errs && e.path == p
  }

  /** Validates every path in `paths` and gathers one error per failing
      path, as Mongoose fills a ValidationError: a document is rejected iff
      some path fails, and the error names exactly the failing paths. */
  function Collect<P(==)>(paths: seq<P>, check: P -> Option<Reason>): (errs: seq<FieldError<P>>)
    ensures forall e :: e in errs ==> e.path in paths && check(e.path) == Some(e.reason)
    ensures forall p :: p in paths ==> (Reports(errs, p) <==> check(p).Some?)
    ensures errs == [] <==> forall p :: p in paths ==> check(p).None?
  {
    if paths == [] then []
    else
      var here := match check(paths[0])
                  case Some(r) => [FieldError(paths[0], r)]
                  case None => [];
      var rest := Collect(paths[1..], check);
      here + rest
  }

  /** `required: true` on a String path: absent and empty both fail. A
      missing string is represented by "" once the setters have run. */
  function RequiredText(s: string): (r: Option<Reason>)
    ensures r.None? <==> s != []
    ensures r.Some? ==> r.value == Required
  {
    if s == [] then Some(Required) else None
  }

  /** `required: true` on a path that is not a String (a Number, an
      ObjectId): only an absent value fails. */
  function RequiredValue<T>(v: Option<T>): (r: Option<Reason>)
    ensures r.None? <==> v.Some?
    ensures r.Some? ==> r.value == Required
  {
    if v.None? then Some(Required) else None
  }

  /** The password rule after the `trim` setter: `minlength: 8`, and the
      custom validator demanding a match for `/\d/` and for `/[a-zA-Z]/`. */
  ghost predicate PasswordPolicy(p: string) {
    |p| >= 8 && Contains(p, Digit) && Contains(p, AsciiLetter)
  }

  /** The password validators in the order Mongoose runs them: `required`,
      then `minlength`, then the custom function. */
  function PasswordCheck(p: string): (r: Option<Reason>)
    ensures r.None? <==> PasswordPolicy(p)
    ensures r == Some(Required) <==> p == []
    ensures r == Some(MinLength) <==> 0 < |p| < 8
  {
    SearchOne(p, Digit);
    SearchOne(p, AsciiLetter);
    if p == [] then Some(Required)
    else if |p| < 8 then Some(MinLength)
    else if !Search(p, Digit, 1) || !Search(p, AsciiLetter, 1) then Some(Invalid)
    else None
  }

  /** The phone rule: `required`, then `value.match('[0-9]{10}')`, a search
      that is not anchored at either end. */
  function PhoneCheck(p: string): (r: Option<Reason>)
    ensures r.None? <==> HasRun(p, Digit, 10)
    ensures r == Some(Required) <==> p == []
  {
    if p == [] then
      assert forall i: nat :: !RunAt(p, Digit, 10, i);
      Some(Required)
    else if !Search(p, Digit, 10) then Some(Invalid)
    else None
  }

  /** Trimming and folding case never change whether a value holds ten
      consecutive digits: digits are neither white space nor upper case. */
  lemma PhoneRunSurvivesSetters(p: string)
    ensures HasRun(Normalize(p), Digit, 10) <==> HasRun(p, Digit, 10)
  {
    DigitRunTrim(p, 10);
    DigitRunLower(Trim(p), 10);
  }

  lemma DigitRunLower(t: string, n: nat)
    ensures HasRun(Lower(t), Digit, n) <==> HasRun(t, Digit, n)
  {
    var l := Lower(t);
    LowerSpec(t);
    assert forall j :: 0 <= j < |t| ==> (Digit.Has(l[j]) <==> Digit.Has(t[j]));
    if HasRun(t, Digit, n) {
      var i: nat :| RunAt(t, Digit, n, i);
      assert RunAt(l, Digit, n, i);
    }
    if HasRun(l, Digit, n) {
      var i: nat :| RunAt(l, Digit, n, i);
      assert RunAt(t, Digit, n, i);
    }
  }

  lemma DigitNotSpace(c: char)
    requires Digit.Has(c)
    ensures !IsSpace(c)
  {
  }

  lemma DigitRunTrim(p: string, n: nat)
    requires n > 0
    ensures HasRun(Trim(p), Digit, n) <==> HasRun(p, Digit, n)
  {
    var t := Trim(p);
    var l := Lead(p);
    TrimSpec(p);
    if HasRun(p, Digit, n) {
      var i: nat :| RunAt(p, Digit, n, i);
      DigitRunInside(p, n, i);
      RunAtSlice(p, l, l + |t|, n, i);
    }
    if HasRun(t, Digit, n) {
      var i: nat :| RunAt(t, Digit, n, i);
      RunAtSlice(p, l, l + |t|, n, i + l);
    }
  }

  /** A digit run lies inside the trimmed part of the value. */
  lemma DigitRunInside(p: string, n: nat, i: nat)
    requires n > 0 && RunAt(p, Digit, n, i)
    ensures Lead(p) <= i && i + n <= Lead(p) + |Trim(p)|
  {
    TrimSpec(p);
    DigitNotSpace(p[i]);
    DigitNotSpace(p[i + n - 1]);
  }

  lemma RunAtSlice(p: string, lo: nat, hi: nat, n: nat, i: nat)
    requires lo <= i && i + n <= hi <= |p|
    ensures RunAt(p[lo..hi], Digit, n, i - lo) <==> RunAt(p, Digit, n, i)
  {
    assert forall j :: i <= j < i + n ==> p[lo..hi][j - lo] == p[j];
  }

  // ---------------------------------------------------------------------
  // ratingsAverage: `default: 0`, `min: 1`, `max: 5` (Shop and Item)

  const DefaultRating: real := 0.0

  /** The bounds as declared. Mongoose also validates a path that received
      its default, so the default 0 is checked against `min: 1`. */
  function RatingCheckAsWritten(r: real): (res: Option<Reason>)
    ensures res.None? <==> 1.0 <= r <= 5.0
  {
    if r < 1.0 then Some(Min) else if r > 5.0 then Some(Max) else None
  }

  /** The declared bounds reject the declared default: a document created
      without a rating fails validation on `ratingsAverage`. */
  lemma DefaultRatingRejectedAsWritten()
    ensures RatingCheckAsWritten(DefaultRating) == Some(Min)
  {
  }

  /** A rating the model accepts: the unrated default, or a value in [1, 5]. */
  ghost predicate RatingAccepted(r: real) {
    r == DefaultRating || 1.0 <= r <= 5.0
  }

  /** The bounds with the default exempted, which the rest of the model uses. */
  function RatingCheck(r: real): (res: Option<Reason>)
    ensures res.None? <==> RatingAccepted(r)
    ensures res.None? ==> 0.0 <= r <= 5.0
  {
    if r == DefaultRating then None else RatingCheckAsWritten(r)
  }
}
