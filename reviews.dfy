/**
 * The `Review` schema: required review text, a required `rating` within
 * [1, 5], required references to the order, the user and the shop, and a
 * possibly empty list of item references. The schema has no hooks.
 */
module Reviews {
  import opened Wrappers
  import opened Schema

  /** A stored review. */
  datatype Review = Review(review: string, rating: real, order: Id, user: Id, shop: Id, items: seq<Id>)

  /** The values a caller supplies. */
  datatype ReviewDraft = ReviewDraft(
    review: Option<string>,
    rating: Option<real>,
    order: Option<Id>,
    user: Option<Id>,
    shop: Option<Id>,
    items: Option<seq<Id>>)

  /** The paths whose validators can fail. */
  datatype ReviewPath = ReviewText | ReviewRating | ReviewOrder | ReviewUser | ReviewShop

  const ReviewPaths: seq<ReviewPath> := [ReviewText, ReviewRating, ReviewOrder, ReviewUser, ReviewShop]

  lemma AllReviewPaths()
    ensures forall p :: p in ReviewPaths
  {
    forall p: ReviewPath ensures p in ReviewPaths {
      match p
      case ReviewText => assert ReviewPaths[0] == p;
      case ReviewRating => assert ReviewPaths[1] == p;
      case ReviewOrder => assert ReviewPaths[2] == p;
      case ReviewUser => assert ReviewPaths[3] == p;
      case ReviewShop => assert ReviewPaths[4] == p;
    }
  }

  /** `rating`: `required`, then `min: 1`, then `max: 5`; the first that
      fails is reported. */
  function ReviewRatingCheck(r: Option<real>): (res: Option<Reason>)
    ensures res.None? <==> r.Some? && 1.0 <= r.value <= 5.0
    ensures res == Some(Required) <==> r.None?
    ensures res == Some(Min) <==> r.Some? && r.value < 1.0
    ensures res == Some(Max) <==> r.Some? && r.value > 5.0
  {
    if r.None? then Some(Required)
    else if r.value < 1.0 then Some(Min)
    else if r.value > 5.0 then Some(Max)
    else None
  }

  function CheckReview(d: ReviewDraft, p: ReviewPath): Option<Reason> {
    match p
    case ReviewText => RequiredText(d.review.GetOr(""))
    case ReviewRating => ReviewRatingCheck(d.rating)
    case ReviewOrder => RequiredValue(d.order)
    case ReviewUser => RequiredValue(d.user)
    case ReviewShop => RequiredValue(d.shop)
  }

  function ReviewChecks(d: ReviewDraft): ReviewPath -> Option<Reason> {
    p => CheckReview(d, p)
  }

  /** The ValidationError of saving `d`: exactly the failing paths. */
  function ReviewErrors(d: ReviewDraft): (errs: seq<FieldError<ReviewPath>>)
    ensures errs == [] <==> forall p :: CheckReview(d, p).None?
    ensures forall p :: Reports(errs, p) <==> CheckReview(d, p).Some?
  {
    var errs := Collect(ReviewPaths, ReviewChecks(d));
    AllReviewPaths();
    assert forall p :: ReviewChecks(d)(p) == CheckReview(d, p);
    errs
  }

  /** What the validators demand, path by path; `items` is free. */
  ghost predicate ReviewAccepted(d: ReviewDraft) {
    && d.review.Some? && d.review.value != []
    && d.rating.Some? && 1.0 <= d.rating.value <= 5.0
    && d.order.Some? && d.user.Some? && d.shop.Some?
  }

  lemma ReviewAcceptedChecks(d: ReviewDraft)
    ensures ReviewAccepted(d) <==> forall p :: CheckReview(d, p).None?
  {
    if ReviewAccepted(d) {
      forall p ensures CheckReview(d, p).None? {
        match p
        case ReviewText =>
        case ReviewRating =>
        case ReviewOrder =>
        case ReviewUser =>
        case ReviewShop =>
      }
    } else {
      assert !(CheckReview(d, ReviewText).None? && CheckReview(d, ReviewRating).None?
        && CheckReview(d, ReviewOrder).None? && CheckReview(d, ReviewUser).None?
        && CheckReview(d, ReviewShop).None?);
    }
  }

  /** `Review.create(body)` up to the insert: the review, or the errors.
      An absent item list is stored empty. */
  function ValidateReview(d: ReviewDraft): (r: Result<Review, seq<FieldError<ReviewPath>>>)
    ensures r.Ok? <==> ReviewAccepted(d)
    ensures r.Err? ==> r.error == ReviewErrors(d)
    ensures r.Ok? ==>
      && r.value.review == d.review.value && r.value.rating == d.rating.value
      && r.value.order == d.order.value && r.value.user == d.user.value
      && r.value.shop == d.shop.value && r.value.items == d.items.GetOr([])
  {
    var errs := ReviewErrors(d);
    ReviewAcceptedChecks(d);
    if errs != [] then Err(errs)
    else
      Ok(Review(d.review.value, d.rating.value, d.order.value, d.user.value, d.shop.value,
                d.items.GetOr([])))
  }

  /** What every saved review satisfies beyond its types. */
  ghost predicate ReviewWellFormed(r: Review) {
    r.review != [] && 1.0 <= r.rating <= 5.0
  }

  /** The body that recreates `r`. */
  function ReviewDraftOf(r: Review): ReviewDraft {
    ReviewDraft(Some(r.review), Some(r.rating), Some(r.order), Some(r.user), Some(r.shop), Some(r.items))
  }

  // ---------------------------------------------------------------------
  // Properties

  /** A review is well formed iff saving it as a body gives it back; so
      every saved rating lies in [1, 5]. */
  lemma ReviewRoundTrip(r: Review)
    ensures ReviewWellFormed(r) <==> ValidateReview(ReviewDraftOf(r)) == Ok(r)
  {
  }

  /** A rating outside [1, 5] is rejected, and the error names the rating
      path with the bound it breaks. */
  lemma RatingOutOfRangeRejected(d: ReviewDraft)
    requires d.rating.Some? && (d.rating.value < 1.0 || d.rating.value > 5.0)
    ensures ValidateReview(d).Err?
    ensures exists e :: e in ValidateReview(d).error && e.path == ReviewRating
                        && e.reason == (if d.rating.value < 1.0 then Min else Max)
  {
    var errs := ValidateReview(d).error;
    assert Reports(errs, ReviewRating);
    var e :| e in errs && e.path == ReviewRating;
    assert CheckReview(d, e.path) == Some(e.reason);
  }
}
