/**
 * The defaults the account schemas declare. A new document is
 * `Build(kind, Cast(kind, d))` and casting leaves every value the defaults
 * concern as given, so these hold of `Prepare(kind, d)` too.
 */
module AccountDefaults {
  import opened Wrappers
  import opened Schema
  import opened Accounts

  /** A new user, admin or merchant is active, carries its kind's role
      and has its verification flags false unless told otherwise; none of
      them stores the paths only a shop declares. */
  lemma PersonDefaults(kind: Kind, c: Draft)
    requires kind != Shop
    ensures c.isActive.None? ==> Build(kind, c).isActive
    ensures c.role.None? ==> Build(kind, c).role == Some(DefaultRole(kind))
    ensures c.isEmailVerified.None? ==> Build(kind, c).isEmailVerified == Some(false)
    ensures c.isPhoneVerified.None? ==> Build(kind, c).isPhoneVerified == Some(false)
    ensures kind == Merchant && c.isVerified.None? ==> Build(kind, c).isVerified == Some(false)
    ensures NoShopPaths(Build(kind, c))
  {
  }

  /** A new shop is active, closed, rated at the default rating with no
      ratings and no orders yet, has an average preparation time of 1 and
      does not accept offline payment; it has no role and no verification
      flags. */
  lemma ShopDefaults(c: Draft)
    ensures c.isActive.None? ==> Build(Shop, c).isActive
    ensures Build(Shop, c).role.None? && Build(Shop, c).isEmailVerified.None?
    ensures c.ratingsAverage.None? ==> Build(Shop, c).ratingsAverage == Some(DefaultRating)
    ensures c.ratingsQuantity.None? ==> Build(Shop, c).ratingsQuantity == Some(0.0)
    ensures c.timeAverage.None? ==> Build(Shop, c).timeAverage == Some(1.0)
    ensures c.ordersTotal.None? ==> Build(Shop, c).ordersTotal == Some(0.0)
    ensures c.ordersTotalAmount.None? ==> Build(Shop, c).ordersTotalAmount == Some(0.0)
    ensures c.offlinePaymentAccepted.None? ==> Build(Shop, c).offlinePaymentAccepted == Some(false)
    ensures c.isOpen.None? ==> Build(Shop, c).isOpen == Some(false)
  {
  }

  /** Casting keeps which values were given, and leaves every non-string
      value as given, so the defaults above are those of a new document. */
  lemma CastKeepsPresence(kind: Kind, d: Draft)
    ensures var c := Cast(kind, d);
      && (c.name.Some? <==> d.name.Some?) && (c.email.Some? <==> d.email.Some?)
      && (c.phone.Some? <==> d.phone.Some?) && (c.register.Some? <==> d.register.Some?)
      && (c.password.Some? <==> d.password.Some?) && (c.image.Some? <==> d.image.Some?)
      && c.address.Some? == d.address.Some?
      && c.role == d.role && c.isActive == d.isActive && c.isOpen == d.isOpen
      && c.ratingsAverage == d.ratingsAverage && c.shop == d.shop
  {
  }

  /** Under the declared bounds a shop created without a rating is always
      rejected, whatever else it supplies: its default 0 fails `min: 1`.
      The corrected check the rest of this model validates with accepts
      that default. */
  lemma ShopWithoutRatingRejectedAsWritten(c: Draft, isEmail: string -> bool)
    requires c.ratingsAverage.None?
    ensures RatingCheckAsWritten(Build(Shop, c).ratingsAverage.value) == Some(Min)
    ensures Check(Build(Shop, c), RatingsAverageField, isEmail).None?
  {
    DefaultRatingRejectedAsWritten();
  }

  /** Strict mode: an admin never stores a phone, only a user stores a
      registration number, and only a merchant a shop reference or a
      verification flag, whatever the caller sends. */
  lemma UndeclaredDropped(kind: Kind, c: Draft)
    ensures kind == Admin ==> Build(kind, c).phone.None?
    ensures kind != User ==> Build(kind, c).register.None?
    ensures kind != Merchant ==> Build(kind, c).shop.None? && Build(kind, c).isVerified.None?
  {
  }
}
