/**
 * The `Item` schema: a dish a shop offers. Its paths, the `trim` setter on
 * `name`, the defaults, and the validators (`required`, the bounds on
 * `ratingsAverage` and `timeTaken`).
 */
module Items {
  import opened Wrappers
  import opened Text
  import opened Schema

  /** A stored item document. `timeTaken` may be unset; `price` is required
      and is None only in a document validation rejects. */
  datatype Item = Item(
    name: string,
    image: string,
    images: seq<string>,
    ratingsAverage: real,
    ratingsQuantity: real,
    timeTaken: Option<real>,
    price: Option<real>,
    isVeg: bool,
    isAvailable: bool,
    shop: string,
    active: bool)

  /** The values a caller supplies, to create an item or to assign to one. */
  datatype ItemDraft = ItemDraft(
    name: Option<string>,
    image: Option<string>,
    images: Option<seq<string>>,
    ratingsAverage: Option<real>,
    ratingsQuantity: Option<real>,
    timeTaken: Option<real>,
    price: Option<real>,
    isVeg: Option<bool>,
    isAvailable: Option<bool>,
    shop: Option<string>,
    active: Option<bool>)

  const NoItemChanges: ItemDraft :=
    ItemDraft(None, None, None, None, None, None, None, None, None, None, None)

  /** The paths whose validators can fail. */
  datatype ItemPath = ItemName | ItemImage | ItemRating | ItemTime | ItemPrice | ItemShop

  const ItemPaths: seq<ItemPath> := [ItemName, ItemImage, ItemRating, ItemTime, ItemPrice, ItemShop]

  lemma AllItemPaths()
    ensures forall p :: p in ItemPaths
  {
    forall p: ItemPath ensures p in ItemPaths {
      match p
      case ItemName => assert ItemPaths[0] == p;
      case ItemImage => assert ItemPaths[1] == p;
      case ItemRating => assert ItemPaths[2] == p;
      case ItemTime => assert ItemPaths[3] == p;
      case ItemPrice => assert ItemPaths[4] == p;
      case ItemShop => assert ItemPaths[5] == p;
    }
  }

  /** `new Item(body)`: `trim` on the name, defaults for what is missing. A
      missing required string becomes "", which `required` rejects. */
  function PrepareItem(d: ItemDraft): Item {
    Item(
      Trim(d.name.GetOr("")),
      d.image.GetOr(""),
      d.images.GetOr([]),
      d.ratingsAverage.GetOr(DefaultRating),
      d.ratingsQuantity.GetOr(0.0),
      d.timeTaken,
      d.price,
      d.isVeg.GetOr(true),
      d.isAvailable.GetOr(true),
      d.shop.GetOr(""),
      d.active.GetOr(true))
  }

  /** What each path's validators accept. */
  ghost predicate ItemFieldOk(it: Item, p: ItemPath) {
    match p
    case ItemName => it.name != []
    case ItemImage => it.image != []
    case ItemRating => RatingAccepted(it.ratingsAverage)
    case ItemTime => it.timeTaken.Some? ==> 1.0 <= it.timeTaken.value <= 60.0
    case ItemPrice => it.price.Some?
    case ItemShop => it.shop != []
  }

  /** The validators of one path, in declaration order; the first failure. */
  function CheckItem(it: Item, p: ItemPath): (r: Option<Reason>)
    ensures r.None? <==> ItemFieldOk(it, p)
  {
    match p
    case ItemName => RequiredText(it.name)
    case ItemImage => RequiredText(it.image)
    case ItemRating => RatingCheck(it.ratingsAverage)
    case ItemTime =>
      if it.timeTaken.None? then None
      else if it.timeTaken.value < 1.0 then Some(Min)
      else if it.timeTaken.value > 60.0 then Some(Max)
      else None
    case ItemPrice => if it.price.None? then Some(Required) else None
    case ItemShop => RequiredText(it.shop)
  }

  ghost predicate ItemWellFormed(it: Item) {
    forall p :: ItemFieldOk(it, p)
  }

  /** The validators of every path of `it`. */
  function ItemChecks(it: Item): ItemPath -> Option<Reason> {
    p => CheckItem(it, p)
  }

  lemma ItemChecksReported(it: Item, errs: seq<FieldError<ItemPath>>)
    requires errs == Collect(ItemPaths, ItemChecks(it))
    ensures forall p :: Reports(errs, p) <==> !ItemFieldOk(it, p)
  {
    AllItemPaths();
    forall p ensures Reports(errs, p) <==> !ItemFieldOk(it, p) {
      assert ItemChecks(it)(p) == CheckItem(it, p);
    }
  }

  lemma ItemChecksCollected(it: Item, errs: seq<FieldError<ItemPath>>)
    requires errs == Collect(ItemPaths, ItemChecks(it))
    ensures errs == [] <==> ItemWellFormed(it)
    ensures forall p :: Reports(errs, p) <==> !ItemFieldOk(it, p)
  {
    ItemChecksReported(it, errs);
    if errs == [] {
      forall p ensures ItemFieldOk(it, p) {
        assert !Reports(errs, p);
      }
    }
  }

  /** The ValidationError of saving `it`: one entry per failing path. */
  function ItemErrors(it: Item): (errs: seq<FieldError<ItemPath>>)
    ensures errs == [] <==> ItemWellFormed(it)
    ensures forall p :: Reports(errs, p) <==> !ItemFieldOk(it, p)
  {
    var errs := Collect(ItemPaths, ItemChecks(it));
    ItemChecksCollected(it, errs);
    errs
  }

  /** `Item.create(body)` up to the insert: the built item, or the errors. */
  function ValidateItem(d: ItemDraft): (r: Result<Item, seq<FieldError<ItemPath>>>)
    ensures r.Ok? <==> ItemWellFormed(PrepareItem(d))
    ensures r.Ok? ==> r.value == PrepareItem(d)
    ensures r.Err? ==> r.error == ItemErrors(PrepareItem(d))
  {
    var it := PrepareItem(d);
    var errs := ItemErrors(it);
    if errs == [] then Ok(it) else Err(errs)
  }

  /** Assigns the given values to a loaded item through the setters. */
  function AssignItem(it: Item, d: ItemDraft): Item {
    Item(
      if d.name.Some? then Trim(d.name.value) else it.name,
      d.image.GetOr(it.image),
      d.images.GetOr(it.images),
      d.ratingsAverage.GetOr(it.ratingsAverage),
      d.ratingsQuantity.GetOr(it.ratingsQuantity),
      if d.timeTaken.Some? then d.timeTaken else it.timeTaken,
      if d.price.Some? then d.price else it.price,
      d.isVeg.GetOr(it.isVeg),
      d.isAvailable.GetOr(it.isAvailable),
      d.shop.GetOr(it.shop),
      d.active.GetOr(it.active))
  }

  // ---------------------------------------------------------------------
  // Properties

  /** An item is saved iff it has a name (after trimming), an image, a
      price and a shop, its rating is accepted (the default 0 included) and
      its preparation time, when given, lies in [1, 60]. */
  lemma ItemAccepts(d: ItemDraft)
    ensures ValidateItem(d).Ok? <==>
      && Trim(d.name.GetOr("")) != [] && d.image.GetOr("") != [] && d.price.Some?
      && d.shop.GetOr("") != [] && RatingAccepted(d.ratingsAverage.GetOr(DefaultRating))
      && (d.timeTaken.Some? ==> 1.0 <= d.timeTaken.value <= 60.0)
  {
    var it := PrepareItem(d);
    if ItemWellFormed(it) {
      assert ItemFieldOk(it, ItemName) && ItemFieldOk(it, ItemImage) && ItemFieldOk(it, ItemPrice)
        && ItemFieldOk(it, ItemShop) && ItemFieldOk(it, ItemRating) && ItemFieldOk(it, ItemTime);
    }
  }

  /** A preparation time outside [1, 60] is rejected with the bound it
      breaks. */
  lemma TimeTakenBounds(it: Item, t: real)
    requires it.timeTaken == Some(t)
    ensures t < 1.0 ==> CheckItem(it, ItemTime) == Some(Min)
    ensures t > 60.0 ==> CheckItem(it, ItemTime) == Some(Max)
    ensures 1.0 <= t <= 60.0 ==> CheckItem(it, ItemTime).None?
  {
  }

  /** The defaults of a new item: vegetarian, available, active, unrated,
      no extra images. */
  lemma ItemDefaults(d: ItemDraft)
    ensures d.isVeg.None? ==> PrepareItem(d).isVeg
    ensures d.isAvailable.None? ==> PrepareItem(d).isAvailable
    ensures d.active.None? ==> PrepareItem(d).active
    ensures d.ratingsQuantity.None? ==> PrepareItem(d).ratingsQuantity == 0.0
    ensures d.ratingsAverage.None? ==> PrepareItem(d).ratingsAverage == DefaultRating
    ensures d.images.None? ==> PrepareItem(d).images == []
    ensures d.timeTaken.None? ==> PrepareItem(d).timeTaken.None?
  {
  }

  /** The name is stored trimmed; image and shop are stored as given. */
  lemma ItemSetters(d: ItemDraft)
    requires ValidateItem(d).Ok?
    ensures d.name.Some? && PrepareItem(d).name == Trim(d.name.value)
    ensures Trim(PrepareItem(d).name) == PrepareItem(d).name
    ensures d.image.Some? && PrepareItem(d).image == d.image.value
  {
    var it := PrepareItem(d);
    assert ItemFieldOk(it, ItemName) && ItemFieldOk(it, ItemImage);
    TrimIdempotent(d.name.GetOr(""));
  }

  /** Under the declared bounds an item created without a rating is always
      rejected: its default 0 fails `min: 1`. The corrected check the rest
      of this model validates with accepts that default. */
  lemma ItemWithoutRatingRejectedAsWritten(d: ItemDraft)
    requires d.ratingsAverage.None?
    ensures RatingCheckAsWritten(PrepareItem(d).ratingsAverage) == Some(Min)
    ensures CheckItem(PrepareItem(d), ItemRating).None?
  {
    DefaultRatingRejectedAsWritten();
  }

  /** Assigning nothing leaves an item as it is, and an assignment keeps
      every value it does not give. */
  lemma AssignItemKeeps(it: Item, d: ItemDraft)
    ensures AssignItem(it, NoItemChanges) == it
    ensures d.name.None? ==> AssignItem(it, d).name == it.name
    ensures d.price.None? ==> AssignItem(it, d).price == it.price
    ensures d.shop.None? ==> AssignItem(it, d).shop == it.shop
    ensures d.active.None? ==> AssignItem(it, d).active == it.active
    ensures d.image.None? ==> AssignItem(it, d).image == it.image
    ensures d.images.None? ==> AssignItem(it, d).images == it.images
    ensures d.ratingsAverage.None? ==> AssignItem(it, d).ratingsAverage == it.ratingsAverage
    ensures d.ratingsQuantity.None? ==> AssignItem(it, d).ratingsQuantity == it.ratingsQuantity
    ensures d.timeTaken.None? ==> AssignItem(it, d).timeTaken == it.timeTaken
    ensures d.isVeg.None? ==> AssignItem(it, d).isVeg == it.isVeg
    ensures d.isAvailable.None? ==> AssignItem(it, d).isAvailable == it.isAvailable
  {
  }
}
