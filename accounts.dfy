/**
 * The account schemas User, Admin, Merchant and Shop as one record
 * parameterised by its kind: what each kind declares, the setters and
 * defaults applied when a document is built, the validators run on save,
 * and how assigning new values marks paths as modified.
 */
module Accounts {
  import opened Wrappers
  import opened Text
  import opened Schema

  datatype Kind = User | Admin | Merchant | Shop

  /** The `roles` enum, named from the role defaults the schemas use. */
  datatype Role = UserRole | AdminRole | MerchantRole {
    function Name(): string {
      match this
      case UserRole => "user"
      case AdminRole => "admin"
      case MerchantRole => "merchant"
    }
  }

  ghost predicate IsRoleName(s: string) {
    exists r: Role :: r.Name() == s
  }

  function ParseRole(s: string): (r: Option<Role>)
    ensures r.Some? <==> IsRoleName(s)
    ensures r.Some? ==> r.value.Name() == s
  {
    if s == "user" then assert UserRole.Name() == s; Some(UserRole)
    else if s == "admin" then assert AdminRole.Name() == s; Some(AdminRole)
    else if s == "merchant" then assert MerchantRole.Name() == s; Some(MerchantRole)
    else
      assert forall r: Role :: r.Name() != s;
      None
  }

  /** The schema paths of the four account kinds. */
  datatype Path =
    | NameField | EmailField | PhoneField | RegisterField | AddressField | ImageField
    | ShopField | PasswordField | RoleField | EmailVerifiedField | PhoneVerifiedField
    | VerifiedField | ActiveField | ImageCoverField | RatingsAverageField
    | RatingsQuantityField | TimeAverageField | OrdersTotalField | OrdersTotalAmountField
    | OfflinePaymentField | IsOpenField

  /** Whether the schema of `kind` declares `path`. */
  predicate Declares(kind: Kind, path: Path) {
    match path
    case NameField | EmailField | PasswordField | ActiveField => true
    case PhoneField => kind != Admin
    case RegisterField => kind == User
    case AddressField => kind == User || kind == Shop
    case ImageField | RoleField | EmailVerifiedField | PhoneVerifiedField => kind != Shop
    case ShopField | VerifiedField => kind == Merchant
    case ImageCoverField | RatingsAverageField | RatingsQuantityField | TimeAverageField
      | OrdersTotalField | OrdersTotalAmountField | OfflinePaymentField | IsOpenField => kind == Shop
  }

  /** The paths the schema of `kind` declares. */
  function Declared(kind: Kind): (r: seq<Path>)
    ensures forall p {:trigger p in r} :: p in r <==> Declares(kind, p)
  {
    match kind
    case User =>
      [NameField, EmailField, PhoneField, RegisterField, AddressField, ImageField,
       PasswordField, RoleField, EmailVerifiedField, PhoneVerifiedField, ActiveField]
    case Admin =>
      [NameField, EmailField, ImageField, PasswordField, RoleField,
       EmailVerifiedField, PhoneVerifiedField, ActiveField]
    case Merchant =>
      [NameField, EmailField, PhoneField, ImageField, ShopField, PasswordField, RoleField,
       EmailVerifiedField, PhoneVerifiedField, VerifiedField, ActiveField]
    case Shop =>
      [NameField, EmailField, PhoneField, AddressField, ImageCoverField, RatingsAverageField,
       RatingsQuantityField, TimeAverageField, OrdersTotalField, OrdersTotalAmountField,
       OfflinePaymentField, IsOpenField, PasswordField, ActiveField]
  }

  /** The nested `address` of users and shops; each part has `trim: true`. */
  datatype Address = Address(street: Option<string>, houseNumber: Option<string>, landmark: Option<string>)

  /** A stored account document. Paths the kind does not declare are None.
      Until the pre-save hook runs, `password` holds the trimmed plaintext. */
  datatype Account = Account(
    kind: Kind,
    name: string,
    email: string,
    phone: Option<string>,
    register: Option<string>,
    address: Option<Address>,
    image: Option<string>,
    shop: Option<Id>,
    password: string,
    role: Option<string>,
    isEmailVerified: Option<bool>,
    isPhoneVerified: Option<bool>,
    isVerified: Option<bool>,
    isActive: bool,
    imageCover: Option<string>,
    ratingsAverage: Option<real>,
    ratingsQuantity: Option<real>,
    timeAverage: Option<real>,
    ordersTotal: Option<real>,
    ordersTotalAmount: Option<real>,
    offlinePaymentAccepted: Option<bool>,
    isOpen: Option<bool>)

  /** The values a caller supplies: to build a new document (`create`), or
      to assign to a loaded one before `save`. None means "not given". */
  datatype Draft = Draft(
    name: Option<string>,
    email: Option<string>,
    phone: Option<string>,
    register: Option<string>,
    address: Option<Address>,
    image: Option<string>,
    shop: Option<Id>,
    password: Option<string>,
    role: Option<string>,
    isEmailVerified: Option<bool>,
    isPhoneVerified: Option<bool>,
    isVerified: Option<bool>,
    isActive: Option<bool>,
    imageCover: Option<string>,
    ratingsAverage: Option<real>,
    ratingsQuantity: Option<real>,
    timeAverage: Option<real>,
    ordersTotal: Option<real>,
    ordersTotalAmount: Option<real>,
    offlinePaymentAccepted: Option<bool>,
    isOpen: Option<bool>)

  const NoChanges: Draft := Draft(None, None, None, None, None, None, None, None, None, None,
                                  None, None, None, None, None, None, None, None, None, None, None)

  /** None of the paths only a shop declares hold a value. */
  ghost predicate NoShopPaths(a: Account) {
    && a.imageCover.None? && a.ratingsAverage.None? && a.ratingsQuantity.None?
    && a.timeAverage.None? && a.ordersTotal.None? && a.ordersTotalAmount.None?
    && a.offlinePaymentAccepted.None? && a.isOpen.None?
  }

  /** Which optional paths hold a value, per kind: exactly the declared ones
      (strict mode drops the others), except that `image` and `shop` may be
      unset. `ShapeDeclares` relates this to `Declares`. */
  ghost predicate Shape(a: Account) {
    match a.kind
    case User =>
      && a.phone.Some? && a.register.Some? && a.address.Some? && a.shop.None?
      && a.role.Some? && a.isEmailVerified.Some? && a.isPhoneVerified.Some?
      && a.isVerified.None? && NoShopPaths(a)
    case Admin =>
      && a.phone.None? && a.register.None? && a.address.None? && a.shop.None?
      && a.role.Some? && a.isEmailVerified.Some? && a.isPhoneVerified.Some?
      && a.isVerified.None? && NoShopPaths(a)
    case Merchant =>
      && a.phone.Some? && a.register.None? && a.address.None?
      && a.role.Some? && a.isEmailVerified.Some? && a.isPhoneVerified.Some?
      && a.isVerified.Some? && NoShopPaths(a)
    case Shop =>
      && a.phone.Some? && a.register.None? && a.address.Some? && a.image.None? && a.shop.None?
      && a.role.None? && a.isEmailVerified.None? && a.isPhoneVerified.None? && a.isVerified.None?
      && a.imageCover.Some? && a.ratingsAverage.Some? && a.ratingsQuantity.Some?
      && a.timeAverage.Some? && a.ordersTotal.Some? && a.ordersTotalAmount.Some?
      && a.offlinePaymentAccepted.Some? && a.isOpen.Some?
  }

  /** The path holds a value in the document. */
  predicate Holds(a: Account, path: Path) {
    match path
    case PhoneField => a.phone.Some?
    case RegisterField => a.register.Some?
    case AddressField => a.address.Some?
    case ImageField => a.image.Some?
    case ShopField => a.shop.Some?
    case RoleField => a.role.Some?
    case EmailVerifiedField => a.isEmailVerified.Some?
    case PhoneVerifiedField => a.isPhoneVerified.Some?
    case VerifiedField => a.isVerified.Some?
    case ImageCoverField => a.imageCover.Some?
    case RatingsAverageField => a.ratingsAverage.Some?
    case RatingsQuantityField => a.ratingsQuantity.Some?
    case TimeAverageField => a.timeAverage.Some?
    case OrdersTotalField => a.ordersTotal.Some?
    case OrdersTotalAmountField => a.ordersTotalAmount.Some?
    case OfflinePaymentField => a.offlinePaymentAccepted.Some?
    case IsOpenField => a.isOpen.Some?
    case NameField | EmailField | PasswordField | ActiveField => true
  }

  /** A document of the right shape holds a value at no undeclared path,
      and at every declared one except possibly `image` and `shop`. */
  lemma ShapeDeclares(a: Account, p: Path)
    requires Shape(a)
    ensures Holds(a, p) ==> Declares(a.kind, p)
    ensures Declares(a.kind, p) && p != ImageField && p != ShopField ==> Holds(a, p)
  {
  }

  // ---------------------------------------------------------------------
  // Setters and defaults

  /** `image` is trimmed for admins and merchants; the user schema declares
      it without `trim`. */
  function ImageSetter(kind: Kind, v: string): string {
    if kind == User then v else Trim(v)
  }

  function TrimOpt(o: Option<string>): Option<string> {
    match o
    case Some(v) => Some(Trim(v))
    case None => None
  }

  function NormalizeOpt(o: Option<string>): Option<string> {
    match o
    case Some(v) => Some(Normalize(v))
    case None => None
  }

  function ImageOpt(kind: Kind, o: Option<string>): Option<string> {
    match o
    case Some(v) => Some(ImageSetter(kind, v))
    case None => None
  }

  function AddressSetter(ad: Address): Address {
    Address(TrimOpt(ad.street), TrimOpt(ad.houseNumber), TrimOpt(ad.landmark))
  }

  /** Casting: the setters of each path applied to the values given
      (`trim` on names, passwords, images and address parts; `trim` and
      `lowercase` on email, phone and registration number). */
  function Cast(kind: Kind, d: Draft): Draft {
    Draft(
      TrimOpt(d.name),
      NormalizeOpt(d.email),
      NormalizeOpt(d.phone),
      NormalizeOpt(d.register),
      if d.address.Some? then Some(AddressSetter(d.address.value)) else None,
      ImageOpt(kind, d.image),
      d.shop,
      TrimOpt(d.password),
      d.role, d.isEmailVerified, d.isPhoneVerified, d.isVerified, d.isActive,
      d.imageCover, d.ratingsAverage, d.ratingsQuantity, d.timeAverage,
      d.ordersTotal, d.ordersTotalAmount, d.offlinePaymentAccepted, d.isOpen)
  }

  /** The `default` of `role`; the shop schema declares no role. */
  function DefaultRole(kind: Kind): string
    requires kind != Shop
  {
    match kind
    case User => "user"
    case Admin => "admin"
    case Merchant => "merchant"
  }

  /** Constructs a document of the kind from values already cast:
      defaults for the missing ones, undeclared values dropped. A missing
      required string becomes "", which `required` rejects as it rejects
      an absent one. */
  function Build(kind: Kind, c: Draft): (a: Account)
    ensures a.kind == kind && Shape(a)
  {
    var name := c.name.GetOr("");
    var email := c.email.GetOr("");
    var password := c.password.GetOr("");
    var active := c.isActive.GetOr(true);
    match kind
    case User =>
      Account(User, name, email, Some(c.phone.GetOr("")), Some(c.register.GetOr("")),
              Some(c.address.GetOr(Address(None, None, None))), c.image, None, password,
              Some(c.role.GetOr(DefaultRole(User))), Some(c.isEmailVerified.GetOr(false)),
              Some(c.isPhoneVerified.GetOr(false)), None, active,
              None, None, None, None, None, None, None, None)
    case Admin =>
      Account(Admin, name, email, None, None, None, c.image, None, password,
              Some(c.role.GetOr(DefaultRole(Admin))), Some(c.isEmailVerified.GetOr(false)),
              Some(c.isPhoneVerified.GetOr(false)), None, active,
              None, None, None, None, None, None, None, None)
    case Merchant =>
      Account(Merchant, name, email, Some(c.phone.GetOr("")), None, None, c.image, c.shop, password,
              Some(c.role.GetOr(DefaultRole(Merchant))), Some(c.isEmailVerified.GetOr(false)),
              Some(c.isPhoneVerified.GetOr(false)), Some(c.isVerified.GetOr(false)), active,
              None, None, None, None, None, None, None, None)
    case Shop =>
      Account(Shop, name, email, Some(c.phone.GetOr("")), None,
              Some(c.address.GetOr(Address(None, None, None))), None, None, password,
              None, None, None, None, active,
              Some(c.imageCover.GetOr("")), Some(c.ratingsAverage.GetOr(DefaultRating)),
              Some(c.ratingsQuantity.GetOr(0.0)), Some(c.timeAverage.GetOr(1.0)),
              Some(c.ordersTotal.GetOr(0.0)), Some(c.ordersTotalAmount.GetOr(0.0)),
              Some(c.offlinePaymentAccepted.GetOr(false)), Some(c.isOpen.GetOr(false)))
  }

  /** A new document built from a draft (`new Model(body)`): cast, then
      constructed with defaults. */
  function Prepare(kind: Kind, d: Draft): (a: Account)
    ensures a.kind == kind && Shape(a)
  {
    Build(kind, Cast(kind, d))
  }

  // ---------------------------------------------------------------------
  // Validators

  /** What each path's validators accept, stated as the schemas declare it. */
  ghost predicate FieldOk(a: Account, path: Path, isEmail: string -> bool) {
    match path
    case NameField => a.name != []
    case EmailField => a.email != [] && isEmail(a.email)
    case PhoneField => a.phone.Some? && HasRun(a.phone.value, Digit, 10)
    case RegisterField => a.register.Some? && a.register.value != []
    case ShopField => a.shop.Some?
    case PasswordField => PasswordPolicy(a.password)
    case RoleField => a.role.Some? ==> IsRoleName(a.role.value)
    case ImageCoverField => a.imageCover.Some? && a.imageCover.value != []
    case RatingsAverageField => a.ratingsAverage.Some? ==> RatingAccepted(a.ratingsAverage.value)
    case TimeAverageField => a.timeAverage.Some? ==> a.timeAverage.value >= 1.0
    case _ => true
  }

  /** Runs the validators of one path, in declaration order, and reports
      the first that fails. */
  function Check(a: Account, path: Path, isEmail: string -> bool): (r: Option<Reason>)
    ensures r.None? <==> FieldOk(a, path, isEmail)
  {
    match path
    case NameField => RequiredText(a.name)
    case EmailField =>
      if a.email == [] then Some(Required) else if !isEmail(a.email) then Some(Invalid) else None
    case PhoneField => if a.phone.None? then Some(Required) else PhoneCheck(a.phone.value)
    case RegisterField => if a.register.None? then Some(Required) else RequiredText(a.register.value)
    case ShopField => if a.shop.None? then Some(Required) else None
    case PasswordField => PasswordCheck(a.password)
    case RoleField => if a.role.Some? && ParseRole(a.role.value).None? then Some(NotInEnum) else None
    case ImageCoverField => if a.imageCover.None? then Some(Required) else RequiredText(a.imageCover.value)
    case RatingsAverageField => if a.ratingsAverage.None? then None else RatingCheck(a.ratingsAverage.value)
    case TimeAverageField =>
      if a.timeAverage.Some? && a.timeAverage.value < 1.0 then Some(Min) else None
    case _ => None
  }

  /** A document every validator of its kind accepts. */
  ghost predicate WellFormed(a: Account, isEmail: string -> bool) {
    Shape(a) && forall p :: Declares(a.kind, p) ==> FieldOk(a, p, isEmail)
  }

  /** `new Model(body)` followed by validation: the built document, or the
      ValidationError naming every failing path. */
  function Validate(kind: Kind, d: Draft, isEmail: string -> bool): (r: Result<Account, seq<FieldError<Path>>>)
    ensures r.Ok? <==> WellFormed(Prepare(kind, d), isEmail)
    ensures r.Ok? ==> r.value == Prepare(kind, d)
    ensures r.Err? ==> r.error == Errors(Prepare(kind, d), Declared(kind), isEmail)
  {
    var a := Prepare(kind, d);
    var errs := Errors(a, Declared(kind), isEmail);
    if errs == [] then Ok(a) else Err(errs)
  }

  /** The ValidationError of a save that validates `paths` of `a`: one
      entry for each of those paths whose validators fail. */
  function Errors(a: Account, paths: seq<Path>, isEmail: string -> bool): (errs: seq<FieldError<Path>>)
    ensures errs == [] <==> forall p :: p in paths ==> FieldOk(a, p, isEmail)
    ensures forall p :: p in paths ==> (Reports(errs, p) <==> !FieldOk(a, p, isEmail))
  {
    Collect(paths, p => Check(a, p, isEmail))
  }

  // ---------------------------------------------------------------------
  // Assigning to a loaded document

  /** The value a path holds after an assignment: the given one if any,
      the current one otherwise. */
  function Or<T>(given: Option<T>, current: Option<T>): Option<T> {
    if given.Some? then given else current
  }

  /** Writes values already cast into a loaded document; values for paths
      the kind does not declare are ignored. */
  function Overlay(a: Account, c: Draft): (b: Account)
    ensures b.kind == a.kind
  {
    var name := c.name.GetOr(a.name);
    var email := c.email.GetOr(a.email);
    var password := c.password.GetOr(a.password);
    var active := c.isActive.GetOr(a.isActive);
    match a.kind
    case User =>
      Account(User, name, email, Or(c.phone, a.phone), Or(c.register, a.register),
              Or(c.address, a.address), Or(c.image, a.image), a.shop, password,
              Or(c.role, a.role), Or(c.isEmailVerified, a.isEmailVerified),
              Or(c.isPhoneVerified, a.isPhoneVerified), a.isVerified, active,
              a.imageCover, a.ratingsAverage, a.ratingsQuantity, a.timeAverage,
              a.ordersTotal, a.ordersTotalAmount, a.offlinePaymentAccepted, a.isOpen)
    case Admin =>
      Account(Admin, name, email, a.phone, a.register, a.address, Or(c.image, a.image), a.shop,
              password, Or(c.role, a.role), Or(c.isEmailVerified, a.isEmailVerified),
              Or(c.isPhoneVerified, a.isPhoneVerified), a.isVerified, active,
              a.imageCover, a.ratingsAverage, a.ratingsQuantity, a.timeAverage,
              a.ordersTotal, a.ordersTotalAmount, a.offlinePaymentAccepted, a.isOpen)
    case Merchant =>
      Account(Merchant, name, email, Or(c.phone, a.phone), a.register, a.address,
              Or(c.image, a.image), Or(c.shop, a.shop), password,
              Or(c.role, a.role), Or(c.isEmailVerified, a.isEmailVerified),
              Or(c.isPhoneVerified, a.isPhoneVerified), Or(c.isVerified, a.isVerified), active,
              a.imageCover, a.ratingsAverage, a.ratingsQuantity, a.timeAverage,
              a.ordersTotal, a.ordersTotalAmount, a.offlinePaymentAccepted, a.isOpen)
    case Shop =>
      Account(Shop, name, email, Or(c.phone, a.phone), a.register, Or(c.address, a.address),
              a.image, a.shop, password, a.role, a.isEmailVerified, a.isPhoneVerified,
              a.isVerified, active, Or(c.imageCover, a.imageCover),
              Or(c.ratingsAverage, a.ratingsAverage), Or(c.ratingsQuantity, a.ratingsQuantity),
              Or(c.timeAverage, a.timeAverage), Or(c.ordersTotal, a.ordersTotal),
              Or(c.ordersTotalAmount, a.ordersTotalAmount),
              Or(c.offlinePaymentAccepted, a.offlinePaymentAccepted), Or(c.isOpen, a.isOpen))
  }

  /** Assigns the given values to a loaded document through the setters. */
  function Assign(a: Account, d: Draft): (b: Account)
    ensures b.kind == a.kind
  {
    Overlay(a, Cast(a.kind, d))
  }

  /** The two documents hold the same value at `path`. */
  predicate SameAt(a: Account, b: Account, path: Path) {
    match path
    case NameField => a.name == b.name
    case EmailField => a.email == b.email
    case PhoneField => a.phone == b.phone
    case RegisterField => a.register == b.register
    case AddressField => a.address == b.address
    case ImageField => a.image == b.image
    case ShopField => a.shop == b.shop
    case PasswordField => a.password == b.password
    case RoleField => a.role == b.role
    case EmailVerifiedField => a.isEmailVerified == b.isEmailVerified
    case PhoneVerifiedField => a.isPhoneVerified == b.isPhoneVerified
    case VerifiedField => a.isVerified == b.isVerified
    case ActiveField => a.isActive == b.isActive
    case ImageCoverField => a.imageCover == b.imageCover
    case RatingsAverageField => a.ratingsAverage == b.ratingsAverage
    case RatingsQuantityField => a.ratingsQuantity == b.ratingsQuantity
    case TimeAverageField => a.timeAverage == b.timeAverage
    case OrdersTotalField => a.ordersTotal == b.ordersTotal
    case OrdersTotalAmountField => a.ordersTotalAmount == b.ordersTotalAmount
    case OfflinePaymentField => a.offlinePaymentAccepted == b.offlinePaymentAccepted
    case IsOpenField => a.isOpen == b.isOpen
  }

  /** The paths among `paths` whose value differs between `a` and `b`, in
      the order of `paths`. */
  function Changed(a: Account, b: Account, paths: seq<Path>): (r: seq<Path>)
    ensures forall p :: p in r <==> p in paths && !SameAt(a, b, p)
  {
    if paths == [] then []
    else (if SameAt(a, b, paths[0]) then [] else [paths[0]]) + Changed(a, b, paths[1..])
  }

  /** The paths `isModified` reports after the assignment:
      the declared paths whose value changed. Assigning a value equal to the
      current one (after the setters) marks nothing. */
  function Modified(a: Account, d: Draft): (r: seq<Path>)
    ensures forall p :: p in r <==> Declares(a.kind, p) && !SameAt(a, Assign(a, d), p)
  {
    Changed(a, Assign(a, d), Declared(a.kind))
  }

  /** The document with its password replaced, as the pre-save hook does. */
  function WithPassword(a: Account, password: string): Account {
    Account(a.kind, a.name, a.email, a.phone, a.register, a.address, a.image, a.shop, password,
            a.role, a.isEmailVerified, a.isPhoneVerified, a.isVerified, a.isActive,
            a.imageCover, a.ratingsAverage, a.ratingsQuantity, a.timeAverage, a.ordersTotal,
            a.ordersTotalAmount, a.offlinePaymentAccepted, a.isOpen)
  }

  /** Replacing the password changes no other path and keeps the shape. */
  lemma WithPasswordOnlyPassword(a: Account, password: string, p: Path)
    ensures WithPassword(a, password).password == password
    ensures WithPassword(a, password).kind == a.kind
    ensures p != PasswordField ==> SameAt(a, WithPassword(a, password), p)
    ensures Shape(a) ==> Shape(WithPassword(a, password))
  {
  }

  /** The draft assigns a value to `path`. */
  predicate Assigns(d: Draft, path: Path) {
    match path
    case NameField => d.name.Some?
    case EmailField => d.email.Some?
    case PhoneField => d.phone.Some?
    case RegisterField => d.register.Some?
    case AddressField => d.address.Some?
    case ImageField => d.image.Some?
    case ShopField => d.shop.Some?
    case PasswordField => d.password.Some?
    case RoleField => d.role.Some?
    case EmailVerifiedField => d.isEmailVerified.Some?
    case PhoneVerifiedField => d.isPhoneVerified.Some?
    case VerifiedField => d.isVerified.Some?
    case ActiveField => d.isActive.Some?
    case ImageCoverField => d.imageCover.Some?
    case RatingsAverageField => d.ratingsAverage.Some?
    case RatingsQuantityField => d.ratingsQuantity.Some?
    case TimeAverageField => d.timeAverage.Some?
    case OrdersTotalField => d.ordersTotal.Some?
    case OrdersTotalAmountField => d.ordersTotalAmount.Some?
    case OfflinePaymentField => d.offlinePaymentAccepted.Some?
    case IsOpenField => d.isOpen.Some?
  }

  /** Casting gives a value to exactly the paths the draft gives one. */
  lemma CastKeepsAssigned(kind: Kind, d: Draft, p: Path)
    ensures Assigns(Cast(kind, d), p) <==> Assigns(d, p)
  {
  }

  lemma OverlayOnlyGiven(a: Account, c: Draft, p: Path)
    ensures !Assigns(c, p) || !Declares(a.kind, p) ==> SameAt(a, Overlay(a, c), p)
  {
  }

  /** An assignment changes only what it is told to: a path the draft says
      nothing about, or one the kind does not declare, keeps its value. */
  lemma AssignOnlyAssigned(a: Account, d: Draft, p: Path)
    ensures !Assigns(d, p) || !Declares(a.kind, p) ==> SameAt(a, Assign(a, d), p)
  {
    CastKeepsAssigned(a.kind, d, p);
    OverlayOnlyGiven(a, Cast(a.kind, d), p);
  }

  /** A body without a password neither changes the password nor marks
      it modified, so the pre-save hook leaves the stored hash alone. */
  lemma PasswordKeptUnlessAssigned(a: Account, d: Draft)
    requires d.password.None?
    ensures Assign(a, d).password == a.password
    ensures PasswordField !in Modified(a, d)
  {
    AssignOnlyAssigned(a, d, PasswordField);
  }

  /** Assigning nothing leaves the document as it is. */
  lemma AssignNothing(a: Account)
    ensures Assign(a, NoChanges) == a
    ensures Modified(a, NoChanges) == []
  {
    assert Assign(a, NoChanges) == a;
    UnchangedNone(a, Declared(a.kind));
  }

  lemma {:induction false} UnchangedNone(a: Account, paths: seq<Path>)
    ensures Changed(a, a, paths) == []
  {
    if paths != [] {
      UnchangedNone(a, paths[1..]);
    }
  }

  /** A path's validators read only that path. */
  lemma FieldOkLocal(a: Account, b: Account, p: Path, isEmail: string -> bool)
    requires SameAt(a, b, p)
    ensures FieldOk(a, p, isEmail) <==> FieldOk(b, p, isEmail)
  {
  }

  lemma OverlayKeepsShape(a: Account, c: Draft)
    requires Shape(a)
    ensures Shape(Overlay(a, c))
  {
  }

  /** Assignment keeps the document's shape: it never fills an undeclared
      path and never clears a declared one. */
  lemma AssignKeepsShape(a: Account, d: Draft)
    requires Shape(a)
    ensures Shape(Assign(a, d))
  {
    OverlayKeepsShape(a, Cast(a.kind, d));
  }

  // ---------------------------------------------------------------------
  // What each kind accepts, in terms of the values the caller supplied

  ghost predicate NameGiven(d: Draft) {
    Trim(d.name.GetOr("")) != []
  }

  ghost predicate EmailGiven(d: Draft, isEmail: string -> bool) {
    Normalize(d.email.GetOr("")) != [] && isEmail(Normalize(d.email.GetOr("")))
  }

  /** Ten consecutive digits somewhere in the value as given. */
  ghost predicate PhoneGiven(d: Draft) {
    HasRun(d.phone.GetOr(""), Digit, 10)
  }

  ghost predicate RegisterGiven(d: Draft) {
    Normalize(d.register.GetOr("")) != []
  }

  ghost predicate PasswordGiven(d: Draft) {
    PasswordPolicy(Trim(d.password.GetOr("")))
  }

  ghost predicate RoleGiven(d: Draft) {
    d.role.Some? ==> IsRoleName(d.role.value)
  }

  /** The validators of each path, stated about a new document in terms of
      the values the caller supplied. */
  lemma NameGivenPrepared(kind: Kind, d: Draft, isEmail: string -> bool)
    ensures FieldOk(Prepare(kind, d), NameField, isEmail) <==> NameGiven(d)
  {
  }

  lemma EmailGivenPrepared(kind: Kind, d: Draft, isEmail: string -> bool)
    ensures FieldOk(Prepare(kind, d), EmailField, isEmail) <==> EmailGiven(d, isEmail)
  {
  }

  lemma PhoneGivenPrepared(kind: Kind, d: Draft, isEmail: string -> bool)
    requires kind != Admin
    ensures FieldOk(Prepare(kind, d), PhoneField, isEmail) <==> PhoneGiven(d)
  {
    PhoneRunSurvivesSetters(d.phone.GetOr(""));
  }

  lemma RegisterGivenPrepared(d: Draft, isEmail: string -> bool)
    ensures FieldOk(Prepare(User, d), RegisterField, isEmail) <==> RegisterGiven(d)
  {
  }

  lemma PasswordGivenPrepared(kind: Kind, d: Draft, isEmail: string -> bool)
    ensures FieldOk(Prepare(kind, d), PasswordField, isEmail) <==> PasswordGiven(d)
  {
  }

  lemma RoleGivenPrepared(kind: Kind, d: Draft, isEmail: string -> bool)
    requires kind != Shop
    ensures FieldOk(Prepare(kind, d), RoleField, isEmail) <==> RoleGiven(d)
  {
    if d.role.None? {
      var r := match kind
               case User => UserRole
               case Admin => AdminRole
               case _ => MerchantRole;
      assert r.Name() == DefaultRole(kind);
    }
  }

  lemma ShopGivenPrepared(d: Draft, isEmail: string -> bool)
    ensures FieldOk(Prepare(Merchant, d), ShopField, isEmail) <==> d.shop.Some?
  {
  }

  lemma ShopFieldsPrepared(d: Draft, isEmail: string -> bool)
    ensures FieldOk(Prepare(Shop, d), ImageCoverField, isEmail) <==> d.imageCover.GetOr("") != []
    ensures FieldOk(Prepare(Shop, d), RatingsAverageField, isEmail)
        <==> RatingAccepted(d.ratingsAverage.GetOr(DefaultRating))
    ensures FieldOk(Prepare(Shop, d), TimeAverageField, isEmail) <==> d.timeAverage.GetOr(1.0) >= 1.0
  {
  }

  /** The paths whose validators can fail, per kind; every other declared
      path accepts any value of its type. */
  lemma WellFormedUser(a: Account, isEmail: string -> bool)
    requires a.kind == User
    ensures WellFormed(a, isEmail) <==>
      Shape(a) && FieldOk(a, NameField, isEmail) && FieldOk(a, EmailField, isEmail)
      && FieldOk(a, PhoneField, isEmail) && FieldOk(a, RegisterField, isEmail)
      && FieldOk(a, PasswordField, isEmail) && FieldOk(a, RoleField, isEmail)
  {
  }

  lemma WellFormedAdmin(a: Account, isEmail: string -> bool)
    requires a.kind == Admin
    ensures WellFormed(a, isEmail) <==>
      Shape(a) && FieldOk(a, NameField, isEmail) && FieldOk(a, EmailField, isEmail)
      && FieldOk(a, PasswordField, isEmail) && FieldOk(a, RoleField, isEmail)
  {
  }

  lemma WellFormedMerchant(a: Account, isEmail: string -> bool)
    requires a.kind == Merchant
    ensures WellFormed(a, isEmail) <==>
      Shape(a) && FieldOk(a, NameField, isEmail) && FieldOk(a, EmailField, isEmail)
      && FieldOk(a, PhoneField, isEmail) && FieldOk(a, ShopField, isEmail)
      && FieldOk(a, PasswordField, isEmail) && FieldOk(a, RoleField, isEmail)
  {
  }

  lemma WellFormedShop(a: Account, isEmail: string -> bool)
    requires a.kind == Shop
    ensures WellFormed(a, isEmail) <==>
      Shape(a) && FieldOk(a, NameField, isEmail) && FieldOk(a, EmailField, isEmail)
      && FieldOk(a, PhoneField, isEmail) && FieldOk(a, ImageCoverField, isEmail)
      && FieldOk(a, RatingsAverageField, isEmail) && FieldOk(a, TimeAverageField, isEmail)
      && FieldOk(a, PasswordField, isEmail)
  {
  }

  /** A user is saved iff it has a name, a valid email, ten consecutive
      digits in its phone, a registration number, a password meeting the
      policy and, when given, a role from the roles enum. */
  lemma UserAccepts(d: Draft, isEmail: string -> bool)
    ensures WellFormed(Prepare(User, d), isEmail) <==>
      NameGiven(d) && EmailGiven(d, isEmail) && PhoneGiven(d) && RegisterGiven(d)
      && PasswordGiven(d) && RoleGiven(d)
  {
    WellFormedUser(Prepare(User, d), isEmail);
    NameGivenPrepared(User, d, isEmail);
    EmailGivenPrepared(User, d, isEmail);
    PhoneGivenPrepared(User, d, isEmail);
    RegisterGivenPrepared(d, isEmail);
    PasswordGivenPrepared(User, d, isEmail);
    RoleGivenPrepared(User, d, isEmail);
  }

  /** An admin is saved iff it has a name, a valid email, a password meeting
      the policy and, when given, a role from the roles enum. */
  lemma AdminAccepts(d: Draft, isEmail: string -> bool)
    ensures WellFormed(Prepare(Admin, d), isEmail) <==>
      NameGiven(d) && EmailGiven(d, isEmail) && PasswordGiven(d) && RoleGiven(d)
  {
    WellFormedAdmin(Prepare(Admin, d), isEmail);
    NameGivenPrepared(Admin, d, isEmail);
    EmailGivenPrepared(Admin, d, isEmail);
    PasswordGivenPrepared(Admin, d, isEmail);
    RoleGivenPrepared(Admin, d, isEmail);
  }

  /** A merchant is saved iff it has a name, a valid email, ten consecutive
      digits in its phone, a shop reference, a password meeting the policy
      and, when given, a role from the roles enum. */
  lemma MerchantAccepts(d: Draft, isEmail: string -> bool)
    ensures WellFormed(Prepare(Merchant, d), isEmail) <==>
      NameGiven(d) && EmailGiven(d, isEmail) && PhoneGiven(d) && d.shop.Some?
      && PasswordGiven(d) && RoleGiven(d)
  {
    WellFormedMerchant(Prepare(Merchant, d), isEmail);
    NameGivenPrepared(Merchant, d, isEmail);
    EmailGivenPrepared(Merchant, d, isEmail);
    PhoneGivenPrepared(Merchant, d, isEmail);
    ShopGivenPrepared(d, isEmail);
    PasswordGivenPrepared(Merchant, d, isEmail);
    RoleGivenPrepared(Merchant, d, isEmail);
  }

  /** A shop is saved iff it has a name, a valid email, ten consecutive
      digits in its phone, a cover image, a password meeting the policy, an
      average time of at least 1 and an accepted rating (the default 0
      included). */
  lemma ShopAccepts(d: Draft, isEmail: string -> bool)
    ensures WellFormed(Prepare(Shop, d), isEmail) <==>
      NameGiven(d) && EmailGiven(d, isEmail) && PhoneGiven(d) && d.imageCover.GetOr("") != []
      && RatingAccepted(d.ratingsAverage.GetOr(DefaultRating)) && d.timeAverage.GetOr(1.0) >= 1.0
      && PasswordGiven(d)
  {
    WellFormedShop(Prepare(Shop, d), isEmail);
    NameGivenPrepared(Shop, d, isEmail);
    EmailGivenPrepared(Shop, d, isEmail);
    PhoneGivenPrepared(Shop, d, isEmail);
    ShopFieldsPrepared(d, isEmail);
    PasswordGivenPrepared(Shop, d, isEmail);
  }

  /** Identifiers are stored trimmed and lower-cased (so stored values are
      fixed points of the setters), and the name is stored trimmed. */
  lemma StoredIdentifiersNormal(kind: Kind, d: Draft, isEmail: string -> bool)
    requires WellFormed(Prepare(kind, d), isEmail)
    ensures var a := Prepare(kind, d);
      && d.email.Some? && a.email == Lower(Trim(d.email.value)) && IsNormal(a.email)
      && (kind != Admin ==> d.phone.Some? && a.phone == Some(Lower(Trim(d.phone.value))) && IsNormal(a.phone.value))
      && (kind == User ==> d.register.Some? && a.register == Some(Lower(Trim(d.register.value))) && IsNormal(a.register.value))
      && d.name.Some? && a.name == Trim(d.name.value) && Trim(a.name) == a.name
  {
    var a := Prepare(kind, d);
    assert FieldOk(a, NameField, isEmail) && FieldOk(a, EmailField, isEmail);
    NormalizeIsNormal(d.email.GetOr(""));
    NormalizeIsNormal(d.phone.GetOr(""));
    NormalizeIsNormal(d.register.GetOr(""));
    TrimIdempotent(d.name.GetOr(""));
    if kind != Admin {
      assert FieldOk(a, PhoneField, isEmail);
    }
    if kind == User {
      assert FieldOk(a, RegisterField, isEmail);
    }
  }
}
