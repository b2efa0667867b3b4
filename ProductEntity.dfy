/** The domain entity `App\Domain\Product\Entities\Product`: a read-only record whose
    constructor validates it, and the threshold predicates the use cases consult. */
module ProductEntity {
  import opened Wrappers

  /** Seconds in a day; timestamps are whole seconds. */
  const DaySeconds: int := 86400
  /** A product is "new" while it is younger than this many days. */
  const NewProductDays: int := 30
  const ExpensiveAbove: real := 1000.0
  const PopularAbove: int := 200

  /** The entity's fields; `id` is null until the store assigns one, and the timestamps
      may be null as well. */
  datatype Product = Product(
    id: Option<int>,
    name: string,
    description: string,
    price: real,
    stock: int,
    userId: int,
    image: string,
    createdAt: Option<int>,
    updatedAt: Option<int>)

  /** The four exceptions `validate` can throw, in the order it checks them. */
  datatype ValidationError = EmptyName | NonPositivePrice | NegativeStock | InvalidImageUrl

  /** PHP `empty()` on a string: both "" and "0" count as empty. */
  predicate PhpEmpty(s: string) {
    s == "" || s == "0"
  }

  /** What every constructed product satisfies. `isUrl` stands for
      `filter_var($image, FILTER_VALIDATE_URL)`, which the model does not reimplement. */
  predicate Invariant(p: Product, isUrl: string -> bool) {
    && !PhpEmpty(p.name)
    && p.price > 0.0
    && p.stock >= 0
    && (PhpEmpty(p.image) || isUrl(p.image))
  }

  /** `validate`: the first check that fails, or None. */
  function FirstViolation(p: Product, isUrl: string -> bool): (r: Option<ValidationError>)
    ensures r == None <==> Invariant(p, isUrl)
    ensures r == Some(EmptyName) <==> PhpEmpty(p.name)
    ensures r == Some(NonPositivePrice) <==> !PhpEmpty(p.name) && p.price <= 0.0
    ensures r == Some(NegativeStock) <==> !PhpEmpty(p.name) && p.price > 0.0 && p.stock < 0
    ensures r == Some(InvalidImageUrl) <==> Invariant(p.(image := ""), isUrl) && !PhpEmpty(p.image) && !isUrl(p.image)
  {
    if PhpEmpty(p.name) then Some(EmptyName)
    else if p.price <= 0.0 then Some(NonPositivePrice)
    else if p.stock < 0 then Some(NegativeStock)
    else if !PhpEmpty(p.image) && !isUrl(p.image) then Some(InvalidImageUrl)
    else None
  }

  /** `new Product(...)`: the constructor stores the fields and runs `validate`, so it
      either yields exactly the given fields, all invariants holding, or throws the first
      violation. */
  function Construct(fields: Product, isUrl: string -> bool): (r: Result<Product, ValidationError>)
    ensures r.Ok? <==> Invariant(fields, isUrl)
    ensures r.Ok? ==> r.value == fields
    ensures r.Err? ==> FirstViolation(fields, isUrl) == Some(r.error)
  {
    match FirstViolation(fields, isUrl)
    case None => Ok(fields)
    case Some(e) => Err(e)
  }

  predicate IsExpensive(p: Product) {
    p.price > ExpensiveAbove
  }

  /** Exactly one of isExpensive and isCheap holds, whatever the price. */
  function IsCheap(p: Product): (r: bool)
    ensures r <==> !IsExpensive(p)
  {
    p.price <= ExpensiveAbove
  }

  predicate IsAvailable(p: Product) {
    p.stock > 0
  }

  /** `stock === 0`: never together with isAvailable, and for a product whose stock is
      not negative (every constructed one) exactly one of the two holds. */
  function IsOutOfStock(p: Product): (r: bool)
    ensures r ==> !IsAvailable(p)
    ensures p.stock >= 0 ==> (r <==> !IsAvailable(p))
  {
    p.stock == 0
  }

  /** `stock > 200`, which implies the product is available. */
  function IsPopular(p: Product): (r: bool)
    ensures r ==> IsAvailable(p)
  {
    p.stock > PopularAbove
  }

  /** The complement of isPopular. */
  function IsNotPopular(p: Product): (r: bool)
    ensures r <==> !IsPopular(p)
  {
    p.stock <= PopularAbove
  }

  /** `now()->subDays(30)` */
  function Cutoff(now: int): int {
    now - NewProductDays * DaySeconds
  }

  /** `created_at > now()->subDays(30)`. A null created_at compares as false against the
      date object (PHP compares null with an object as booleans), so it is never new. */
  function IsNew(p: Product, now: int): (r: bool)
    ensures r <==> p.createdAt.Some? && now - p.createdAt.value < NewProductDays * DaySeconds
  {
    match p.createdAt
    case None => false
    case Some(t) => t > Cutoff(now)
  }

  /** `created_at < now()->subDays(30)`: never together with isNew, and a product exactly
      30 days old is neither. A null created_at is old. */
  function IsOld(p: Product, now: int): (r: bool)
    ensures r ==> !IsNew(p, now)
    ensures p.createdAt == Some(Cutoff(now)) ==> !r && !IsNew(p, now)
    ensures p.createdAt.Some? ==> (r || IsNew(p, now) <==> p.createdAt.value != Cutoff(now))
  {
    match p.createdAt
    case None => true
    case Some(t) => t < Cutoff(now)
  }

  /** Every product the constructor returns has a non-empty name, a positive price and a
      stock that is not negative. */
  lemma ConstructedIsValid(fields: Product, isUrl: string -> bool)
    requires Construct(fields, isUrl).Ok?
    ensures var p := Construct(fields, isUrl).value;
      p.name != "" && p.price > 0.0 && p.stock >= 0
  {
  }

  /** The name "0" is rejected like "", because PHP's empty() treats it as empty. */
  lemma ZeroNameRejected(fields: Product, isUrl: string -> bool)
    requires fields.name == "0"
    ensures Construct(fields, isUrl) == Err(EmptyName)
  {
  }
}
