/** `src/controllers/ProductController.ts`: the Deno product handlers. Each one writes
    its answer into the context; the database calls go to the `Db` tables. */
module ProductApi {
  import opened Wrappers
  import opened Js
  import opened Text
  import opened Lists
  import opened Database
  import opened Http

  /** `parseInt(url.searchParams.get(name) || default)`: `Default` when the parameter is
      absent or empty, otherwise what `parseInt` made of it (possibly NaN). */
  datatype QueryNumber = Default | Parsed(value: JsInt)

  /** `minPrice` / `maxPrice`: absent or empty, present but NaN under `parseFloat`, or a
      number. */
  datatype PriceParam = NoBound | Unparsable | Bound(value: real)

  /** The query string of `GET /products`; `search` and `category` are already `|| ''`. */
  datatype ListQuery = ListQuery(
    page: QueryNumber, limit: QueryNumber, search: string, category: string,
    minPrice: PriceParam, maxPrice: PriceParam)

  function OrDefault(q: QueryNumber, d: int): (r: JsInt)
    ensures q == Default ==> r == Int(d)
    ensures q.Parsed? ==> r == q.value
  {
    match q
    case Default => Int(d)
    case Parsed(v) => v
  }

  // ---------------------------------------------------------------- the filters

  /** `p.category.toLowerCase() === category.toLowerCase()` when a category is given. */
  predicate CategoryMatches(category: string, p: ApiProduct) {
    category == "" || ToLower(p.category) == ToLower(category)
  }

  predicate AboveMin(min: PriceParam, p: ApiProduct) {
    min.Bound? ==> p.price >= min.value
  }

  predicate BelowMax(max: PriceParam, p: ApiProduct) {
    max.Bound? ==> p.price <= max.value
  }

  /** A product passes the list's filters. */
  predicate Matches(q: ListQuery, p: ApiProduct) {
    CategoryMatches(q.category, p) && AboveMin(q.minPrice, p) && BelowMax(q.maxPrice, p)
  }

  function CategoryFilter(category: string): ApiProduct -> bool {
    p => CategoryMatches(category, p)
  }

  function MinFilter(min: PriceParam): ApiProduct -> bool {
    p => AboveMin(min, p)
  }

  function MaxFilter(max: PriceParam): ApiProduct -> bool {
    p => BelowMax(max, p)
  }

  function MatchFilter(q: ListQuery): ApiProduct -> bool {
    p => Matches(q, p)
  }

  /** The list before filtering: the LIKE search results when `search` is given, every
      product otherwise. */
  function Base(all: seq<ApiProduct>, hits: seq<ApiProduct>, search: string): seq<ApiProduct> {
    if search != "" then hits else all
  }

  /** What the filters leave of the list, in its original order. */
  function Matching(base: seq<ApiProduct>, q: ListQuery): (r: seq<ApiProduct>)
    ensures |r| <= |base|
    ensures forall p :: p in r <==> p in base && Matches(q, p)
  {
    var r := Filter(base, MatchFilter(q));
    assert forall p :: p in r ==> MatchFilter(q)(p);
    r
  }

  /** An unparsable bound filters nothing, exactly like an absent one. */
  lemma UnparsableBoundIgnored(base: seq<ApiProduct>, q: ListQuery)
    ensures Matching(base, q.(minPrice := Unparsable)) == Matching(base, q.(minPrice := NoBound))
    ensures Matching(base, q.(maxPrice := Unparsable)) == Matching(base, q.(maxPrice := NoBound))
  {
    FilterSame(base, MatchFilter(q.(minPrice := Unparsable)), MatchFilter(q.(minPrice := NoBound)));
    FilterSame(base, MatchFilter(q.(maxPrice := Unparsable)), MatchFilter(q.(maxPrice := NoBound)));
  }

  /** Whatever window of the filtered list is taken, each of its products comes from the
      base list and passes every active filter. */
  lemma WindowMatches(base: seq<ApiProduct>, q: ListQuery, start: JsInt, end: JsInt)
    ensures forall i :: 0 <= i < |Slice(Matching(base, q), start, end)| ==>
      var p := Slice(Matching(base, q), start, end)[i];
      p in base && CategoryMatches(q.category, p) && AboveMin(q.minPrice, p) && BelowMax(q.maxPrice, p)
  {
    var m := Matching(base, q);
    forall i | 0 <= i < |Slice(m, start, end)|
      ensures Slice(m, start, end)[i] in base && Matches(q, Slice(m, start, end)[i])
    {
      var k := SliceIndex(start, |m|) + i;
      assert m[k] in base && MatchFilter(q)(m[k]);
    }
  }

  // ---------------------------------------------------------------- handlers

  /** The category, minPrice and maxPrice filters of `getProducts`, applied in turn, each
      only when its parameter is given: together they keep exactly the matching products,
      in order. */
  method ApplyFilters(base: seq<ApiProduct>, q: ListQuery) returns (products: seq<ApiProduct>)
    ensures products == Matching(base, q)
  {
    products := base;
    ghost var r0 := MatchFilter(q.(minPrice := NoBound, maxPrice := NoBound));
    if q.category != "" {
      products := Filter(products, CategoryFilter(q.category));
      FilterAnd(base, r0, r0, CategoryFilter(q.category));
      FilterAll(Filter(base, r0), r0);
    } else {
      FilterAll(base, r0);
    }
    assert products == Filter(base, r0);
    ghost var r1 := MatchFilter(q.(maxPrice := NoBound));
    if q.minPrice.Bound? {
      products := Filter(products, MinFilter(q.minPrice));
      FilterAnd(base, r0, MinFilter(q.minPrice), r1);
    } else {
      FilterAnd(base, r0, r0, r1);
      FilterAnd(base, r0, r0, r0);
    }
    assert products == Filter(base, r1);
    if q.maxPrice.Bound? {
      products := Filter(products, MaxFilter(q.maxPrice));
      FilterAnd(base, r1, MaxFilter(q.maxPrice), MatchFilter(q));
    } else {
      FilterAnd(base, r1, r1, MatchFilter(q));
      FilterAnd(base, r1, r1, r1);
    }
  }

  /** `getProducts`: base list, then the category, minPrice and maxPrice filters in turn,
      then the page `slice((page - 1) * limit, (page - 1) * limit + limit)` of the result. */
  method GetProducts(ctx: Context, db: Db, q: ListQuery, hits: seq<ApiProduct>)
    requires db.Valid()
    modifies ctx
    ensures ctx.user == old(ctx.user) && ctx.status == 200
    ensures var page, limit := OrDefault(q.page, 1), OrDefault(q.limit, 10);
      var matching := Matching(Base(db.AllProducts(), hits, q.search), q);
      var start := Mul(Sub(page, 1), limit);
      && ctx.body.Success? && ctx.body.data.ProductList?
      && ctx.body.data.products == Slice(matching, start, Add(start, limit))
      && ctx.body.data.pagination == Pagination(
           page, limit, |matching|, CeilDiv(|matching|, limit),
           LessThan(page, CeilDiv(|matching|, limit)), GreaterThan(page, 1))
    ensures forall i :: 0 <= i < |ctx.body.data.products| ==>
      var p := ctx.body.data.products[i];
      p in Base(db.AllProducts(), hits, q.search)
      && CategoryMatches(q.category, p) && AboveMin(q.minPrice, p) && BelowMax(q.maxPrice, p)
  {
    var page := OrDefault(q.page, 1);
    var limit := OrDefault(q.limit, 10);
    var products := db.AllProducts();
    if q.search != "" {
      products := hits;
    }
    ghost var base := products;
    products := ApplyFilters(products, q);
    var total := |products|;
    var totalPages := CeilDiv(total, limit);
    var start := Mul(Sub(page, 1), limit);
    var end := Add(start, limit);
    var paginated := Slice(products, start, end);
    WindowMatches(base, q, start, end);
    ctx.Respond(200, Success(None, ProductList(paginated,
      Pagination(page, limit, total, totalPages, LessThan(page, totalPages), GreaterThan(page, 1)))));
  }

  // ---------------------------------------------------------------- validation

  const InvalidId := "ID inválido"
  const ProductNotFound := "Producto no encontrado"
  const NegativePrice := "El precio no puede ser negativo"
  const NegativeStock := "El stock no puede ser negativo"
  const SearchTermRequired := "Término de búsqueda requerido"

  /** The two checks `createProduct` and `updateProduct` make on a body, price first; an
      absent field (None) is not checked. The first failing check gives the message. */
  function NegativeFieldError(price: Option<real>, stock: Option<int>): (r: Option<string>)
    ensures r.None? <==> (price.None? || price.value >= 0.0) && (stock.None? || stock.value >= 0)
    ensures r == Some(NegativePrice) <==> price.Some? && price.value < 0.0
    ensures r == Some(NegativeStock) <==> (price.None? || price.value >= 0.0) && stock.Some? && stock.value < 0
  {
    if price.Some? && price.value < 0.0 then Some(NegativePrice)
    else if stock.Some? && stock.value < 0 then Some(NegativeStock)
    else None
  }

  /** Price 0 and stock 0 are accepted: only negative values are refused. */
  lemma ZeroAccepted()
    ensures NegativeFieldError(Some(0.0), Some(0)) == None
  {
  }

  // ---------------------------------------------------------------- the other handlers

  /** `getProductById`: 400 for a NaN id, 404 when no row has it, otherwise the product
      with Oak's default status 200. */
  method GetProductById(ctx: Context, db: Db, id: JsInt)
    requires db.Valid()
    modifies ctx
    ensures ctx.user == old(ctx.user)
    ensures id.NaN? ==> ctx.status == 400 && ctx.body == Failure(InvalidId)
    ensures id.Int? && db.FindProductById(id.v).None? ==> ctx.status == 404 && ctx.body == Failure(ProductNotFound)
    ensures id.Int? && db.FindProductById(id.v).Some? ==>
      ctx.status == 200 && ctx.body == Success(None, OneProduct(db.FindProductById(id.v).value))
  {
    if id.NaN? {
      ctx.Respond(400, Failure(InvalidId));
      return;
    }
    var product := db.FindProductById(id.v);
    if product.None? {
      ctx.Respond(404, Failure(ProductNotFound));
      return;
    }
    ctx.Respond(200, Success(None, OneProduct(product.value)));
  }

  /** `createProduct`: a negative price is refused before the stock is looked at, a
      negative stock next; only a valid body reaches the insert, answered with 201. */
  method CreateProduct(ctx: Context, db: Db, body: NewProduct, now: int)
    requires db.Valid()
    modifies ctx, db
    ensures db.Valid() && ctx.user == old(ctx.user)
    ensures var err := NegativeFieldError(Some(body.price), Some(body.stock));
      && (err.Some? ==> ctx.status == 400 && ctx.body == Failure(err.value)
                        && db.products == old(db.products) && db.nextProductId == old(db.nextProductId))
      && (err.None? ==>
            var row := ProductRow(old(db.nextProductId), body.name, body.description, body.price,
                                  body.stock, body.category, 1, now, now);
            && db.products == old(db.products) + [row] && db.nextProductId == old(db.nextProductId) + 1
            && ctx.status == 201
            && ctx.body == Success(Some("Producto creado exitosamente"), OneProduct(ToApi(row))))
    ensures db.users == old(db.users) && db.nextUserId == old(db.nextUserId)
  {
    if body.price < 0.0 {
      ctx.Respond(400, Failure(NegativePrice));
      return;
    }
    if body.stock < 0 {
      ctx.Respond(400, Failure(NegativeStock));
      return;
    }
    var product := db.CreateProduct(body, now);
    ctx.Respond(201, Success(Some("Producto creado exitosamente"), OneProduct(product)));
  }

  /** `updateProduct`: the id is checked first (400), then the defined price and stock
      (400), and a missing row gives 404 after the UPDATE has run on no row. */
  method UpdateProduct(ctx: Context, db: Db, id: JsInt, body: ProductPatch, now: int)
    requires db.Valid()
    modifies ctx, db
    ensures db.Valid() && ctx.user == old(ctx.user)
    ensures id.NaN? ==> ctx.status == 400 && ctx.body == Failure(InvalidId) && db.products == old(db.products)
    ensures id.Int? && NegativeFieldError(body.price, body.stock).Some? ==>
      && ctx.status == 400 && ctx.body == Failure(NegativeFieldError(body.price, body.stock).value)
      && db.products == old(db.products)
    ensures id.Int? && NegativeFieldError(body.price, body.stock).None? ==>
      && |db.products| == |old(db.products)|
      && (forall i :: 0 <= i < |db.products| ==>
            db.products[i] == if old(db.products)[i].id == id.v
                              then MergeProduct(old(db.products)[i], body).(updatedAt := now)
                              else old(db.products)[i])
      && ((forall i :: 0 <= i < |db.products| ==> old(db.products)[i].id != id.v) ==>
            ctx.status == 404 && ctx.body == Failure(ProductNotFound))
      && ((exists i :: 0 <= i < |db.products| && old(db.products)[i].id == id.v) ==>
            ctx.status == 200
            && ctx.body == Success(Some("Producto actualizado exitosamente"),
                                   OneProduct(db.FindProductById(id.v).value)))
    ensures db.users == old(db.users) && db.nextUserId == old(db.nextUserId)
    ensures db.nextProductId == old(db.nextProductId)
  {
    if id.NaN? {
      ctx.Respond(400, Failure(InvalidId));
      return;
    }
    if body.price.Some? && body.price.value < 0.0 {
      ctx.Respond(400, Failure(NegativePrice));
      return;
    }
    if body.stock.Some? && body.stock.value < 0 {
      ctx.Respond(400, Failure(NegativeStock));
      return;
    }
    var updated := db.UpdateProduct(id.v, body, now);
    if updated.None? {
      ctx.Respond(404, Failure(ProductNotFound));
      return;
    }
    ctx.Respond(200, Success(Some("Producto actualizado exitosamente"), OneProduct(updated.value)));
  }

  /** `deleteProduct`: 400 for a NaN id, 404 when nothing was deleted, otherwise 200. */
  method DeleteProduct(ctx: Context, db: Db, id: JsInt)
    requires db.Valid()
    modifies ctx, db
    ensures db.Valid() && ctx.user == old(ctx.user)
    ensures id.NaN? ==> ctx.status == 400 && ctx.body == Failure(InvalidId) && db.products == old(db.products)
    ensures id.Int? ==>
      && db.products == Filter(old(db.products), (r: ProductRow) => r.id != id.v)
      && ((exists i :: 0 <= i < |old(db.products)| && old(db.products)[i].id == id.v) ==>
            ctx.status == 200 && ctx.body == Success(Some("Producto eliminado exitosamente"), NoData))
      && ((forall i :: 0 <= i < |old(db.products)| ==> old(db.products)[i].id != id.v) ==>
            ctx.status == 404 && ctx.body == Failure(ProductNotFound))
    ensures db.users == old(db.users) && db.nextUserId == old(db.nextUserId)
    ensures db.nextProductId == old(db.nextProductId)
  {
    if id.NaN? {
      ctx.Respond(400, Failure(InvalidId));
      return;
    }
    var deleted := db.DeleteProduct(id.v);
    if !deleted {
      ctx.Respond(404, Failure(ProductNotFound));
      return;
    }
    ctx.Respond(200, Success(Some("Producto eliminado exitosamente"), NoData));
  }

  /** `searchProducts`: `q || ''` that is empty or only whitespace is refused with 400;
      otherwise the LIKE matches `hits` are returned with their count and the term. */
  method SearchProducts(ctx: Context, query: string, hits: seq<ApiProduct>)
    modifies ctx
    ensures ctx.user == old(ctx.user)
    ensures IsBlank(query) ==> ctx.status == 400 && ctx.body == Failure(SearchTermRequired)
    ensures !IsBlank(query) ==> ctx.status == 200 && ctx.body == Success(None, SearchResult(hits, |hits|, query))
  {
    if IsBlank(query) {
      ctx.Respond(400, Failure(SearchTermRequired));
      return;
    }
    ctx.Respond(200, Success(None, SearchResult(hits, |hits|, query)));
  }
}
