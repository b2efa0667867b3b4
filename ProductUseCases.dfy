/** The product store behind `ProductRepositoryInterface` (its Eloquent implementation)
    and the three application use cases that change it: create, update and delete. */
module ProductUseCases {
  import opened Wrappers
  import opened ProductEntity

  /** What the use cases send to the log; logging never changes the store. */
  datatype LogEntry =
    | ExpensiveUpdated(id: Option<int>, price: real)
    | OutOfStockWarning(id: Option<int>, name: string)
    | ExpensiveDeleted(id: Option<int>, name: string, price: real)

  /** The six columns the repository writes agree. */
  predicate SameColumns(a: Product, b: Product) {
    a.name == b.name && a.description == b.description && a.price == b.price
    && a.stock == b.stock && a.userId == b.userId && a.image == b.image
  }

  /** The row after Eloquent's `update([...])` of the six columns: when none of them is
      dirty no UPDATE runs and the row, updated_at included, stays as it was; otherwise
      the columns take the entity's values and updated_at becomes `now`. The id and
      created_at are the row's own either way. */
  function Saved(row: Product, p: Product, now: int): (s: Product)
    ensures SameColumns(s, p) && s.id == row.id && s.createdAt == row.createdAt
    ensures s.updatedAt == (if SameColumns(row, p) then row.updatedAt else Some(now))
    ensures SameColumns(row, p) ==> s == row
  {
    if SameColumns(row, p) then row
    else row.(name := p.name, description := p.description, price := p.price,
              stock := p.stock, userId := p.userId, image := p.image, updatedAt := Some(now))
  }

  /** The products table seen through the repository: every row is keyed by its own id,
      below the next id to be generated, and satisfies the entity invariant (rows are
      turned back into entities on every read, which re-runs `validate`). */
  class ProductRepository {
    var rows: map<int, Product>
    var nextId: int
    /** `filter_var(..., FILTER_VALIDATE_URL)`, fixed for the lifetime of the store. */
    const isUrl: string -> bool

    ghost predicate Valid()
      reads this
    {
      forall id :: id in rows ==> rows[id].id == Some(id) && id < nextId && Invariant(rows[id], isUrl)
    }

    constructor (isUrl: string -> bool)
      ensures Valid() && rows == map[] && nextId == 1 && this.isUrl == isUrl
    {
      rows := map[];
      nextId := 1;
      this.isUrl := isUrl;
    }

    /** `findById`: the row with that id, or null. */
    function FindById(id: int): (r: Option<Product>)
      reads this
      requires Valid()
      ensures r.Some? <==> id in rows
      ensures r.Some? ==> r.value.id == Some(id) && Invariant(r.value, isUrl)
    {
      if id in rows then Some(rows[id]) else None
    }

    /** `create`: inserts the six columns under a fresh id; the database sets both
        timestamps. Returns the stored row. */
    method Create(p: Product, now: int) returns (stored: Product)
      requires Valid() && Invariant(p, isUrl)
      modifies this
      ensures Valid()
      ensures stored == p.(id := Some(old(nextId)), createdAt := Some(now), updatedAt := Some(now))
      ensures old(nextId) !in old(rows)
      ensures rows == old(rows)[old(nextId) := stored] && nextId == old(nextId) + 1
    {
      stored := p.(id := Some(nextId), createdAt := Some(now), updatedAt := Some(now));
      rows := rows[nextId := stored];
      nextId := nextId + 1;
    }

    /** `update`: throws "Producto no encontrado" for an unknown id; otherwise Eloquent's
        `update` writes the six columns (and touches updated_at) only when one of them
        differs from the stored row, and the fresh row is returned. */
    method Update(id: int, p: Product, now: int) returns (r: Result<Product, UseCaseError>)
      requires Valid() && Invariant(p, isUrl)
      modifies this
      ensures Valid() && nextId == old(nextId)
      ensures id !in old(rows) ==> r == Err(ProductNotFound) && rows == old(rows)
      ensures id in old(rows) ==>
        var s := Saved(old(rows)[id], p, now);
        r == Ok(s) && rows == old(rows)[id := s]
    {
      if id !in rows {
        return Err(ProductNotFound);
      }
      var s := Saved(rows[id], p, now);
      rows := rows[id := s];
      r := Ok(s);
    }

    /** `delete`: removes the row if present and says whether anything was removed. */
    method Delete(id: int) returns (deleted: bool)
      requires Valid()
      modifies this
      ensures Valid() && nextId == old(nextId)
      ensures deleted <==> id in old(rows)
      ensures rows == old(rows) - {id}
    {
      deleted := id in rows;
      rows := rows - {id};
    }
  }

  /** The exceptions the use cases throw. */
  datatype UseCaseError =
    | ProductNotFound
    | Invalid(violation: ValidationError)
    | StockRemaining
    | RecentlyCreated
    | UndefinedMethodHasStock

  /** The `$data` array of the create use case. */
  datatype NewProductData = NewProductData(
    name: string, description: string, price: real, stock: int, userId: int, image: string)

  /** The entity the create use case builds: no id, both timestamps `now()`. */
  function NewEntityFields(data: NewProductData, now: int): (p: Product)
    ensures p.id == None && p.createdAt == Some(now) && p.updatedAt == Some(now)
  {
    Product(None, data.name, data.description, data.price, data.stock, data.userId, data.image,
            Some(now), Some(now))
  }

  /** `CreateProductUseCase::execute`. The constructor validates before the store is
      touched; on success the store gets exactly one new row and the caller gets the
      local entity, whose id is null (the stored copy with the generated id is dropped). */
  method CreateProduct(repo: ProductRepository, data: NewProductData, now: int)
    returns (r: Result<Product, UseCaseError>)
    requires repo.Valid()
    modifies repo
    ensures repo.Valid()
    ensures r.Ok? <==> Invariant(NewEntityFields(data, now), repo.isUrl)
    ensures r.Err? ==> r.error == Invalid(FirstViolation(NewEntityFields(data, now), repo.isUrl).value)
    ensures r.Err? ==> repo.rows == old(repo.rows) && repo.nextId == old(repo.nextId)
    ensures r.Ok? ==>
      && r.value.id == None
      && r.value.name == data.name && r.value.description == data.description
      && r.value.price == data.price && r.value.stock == data.stock
      && r.value.userId == data.userId && r.value.image == data.image
      && repo.rows == old(repo.rows)[old(repo.nextId) := r.value.(id := Some(old(repo.nextId)))]
      && repo.nextId == old(repo.nextId) + 1
  {
    var built := Construct(NewEntityFields(data, now), repo.isUrl);
    if built.Err? {
      return Err(Invalid(built.error));
    }
    var product := built.value;
    var _ := repo.Create(product, now);
    r := Ok(product);
  }

  /** The `$data` array of the update use case: None stands for a key that is absent or
      holds null, which PHP's `??` treats alike. */
  datatype ProductPatch = ProductPatch(
    name: Option<string>, description: Option<string>, price: Option<real>,
    stock: Option<int>, userId: Option<int>, image: Option<string>)

  const EmptyPatch := ProductPatch(None, None, None, None, None, None)

  /** The `??` merge: each field from the patch when given, else from the existing
      product; the id is the requested one, created_at the existing one, updated_at now. */
  function Merge(id: int, existing: Product, patch: ProductPatch, now: int): (m: Product)
    ensures m.id == Some(id) && m.createdAt == existing.createdAt && m.updatedAt == Some(now)
  {
    Product(Some(id),
            patch.name.GetOr(existing.name),
            patch.description.GetOr(existing.description),
            patch.price.GetOr(existing.price),
            patch.stock.GetOr(existing.stock),
            patch.userId.GetOr(existing.userId),
            patch.image.GetOr(existing.image),
            existing.createdAt,
            Some(now))
  }

  /** A field the patch supplies wins; one it leaves out keeps the existing value. */
  lemma MergeFieldwise(id: int, existing: Product, patch: ProductPatch, now: int)
    ensures var m := Merge(id, existing, patch, now);
      && (patch.name.Some? ==> m.name == patch.name.value) && (patch.name.None? ==> m.name == existing.name)
      && (patch.description.Some? ==> m.description == patch.description.value)
      && (patch.description.None? ==> m.description == existing.description)
      && (patch.price.Some? ==> m.price == patch.price.value) && (patch.price.None? ==> m.price == existing.price)
      && (patch.stock.Some? ==> m.stock == patch.stock.value) && (patch.stock.None? ==> m.stock == existing.stock)
      && (patch.userId.Some? ==> m.userId == patch.userId.value) && (patch.userId.None? ==> m.userId == existing.userId)
      && (patch.image.Some? ==> m.image == patch.image.value) && (patch.image.None? ==> m.image == existing.image)
  {
  }

  /** An empty data array changes nothing but updated_at. */
  lemma EmptyPatchKeepsProduct(existing: Product, now: int)
    requires existing.id.Some?
    ensures Merge(existing.id.value, existing, EmptyPatch, now) == existing.(updatedAt := Some(now))
  {
  }

  /** Applying the same patch twice is the same as applying it once. */
  lemma MergeIdempotent(id: int, existing: Product, patch: ProductPatch, now: int)
    ensures Merge(id, Merge(id, existing, patch, now), patch, now) == Merge(id, existing, patch, now)
  {
  }

  /** `UpdateProductUseCase::execute`. An unknown id and a merge that breaks the entity
      invariants both throw before the repository is written; otherwise the merged entity
      goes to the repository, and what it stores is what is returned. The expensive and
      out-of-stock branches only write log entries. */
  method UpdateProduct(repo: ProductRepository, id: int, patch: ProductPatch, now: int)
    returns (r: Result<Product, UseCaseError>, logs: seq<LogEntry>)
    requires repo.Valid()
    modifies repo
    ensures repo.Valid() && repo.nextId == old(repo.nextId)
    ensures id !in old(repo.rows) ==> r == Err(ProductNotFound) && logs == []
    ensures id in old(repo.rows) ==>
      var m := Merge(id, old(repo.rows)[id], patch, now);
      var s := Saved(old(repo.rows)[id], m, now);
      && (Invariant(m, repo.isUrl) ==> r == Ok(s) && repo.rows == old(repo.rows)[id := s])
      && (!Invariant(m, repo.isUrl) ==> r == Err(Invalid(FirstViolation(m, repo.isUrl).value)) && logs == [])
      && (r.Ok? ==> logs == (if IsExpensive(m) then [ExpensiveUpdated(m.id, m.price)] else [])
                         + (if IsOutOfStock(m) then [OutOfStockWarning(m.id, m.name)] else []))
    ensures r.Err? ==> repo.rows == old(repo.rows)
    ensures patch == EmptyPatch ==> repo.rows == old(repo.rows)
    ensures patch == EmptyPatch && id in old(repo.rows) ==> r == Ok(old(repo.rows)[id])
  {
    logs := [];
    var existing := repo.FindById(id);
    if existing.None? {
      return Err(ProductNotFound), logs;
    }
    var built := Construct(Merge(id, existing.value, patch, now), repo.isUrl);
    if built.Err? {
      return Err(Invalid(built.error)), logs;
    }
    var updated := built.value;
    if IsExpensive(updated) {
      logs := logs + [ExpensiveUpdated(updated.id, updated.price)];
    }
    if IsOutOfStock(updated) {
      logs := logs + [OutOfStockWarning(updated.id, updated.name)];
    }
    r := repo.Update(id, updated, now);
  }

  /** `hasStock`, which Product.php does not define; read as "stock above zero". */
  predicate HasStock(p: Product) {
    p.stock > 0
  }

  /** The guards of the delete use case in their order: existence, stock, age. */
  function DeleteGuard(rows: map<int, Product>, id: int, now: int): (r: Option<UseCaseError>)
    ensures r == Some(ProductNotFound) <==> id !in rows
    ensures r == Some(StockRemaining) <==> id in rows && HasStock(rows[id])
    ensures r == Some(RecentlyCreated) <==> id in rows && !HasStock(rows[id]) && IsNew(rows[id], now)
    ensures r == None <==> id in rows && rows[id].stock <= 0 && !IsNew(rows[id], now)
  {
    if id !in rows then Some(ProductNotFound)
    else if HasStock(rows[id]) then Some(StockRemaining)
    else if IsNew(rows[id], now) then Some(RecentlyCreated)
    else None
  }

  /** `DeleteProductUseCase::execute` with `hasStock` read as stock > 0. A product is
      removed exactly when it exists, has no stock and is not new; then only its row
      goes, and on any failure the store is untouched. The expensive check only logs. */
  method DeleteProduct(repo: ProductRepository, id: int, now: int)
    returns (r: Result<(), UseCaseError>, logs: seq<LogEntry>)
    requires repo.Valid()
    modifies repo
    ensures repo.Valid() && repo.nextId == old(repo.nextId)
    ensures r.Ok? <==> DeleteGuard(old(repo.rows), id, now) == None
    ensures r.Err? ==> Some(r.error) == DeleteGuard(old(repo.rows), id, now)
    ensures r.Ok? ==>
      && repo.rows == old(repo.rows) - {id}
      && logs == (if IsExpensive(old(repo.rows)[id])
                  then [ExpensiveDeleted(Some(id), old(repo.rows)[id].name, old(repo.rows)[id].price)]
                  else [])
    ensures r.Err? ==> repo.rows == old(repo.rows) && logs == []
  {
    logs := [];
    var found := repo.FindById(id);
    if found.None? {
      return Err(ProductNotFound), logs;
    }
    var product := found.value;
    if HasStock(product) {
      return Err(StockRemaining), logs;
    }
    if IsNew(product, now) {
      return Err(RecentlyCreated), logs;
    }
    if IsExpensive(product) {
      logs := logs + [ExpensiveDeleted(product.id, product.name, product.price)];
    }
    var _ := repo.Delete(id);
    r := Ok(());
  }

  /** `DeleteProductUseCase::execute` as the source is written: `$product->hasStock()`
      calls a method Product does not have, so PHP throws an Error for every product
      that exists, and nothing is ever deleted. */
  method DeleteProductAsWritten(repo: ProductRepository, id: int, now: int)
    returns (r: Result<(), UseCaseError>)
    requires repo.Valid()
    modifies repo
    ensures r == DeleteOutcomeAsWritten(old(repo.rows), id)
    ensures repo.rows == old(repo.rows) && repo.nextId == old(repo.nextId)
  {
    var found := repo.FindById(id);
    if found.None? {
      return Err(ProductNotFound);
    }
    r := Err(UndefinedMethodHasStock);
  }

  /** The outcome of the as-written delete: it always fails. */
  function DeleteOutcomeAsWritten(rows: map<int, Product>, id: int): (r: Result<(), UseCaseError>)
    ensures r.Err?
    ensures r.error == ProductNotFound <==> id !in rows
  {
    if id !in rows then Err(ProductNotFound) else Err(UndefinedMethodHasStock)
  }

  /** A product with no stock, created long ago, that the as-written use case refuses to
      delete while the corrected guard lets it go. */
  lemma AsWrittenDeleteRefusesDeletable()
    ensures var p := Product(Some(7), "Lamp", "", 10.0, 0, 1, "", Some(0), Some(0));
      var rows := map[7 := p];
      && DeleteOutcomeAsWritten(rows, 7) == Err(UndefinedMethodHasStock)
      && DeleteGuard(rows, 7, 100 * DaySeconds) == None
  {
  }
}
