/** Products: each belongs to a live category, and live product names are unique. No database
    index backs the name rule; only the service's checks keep it. */
module ProductService {
  import opened Models
  import opened Store
  import opened Sorting
  import opened CategoryService

  datatype ProductInput = ProductInput(categoryId: int, name: string)

  /** A product as the queries return it, with its category's name. */
  datatype ProductView = ProductView(id: int, product: Product, categoryName: string)

  /** Whether a live product other than `self` is called name. */
  predicate ProductNameInUse(s: seq<Product>, name: string, self: int) {
    exists i :: 0 <= i < |s| && i != self && !s[i].deleted && s[i].name == name
  }

  /** The rule the service keeps: no two live products share a name. */
  predicate LiveProductNamesUnique(s: seq<Product>) {
    forall i, j :: 0 <= i < |s| && 0 <= j < |s| && i != j && !s[i].deleted && !s[j].deleted ==> s[i].name != s[j].name
  }

  /** Every live product belongs to a live category. */
  predicate LiveProductsInLiveCategories(t: Tables) {
    forall i :: 0 <= i < |t.products| && !t.products[i].deleted ==> LiveCategory(t.categories, t.products[i].categoryId)
  }

  function ViewOf(t: Tables, id: int): (r: ProductView)
    requires Consistent(t) && 0 <= id < |t.products|
    ensures r.id == id && r.product == t.products[id]
    ensures r.categoryName == t.categories[t.products[id].categoryId].name
  {
    ProductView(id, t.products[id], t.categories[t.products[id].categoryId].name)
  }

  /** GetById: the live product with its category's name. */
  function GetProduct(t: Tables, id: int): (r: Option<ProductView>)
    requires Consistent(t)
    ensures r.Some? <==> LiveProduct(t.products, id)
    ensures r.Some? ==> r.value.id == id && r.value.product == t.products[id]
                        && r.value.categoryName == t.categories[t.products[id].categoryId].name
  {
    if LiveProduct(t.products, id) then Some(ViewOf(t, id)) else None
  }

  /** ExistsAsync(id). */
  function ProductExists(t: Tables, id: int): (r: bool)
    ensures r <==> LiveProduct(t.products, id)
  {
    exists i :: 0 <= i < |t.products| && i == id && !t.products[i].deleted
  }

  function CreateProductSpec(t: Tables, d: ProductInput): (r: Result<Commit<int>>)
    ensures Consistent(t) && r.Ok? ==> Consistent(r.value.tables)
    ensures r.Ok? <==> LiveCategory(t.categories, d.categoryId) && !ProductNameInUse(t.products, d.name, -1)
    ensures !LiveCategory(t.categories, d.categoryId) ==> r == Err(NotFound(Categories, d.categoryId))
    ensures LiveCategory(t.categories, d.categoryId) && r.Err? ==> r.error == Duplicate
    ensures r.Ok? ==> r.value == Commit(t.(products := t.products + [Product(d.categoryId, d.name, false)]), |t.products|)
  {
    if !LiveCategory(t.categories, d.categoryId) then Err(NotFound(Categories, d.categoryId))
    else if ProductNameInUse(t.products, d.name, -1) then Err(Duplicate)
    else Ok(Commit(t.(products := t.products + [Product(d.categoryId, d.name, false)]), |t.products|))
  }

  method CreateProduct(db: Ledger, d: ProductInput) returns (r: Result<int>)
    requires db.Valid()
    modifies db
    ensures db.Valid()
    ensures var s := CreateProductSpec(old(db.Snapshot()), d);
            r == Outcome(s) && db.Snapshot() == After(s, old(db.Snapshot()))
  {
    ghost var t := db.Snapshot();
    if !LiveCategory(db.categories, d.categoryId) {
      return Err(NotFound(Categories, d.categoryId));
    }
    if ProductNameInUse(db.products, d.name, -1) {
      return Err(Duplicate);
    }
    r := Ok(|db.products|);
    db.products := db.products + [Product(d.categoryId, d.name, false)];
    assert db.Snapshot() == CreateProductSpec(t, d).value.tables;
  }

  /** Moves a live product to a live category and renames it. */
  function UpdateProductSpec(t: Tables, id: int, d: ProductInput): (r: Result<Commit<Option<Product>>>)
    ensures Consistent(t) && r.Ok? ==> Consistent(r.value.tables)
    ensures !LiveProduct(t.products, id) ==> r == Ok(Commit(t, None))
    ensures LiveProduct(t.products, id) ==>
              && (r.Ok? <==> LiveCategory(t.categories, d.categoryId) && !ProductNameInUse(t.products, d.name, id))
              && (!LiveCategory(t.categories, d.categoryId) ==> r == Err(NotFound(Categories, d.categoryId)))
              && (LiveCategory(t.categories, d.categoryId) && r.Err? ==> r.error == Duplicate)
    ensures LiveProduct(t.products, id) && r.Ok? ==>
              var p := Product(d.categoryId, d.name, false);
              r.value == Commit(t.(products := t.products[id := p]), Some(p))
  {
    if !LiveProduct(t.products, id) then Ok(Commit(t, None))
    else if !LiveCategory(t.categories, d.categoryId) then Err(NotFound(Categories, d.categoryId))
    else if ProductNameInUse(t.products, d.name, id) then Err(Duplicate)
    else
      var p := t.products[id].(categoryId := d.categoryId, name := d.name);
      Ok(Commit(t.(products := t.products[id := p]), Some(p)))
  }

  method UpdateProduct(db: Ledger, id: int, d: ProductInput) returns (r: Result<Option<Product>>)
    requires db.Valid()
    modifies db
    ensures db.Valid()
    ensures var s := UpdateProductSpec(old(db.Snapshot()), id, d);
            r == Outcome(s) && db.Snapshot() == After(s, old(db.Snapshot()))
  {
    ghost var t := db.Snapshot();
    if !LiveProduct(db.products, id) {
      return Ok(None);
    }
    if !LiveCategory(db.categories, d.categoryId) {
      return Err(NotFound(Categories, d.categoryId));
    }
    if ProductNameInUse(db.products, d.name, id) {
      return Err(Duplicate);
    }
    var p := db.products[id].(categoryId := d.categoryId, name := d.name);
    db.products := db.products[id := p];
    assert db.Snapshot() == UpdateProductSpec(t, id, d).value.tables;
    r := Ok(Some(p));
  }

  /** Some lot or order line names the product, whether or not it is soft-deleted. */
  predicate ProductInUse(t: Tables, id: int) {
    || (exists k :: 0 <= k < |t.lots| && t.lots[k].productId == id)
    || (exists i :: 0 <= i < |t.lines| && t.lines[i].productId == id)
  }

  function DeleteProductSpec(t: Tables, id: int): (r: Result<Commit<bool>>)
    ensures Consistent(t) && r.Ok? ==> Consistent(r.value.tables)
    ensures !LiveProduct(t.products, id) ==> r == Ok(Commit(t, false))
    ensures LiveProduct(t.products, id) ==> (r.Ok? <==> !ProductInUse(t, id))
    ensures r.Err? ==> r.error == Referenced
    ensures LiveProduct(t.products, id) && r.Ok? ==>
              r.value == Commit(t.(products := t.products[id := t.products[id].(deleted := true)]), true)
  {
    if !LiveProduct(t.products, id) then Ok(Commit(t, false))
    else if ProductInUse(t, id) then Err(Referenced)
    else Ok(Commit(t.(products := t.products[id := t.products[id].(deleted := true)]), true))
  }

  method DeleteProduct(db: Ledger, id: int) returns (r: Result<bool>)
    requires db.Valid()
    modifies db
    ensures db.Valid()
    ensures var s := DeleteProductSpec(old(db.Snapshot()), id);
            r == Outcome(s) && db.Snapshot() == After(s, old(db.Snapshot()))
  {
    ghost var t := db.Snapshot();
    if !LiveProduct(db.products, id) {
      return Ok(false);
    }
    if ProductInUse(db.Snapshot(), id) {
      return Err(Referenced);
    }
    db.products := db.products[id := db.products[id].(deleted := true)];
    assert db.Snapshot() == DeleteProductSpec(t, id).value.tables;
    r := Ok(true);
  }

  /** Creating, updating and deleting products keeps live product names unique. */
  lemma ProductOperationsKeepNamesUnique(t: Tables, id: int, d: ProductInput)
    requires LiveProductNamesUnique(t.products)
    ensures var c := CreateProductSpec(t, d); c.Ok? ==> LiveProductNamesUnique(c.value.tables.products)
    ensures var u := UpdateProductSpec(t, id, d); u.Ok? ==> LiveProductNamesUnique(u.value.tables.products)
    ensures var x := DeleteProductSpec(t, id); x.Ok? ==> LiveProductNamesUnique(x.value.tables.products)
  {
  }

  /** The product operations keep every live product in a live category. */
  lemma OperationsKeepProductsInLiveCategories(t: Tables, id: int, d: ProductInput)
    requires LiveProductsInLiveCategories(t)
    ensures var c := CreateProductSpec(t, d); c.Ok? ==> LiveProductsInLiveCategories(c.value.tables)
    ensures var u := UpdateProductSpec(t, id, d); u.Ok? ==> LiveProductsInLiveCategories(u.value.tables)
    ensures var x := DeleteProductSpec(t, id); x.Ok? ==> LiveProductsInLiveCategories(x.value.tables)
  {
  }

  /** Deleting or renaming a category keeps every live product in a live category: a category
      with live products cannot be deleted. */
  lemma CategoryOperationsKeepProductsInLiveCategories(t: Tables, id: int, name: string)
    requires LiveProductsInLiveCategories(t)
    ensures var x := DeleteCategorySpec(t, id); x.Ok? ==> LiveProductsInLiveCategories(x.value.tables)
    ensures var u := UpdateCategorySpec(t, id, name); u.Ok? ==> LiveProductsInLiveCategories(u.value.tables)
  {
  }

  /** GetById and ExistsAsync after a create find the new product, with its category's name, under
      the id the create returned; no other id answers differently. */
  lemma CreateThenGetProduct(t: Tables, d: ProductInput, j: int)
    requires Consistent(t) && CreateProductSpec(t, d).Ok?
    ensures var c := CreateProductSpec(t, d).value;
            && ProductExists(c.tables, c.value) && !ProductExists(t, c.value)
            && GetProduct(c.tables, c.value) == Some(ProductView(c.value, Product(d.categoryId, d.name, false), t.categories[d.categoryId].name))
            && (j != c.value ==> GetProduct(c.tables, j) == GetProduct(t, j))
  {
  }

  /** GetById after an update of a live product returns the updated product under its new
      category's name; an update of a missing or deleted one returns null. No other id answers
      differently. */
  lemma UpdateThenGetProduct(t: Tables, id: int, d: ProductInput, j: int)
    requires Consistent(t) && UpdateProductSpec(t, id, d).Ok?
    ensures var c := UpdateProductSpec(t, id, d).value;
            && (c.value.Some? <==> ProductExists(t, id))
            && ProductExists(c.tables, id) == ProductExists(t, id)
            && (c.value.Some? ==> GetProduct(c.tables, id) == Some(ProductView(id, c.value.value, t.categories[d.categoryId].name)))
            && (j != id ==> GetProduct(c.tables, j) == GetProduct(t, j))
  {
  }

  /** A delete reports true exactly when the product existed; afterwards it no longer exists, and
      no other id answers differently. */
  lemma DeleteThenProductExists(t: Tables, id: int, j: int)
    requires Consistent(t) && DeleteProductSpec(t, id).Ok?
    ensures var c := DeleteProductSpec(t, id).value;
            && (c.value <==> ProductExists(t, id))
            && !ProductExists(c.tables, id) && GetProduct(c.tables, id).None?
            && (j != id ==> GetProduct(c.tables, j) == GetProduct(t, j))
  {
  }

  predicate ProductNameLe(a: ProductView, b: ProductView) {
    NameLe(a.product.name, b.product.name)
  }

  function IsLiveProduct(p: Product): bool { !p.deleted }

  function ViewsOf(t: Tables, rows: seq<Row<Product>>): (r: seq<ProductView>)
    requires Consistent(t)
    requires forall v :: v in rows ==> 0 <= v.id < |t.products| && v.value == t.products[v.id]
    ensures |r| == |rows|
    ensures forall i :: 0 <= i < |r| ==> r[i] == ViewOf(t, rows[i].id)
  {
    seq(|rows|, i requires 0 <= i < |rows| => ViewOf(t, rows[i].id))
  }

  /** GetAll: the live products, each once, by name, with their category's name. */
  function ListProducts(t: Tables): (r: seq<ProductView>)
    requires Consistent(t)
    ensures SortedBy(r, ProductNameLe)
    ensures Distinct(r)
    ensures forall v :: v in r <==> LiveProduct(t.products, v.id) && v == ViewOf(t, v.id)
  {
    var rows := RowsWhere(t.products, IsLiveProduct, |t.products|);
    var views := ViewsOf(t, rows);
    assert forall v :: v in views <==> LiveProduct(t.products, v.id) && v == ViewOf(t, v.id) by {
      forall v ensures v in views <==> LiveProduct(t.products, v.id) && v == ViewOf(t, v.id) {
        if LiveProduct(t.products, v.id) && v == ViewOf(t, v.id) {
          assert Row(v.id, t.products[v.id]) in rows;
          var i :| 0 <= i < |rows| && rows[i] == Row(v.id, t.products[v.id]);
          assert views[i] == v;
        }
      }
    }
    ByNameIsTotalPreorder((v: ProductView) => v.product.name, ProductNameLe);
    SortedListing(views, ProductNameLe)
  }
}
