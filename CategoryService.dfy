/** Product categories. Names are unique among live categories; the schema's unique index is
    over (name, is_deleted), so it also keeps soft-deleted categories' names apart. */
module CategoryService {
  import opened Models
  import opened Store
  import opened Sorting

  /** GetById: the category if it is live. */
  function GetCategory(t: Tables, id: int): (r: Option<Category>)
    ensures r.Some? <==> LiveCategory(t.categories, id)
    ensures r.Some? ==> r.value == t.categories[id] && !r.value.deleted
  {
    if LiveCategory(t.categories, id) then Some(t.categories[id]) else None
  }

  /** ExistsAsync(name, excludeId): a live category other than excludeId is called name. */
  predicate CategoryNameExists(t: Tables, name: string, excludeId: Option<int>) {
    exists i :: 0 <= i < |t.categories| && !t.categories[i].deleted && t.categories[i].name == name
                && (excludeId.None? || i != excludeId.value)
  }

  function CreateCategorySpec(t: Tables, name: string): (r: Result<Commit<int>>)
    ensures Consistent(t) && r.Ok? ==> Consistent(r.value.tables)
    ensures r.Ok? <==> !CategoryNameExists(t, name, None)
    ensures r.Err? ==> r.error == Duplicate
    ensures r.Ok? ==> r.value == Commit(t.(categories := t.categories + [Category(name, false)]), |t.categories|)
  {
    if CategoryNameExists(t, name, None) then Err(Duplicate)
    else Ok(Commit(t.(categories := t.categories + [Category(name, false)]), |t.categories|))
  }

  method CreateCategory(db: Ledger, name: string) returns (r: Result<int>)
    requires db.Valid()
    modifies db
    ensures db.Valid()
    ensures var s := CreateCategorySpec(old(db.Snapshot()), name);
            r == Outcome(s) && db.Snapshot() == After(s, old(db.Snapshot()))
  {
    ghost var t := db.Snapshot();
    if CategoryNameExists(db.Snapshot(), name, None) {
      return Err(Duplicate);
    }
    r := Ok(|db.categories|);
    db.categories := db.categories + [Category(name, false)];
    assert db.Snapshot() == CreateCategorySpec(t, name).value.tables;
  }

  /** Renames a live category; the name may be its own but no other live category's. */
  function UpdateCategorySpec(t: Tables, id: int, name: string): (r: Result<Commit<Option<Category>>>)
    ensures Consistent(t) && r.Ok? ==> Consistent(r.value.tables)
    ensures !LiveCategory(t.categories, id) ==> r == Ok(Commit(t, None))
    ensures LiveCategory(t.categories, id) ==> (r.Ok? <==> !CategoryNameExists(t, name, Some(id)))
    ensures r.Err? ==> r.error == Duplicate
    ensures LiveCategory(t.categories, id) && r.Ok? ==>
              r.value == Commit(t.(categories := t.categories[id := Category(name, false)]), Some(Category(name, false)))
  {
    if !LiveCategory(t.categories, id) then Ok(Commit(t, None))
    else if CategoryNameExists(t, name, Some(id)) then Err(Duplicate)
    else
      var c := t.categories[id].(name := name);
      Ok(Commit(t.(categories := t.categories[id := c]), Some(c)))
  }

  method UpdateCategory(db: Ledger, id: int, name: string) returns (r: Result<Option<Category>>)
    requires db.Valid()
    modifies db
    ensures db.Valid()
    ensures var s := UpdateCategorySpec(old(db.Snapshot()), id, name);
            r == Outcome(s) && db.Snapshot() == After(s, old(db.Snapshot()))
  {
    ghost var t := db.Snapshot();
    if !LiveCategory(db.categories, id) {
      return Ok(None);
    }
    if CategoryNameExists(db.Snapshot(), name, Some(id)) {
      return Err(Duplicate);
    }
    var c := db.categories[id].(name := name);
    db.categories := db.categories[id := c];
    assert db.Snapshot() == UpdateCategorySpec(t, id, name).value.tables;
    r := Ok(Some(c));
  }

  /** Some live product belongs to the category (soft-deleted products do not count). */
  predicate HasLiveProducts(products: seq<Product>, categoryId: int) {
    exists i :: 0 <= i < |products| && !products[i].deleted && products[i].categoryId == categoryId
  }

  /** Another soft-deleted category already holds this name, so unique_category_name refuses a
      second (name, deleted) pair. */
  predicate DeletedNamesake(categories: seq<Category>, id: int) requires 0 <= id < |categories| {
    exists i :: 0 <= i < |categories| && i != id && categories[i].deleted && categories[i].name == categories[id].name
  }

  function DeleteCategorySpec(t: Tables, id: int): (r: Result<Commit<bool>>)
    ensures Consistent(t) && r.Ok? ==> Consistent(r.value.tables)
    ensures !LiveCategory(t.categories, id) ==> r == Ok(Commit(t, false))
    ensures LiveCategory(t.categories, id) ==>
              && (r.Ok? <==> !HasLiveProducts(t.products, id) && !DeletedNamesake(t.categories, id))
              && (HasLiveProducts(t.products, id) ==> r == Err(Referenced))
              && (!HasLiveProducts(t.products, id) && DeletedNamesake(t.categories, id) ==> r == Err(DuplicateKey))
    ensures LiveCategory(t.categories, id) && r.Ok? ==>
              r.value == Commit(t.(categories := t.categories[id := t.categories[id].(deleted := true)]), true)
  {
    if !LiveCategory(t.categories, id) then Ok(Commit(t, false))
    else if HasLiveProducts(t.products, id) then Err(Referenced)
    else if DeletedNamesake(t.categories, id) then Err(DuplicateKey)
    else Ok(Commit(t.(categories := t.categories[id := t.categories[id].(deleted := true)]), true))
  }

  method DeleteCategory(db: Ledger, id: int) returns (r: Result<bool>)
    requires db.Valid()
    modifies db
    ensures db.Valid()
    ensures var s := DeleteCategorySpec(old(db.Snapshot()), id);
            r == Outcome(s) && db.Snapshot() == After(s, old(db.Snapshot()))
  {
    ghost var t := db.Snapshot();
    if !LiveCategory(db.categories, id) {
      return Ok(false);
    }
    if HasLiveProducts(db.products, id) {
      return Err(Referenced);
    }
    // the save meets unique_category_name
    if DeletedNamesake(db.categories, id) {
      return Err(DuplicateKey);
    }
    db.categories := db.categories[id := db.categories[id].(deleted := true)];
    assert db.Snapshot() == DeleteCategorySpec(t, id).value.tables;
    r := Ok(true);
  }

  /** Deleting, re-creating and deleting again a category of the same name is refused the second
      time: the index still holds the first deleted row. */
  lemma SecondDeleteOfSameName(t: Tables, name: string)
    requires Consistent(t)
    requires |t.categories| == 0
    ensures var c1 := CreateCategorySpec(t, name);
            && c1.Ok?
            && var d1 := DeleteCategorySpec(c1.value.tables, c1.value.value);
            && d1 == Ok(Commit(c1.value.tables.(categories := [Category(name, true)]), true))
            && var c2 := CreateCategorySpec(d1.value.tables, name);
            && c2.Ok?
            && DeleteCategorySpec(c2.value.tables, c2.value.value) == Err(DuplicateKey)
  {
    var c1 := CreateCategorySpec(t, name);
    assert c1.value.tables.categories == [Category(name, false)];
    var d1 := DeleteCategorySpec(c1.value.tables, 0);
    var u1 := d1.value.tables;
    assert u1.categories == [Category(name, true)];
    assert !CategoryNameExists(u1, name, None);
    var c2 := CreateCategorySpec(u1, name);
    var u2 := c2.value.tables;
    assert u2.categories == [Category(name, true), Category(name, false)];
    assert u2.categories[0].deleted && u2.categories[0].name == u2.categories[1].name;
  }

  /** GetById after a create finds the new category under the id the create returned; no other id
      answers differently. */
  lemma CreateThenGetCategory(t: Tables, name: string, j: int)
    requires CreateCategorySpec(t, name).Ok?
    ensures var c := CreateCategorySpec(t, name).value;
            && GetCategory(c.tables, c.value) == Some(Category(name, false))
            && (j != c.value ==> GetCategory(c.tables, j) == GetCategory(t, j))
  {
  }

  /** GetById after an update returns what the update returned; an update of a missing or deleted
      category returns null, and no other id answers differently. */
  lemma UpdateThenGetCategory(t: Tables, id: int, name: string, j: int)
    requires UpdateCategorySpec(t, id, name).Ok?
    ensures var c := UpdateCategorySpec(t, id, name).value;
            && (c.value.Some? <==> GetCategory(t, id).Some?)
            && GetCategory(c.tables, id) == c.value
            && (j != id ==> GetCategory(c.tables, j) == GetCategory(t, j))
  {
  }

  /** A delete reports true exactly when GetById found the category; afterwards GetById finds
      nothing under that id, and no other id answers differently. */
  lemma DeleteThenGetCategory(t: Tables, id: int, j: int)
    requires DeleteCategorySpec(t, id).Ok?
    ensures var c := DeleteCategorySpec(t, id).value;
            && (c.value <==> GetCategory(t, id).Some?)
            && GetCategory(c.tables, id).None?
            && (j != id ==> GetCategory(c.tables, j) == GetCategory(t, j))
  {
  }

  predicate CategoryNameLe(a: Row<Category>, b: Row<Category>) {
    NameLe(a.value.name, b.value.name)
  }

  function IsLiveCategory(c: Category): bool { !c.deleted }

  /** GetAll: the live categories, each once, by name. */
  function ListCategories(t: Tables): (r: seq<Row<Category>>)
    ensures SortedBy(r, CategoryNameLe)
    ensures Distinct(r)
    ensures forall v :: v in r <==> 0 <= v.id < |t.categories| && !t.categories[v.id].deleted && v == Row(v.id, t.categories[v.id])
  {
    ByNameIsTotalPreorder((v: Row<Category>) => v.value.name, CategoryNameLe);
    SortedListing(RowsWhere(t.categories, IsLiveCategory, |t.categories|), CategoryNameLe)
  }
}
