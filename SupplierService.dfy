/** Suppliers: created and renamed under the rule that live supplier names are unique. The
    service offers no delete. */
module SupplierService {
  import opened Models
  import opened Store
  import opened Sorting

  /** Whether a live supplier other than `self` is called name. */
  predicate SupplierNameInUse(s: seq<Supplier>, name: string, self: int) {
    exists i :: 0 <= i < |s| && i != self && !s[i].deleted && s[i].name == name
  }

  /** GetById: the supplier if it is live. */
  function GetSupplier(t: Tables, id: int): (r: Option<Supplier>)
    ensures r.Some? <==> LiveSupplier(t.suppliers, id)
    ensures r.Some? ==> r.value == t.suppliers[id] && !r.value.deleted
  {
    if LiveSupplier(t.suppliers, id) then Some(t.suppliers[id]) else None
  }

  /** ExistsAsync(id). */
  function SupplierExists(t: Tables, id: int): (r: bool)
    ensures r <==> GetSupplier(t, id).Some?
  {
    0 <= id < |t.suppliers| && !t.suppliers[id].deleted
  }

  function CreateSupplierSpec(t: Tables, name: string): (r: Result<Commit<int>>)
    ensures Consistent(t) && r.Ok? ==> Consistent(r.value.tables)
    ensures r.Ok? <==> !SupplierNameInUse(t.suppliers, name, -1)
    ensures r.Err? ==> r.error == Duplicate
    ensures r.Ok? ==> r.value == Commit(t.(suppliers := t.suppliers + [Supplier(name, false)]), |t.suppliers|)
  {
    if SupplierNameInUse(t.suppliers, name, -1) then Err(Duplicate)
    else Ok(Commit(t.(suppliers := t.suppliers + [Supplier(name, false)]), |t.suppliers|))
  }

  method CreateSupplier(db: Ledger, name: string) returns (r: Result<int>)
    requires db.Valid()
    modifies db
    ensures db.Valid()
    ensures var s := CreateSupplierSpec(old(db.Snapshot()), name);
            r == Outcome(s) && db.Snapshot() == After(s, old(db.Snapshot()))
  {
    ghost var t := db.Snapshot();
    if SupplierNameInUse(db.suppliers, name, -1) {
      return Err(Duplicate);
    }
    r := Ok(|db.suppliers|);
    db.suppliers := db.suppliers + [Supplier(name, false)];
    assert db.Snapshot() == CreateSupplierSpec(t, name).value.tables;
  }

  /** Renames a live supplier; a missing or deleted one gives None. */
  function UpdateSupplierSpec(t: Tables, id: int, name: string): (r: Result<Commit<Option<Supplier>>>)
    ensures Consistent(t) && r.Ok? ==> Consistent(r.value.tables)
    ensures !LiveSupplier(t.suppliers, id) ==> r == Ok(Commit(t, None))
    ensures LiveSupplier(t.suppliers, id) ==> (r.Ok? <==> !SupplierNameInUse(t.suppliers, name, id))
    ensures r.Err? ==> r.error == Duplicate
    ensures LiveSupplier(t.suppliers, id) && r.Ok? ==>
              r.value == Commit(t.(suppliers := t.suppliers[id := Supplier(name, false)]), Some(Supplier(name, false)))
  {
    if !LiveSupplier(t.suppliers, id) then Ok(Commit(t, None))
    else if SupplierNameInUse(t.suppliers, name, id) then Err(Duplicate)
    else
      var v := t.suppliers[id].(name := name);
      Ok(Commit(t.(suppliers := t.suppliers[id := v]), Some(v)))
  }

  method UpdateSupplier(db: Ledger, id: int, name: string) returns (r: Result<Option<Supplier>>)
    requires db.Valid()
    modifies db
    ensures db.Valid()
    ensures var s := UpdateSupplierSpec(old(db.Snapshot()), id, name);
            r == Outcome(s) && db.Snapshot() == After(s, old(db.Snapshot()))
  {
    ghost var t := db.Snapshot();
    if !LiveSupplier(db.suppliers, id) {
      return Ok(None);
    }
    if SupplierNameInUse(db.suppliers, name, id) {
      return Err(Duplicate);
    }
    var v := db.suppliers[id].(name := name);
    db.suppliers := db.suppliers[id := v];
    assert db.Snapshot() == UpdateSupplierSpec(t, id, name).value.tables;
    r := Ok(Some(v));
  }

  /** Renaming a supplier to its own name always succeeds and changes nothing. */
  lemma RenameToSameName(t: Tables, id: int)
    requires Consistent(t) && LiveSupplier(t.suppliers, id)
    ensures UpdateSupplierSpec(t, id, t.suppliers[id].name) == Ok(Commit(t, Some(t.suppliers[id])))
  {
    assert t.suppliers[id := t.suppliers[id]] == t.suppliers;
  }

  /** GetById and ExistsAsync after a create find the new supplier under the id the create
      returned; no other id answers differently. */
  lemma CreateThenGetSupplier(t: Tables, name: string, j: int)
    requires CreateSupplierSpec(t, name).Ok?
    ensures var c := CreateSupplierSpec(t, name).value;
            && GetSupplier(c.tables, c.value) == Some(Supplier(name, false))
            && SupplierExists(c.tables, c.value) && !SupplierExists(t, c.value)
            && (j != c.value ==> GetSupplier(c.tables, j) == GetSupplier(t, j))
  {
  }

  /** GetById after an update returns what the update returned, and the supplier still exists
      exactly when it did before; no other id answers differently. */
  lemma UpdateThenGetSupplier(t: Tables, id: int, name: string, j: int)
    requires UpdateSupplierSpec(t, id, name).Ok?
    ensures var c := UpdateSupplierSpec(t, id, name).value;
            && (c.value.Some? <==> SupplierExists(t, id))
            && GetSupplier(c.tables, id) == c.value
            && SupplierExists(c.tables, id) == SupplierExists(t, id)
            && (j != id ==> GetSupplier(c.tables, j) == GetSupplier(t, j))
  {
  }

  predicate SupplierNameLe(a: Row<Supplier>, b: Row<Supplier>) {
    NameLe(a.value.name, b.value.name)
  }

  function IsLiveSupplier(s: Supplier): bool { !s.deleted }

  /** GetAll: the live suppliers, each once, by name. */
  function ListSuppliers(t: Tables): (r: seq<Row<Supplier>>)
    ensures SortedBy(r, SupplierNameLe)
    ensures Distinct(r)
    ensures forall v :: v in r <==> 0 <= v.id < |t.suppliers| && !t.suppliers[v.id].deleted && v == Row(v.id, t.suppliers[v.id])
  {
    ByNameIsTotalPreorder((v: Row<Supplier>) => v.value.name, SupplierNameLe);
    SortedListing(RowsWhere(t.suppliers, IsLiveSupplier, |t.suppliers|), SupplierNameLe)
  }
}
