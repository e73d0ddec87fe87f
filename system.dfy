/**
  The catalog of the inventory manager: the in-memory product list with its add, list,
  remove and edit operations, and the mapping between that list and the records of the
  JSON data file.
*/
module Catalog {
  import opened Wrappers
  import opened Products

  // ---------------------------------------------------------------------------------
  // Persistence: products to records and back
  // ---------------------------------------------------------------------------------

  /** The data file as the catalog finds it: absent, or holding a JSON array of objects. */
  datatype Disk = Missing | Stored(items: seq<Record>)

  /**
    Why reading one item of the data file fails: a KeyError for an absent key, a value
    of the wrong JSON kind, or a ValueError from the product constructor.
  */
  datatype LoadError = MissingKey(key: string) | WrongType(key: string) | Rejected(error: ValidationError)

  predicate IsNumber(v: Value) {
    v.Num? || v.Int?
  }

  function AsReal(v: Value): real
    requires IsNumber(v)
  {
    if v.Num? then v.x else v.n as real
  }

  /** The item's three values have the kinds a product holds. */
  predicate Typed(r: Record) {
    && Lookup(r, "name").Some? && Lookup(r, "name").value.Str?
    && Lookup(r, "price").Some? && IsNumber(Lookup(r, "price").value)
    && Lookup(r, "quantity").Some? && Lookup(r, "quantity").value.Int?
  }

  /**
    One item of the data file through the product constructor. The three keys are read
    first (name, price, quantity), then the constructor checks the price and then the
    quantity. Any other key of the item is ignored.
  */
  function FromRecord(r: Record): (result: Result<Product, LoadError>)
    ensures result.Ok? <==> Typed(r) && AsReal(Lookup(r, "price").value) >= 0.0 && Lookup(r, "quantity").value.n >= 0
    ensures result.Ok? ==> result.value.Valid()
    ensures result.Ok? ==>
      && Lookup(r, "name") == Some(Str(result.value.name))
      && AsReal(Lookup(r, "price").value) == result.value.price
      && Lookup(r, "quantity") == Some(Int(result.value.quantity))
    ensures result.Err? && !result.error.MissingKey? ==>
      Lookup(r, "name").Some? && Lookup(r, "price").Some? && Lookup(r, "quantity").Some?
  {
    var name := Lookup(r, "name");
    var price := Lookup(r, "price");
    var quantity := Lookup(r, "quantity");
    if name.None? then Err(MissingKey("name"))
    else if price.None? then Err(MissingKey("price"))
    else if quantity.None? then Err(MissingKey("quantity"))
    else if !name.value.Str? then Err(WrongType("name"))
    else if !IsNumber(price.value) then Err(WrongType("price"))
    else if !quantity.value.Int? then
      // the constructor compares the price before it looks at the quantity
      if AsReal(price.value) < 0.0 then Err(Rejected(NegativePrice)) else Err(WrongType("quantity"))
    else
      match NewProduct(name.value.s, AsReal(price.value), quantity.value.n)
      case Ok(p) => Ok(p)
      case Err(e) => Err(Rejected(e))
  }

  /**
    Reading back the record of a product gives the product when it is valid, and
    otherwise the constructor's error for it.
  */
  lemma RecordRoundTrip(p: Product)
    ensures p.Valid() ==> FromRecord(ToRecord(p)) == Ok(p)
    ensures p.price < 0.0 ==> FromRecord(ToRecord(p)) == Err(Rejected(NegativePrice))
    ensures p.price >= 0.0 && p.quantity < 0 ==> FromRecord(ToRecord(p)) == Err(Rejected(NegativeQuantity))
  {
    LookupToRecord(p);
  }

  /** The list that save_data writes: one record per product, in list order. */
  function ToRecords(ps: seq<Product>): (items: seq<Record>)
    ensures |items| == |ps|
    ensures forall i :: 0 <= i < |ps| && ps[i].Valid() ==> FromRecord(items[i]) == Ok(ps[i])
  {
    var items := seq(|ps|, i requires 0 <= i < |ps| => ToRecord(ps[i]));
    assert forall i :: 0 <= i < |ps| && ps[i].Valid() ==> FromRecord(items[i]) == Ok(ps[i]) by {
      forall i | 0 <= i < |ps| && ps[i].Valid() {
        RecordRoundTrip(ps[i]);
      }
    }
    items
  }

  /** The state load_data leaves: the products appended so far, and the error that stopped it. */
  datatype LoadOutcome = LoadOutcome(products: seq<Product>, error: Option<LoadError>)

  /**
    The products that loading `items` appends, in file order, up to the first item that
    fails, together with that item's error.
  */
  function LoadItems(items: seq<Record>): (r: LoadOutcome)
    ensures |r.products| <= |items|
    ensures r.error.None? <==> |r.products| == |items|
    ensures AllValid(r.products)
  {
    if items == [] then LoadOutcome([], None)
    else
      match FromRecord(items[0])
      case Err(e) => LoadOutcome([], Some(e))
      case Ok(p) =>
        var rest := LoadItems(items[1..]);
        LoadOutcome([p] + rest.products, rest.error)
  }

  /**
    Loading appends one product per item, in file order, for exactly the items before the
    first one that fails, and reports that item's error; it reports no error only when
    every item was read.
  */
  lemma {:induction false} LoadItemsStopsAtFirstFailure(items: seq<Record>)
    ensures |LoadItems(items).products| <= |items|
    ensures forall i :: 0 <= i < |LoadItems(items).products| ==>
      FromRecord(items[i]) == Ok(LoadItems(items).products[i])
    ensures LoadItems(items).error.None? <==> |LoadItems(items).products| == |items|
    ensures LoadItems(items).error.Some? ==>
      FromRecord(items[|LoadItems(items).products|]) == Err(LoadItems(items).error.value)
  {
    if items != [] && FromRecord(items[0]).Ok? {
      var rest := LoadItems(items[1..]);
      LoadItemsStopsAtFirstFailure(items[1..]);
      var loaded := [FromRecord(items[0]).value] + rest.products;
      assert LoadItems(items) == LoadOutcome(loaded, rest.error);
      forall i | 0 <= i < |loaded|
        ensures FromRecord(items[i]) == Ok(loaded[i])
      {
        if i > 0 {
          assert items[i] == items[1..][i - 1] && loaded[i] == rest.products[i - 1];
        }
      }
      if rest.error.Some? {
        assert items[|loaded|] == items[1..][|rest.products|];
      }
    }
  }

  /** Loading the items from index i on: the item at i, then the rest. */
  lemma LoadItemsFrom(items: seq<Record>, i: nat)
    requires i < |items|
    ensures FromRecord(items[i]).Err? ==>
      LoadItems(items[i..]) == LoadOutcome([], Some(FromRecord(items[i]).error))
    ensures FromRecord(items[i]).Ok? ==>
      LoadItems(items[i..]) == LoadOutcome([FromRecord(items[i]).value] + LoadItems(items[i + 1..]).products,
                                           LoadItems(items[i + 1..]).error)
  {
    assert items[i..][0] == items[i] && items[i..][1..] == items[i + 1..];
  }

  predicate AllValid(ps: seq<Product>) {
    forall i :: 0 <= i < |ps| ==> ps[i].Valid()
  }

  /** Saving a list of valid products and loading the file gives back the same list. */
  lemma {:induction false} SaveLoadRoundTrip(ps: seq<Product>)
    requires AllValid(ps)
    ensures LoadItems(ToRecords(ps)) == LoadOutcome(ps, None)
  {
    if ps != [] {
      var items := ToRecords(ps);
      RecordRoundTrip(ps[0]);
      assert items[0] == ToRecord(ps[0]);
      assert items[1..] == ToRecords(ps[1..]);
      SaveLoadRoundTrip(ps[1..]);
      assert [ps[0]] + ps[1..] == ps;
    }
  }

  /**
    A saved list that holds an invalid product cannot be loaded back: loading stops with
    an error, at that product or before it.
  */
  lemma {:induction false} ReloadStopsAtInvalid(ps: seq<Product>, i: nat)
    requires i < |ps| && !ps[i].Valid()
    ensures LoadItems(ToRecords(ps)).error.Some?
    ensures |LoadItems(ToRecords(ps)).products| <= i
  {
    var items := ToRecords(ps);
    assert items[0] == ToRecord(ps[0]);
    RecordRoundTrip(ps[0]);
    if i > 0 && ps[0].Valid() {
      assert items[1..] == ToRecords(ps[1..]);
      ReloadStopsAtInvalid(ps[1..], i - 1);
    }
  }

  // ---------------------------------------------------------------------------------
  // Selecting a product by its listed id
  // ---------------------------------------------------------------------------------

  /**
    Indexing a Python list of length n with k: a negative k counts from the end, and
    only k outside [-n, n) raises IndexError.
  */
  function PythonIndex(n: nat, k: int): (r: Option<nat>)
    ensures r.Some? <==> -(n as int) <= k < n
    ensures r.Some? ==> r.value < n && (r.value == k || r.value == k + n)
  {
    if 0 <= k < n then Some(k)
    else if -(n as int) <= k < 0 then Some(n + k)
    else None
  }

  /** The index of the product that the listing shows with `id`; ids run from 1 to n. */
  function ListedIndex(n: nat, id: int): (r: Option<nat>)
    ensures r.Some? <==> 1 <= id <= n
    ensures r.Some? ==> r.value < n && r.value + 1 == id
  {
    if 1 <= id <= n then Some(id - 1) else None
  }

  /** For the ids the listing shows, Python's indexing selects the listed product. */
  lemma ListedIdsAgree(n: nat, id: int)
    requires id >= 1
    ensures PythonIndex(n, id - 1) == ListedIndex(n, id)
  {
  }

  /**
    An id the listing never shows still selects a product: on a list of n products,
    each id from 1 - n to -1 picks the product at index n + id - 1.
  */
  lemma NegativeIdSelectsProduct(n: nat, id: int)
    requires 1 - n <= id <= -1
    ensures PythonIndex(n, id - 1) == Some(n + id - 1)
    ensures ListedIndex(n, id) == None
  {
  }

  // ---------------------------------------------------------------------------------
  // Editing one field
  // ---------------------------------------------------------------------------------

  datatype Field = Name | Price | Quantity

  /** The menu of the edit dialog: 1 edits the name, 2 the price, 3 the quantity. */
  function OptionField(option: int): (f: Option<Field>)
    ensures f.Some? <==> 1 <= option <= 3
    ensures f == Some(Name) <==> option == 1
    ensures f == Some(Price) <==> option == 2
    ensures f == Some(Quantity) <==> option == 3
  {
    if option == 1 then Some(Name)
    else if option == 2 then Some(Price)
    else if option == 3 then Some(Quantity)
    else None
  }

  /** A new value for one field, as the prompt for that field returns it. */
  datatype Entry = NameEntry(newName: string) | PriceEntry(newPrice: real) | QuantityEntry(newQuantity: int)

  function FieldOf(e: Entry): Field {
    match e
    case NameEntry(_) => Name
    case PriceEntry(_) => Price
    case QuantityEntry(_) => Quantity
  }

  /** The entry was read by the prompt that the chosen option names. */
  predicate Answers(option: int, entry: Entry) {
    OptionField(option).Some? ==> OptionField(option).value == FieldOf(entry)
  }

  /**
    setattr(product, field, value): the chosen field takes the entered value, the other
    two keep theirs, and nothing checks that the result is still a valid product.
  */
  function SetField(p: Product, e: Entry): (r: Product)
    ensures FieldOf(e) == Name ==> r.name == e.newName
    ensures FieldOf(e) == Price ==> r.price == e.newPrice
    ensures FieldOf(e) == Quantity ==> r.quantity == e.newQuantity
    ensures FieldOf(e) != Name ==> r.name == p.name
    ensures FieldOf(e) != Price ==> r.price == p.price
    ensures FieldOf(e) != Quantity ==> r.quantity == p.quantity
  {
    match e
    case NameEntry(n) => p.(name := n)
    case PriceEntry(x) => p.(price := x)
    case QuantityEntry(q) => p.(quantity := q)
  }

  /**
    An edit that goes through the product constructor's checks: a negative price or
    quantity is refused, anything else is the plain field update.
  */
  function SetFieldChecked(p: Product, e: Entry): (r: Result<Product, ValidationError>)
    requires p.Valid()
    ensures r.Ok? <==> !(e.PriceEntry? && e.newPrice < 0.0) && !(e.QuantityEntry? && e.newQuantity < 0)
    ensures r.Ok? ==> r.value == SetField(p, e) && r.value.Valid()
  {
    var q := SetField(p, e);
    NewProduct(q.name, q.price, q.quantity)
  }

  /**
    The unchecked edit breaks persistence: once a price or a quantity is edited to a
    negative value, the saved file can no longer be loaded.
  */
  lemma EditCanBreakReload(ps: seq<Product>, i: nat, e: Entry)
    requires i < |ps|
    requires (e.PriceEntry? && e.newPrice < 0.0) || (e.QuantityEntry? && e.newQuantity < 0)
    ensures LoadItems(ToRecords(ps[i := SetField(ps[i], e)])).error.Some?
  {
    ReloadStopsAtInvalid(ps[i := SetField(ps[i], e)], i);
  }

  // ---------------------------------------------------------------------------------
  // Listing
  // ---------------------------------------------------------------------------------

  /** The stock value of a list: the sum of every product's total, in list order. */
  function StockTotal(ps: seq<Product>): (total: real)
    ensures AllValid(ps) ==> total >= 0.0
  {
    if ps == [] then 0.0 else ValueTotal(ps[0]) + StockTotal(ps[1..])
  }

  lemma StockTotalCons(p: Product, ps: seq<Product>)
    ensures StockTotal([p] + ps) == ValueTotal(p) + StockTotal(ps)
  {
    assert ([p] + ps)[0] == p && ([p] + ps)[1..] == ps;
  }

  lemma {:induction false} StockTotalConcat(a: seq<Product>, b: seq<Product>)
    ensures StockTotal(a + b) == StockTotal(a) + StockTotal(b)
  {
    if a != [] {
      assert (a + b)[0] == a[0] && (a + b)[1..] == a[1..] + b;
      StockTotalConcat(a[1..], b);
    } else {
      assert a + b == b;
    }
  }

  /** Removing a product lowers the stock value by exactly that product's total. */
  lemma StockTotalRemove(ps: seq<Product>, i: nat)
    requires i < |ps|
    ensures StockTotal(ps) == StockTotal(ps[..i] + ps[i + 1..]) + ValueTotal(ps[i])
  {
    var front, back := ps[..i], ps[i + 1..];
    StockTotalCons(ps[i], back);
    assert ps == front + ([ps[i]] + back);
    StockTotalConcat(front, [ps[i]] + back);
    StockTotalConcat(front, back);
  }

  /** Appending a product raises the stock value by exactly that product's total. */
  lemma StockTotalAppend(ps: seq<Product>, p: Product)
    ensures StockTotal(ps + [p]) == StockTotal(ps) + ValueTotal(p)
  {
    StockTotalConcat(ps, [p]);
    StockTotalCons(p, []);
    assert [p] + [] == [p];
  }

  /** One line of the listing: the id shown, the product, and its total value. */
  datatype Row = Row(id: int, product: Product, total: real)

  /** What list_products shows: the "no products" notice, or a table and the stock value. */
  datatype Listing = NoProducts | Table(rows: seq<Row>, stock: real)

  // ---------------------------------------------------------------------------------
  // The product list
  // ---------------------------------------------------------------------------------

  datatype RemoveOutcome = RemoveCancelled | NoSuchProduct | Removed(index: nat, product: Product)

  datatype EditOutcome = EditCancelled | NoProductToEdit | InvalidOption | Refused(error: ValidationError) | Edited(index: nat)

  /** The inventory manager's state: the list of products, in insertion or file order. */
  class System {
    var products: seq<Product>

    /** An empty list; the manager then loads the data file (see Load). */
    constructor ()
      ensures products == []
    {
      products := [];
    }

    /** add_product: construct the product and append it; a refused product adds nothing. */
    method Add(name: string, price: real, quantity: int) returns (result: Result<Product, ValidationError>)
      modifies this
      ensures result == NewProduct(name, price, quantity)
      ensures result.Ok? ==> products == old(products) + [result.value]
      ensures result.Err? ==> products == old(products)
      ensures result.Ok? ==> StockTotal(products) == StockTotal(old(products)) + ValueTotal(result.value)
      ensures AllValid(old(products)) ==> AllValid(products)
    {
      result := NewProduct(name, price, quantity);
      if result.Ok? {
        StockTotalAppend(products, result.value);
        products := products + [result.value];
      }
    }

    /**
      list_products: an empty list shows the notice; otherwise row i shows id i + 1, the
      product and its total, and the table ends with the stock value.
    */
    method ListProducts() returns (listing: Listing)
      ensures listing.NoProducts? <==> products == []
      ensures listing.Table? ==> |listing.rows| == |products| && listing.stock == StockTotal(products)
      ensures listing.Table? ==> forall i :: 0 <= i < |listing.rows| ==>
        listing.rows[i] == Row(i + 1, products[i], ValueTotal(products[i]))
      ensures listing.Table? ==> forall i :: 0 <= i < |listing.rows| ==>
        ListedIndex(|products|, listing.rows[i].id) == Some(i)
      ensures listing.Table? && AllValid(products) ==> listing.stock >= 0.0
    {
      if products == [] {
        return NoProducts;
      }
      var rows: seq<Row> := [];
      for i := 0 to |products|
        invariant |rows| == i
        invariant forall j :: 0 <= j < i ==> rows[j] == Row(j + 1, products[j], ValueTotal(products[j]))
      {
        rows := rows + [Row(i + 1, products[i], ValueTotal(products[i]))];
      }
      listing := Table(rows, StockTotal(products));
    }

    /**
      remove_product, one attempt: id 0 cancels; otherwise the id goes through Python's
      list indexing, so an id that raises IndexError changes nothing and any other id,
      negative ones included, removes exactly the product it selects.
    */
    method Remove(id: int) returns (outcome: RemoveOutcome)
      modifies this
      ensures id == 0 ==> outcome == RemoveCancelled && products == old(products)
      ensures id != 0 && PythonIndex(|old(products)|, id - 1).None? ==>
        outcome == NoSuchProduct && products == old(products)
      ensures id != 0 && PythonIndex(|old(products)|, id - 1).Some? ==>
        var i := PythonIndex(|old(products)|, id - 1).value;
        && outcome == Removed(i, old(products)[i])
        && products == old(products)[..i] + old(products)[i + 1..]
        && StockTotal(old(products)) == StockTotal(products) + ValueTotal(old(products)[i])
      ensures AllValid(old(products)) ==> AllValid(products)
    {
      if id == 0 {
        return RemoveCancelled;
      }
      match PythonIndex(|products|, id - 1)
      case None =>
        outcome := NoSuchProduct;
      case Some(i) =>
        // list.remove compares by identity, and no product object occurs twice in the
        // list, so it removes the element at the selected index
        StockTotalRemove(products, i);
        outcome := Removed(i, products[i]);
        products := products[..i] + products[i + 1..];
    }

    /**
      edit_product, one attempt: id 0 cancels; an id that raises IndexError or an option
      outside the menu changes nothing; otherwise the chosen field of the selected product
      takes the entered value, unchecked, and nothing else changes.
    */
    method Edit(id: int, option: int, entry: Entry) returns (outcome: EditOutcome)
      requires Answers(option, entry)
      modifies this
      ensures id == 0 ==> outcome == EditCancelled && products == old(products)
      ensures id != 0 && PythonIndex(|old(products)|, id - 1).None? ==>
        outcome == NoProductToEdit && products == old(products)
      ensures id != 0 && PythonIndex(|old(products)|, id - 1).Some? && OptionField(option).None? ==>
        outcome == InvalidOption && products == old(products)
      ensures id != 0 && PythonIndex(|old(products)|, id - 1).Some? && OptionField(option).Some? ==>
        var i := PythonIndex(|old(products)|, id - 1).value;
        && outcome == Edited(i)
        && products == old(products)[i := SetField(old(products)[i], entry)]
    {
      if id == 0 {
        return EditCancelled;
      }
      match PythonIndex(|products|, id - 1)
      case None =>
        outcome := NoProductToEdit;
      case Some(i) =>
        if OptionField(option).None? {
          outcome := InvalidOption;
        } else {
          products := products[i := SetField(products[i], entry)];
          outcome := Edited(i);
        }
    }

    /** Remove, accepting only the ids that the listing shows. */
    method RemoveListed(id: int) returns (outcome: RemoveOutcome)
      modifies this
      ensures ListedIndex(|old(products)|, id).None? ==>
        outcome == (if id == 0 then RemoveCancelled else NoSuchProduct) && products == old(products)
      ensures ListedIndex(|old(products)|, id).Some? ==>
        var i := id - 1;
        && outcome == Removed(i, old(products)[i])
        && products == old(products)[..i] + old(products)[i + 1..]
      ensures AllValid(old(products)) ==> AllValid(products)
    {
      match ListedIndex(|products|, id)
      case None =>
        outcome := if id == 0 then RemoveCancelled else NoSuchProduct;
      case Some(i) =>
        outcome := Removed(i, products[i]);
        products := products[..i] + products[i + 1..];
    }

    /**
      Edit, accepting only the ids that the listing shows and applying the constructor's
      checks to the new value: a refused value leaves the product as it was, so every
      product stays valid.
    */
    method EditChecked(id: int, option: int, entry: Entry) returns (outcome: EditOutcome)
      requires Answers(option, entry)
      requires AllValid(products)
      modifies this
      ensures AllValid(products)
      ensures ListedIndex(|old(products)|, id).None? ==>
        outcome == (if id == 0 then EditCancelled else NoProductToEdit) && products == old(products)
      ensures ListedIndex(|old(products)|, id).Some? && OptionField(option).None? ==>
        outcome == InvalidOption && products == old(products)
      ensures ListedIndex(|old(products)|, id).Some? && OptionField(option).Some? ==>
        var i := id - 1;
        && (outcome.Refused? <==> SetFieldChecked(old(products)[i], entry).Err?)
        && (outcome.Refused? ==> products == old(products))
        && (!outcome.Refused? ==>
              outcome == Edited(i) && products == old(products)[i := SetField(old(products)[i], entry)])
    {
      match ListedIndex(|products|, id)
      case None =>
        outcome := if id == 0 then EditCancelled else NoProductToEdit;
      case Some(i) =>
        if OptionField(option).None? {
          outcome := InvalidOption;
        } else {
          match SetFieldChecked(products[i], entry)
          case Err(e) =>
            outcome := Refused(e);
          case Ok(q) =>
            products := products[i := q];
            outcome := Edited(i);
        }
    }

    /**
      save_data: the file is overwritten with one record per product, in list order. When
      every product is valid, loading that file gives back the same list.
    */
    method Save() returns (disk: Disk)
      ensures disk.Stored? && |disk.items| == |products|
      ensures forall i :: 0 <= i < |products| ==> disk.items[i] == ToRecord(products[i])
      ensures AllValid(products) ==> LoadItems(disk.items) == LoadOutcome(products, None)
    {
      disk := Stored(ToRecords(products));
      if AllValid(products) {
        SaveLoadRoundTrip(products);
      }
    }

    /**
      load_data: the list is emptied first. A missing file is created holding [] and the
      list stays empty. Otherwise every item is read, in file order, through the product
      constructor and appended; the first item that fails stops the load with its error,
      and the products appended before it stay in the list.
    */
    method Load(disk: Disk) returns (after: Disk, error: Option<LoadError>)
      modifies this
      ensures disk.Missing? ==> after == Stored([]) && products == [] && error == None
      ensures disk.Stored? ==>
        && after == disk
        && products == LoadItems(disk.items).products
        && error == LoadItems(disk.items).error
      ensures AllValid(products)
    {
      // the list is emptied before the file is opened
      products := [];
      match disk
      case Missing =>
        after, error := Stored([]), None;
      case Stored(items) =>
        after, error := disk, None;
        ghost var whole := LoadItems(items);
        var loaded: seq<Product> := [];
        for i := 0 to |items|
          invariant AllValid(loaded)
          invariant whole.products == loaded + LoadItems(items[i..]).products
          invariant whole.error == LoadItems(items[i..]).error
        {
          LoadItemsFrom(items, i);
          var item := FromRecord(items[i]);
          if item.Err? {
            products, error := loaded, Some(item.error);
            assert loaded + [] == loaded;
            return;
          }
          ghost var rest := LoadItems(items[i + 1..]).products;
          assert (loaded + [item.value]) + rest == loaded + ([item.value] + rest);
          loaded := loaded + [item.value];
        }
        assert items[|items|..] == [];
        assert loaded + [] == loaded;
        products := loaded;
    }
  }

  /**
    The sequence of steps: add Widget at 9.99 x 3 and Gadget at 5.00 x 0, list them,
    remove id 1, then save and load the rest into a fresh manager.
  */
  method WidgetGadgetSession() {
    var m := new System();
    var w := m.Add("Widget", 9.99, 3);
    var g := m.Add("Gadget", 5.00, 0);
    assert m.products == [Product("Widget", 9.99, 3), Product("Gadget", 5.00, 0)];
    var listing := m.ListProducts();
    assert listing.rows[0].id == 1 && listing.rows[0].total == 29.97;
    assert listing.rows[1].id == 2 && listing.rows[1].total == 0.0;
    assert listing.stock == 29.97;
    var removed := m.Remove(1);
    assert m.products == [Product("Gadget", 5.00, 0)];
    var disk := m.Save();
    var restarted := new System();
    var after, error := restarted.Load(disk);
    assert restarted.products == m.products && error == None;
  }
}
