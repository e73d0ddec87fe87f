/**
  The product record of the inventory manager: construction with validation, the derived
  total value, and the record that the JSON encoder produces for a product.
*/
module Products {
  import opened Wrappers

  /** A product as the catalog holds it. Prices are exact reals rather than binary floats. */
  datatype Product = Product(name: string, price: real, quantity: int) {

    /** What the constructor guarantees: neither the price nor the quantity is negative. */
    predicate Valid() {
      price >= 0.0 && quantity >= 0
    }
  }

  /** The two ValueErrors that construction raises. */
  datatype ValidationError = NegativePrice | NegativeQuantity

  /**
    Product(name, price, quantity). The price is checked before the quantity, so a
    product with both negative is refused for its price. The name is never checked.
  */
  function NewProduct(name: string, price: real, quantity: int): (r: Result<Product, ValidationError>)
    ensures r.Ok? <==> price >= 0.0 && quantity >= 0
    ensures r.Ok? ==> r.value.Valid()
    ensures r.Ok? ==> r.value.name == name && r.value.price == price && r.value.quantity == quantity
    ensures price < 0.0 ==> r == Err(NegativePrice)
    ensures price >= 0.0 && quantity < 0 ==> r == Err(NegativeQuantity)
  {
    if price < 0.0 then Err(NegativePrice)
    else if quantity < 0 then Err(NegativeQuantity)
    else Ok(Product(name, price, quantity))
  }

  /** value_total(): the stock value of one product line. */
  function ValueTotal(p: Product): (total: real)
    ensures p.Valid() ==> total >= 0.0
    ensures p.quantity == 0 || p.price == 0.0 ==> total == 0.0
  {
    p.price * p.quantity as real
  }

  /** A JSON value of the kinds a product record holds, as json.load returns them. */
  datatype Value = Str(s: string) | Num(x: real) | Int(n: int)

  /** A JSON object: its members in document order. */
  type Record = seq<(string, Value)>

  /** The keys of a record, in document order. */
  function Keys(r: Record): seq<string> {
    seq(|r|, i requires 0 <= i < |r| => r[i].0)
  }

  /**
    The value stored under `key`. A JSON object read into a dictionary keeps the last
    member of a repeated key, so a later member hides an earlier one.
  */
  function Lookup(r: Record, key: string): (v: Option<Value>)
    ensures v.None? <==> forall i :: 0 <= i < |r| ==> r[i].0 != key
    ensures v.Some? ==> exists i :: 0 <= i < |r| && r[i] == (key, v.value) && forall j :: i < j < |r| ==> r[j].0 != key
  {
    if r == [] then None
    else if r[|r| - 1].0 == key then Some(r[|r| - 1].1)
    else
      var front := r[..|r| - 1];
      assert forall i :: 0 <= i < |front| ==> front[i] == r[i];
      Lookup(front, key)
  }

  /** The record of a product: its attribute dictionary, keys in assignment order. */
  function ToRecord(p: Product): (r: Record)
    ensures Keys(r) == ["name", "price", "quantity"]
  {
    [("name", Str(p.name)), ("price", Num(p.price)), ("quantity", Int(p.quantity))]
  }

  /** Each of the three keys of a product's record holds that product's own value. */
  lemma LookupToRecord(p: Product)
    ensures Lookup(ToRecord(p), "name") == Some(Str(p.name))
    ensures Lookup(ToRecord(p), "price") == Some(Num(p.price))
    ensures Lookup(ToRecord(p), "quantity") == Some(Int(p.quantity))
  {
    var r := ToRecord(p);
    assert "name" != "price" && "price" != "quantity" && "name" != "quantity";
    assert r[..2] == [("name", Str(p.name)), ("price", Num(p.price))];
    assert Lookup(r, "name") == Lookup(r[..2], "name") == Lookup(r[..2][..1], "name");
    assert Lookup(r, "price") == Lookup(r[..2], "price");
  }

  /** What json.dump may hand to the encoder: a product, or any other object. */
  datatype Encodable = ProductObject(product: Product) | OtherObject

  /** The TypeError that the base JSONEncoder.default raises. */
  datatype EncodeError = NotSerializable

  /**
    ProductEncoder.default: a product becomes a record with the keys name, price and
    quantity, in that order, holding the product's own values; any other object is
    passed to the base encoder, which refuses it.
  */
  function Default(obj: Encodable): (r: Result<Record, EncodeError>)
    ensures r.Ok? <==> obj.ProductObject?
    ensures r.Ok? ==> Keys(r.value) == ["name", "price", "quantity"]
    ensures r.Ok? ==> Lookup(r.value, "name") == Some(Str(obj.product.name))
    ensures r.Ok? ==> Lookup(r.value, "price") == Some(Num(obj.product.price))
    ensures r.Ok? ==> Lookup(r.value, "quantity") == Some(Int(obj.product.quantity))
  {
    match obj
    case ProductObject(p) =>
      LookupToRecord(p);
      Ok(ToRecord(p))
    case OtherObject => Err(NotSerializable)
  }
}
