/** The shopping cart: an ordered list of lines, each a copy of a catalog
    product taken when it was first added, plus a quantity. The operations are
    first given as functions on the list of lines, with their properties as
    lemmas; the class `ShoppingCart` at the end holds the list and changes it
    in place through those same operations. */
module Cart {
  import opened Seqs
  import opened Catalog

  /** One row of the cart: the product as it was when added, and how many. */
  datatype CartLine = CartLine(product: Product, quantity: int)

  /** The cart invariant: at most one line per product identifier, and every
      line holds at least one unit. */
  predicate WellFormed(lines: seq<CartLine>)
  {
    && (forall i, j :: 0 <= i < j < |lines| ==> lines[i].product.id != lines[j].product.id)
    && (forall i :: 0 <= i < |lines| ==> lines[i].quantity >= 1)
  }

  /** Every line is a copy of a catalog product. */
  predicate FromCatalog(catalog: seq<Product>, lines: seq<CartLine>)
  {
    forall i :: 0 <= i < |lines| ==> lines[i].product in catalog
  }

  /** Some catalog product carries this identifier. */
  predicate InCatalog(catalog: seq<Product>, id: int)
  {
    exists k :: 0 <= k < |catalog| && catalog[k].id == id
  }

  /** No line of the cart is for this product identifier. */
  predicate Absent(lines: seq<CartLine>, id: int)
  {
    forall i :: 0 <= i < |lines| ==> lines[i].product.id != id
  }

  /** `cart.find(item => item.id === id)`, as the position of the first line
      for that identifier. */
  function FindLine(lines: seq<CartLine>, id: int): (r: Option<nat>)
    ensures r.Some? ==> r.value < |lines| && lines[r.value].product.id == id
    ensures r.Some? ==> forall j :: 0 <= j < r.value ==> lines[j].product.id != id
    ensures r.None? <==> Absent(lines, id)
  {
    if lines == [] then None
    else if lines[0].product.id == id then Some(0)
    else
      match FindLine(lines[1..], id)
      case None => None
      case Some(k) => Some(k + 1)
  }

  /** In a well-formed cart the line for an identifier is the only one there is. */
  lemma FindLineUnique(lines: seq<CartLine>, i: nat)
    requires WellFormed(lines) && i < |lines|
    ensures FindLine(lines, lines[i].product.id) == Some(i)
  {
  }

  /** How many units of a product the cart holds (0 when it has no line). */
  function QuantityOf(lines: seq<CartLine>, id: int): int
  {
    match FindLine(lines, id)
    case None => 0
    case Some(i) => lines[i].quantity
  }

  function OtherThan(id: int): CartLine -> bool
  {
    (l: CartLine) => l.product.id != id
  }

  /** `removeFromCart(id)`: the cart without the lines for `id`. */
  function Remove(lines: seq<CartLine>, id: int): seq<CartLine>
  {
    Filter(lines, OtherThan(id))
  }

  /** `addToCart(id)`: nothing for an identifier the catalog lacks; one more
      unit on an existing line; otherwise a new line with one unit. */
  function Add(catalog: seq<Product>, lines: seq<CartLine>, id: int): seq<CartLine>
  {
    match Lookup(catalog, id)
    case None => lines
    case Some(p) =>
      match FindLine(lines, id)
      case Some(i) => lines[i := lines[i].(quantity := lines[i].quantity + 1)]
      case None => lines + [CartLine(p, 1)]
  }

  /** `updateCartQuantity(id, q)`: nothing when the cart has no line for `id`;
      removal when `q <= 0`; otherwise that line's quantity becomes `q`. */
  function SetQuantity(lines: seq<CartLine>, id: int, q: int): seq<CartLine>
  {
    match FindLine(lines, id)
    case None => lines
    case Some(i) => if q <= 0 then Remove(lines, id) else lines[i := lines[i].(quantity := q)]
  }

  /** `addToCart(id)` called `n` times in a row. */
  function AddTimes(catalog: seq<Product>, lines: seq<CartLine>, id: int, n: nat): seq<CartLine>
  {
    if n == 0 then lines else Add(catalog, AddTimes(catalog, lines, id, n - 1), id)
  }

  function LineQuantity(l: CartLine): int
  {
    l.quantity
  }

  /** What a line costs, in cents. */
  function LineAmount(l: CartLine): int
  {
    l.product.price * l.quantity
  }

  /** One more unit on a line costs one more unit price. */
  lemma LineAmountOneMore(l: CartLine)
    ensures LineAmount(l.(quantity := l.quantity + 1)) == LineAmount(l) + l.product.price
  {
  }

  /** The number shown on the cart badge: the sum of the line quantities. */
  function ItemCount(lines: seq<CartLine>): int
  {
    Sum(lines, LineQuantity)
  }

  /** The cart total in cents: the sum of price times quantity over the lines. */
  function Total(lines: seq<CartLine>): int
  {
    Sum(lines, LineAmount)
  }

  /** In a well-formed cart the badge shows at least one item per line, and
      the total is never negative. */
  lemma AggregateBounds(lines: seq<CartLine>)
    requires WellFormed(lines)
    ensures ItemCount(lines) >= |lines|
    ensures Total(lines) >= 0
  {
    SumLowerBound(lines, LineQuantity, 1);
    SumLowerBound(lines, LineAmount, 0);
  }

  // ----- addToCart -----

  lemma AddUnknownIsNoop(catalog: seq<Product>, lines: seq<CartLine>, id: int)
    requires !InCatalog(catalog, id)
    ensures Add(catalog, lines, id) == lines
  {
  }

  /** Adding a product the cart already holds raises that line by one unit and
      leaves every other line, and the length, as they were. */
  lemma AddExistingIncrements(catalog: seq<Product>, lines: seq<CartLine>, i: nat)
    requires WellFormed(lines) && i < |lines| && InCatalog(catalog, lines[i].product.id)
    ensures var r := Add(catalog, lines, lines[i].product.id);
      && |r| == |lines|
      && r[i].product == lines[i].product
      && r[i].quantity == lines[i].quantity + 1
      && forall j :: 0 <= j < |lines| && j != i ==> r[j] == lines[j]
  {
    FindLineUnique(lines, i);
  }

  /** Adding a catalog product the cart lacks appends one line at the end: a
      copy of the product the catalog lookup returns, with one unit. */
  lemma AddNewAppends(catalog: seq<Product>, lines: seq<CartLine>, id: int)
    requires InCatalog(catalog, id) && Absent(lines, id)
    ensures var r := Add(catalog, lines, id);
      && |r| == |lines| + 1
      && r[..|lines|] == lines
      && r[|lines|].quantity == 1
      && r[|lines|].product.id == id
      && r[|lines|].product in catalog
      && Lookup(catalog, id) == Some(r[|lines|].product)
  {
    var r := Add(catalog, lines, id);
    assert r == lines + [CartLine(Lookup(catalog, id).value, 1)];
  }

  lemma AddPreservesInvariant(catalog: seq<Product>, lines: seq<CartLine>, id: int)
    requires WellFormed(lines)
    ensures WellFormed(Add(catalog, lines, id))
    ensures FromCatalog(catalog, lines) ==> FromCatalog(catalog, Add(catalog, lines, id))
  {
  }

  /** One addition raises that product's quantity by one and leaves the
      quantity of every other product alone. */
  lemma AddQuantities(catalog: seq<Product>, lines: seq<CartLine>, id: int, other: int)
    requires WellFormed(lines) && InCatalog(catalog, id)
    ensures QuantityOf(Add(catalog, lines, id), other)
      == QuantityOf(lines, other) + (if other == id then 1 else 0)
    ensures !Absent(Add(catalog, lines, id), id)
  {
    var r := Add(catalog, lines, id);
    var i: nat;
    if FindLine(lines, id).Some? {
      i := FindLine(lines, id).value;
      AddExistingIncrements(catalog, lines, i);
    } else {
      AddNewAppends(catalog, lines, id);
      i := |lines|;
    }
    AddPreservesInvariant(catalog, lines, id);
    FindLineUnique(r, i);
    if other != id {
      if !Absent(lines, other) {
        var k := FindLine(lines, other).value;
        assert r[k] == lines[k];
        FindLineUnique(r, k);
      } else {
        assert Absent(r, other);
      }
    }
  }

  /** `n` additions of one product keep the cart invariant. */
  lemma {:induction false} AddRepeatedKeepsInvariant(catalog: seq<Product>, lines: seq<CartLine>, id: int, n: nat)
    requires WellFormed(lines)
    ensures WellFormed(AddTimes(catalog, lines, id, n))
    ensures FromCatalog(catalog, lines) ==> FromCatalog(catalog, AddTimes(catalog, lines, id, n))
  {
    if n > 0 {
      AddRepeatedKeepsInvariant(catalog, lines, id, n - 1);
      AddPreservesInvariant(catalog, AddTimes(catalog, lines, id, n - 1), id);
    }
  }

  /** `n` additions of one catalog product raise its quantity by exactly `n`,
      leave a line for it once `n > 0`, and change no other product's quantity. */
  lemma {:induction false} AddRepeated(catalog: seq<Product>, lines: seq<CartLine>, id: int, n: nat, other: int)
    requires WellFormed(lines) && InCatalog(catalog, id)
    ensures QuantityOf(AddTimes(catalog, lines, id, n), other)
      == QuantityOf(lines, other) + (if other == id then n else 0)
    ensures n > 0 ==> !Absent(AddTimes(catalog, lines, id, n), id)
  {
    if n > 0 {
      var prev := AddTimes(catalog, lines, id, n - 1);
      assert QuantityOf(prev, other) == QuantityOf(lines, other) + (if other == id then n - 1 else 0)
        && WellFormed(prev) by {
        AddRepeated(catalog, lines, id, n - 1, other);
        AddRepeatedKeepsInvariant(catalog, lines, id, n - 1);
      }
      assert AddTimes(catalog, lines, id, n) == Add(catalog, prev, id);
      AddQuantities(catalog, prev, id, other);
    }
  }

  /** Starting from an empty cart, `n` additions of one catalog product give a
      cart of exactly one line, holding `n` units. */
  lemma {:induction false} AddRepeatedToEmpty(catalog: seq<Product>, id: int, n: nat)
    requires InCatalog(catalog, id) && n > 0
    ensures AddTimes(catalog, [], id, n) == [CartLine(Lookup(catalog, id).value, n)]
  {
    if n > 1 {
      AddRepeatedToEmpty(catalog, id, n - 1);
    }
  }

  // ----- removeFromCart -----

  /** After the removal no line is for `id`, and every line for another
      product is still there, in the original order. */
  lemma RemoveDropsOnlyThatProduct(lines: seq<CartLine>, id: int)
    ensures Absent(Remove(lines, id), id)
    ensures forall j :: 0 <= j < |lines| && lines[j].product.id != id ==> lines[j] in Remove(lines, id)
    ensures IsSubsequence(Remove(lines, id), lines)
  {
    FilterMembers(lines, OtherThan(id));
    FilterIsSubsequence(lines, OtherThan(id));
  }

  lemma RemoveAbsentIsNoop(lines: seq<CartLine>, id: int)
    requires Absent(lines, id)
    ensures Remove(lines, id) == lines
  {
    FilterKeepsAll(lines, OtherThan(id));
  }

  /** In a well-formed cart, removal deletes exactly the one line for `id`. */
  lemma RemoveExisting(lines: seq<CartLine>, i: nat)
    requires WellFormed(lines) && i < |lines|
    ensures Remove(lines, lines[i].product.id) == lines[..i] + lines[i + 1..]
  {
    FilterDropsOne(lines, i, OtherThan(lines[i].product.id));
  }

  lemma RemovePreservesInvariant(catalog: seq<Product>, lines: seq<CartLine>, id: int)
    requires WellFormed(lines)
    ensures WellFormed(Remove(lines, id))
    ensures FromCatalog(catalog, lines) ==> FromCatalog(catalog, Remove(lines, id))
  {
    RemoveKeepsWellFormed(lines, id);
    FilterMembers(lines, OtherThan(id));
  }

  lemma {:induction false} RemoveKeepsWellFormed(lines: seq<CartLine>, id: int)
    requires WellFormed(lines)
    ensures WellFormed(Remove(lines, id))
  {
    if lines != [] {
      var tail := lines[1..];
      RemoveKeepsWellFormed(tail, id);
      var rest := Remove(tail, id);
      if lines[0].product.id != id {
        assert Remove(lines, id) == [lines[0]] + rest;
        forall k | 0 <= k < |rest| ensures rest[k].product.id != lines[0].product.id {
          FilterMembers(tail, OtherThan(id));
          assert rest[k] in tail;
        }
      } else {
        assert Remove(lines, id) == rest;
      }
    }
  }

  // ----- updateCartQuantity -----

  /** A quantity of zero or less is the same as removing the product. */
  lemma SetNonPositiveIsRemove(lines: seq<CartLine>, id: int, q: int)
    requires q <= 0
    ensures SetQuantity(lines, id, q) == Remove(lines, id)
  {
    if FindLine(lines, id).None? {
      RemoveAbsentIsNoop(lines, id);
    }
  }

  /** A positive quantity replaces that line's quantity and touches nothing else. */
  lemma SetPositiveReplaces(lines: seq<CartLine>, i: nat, q: int)
    requires WellFormed(lines) && i < |lines| && q > 0
    ensures var r := SetQuantity(lines, lines[i].product.id, q);
      && |r| == |lines|
      && r[i] == CartLine(lines[i].product, q)
      && forall j :: 0 <= j < |lines| && j != i ==> r[j] == lines[j]
  {
    FindLineUnique(lines, i);
  }

  lemma SetAbsentIsNoop(lines: seq<CartLine>, id: int, q: int)
    requires Absent(lines, id)
    ensures SetQuantity(lines, id, q) == lines
  {
  }

  lemma SetPreservesInvariant(catalog: seq<Product>, lines: seq<CartLine>, id: int, q: int)
    requires WellFormed(lines)
    ensures WellFormed(SetQuantity(lines, id, q))
    ensures FromCatalog(catalog, lines) ==> FromCatalog(catalog, SetQuantity(lines, id, q))
  {
    if q <= 0 {
      SetNonPositiveIsRemove(lines, id, q);
      RemovePreservesInvariant(catalog, lines, id);
    }
  }

  // ----- the two aggregates of updateCartUI -----

  /** An empty cart shows 0 items and a total of 0; a well-formed cart shows
      0 items only when it is empty. */
  lemma EmptyCartAggregates(lines: seq<CartLine>)
    requires WellFormed(lines)
    ensures ItemCount(lines) == 0 <==> lines == []
    ensures lines == [] ==> Total(lines) == 0
  {
    AggregateBounds(lines);
  }

  /** Adding a catalog product raises the item count by one and the total by
      that product's price (the price of the copy already in the cart, which
      is the catalog's, as the catalog never changes). */
  lemma AddAggregates(catalog: seq<Product>, lines: seq<CartLine>, id: int)
    requires WellFormed(lines) && FromCatalog(catalog, lines) && UniqueIds(catalog)
    requires InCatalog(catalog, id)
    ensures ItemCount(Add(catalog, lines, id)) == ItemCount(lines) + 1
    ensures Total(Add(catalog, lines, id)) == Total(lines) + Lookup(catalog, id).value.price
  {
    match FindLine(lines, id)
    case Some(i) =>
      AddExistingAggregates(catalog, lines, id, i);
    case None =>
      var p := Lookup(catalog, id).value;
      assert Add(catalog, lines, id) == lines + [CartLine(p, 1)];
      NewLineAggregates(lines, p);
  }

  /** The existing-line case of AddAggregates: the line found is for the
      product the catalog lookup returns. */
  lemma AddExistingAggregates(catalog: seq<Product>, lines: seq<CartLine>, id: int, i: nat)
    requires UniqueIds(catalog) && FindLine(lines, id) == Some(i)
    requires lines[i].product in catalog
    ensures ItemCount(Add(catalog, lines, id)) == ItemCount(lines) + 1
    ensures Total(Add(catalog, lines, id)) == Total(lines) + Lookup(catalog, id).value.price
  {
    var l := lines[i];
    assert Lookup(catalog, id) == Some(l.product) by {
      var k :| 0 <= k < |catalog| && catalog[k] == l.product;
      LookupFindsProduct(catalog, k);
    }
    assert Add(catalog, lines, id) == lines[i := l.(quantity := l.quantity + 1)];
    OneMoreUnitAggregates(lines, i, l);
  }

  lemma OneMoreUnitAggregates(lines: seq<CartLine>, i: nat, l: CartLine)
    requires i < |lines| && l == lines[i]
    ensures ItemCount(lines[i := l.(quantity := l.quantity + 1)]) == ItemCount(lines) + 1
    ensures Total(lines[i := l.(quantity := l.quantity + 1)]) == Total(lines) + l.product.price
  {
    var l' := l.(quantity := l.quantity + 1);
    SumUpdate(lines, i, l', LineQuantity);
    SumUpdate(lines, i, l', LineAmount);
    LineAmountOneMore(l);
  }

  lemma NewLineAggregates(lines: seq<CartLine>, p: Product)
    ensures ItemCount(lines + [CartLine(p, 1)]) == ItemCount(lines) + 1
    ensures Total(lines + [CartLine(p, 1)]) == Total(lines) + p.price
  {
    var line := CartLine(p, 1);
    SumAppend(lines, [line], LineQuantity);
    SumAppend(lines, [line], LineAmount);
    SumSingleton(line, LineQuantity);
    SumSingleton(line, LineAmount);
  }

  /** Removal takes that product's units and amount off the aggregates. */
  lemma RemoveAggregates(lines: seq<CartLine>, i: nat)
    requires WellFormed(lines) && i < |lines|
    ensures ItemCount(Remove(lines, lines[i].product.id)) == ItemCount(lines) - lines[i].quantity
    ensures Total(Remove(lines, lines[i].product.id)) == Total(lines) - LineAmount(lines[i])
  {
    RemoveExisting(lines, i);
    SumDelete(lines, i, LineQuantity);
    SumDelete(lines, i, LineAmount);
  }

  /** Setting a positive quantity moves the item count from the old quantity
      to the new one, and the total from the old line amount to the new one. */
  lemma SetAggregates(lines: seq<CartLine>, i: nat, q: int)
    requires WellFormed(lines) && i < |lines| && q > 0
    ensures ItemCount(SetQuantity(lines, lines[i].product.id, q)) == ItemCount(lines) - lines[i].quantity + q
    ensures Total(SetQuantity(lines, lines[i].product.id, q)) == Total(lines) - LineAmount(lines[i]) + lines[i].product.price * q
  {
    FindLineUnique(lines, i);
    var l := lines[i];
    var r := SetQuantity(lines, l.product.id, q);
    assert r == lines[i := l.(quantity := q)];
    SumUpdate(lines, i, l.(quantity := q), LineQuantity);
    SumUpdate(lines, i, l.(quantity := q), LineAmount);
  }

  /** Adding product `a` once and product `b` twice to an empty cart gives
      three items and the price of `a` plus twice the price of `b`. */
  lemma ThreeAdditions(catalog: seq<Product>, a: Product, b: Product)
    requires UniqueIds(catalog) && a in catalog && b in catalog && a.id != b.id
    ensures var lines := Add(catalog, Add(catalog, Add(catalog, [], a.id), b.id), b.id);
      ItemCount(lines) == 3 && Total(lines) == a.price + 2 * b.price
  {
    var ka :| 0 <= ka < |catalog| && catalog[ka] == a;
    var kb :| 0 <= kb < |catalog| && catalog[kb] == b;
    assert Lookup(catalog, a.id) == Some(a) by { LookupFindsProduct(catalog, ka); }
    assert Lookup(catalog, b.id) == Some(b) by { LookupFindsProduct(catalog, kb); }
    assert InCatalog(catalog, a.id) && InCatalog(catalog, b.id);
    var one := Add(catalog, [], a.id);
    assert ItemCount(one) == 1 && Total(one) == a.price by {
      AddAggregates(catalog, [], a.id);
    }
    assert WellFormed(one) && FromCatalog(catalog, one) by {
      AddPreservesInvariant(catalog, [], a.id);
    }
    var two := Add(catalog, one, b.id);
    assert ItemCount(two) == 2 && Total(two) == a.price + b.price by {
      AddAggregates(catalog, one, b.id);
    }
    assert WellFormed(two) && FromCatalog(catalog, two) by {
      AddPreservesInvariant(catalog, one, b.id);
    }
    AddAggregates(catalog, two, b.id);
  }

  /** One Arduino (24.99) and two DHT22 sensors (12.50 each) come to 49.99. */
  lemma SampleCartTotal()
    ensures var lines := Add(Products, Add(Products, Add(Products, [], 1), 2), 2);
      ItemCount(lines) == 3 && Total(lines) == 4999
  {
    BuiltInCatalogIsWellFormed();
    ThreeAdditions(Products, Products[0], Products[1]);
  }

  /** The page's cart: the current lines over a fixed catalog. */
  class ShoppingCart {
    const catalog: seq<Product>
    var lines: seq<CartLine>

    ghost predicate Valid()
      reads this
    {
      WellFormed(lines) && FromCatalog(catalog, lines)
    }

    /** `let cart = []` */
    constructor (catalog: seq<Product>)
      ensures Valid() && this.catalog == catalog && lines == []
    {
      this.catalog := catalog;
      lines := [];
    }

    method AddToCart(id: int)
      requires Valid()
      modifies this
      ensures Valid()
      ensures lines == Add(catalog, old(lines), id)
    {
      AddPreservesInvariant(catalog, lines, id);
      var product := Lookup(catalog, id);
      if product.None? {
        return;
      }
      var existing := FindLine(lines, id);
      if existing.Some? {
        var i := existing.value;
        lines := lines[i := lines[i].(quantity := lines[i].quantity + 1)];
      } else {
        lines := lines + [CartLine(product.value, 1)];
      }
    }

    method RemoveFromCart(id: int)
      requires Valid()
      modifies this
      ensures Valid()
      ensures lines == Remove(old(lines), id)
    {
      RemovePreservesInvariant(catalog, lines, id);
      lines := Filter(lines, OtherThan(id));
    }

    method UpdateCartQuantity(id: int, newQuantity: int)
      requires Valid()
      modifies this
      ensures Valid()
      ensures lines == SetQuantity(old(lines), id, newQuantity)
    {
      SetPreservesInvariant(catalog, lines, id, newQuantity);
      var item := FindLine(lines, id);
      if item.Some? {
        if newQuantity <= 0 {
          RemoveFromCart(id);
        } else {
          var i := item.value;
          lines := lines[i := lines[i].(quantity := newQuantity)];
        }
      }
    }

    /** `updateCartUI`: the badge count and the total, in cents. */
    method Summary() returns (totalItems: int, total: int)
      requires Valid()
      ensures totalItems == ItemCount(lines) && totalItems >= |lines|
      ensures total == Total(lines) && total >= 0
    {
      AggregateBounds(lines);
      ReduceIsSum(lines, LineQuantity, 0);
      ReduceIsSum(lines, LineAmount, 0);
      totalItems := Reduce(lines, LineQuantity, 0);
      total := Reduce(lines, LineAmount, 0);
    }
  }
}
