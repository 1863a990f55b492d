/** The product catalog of the storefront: the built-in product list, lookup
    by identifier, the category filter and the text search. */
module Catalog {
  import opened Seqs
  import opened Text

  /** A catalog entry. `price` is in cents and `rating` in tenths of a star. */
  datatype Product = Product(
    id: int,
    name: string,
    description: string,
    price: nat,
    category: string,
    icon: string,
    seller: string,
    rating: nat,
    stock: nat)

  /** The built-in products the page starts with. */
  const Products: seq<Product> := [
    Product(1, "Arduino Uno R3",
      "Microcontroller board based on the ATmega328P. Perfect for beginners and prototyping.",
      2499, "microcontrollers", "fas fa-microchip", "TechComponents Inc.", 48, 150),
    Product(2, "DHT22 Temperature & Humidity Sensor",
      "High-precision digital temperature and humidity sensor with calibrated output.",
      1250, "sensors", "fas fa-thermometer-half", "SensorWorld", 46, 89),
    Product(3, "16x2 LCD Display with I2C",
      "Blue backlight LCD display with I2C interface for easy connection and control.",
      875, "displays", "fas fa-tv", "DisplayTech Pro", 47, 203)
  ]

  /** No two products share an identifier. */
  predicate UniqueIds(catalog: seq<Product>)
  {
    forall i, j :: 0 <= i < j < |catalog| ==> catalog[i].id != catalog[j].id
  }

  lemma BuiltInCatalogIsWellFormed()
    ensures UniqueIds(Products)
    ensures forall i :: 0 <= i < |Products| ==> Products[i].rating <= 50
  {
  }

  /** `products.find(p => p.id === id)`. */
  function Lookup(catalog: seq<Product>, id: int): (r: Option<Product>)
    ensures r.Some? ==> r.value in catalog && r.value.id == id
    ensures r.None? <==> forall i :: 0 <= i < |catalog| ==> catalog[i].id != id
  {
    if catalog == [] then None
    else if catalog[0].id == id then Some(catalog[0])
    else Lookup(catalog[1..], id)
  }

  /** With unique identifiers, the lookup finds the one product carrying it. */
  lemma LookupFindsProduct(catalog: seq<Product>, i: nat)
    requires UniqueIds(catalog) && i < |catalog|
    ensures Lookup(catalog, catalog[i].id) == Some(catalog[i])
  {
    var r := Lookup(catalog, catalog[i].id);
    assert r.Some?;
    var k :| 0 <= k < |catalog| && catalog[k] == r.value;
    assert k == i;
  }

  /** `find` returns the first product carrying the identifier. */
  lemma {:induction false} LookupFirst(catalog: seq<Product>, id: int, k: nat)
    requires k < |catalog| && catalog[k].id == id
    requires forall j :: 0 <= j < k ==> catalog[j].id != id
    ensures Lookup(catalog, id) == Some(catalog[k])
  {
    if k > 0 {
      LookupFirst(catalog[1..], id, k - 1);
    }
  }

  /** The category name that the "show everything" filter button carries. */
  const AllCategories: string := "all"

  function HasCategory(category: string): Product -> bool
  {
    (p: Product) => p.category == category
  }

  /** `filterProducts(category)`: the whole catalog for the sentinel, otherwise
      the products of that category. */
  function FilterProducts(catalog: seq<Product>, category: string): (r: seq<Product>)
    ensures category == AllCategories ==> r == catalog
    ensures category != AllCategories ==>
      forall i :: 0 <= i < |r| ==> r[i] in catalog && r[i].category == category
    ensures category != AllCategories ==>
      forall j :: 0 <= j < |catalog| && catalog[j].category == category ==> catalog[j] in r
  {
    FilterMembers(catalog, HasCategory(category));
    if category == AllCategories then catalog else Filter(catalog, HasCategory(category))
  }

  /** The filter result lists products in catalog order. */
  lemma FilterProductsInOrder(catalog: seq<Product>, category: string)
    ensures IsSubsequence(FilterProducts(catalog, category), catalog)
  {
    if category != AllCategories {
      FilterIsSubsequence(catalog, HasCategory(category));
    } else {
      SubsequenceOfItself(catalog);
    }
  }

  /** Filtering a catalog made of two parts filters each part in turn. */
  lemma FilterProductsAppend(a: seq<Product>, b: seq<Product>, category: string)
    ensures FilterProducts(a + b, category) == FilterProducts(a, category) + FilterProducts(b, category)
  {
    if category != AllCategories {
      FilterAppend(a, b, HasCategory(category));
    }
  }

  lemma FilterBuiltInSensors()
    ensures FilterProducts(Products, "sensors") == [Products[1]]
  {
  }

  /** The search term: the input lower-cased, then trimmed. */
  function SearchTerm(input: string): string
  {
    Trim(Lower(input))
  }

  /** The term occurs in the lower-cased name, description or category. */
  ghost predicate Mentions(p: Product, term: string)
  {
    || (exists i :: OccursAt(Lower(p.name), term, i))
    || (exists i :: OccursAt(Lower(p.description), term, i))
    || (exists i :: OccursAt(Lower(p.category), term, i))
  }

  function MatchesTerm(term: string): Product -> bool
  {
    (p: Product) => Contains(Lower(p.name), term) || Contains(Lower(p.description), term)
      || Contains(Lower(p.category), term)
  }

  /** `searchProducts()` on the text of the search box: the whole catalog for a
      blank term, otherwise the products that mention the term. */
  function SearchProducts(catalog: seq<Product>, input: string): (r: seq<Product>)
    ensures SearchTerm(input) == [] ==> r == catalog
    ensures SearchTerm(input) != [] ==>
      forall i :: 0 <= i < |r| ==> r[i] in catalog && Mentions(r[i], SearchTerm(input))
    ensures SearchTerm(input) != [] ==>
      forall j :: 0 <= j < |catalog| && Mentions(catalog[j], SearchTerm(input)) ==> catalog[j] in r
  {
    var term := SearchTerm(input);
    FilterMembers(catalog, MatchesTerm(term));
    if term == [] then catalog else Filter(catalog, MatchesTerm(term))
  }

  /** An input made only of whitespace (the empty input included) shows the
      whole catalog. */
  lemma SearchBlankShowsAll(catalog: seq<Product>, input: string)
    requires forall i :: 0 <= i < |input| ==> IsWhitespace(input[i])
    ensures SearchProducts(catalog, input) == catalog
  {
    LowerKeepsWhitespace(input);
  }

  /** The search does not depend on the case of the letters typed. */
  lemma SearchIgnoresCase(catalog: seq<Product>, input: string)
    ensures SearchProducts(catalog, Lower(input)) == SearchProducts(catalog, input)
  {
    LowerIdempotent(input);
  }

  /** The search result lists products in catalog order. */
  lemma SearchProductsInOrder(catalog: seq<Product>, input: string)
    ensures IsSubsequence(SearchProducts(catalog, input), catalog)
  {
    var term := SearchTerm(input);
    if term == [] {
      SubsequenceOfItself(catalog);
    } else {
      FilterIsSubsequence(catalog, MatchesTerm(term));
    }
  }

  /** Searching a catalog made of two parts searches each part in turn. */
  lemma SearchProductsAppend(a: seq<Product>, b: seq<Product>, input: string)
    ensures SearchProducts(a + b, input) == SearchProducts(a, input) + SearchProducts(b, input)
  {
    var term := SearchTerm(input);
    if term != [] {
      FilterAppend(a, b, MatchesTerm(term));
    }
  }
}
