/** The read-only catalog endpoints of app.js: lookup by id and filtering. */
module Catalog {
  import opened Wrappers
  import opened Seqs
  import opened Records

  /** The answer to GET /products/:id for an id that no product has. */
  const NotFound := HttpError(404, "Product not found")

  /**
   * GET /products/:id: the first product with the requested id, or 404.
   */
  function FindProduct(ps: seq<Product>, id: int): (r: Result<Product, HttpError>)
    ensures r.Success? ==> exists i :: IsFirst(ps, ProductId, id, i) && ps[i] == r.value
    ensures r.Failure? <==> forall p :: p in ps ==> p.id != id
    ensures r.Failure? ==> r.error == NotFound
  {
    match IndexOf(ps, ProductId, id)
    case Some(i) => Success(ps[i])
    case None => Failure(NotFound)
  }

  /**
   * The query of GET /products/filter, already parsed. `price` is `None`
   * when the parameter is absent or empty; a `category` of "" is as good as
   * absent, since the handler tests each parameter for truthiness.
   */
  datatype Query = Query(price: Option<int>, category: Option<string>)

  predicate PriceGiven(q: Query) { q.price.Some? }

  predicate CategoryGiven(q: Query) { q.category.Some? && q.category.value != "" }

  /** The price condition, which holds trivially when no price is given. */
  predicate PriceOk(q: Query, p: Product) { PriceGiven(q) ==> p.price <= q.price.value }

  /** The category condition, which holds trivially when no category is given. */
  predicate CategoryOk(q: Query, p: Product) { CategoryGiven(q) ==> p.category == q.category.value }

  /** The conditions a product must meet to be listed: both parameters apply together. */
  predicate Satisfies(q: Query, p: Product) { PriceOk(q, p) && CategoryOk(q, p) }

  /** The first step of the handler: the price filter, applied only when a price is given. */
  function ByPrice(ps: seq<Product>, q: Query): (r: seq<Product>)
    ensures IsSubsequence(r, ps)
    ensures forall p :: p in r ==> PriceOk(q, p)
    ensures multiset(r) <= multiset(ps)
    ensures forall p :: p in ps && PriceOk(q, p) ==> multiset(r)[p] == multiset(ps)[p]
  {
    if PriceGiven(q) then
      var max := q.price.value;
      Filter(ps, (p: Product) => p.price <= max)
    else
      SubsequenceReflexive(ps);
      ps
  }

  /** The second step of the handler: the category filter, applied only when a category is given. */
  function ByCategory(ps: seq<Product>, q: Query): (r: seq<Product>)
    ensures IsSubsequence(r, ps)
    ensures forall p :: p in r ==> CategoryOk(q, p)
    ensures multiset(r) <= multiset(ps)
    ensures forall p :: p in ps && CategoryOk(q, p) ==> multiset(r)[p] == multiset(ps)[p]
  {
    if CategoryGiven(q) then
      var c := q.category.value;
      Filter(ps, (p: Product) => p.category == c)
    else
      SubsequenceReflexive(ps);
      ps
  }

  /**
   * GET /products/filter: the products that meet both conditions, in catalog
   * order, each as often as the catalog lists it; the whole catalog when
   * neither parameter is given.
   */
  function FilterCatalog(ps: seq<Product>, q: Query): (r: seq<Product>)
    ensures IsSubsequence(r, ps)
    ensures forall p :: p in r ==> Satisfies(q, p)
    ensures multiset(r) <= multiset(ps)
    ensures forall p :: p in ps && Satisfies(q, p) ==> multiset(r)[p] == multiset(ps)[p] && p in r
    ensures !PriceGiven(q) && !CategoryGiven(q) ==> r == ps
  {
    var byPrice := ByPrice(ps, q);
    var r := ByCategory(byPrice, q);
    SubsequenceTransitive(r, byPrice, ps);
    assert forall p :: p in r ==> p in byPrice by {
      forall p | p in r ensures p in byPrice {
        assert multiset(r)[p] > 0;
      }
    }
    r
  }
}
