/**
 * The web service of app.js. Its three JSON files (the product catalog,
 * the feedback log and the loyal-customer log) are the fields of a
 * `Server`; each handler reads a file, transforms it and, for the POST
 * endpoints, writes it back whole.
 */
module App {
  import opened Wrappers
  import opened Records
  import opened Catalog
  import opened Inventory
  import opened Customers
  import opened Routes

  /** The answer to every checkout. */
  const CheckoutDone := "Checkout successful"

  /** What a GET request on the catalog is answered with. */
  datatype Reply = Listing(products: seq<Product>) | Found(product: Product) | Error(error: HttpError) | NoRoute

  predicate AllDigits(s: string)
  {
    |s| > 0 && forall i :: 0 <= i < |s| ==> '0' <= s[i] <= '9'
  }

  function DigitsValue(s: string): nat
    requires forall i :: 0 <= i < |s| ==> '0' <= s[i] <= '9'
    decreases |s|
  {
    if |s| == 0 then 0
    else DigitsValue(s[..|s| - 1]) * 10 + (s[|s| - 1] as int - '0' as int)
  }

  /**
   * `parseInt` on the `:id` path segment, for a segment that is an optional
   * minus sign and decimal digits; any other segment gives `None` (NaN, which
   * equals no id).
   */
  function ParseId(s: string): (r: Option<int>)
    ensures r.Some? <==> AllDigits(s) || (|s| > 1 && s[0] == '-' && AllDigits(s[1..]))
    ensures AllDigits(s) ==> r == Some(DigitsValue(s))
    ensures |s| > 1 && s[0] == '-' && AllDigits(s[1..]) ==> r == Some(-(DigitsValue(s[1..]) as int))
  {
    if AllDigits(s) then Some(DigitsValue(s))
    else if |s| > 1 && s[0] == '-' && AllDigits(s[1..]) then Some(-(DigitsValue(s[1..]) as int))
    else None
  }

  /** The decimal digits of `n`, as `'coin.html#' + coin.id` writes an id into a link. */
  function Decimal(n: nat): string
    decreases n
  {
    if n < 10 then ['0' + n as char] else Decimal(n / 10) + ['0' + (n % 10) as char]
  }

  lemma {:induction false} DecimalDigits(n: nat)
    ensures AllDigits(Decimal(n)) && DigitsValue(Decimal(n)) == n
    decreases n
  {
    var d := Decimal(n);
    if n >= 10 {
      DecimalDigits(n / 10);
      assert d[..|d| - 1] == Decimal(n / 10);
    }
  }

  /** Parsing the decimal form of a nonnegative id gives the id back. */
  lemma ParseIdDecimal(n: nat)
    ensures ParseId(Decimal(n)) == Some(n)
  {
    DecimalDigits(n);
  }

  /** The literal segment of the filter URL is no id. */
  lemma ParseIdRejectsFilter()
    ensures ParseId("filter") == None
  {
    assert !('0' <= "filter"[0] <= '9');
  }

  class Server {
    /** products.json */
    var products: seq<Product>
    /** feedbacks.json */
    var feedbacks: seq<Feedback>
    /** loyal_customers.json */
    var customers: seq<Customer>

    constructor (products: seq<Product>, feedbacks: seq<Feedback>, customers: seq<Customer>)
      ensures this.products == products && this.feedbacks == feedbacks && this.customers == customers
    {
      this.products := products;
      this.feedbacks := feedbacks;
      this.customers := customers;
    }

    /** GET /products: the whole catalog, in file order. */
    method GetProducts() returns (r: seq<Product>)
      ensures r == products
    {
      r := products;
    }

    /** GET /products/:id, for an id already parsed. */
    method GetProduct(id: int) returns (r: Result<Product, HttpError>)
      ensures r.Success? ==> r.value in products && r.value.id == id
      ensures r.Failure? <==> forall p :: p in products ==> p.id != id
      ensures r == FindProduct(products, id)
    {
      r := FindProduct(products, id);
    }

    /** GET /products/filter. */
    method GetFilteredProducts(q: Query) returns (r: seq<Product>)
      ensures r == FilterCatalog(products, q)
    {
      r := FilterCatalog(products, q);
    }

    /**
     * A GET request on the catalog, routed with the filter route ahead of the
     * `:id` route so that the filter URL reaches its handler.
     */
    method Get(path: seq<string>, q: Query) returns (r: Reply)
      ensures path == ["products"] ==> r == Listing(products)
      ensures path == ["products", "filter"] ==> r == Listing(FilterCatalog(products, q))
      ensures |path| == 2 && path[0] == "products" && path[1] != "filter" ==>
        r == match ParseId(path[1])
          case None => Error(NotFound)
          case Some(id) => (match FindProduct(products, id) case Success(p) => Found(p) case Failure(e) => Error(e))
      ensures !(path == ["products"] || (|path| == 2 && path[0] == "products")) ==> r == NoRoute
    {
      ReorderedDispatch(path);
      match Dispatch(Reordered, path)
      case None =>
        r := NoRoute;
      case Some(ListProducts) =>
        r := Listing(products);
      case Some(FilterProducts) =>
        r := Listing(FilterCatalog(products, q));
      case Some(ProductById) =>
        match ParseId(path[1])
        case None =>
          r := Error(NotFound);
        case Some(id) =>
          match FindProduct(products, id)
          case Success(p) =>
            r := Found(p);
          case Failure(e) =>
            r := Error(e);
    }

    /** POST /feedback: the posted feedback is appended to the log and echoed. */
    method PostFeedback(f: Feedback) returns (echo: Feedback)
      modifies this
      ensures feedbacks == old(feedbacks) + [f]
      ensures echo == f
      ensures products == old(products) && customers == old(customers)
    {
      var log := feedbacks;
      log := log + [f];
      feedbacks := log;
      echo := f;
    }

    /**
     * POST /checkout: the catalog is read into an array, each cart line in
     * order lowers the quantity of the first product with its id, and the
     * array is written back, whether or not any line matched.
     */
    method Checkout(cart: seq<CartItem>) returns (message: string)
      modifies this
      ensures products == CheckoutAll(old(products), cart)
      ensures feedbacks == old(feedbacks) && customers == old(customers)
      ensures message == CheckoutDone
    {
      var ps := products;
      var coins := new Product[|ps|](i requires 0 <= i < |ps| => ps[i]);
      assert coins[..] == ps;
      var n := 0;
      while n < |cart|
        invariant 0 <= n <= |cart|
        invariant coins[..] == CheckoutAll(ps, cart[..n])
        modifies coins
      {
        var item := cart[n];
        match Seqs.IndexOf(coins[..], ProductId, item.id) {
          case Some(k) =>
            coins[k] := coins[k].(quantity := coins[k].quantity - item.quantity);
          case None =>
        }
        assert cart[..n + 1][..n] == cart[..n];
        n := n + 1;
      }
      assert cart[..n] == cart;
      products := coins[..];
      message := CheckoutDone;
    }

    /**
     * POST /customers: an incomplete request is answered with 400 and the
     * store is left alone; otherwise the customer is appended with id
     * old count + 1.
     */
    method PostCustomer(req: Registration) returns (r: Result<string, HttpError>)
      modifies this
      ensures customers == Register(old(customers), req)
      ensures r == if IsComplete(req) then Success(Welcome) else Failure(MissingFields)
      ensures products == old(products) && feedbacks == old(feedbacks)
    {
      if !Given(req.name) || !Given(req.email) || !Given(req.address) {
        return Failure(MissingFields);
      }
      var cs := customers;
      var newCustomer := Customer(|cs| + 1, req.name.value, req.email.value, req.address.value);
      cs := cs + [newCustomer];
      customers := cs;
      r := Success(Welcome);
    }
  }
}
