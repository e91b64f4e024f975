/**
 * The records the storefront keeps: products in the catalog file, cart items
 * in the browser, loyal customers and feedback messages in their files.
 * Prices and market caps are whole numbers here (the files hold JSON numbers).
 */
module Records {

  /** A coin on sale. `quantity` is the stock that checkout decrements. */
  datatype Product = Product(id: int, name: string, price: int, marketCap: int, quantity: int, category: string)

  /** One line of the browser-held cart; sent whole in the checkout request. */
  datatype CartItem = CartItem(id: int, name: string, price: int, quantity: int)

  /** A registered loyal customer; `id` is assigned by the server. */
  datatype Customer = Customer(id: int, name: string, email: string, address: string)

  /** A feedback message, stored exactly as posted. */
  datatype Feedback = Feedback(name: string, email: string, message: string)

  /** An HTTP error answer: status code and the body sent with it. */
  datatype HttpError = HttpError(status: int, body: string)

  /** The key `find` compares for products. */
  function ProductId(p: Product): int { p.id }

  /** The key `find` compares for cart items. */
  function ItemId(c: CartItem): int { c.id }

  /** The total quantity that the lines of `items` with id `id` ask for. */
  function QuantityOf(items: seq<CartItem>, id: int): int
    decreases |items|
  {
    if |items| == 0 then 0
    else
      var last := items[|items| - 1];
      QuantityOf(items[..|items| - 1], id) + (if last.id == id then last.quantity else 0)
  }

  /** Lines for other ids contribute nothing. */
  lemma {:induction false} QuantityOfAbsent(items: seq<CartItem>, id: int)
    requires forall c :: c in items ==> c.id != id
    ensures QuantityOf(items, id) == 0
    decreases |items|
  {
    if |items| != 0 {
      QuantityOfAbsent(items[..|items| - 1], id);
    }
  }

  /** Replacing one line changes the total by the difference of the two lines' contributions. */
  lemma {:induction false} QuantityOfUpdate(items: seq<CartItem>, k: nat, c: CartItem, id: int)
    requires k < |items|
    ensures QuantityOf(items[k := c], id) ==
      QuantityOf(items, id)
      - (if items[k].id == id then items[k].quantity else 0)
      + (if c.id == id then c.quantity else 0)
    decreases |items|
  {
    var n := |items|;
    if k == n - 1 {
      assert items[k := c][..n - 1] == items[..n - 1];
    } else {
      assert items[k := c][..n - 1] == items[..n - 1][k := c];
      QuantityOfUpdate(items[..n - 1], k, c, id);
    }
  }
}
