/**
 * The browser side of the cart (public/coin.js and public/cart.js). The
 * cart lives in local storage under the key 'cart'; every operation reads
 * it, changes the array it got, and stores it back.
 */
module CartClient {
  import opened Wrappers
  import opened Seqs
  import opened Records
  import opened CartItems

  /** A rendered cart line: what it shows and the index its Remove button passes back. */
  datatype CartRow = CartRow(name: string, price: int, quantity: int, removeIndex: int)

  /** How the POST /checkout request ended: the server's message, or the error that was thrown. */
  datatype CheckoutResponse = Answered(message: string) | Failed(reason: string)

  class LocalCart {
    /** The 'cart' entry of local storage; `None` when nothing is stored. */
    var stored: Option<seq<CartItem>>

    constructor (stored: Option<seq<CartItem>>)
      ensures this.stored == stored
    {
      this.stored := stored;
    }

    /** `fetchCartItems`: the stored cart, or the empty cart when nothing is stored. */
    function FetchCartItems(): (items: seq<CartItem>)
      reads this
      ensures stored.None? ==> items == []
      ensures stored.Some? ==> items == stored.value
    {
      match stored
      case None => []
      case Some(items) => items
    }

    /**
     * `addToCart`: add to the line for the coin if there is one, else append
     * a new line; the result is stored.
     */
    method AddToCart(coin: Product, quantity: int)
      modifies this
      ensures stored == Some(AddItem(old(FetchCartItems()), coin, quantity))
    {
      var cart := FetchCartItems();
      match IndexOf(cart, ItemId, coin.id) {
        case Some(k) =>
          cart := cart[k := cart[k].(quantity := cart[k].quantity + quantity)];
        case None =>
          cart := cart + [NewItem(coin, quantity)];
      }
      stored := Some(cart);
    }

    /** `renderCartItems`: one row per line, in cart order, whose Remove button passes the line's index. */
    method RenderCartItems() returns (rows: seq<CartRow>)
      ensures |rows| == |FetchCartItems()|
      ensures forall i :: 0 <= i < |rows| ==>
        var item := FetchCartItems()[i];
        rows[i] == CartRow(item.name, item.price, item.quantity, i)
    {
      var cart := FetchCartItems();
      rows := [];
      var i := 0;
      while i < |cart|
        invariant 0 <= i <= |cart|
        invariant |rows| == i
        invariant forall j :: 0 <= j < i ==> rows[j] == CartRow(cart[j].name, cart[j].price, cart[j].quantity, j)
      {
        rows := rows + [CartRow(cart[i].name, cart[i].price, cart[i].quantity, i)];
        i := i + 1;
      }
    }

    /** `removeFromCart`: `cart.splice(index, 1)` on the stored cart, then store it. */
    method RemoveFromCart(index: int)
      modifies this
      ensures stored == Some(SpliceOne(old(FetchCartItems()), index))
    {
      var cart := FetchCartItems();
      cart := SpliceOne(cart, index);
      stored := Some(cart);
    }

    /** `clearCart`: the stored cart is removed, so the next fetch gives the empty cart. */
    method ClearCart()
      modifies this
      ensures stored == None
      ensures FetchCartItems() == []
    {
      stored := None;
    }

    /**
     * `checkoutCart`: the stored cart is sent as the request body; the cart is
     * cleared only when the server answered, and kept as it was on an error.
     */
    method CheckoutCart(response: CheckoutResponse) returns (body: seq<CartItem>, shown: string)
      modifies this
      ensures body == old(FetchCartItems())
      ensures response.Answered? ==> stored == None && shown == response.message
      ensures response.Failed? ==> stored == old(stored) && shown == response.reason
    {
      body := FetchCartItems();
      match response {
        case Answered(message) =>
          shown := message;
          ClearCart();
        case Failed(reason) =>
          shown := reason;
      }
    }
  }

  /**
   * A Remove button of a rendered cart passes an index inside the cart, and
   * removing that index takes out exactly that line: the cart shrinks by one
   * and the other lines keep their order.
   */
  lemma RemoveRenderedLine(items: seq<CartItem>, rows: seq<CartRow>, i: int)
    requires |rows| == |items|
    requires forall j :: 0 <= j < |rows| ==> rows[j].removeIndex == j
    requires 0 <= i < |rows|
    ensures 0 <= rows[i].removeIndex < |items|
    ensures SpliceOne(items, rows[i].removeIndex) == items[..i] + items[i + 1..]
  {
    var r := SpliceOne(items, i);
    assert |r| == |items| - 1;
    assert forall j :: 0 <= j < |r| ==> r[j] == (items[..i] + items[i + 1..])[j];
  }
}
