/** The merge-or-append rule of `addToCart` in public/coin.js, on cart contents. */
module CartItems {
  import opened Seqs
  import opened Records

  /** The cart line made from a coin when the cart has none for it yet. */
  function NewItem(coin: Product, quantity: int): CartItem
  {
    CartItem(coin.id, coin.name, coin.price, quantity)
  }

  predicate HasItem(items: seq<CartItem>, id: int)
  {
    exists i :: 0 <= i < |items| && items[i].id == id
  }

  /** No two lines of the cart share an id. */
  predicate UniqueIds(items: seq<CartItem>)
  {
    forall i, j :: 0 <= i < j < |items| ==> items[i].id != items[j].id
  }

  /**
   * `addToCart` on the cart contents. When the cart already holds the coin,
   * the length stays the same, the first line with its id gains `quantity`,
   * and every other line is unchanged in its place; otherwise a line for the
   * coin is appended and nothing else changes.
   */
  function AddItem(items: seq<CartItem>, coin: Product, quantity: int): (r: seq<CartItem>)
    ensures HasItem(items, coin.id) ==>
      && |r| == |items|
      && forall i :: 0 <= i < |items| ==>
           r[i] == if IsFirst(items, ItemId, coin.id, i) then items[i].(quantity := items[i].quantity + quantity)
                   else items[i]
    ensures !HasItem(items, coin.id) ==> r == items + [NewItem(coin, quantity)]
  {
    match IndexOf(items, ItemId, coin.id)
    case Some(k) =>
      var r := items[k := items[k].(quantity := items[k].quantity + quantity)];
      forall i | 0 <= i < |items| && IsFirst(items, ItemId, coin.id, i) ensures i == k {
        FirstIsUnique(items, ItemId, coin.id, i, k);
      }
      r
    case None =>
      assert forall i :: 0 <= i < |items| ==> ItemId(items[i]) != coin.id;
      items + [NewItem(coin, quantity)]
  }

  /** Adding to a cart whose ids are unique keeps them unique. */
  lemma AddItemKeepsIdsUnique(items: seq<CartItem>, coin: Product, quantity: int)
    requires UniqueIds(items)
    ensures UniqueIds(AddItem(items, coin, quantity))
  {
    match IndexOf(items, ItemId, coin.id)
    case Some(k) =>
    case None =>
      var r := items + [NewItem(coin, quantity)];
      forall i, j | 0 <= i < j < |r| ensures r[i].id != r[j].id {
        if j == |items| {
          assert ItemId(items[i]) != coin.id;
        }
      }
  }

  /** The quantity the cart holds for the coin grows by exactly `quantity`; for other ids it stays. */
  lemma AddItemQuantity(items: seq<CartItem>, coin: Product, quantity: int, id: int)
    ensures QuantityOf(AddItem(items, coin, quantity), id) ==
      QuantityOf(items, id) + if id == coin.id then quantity else 0
  {
    match IndexOf(items, ItemId, coin.id)
    case Some(k) =>
      QuantityOfUpdate(items, k, items[k].(quantity := items[k].quantity + quantity), id);
    case None =>
      var r := items + [NewItem(coin, quantity)];
      assert r[..|r| - 1] == items;
  }
}
