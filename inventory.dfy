/**
 * What POST /checkout does to the catalog: each cart line, in order,
 * lowers the stock of the first product with the line's id.
 */
module Inventory {
  import opened Wrappers
  import opened Seqs
  import opened Records

  /** One cart line: the first product with the line's id loses the line's quantity; no match, no change. */
  function Decrement(ps: seq<Product>, item: CartItem): (r: seq<Product>)
    ensures |r| == |ps|
  {
    match IndexOf(ps, ProductId, item.id)
    case None => ps
    case Some(k) => ps[k := ps[k].(quantity := ps[k].quantity - item.quantity)]
  }

  /** The whole cart, line after line. */
  function CheckoutAll(ps: seq<Product>, cart: seq<CartItem>): (r: seq<Product>)
    ensures |r| == |ps|
    decreases |cart|
  {
    if |cart| == 0 then ps
    else Decrement(CheckoutAll(ps, cart[..|cart| - 1]), cart[|cart| - 1])
  }

  /** One line touches only the first product with its id, and only its quantity. */
  lemma DecrementAt(ps: seq<Product>, item: CartItem, i: int)
    requires 0 <= i < |ps|
    ensures Decrement(ps, item)[i] ==
      ps[i].(quantity := ps[i].quantity - if IsFirst(ps, ProductId, item.id, i) then item.quantity else 0)
  {
    match IndexOf(ps, ProductId, item.id)
    case None =>
    case Some(k) =>
      if IsFirst(ps, ProductId, item.id, i) {
        FirstIsUnique(ps, ProductId, item.id, i, k);
      }
  }

  /**
   * After checkout, every product keeps its place and every field but its
   * quantity; the first product with a given id has lost the sum of the
   * quantities of all cart lines with that id, and any later product with
   * the same id has lost nothing. Nothing keeps the result nonnegative.
   */
  lemma {:induction false} CheckoutAt(ps: seq<Product>, cart: seq<CartItem>, i: int)
    requires 0 <= i < |ps|
    ensures CheckoutAll(ps, cart)[i] ==
      ps[i].(quantity := ps[i].quantity -
        if IsFirst(ps, ProductId, ps[i].id, i) then QuantityOf(cart, ps[i].id) else 0)
    decreases |cart|
  {
    if |cart| != 0 {
      var init, last := cart[..|cart| - 1], cart[|cart| - 1];
      var before := CheckoutAll(ps, init);
      forall j | 0 <= j < |ps| ensures before[j].id == ps[j].id {
        CheckoutAt(ps, init, j);
      }
      assert IsFirst(before, ProductId, last.id, i) <==>
        last.id == ps[i].id && IsFirst(ps, ProductId, ps[i].id, i);
      DecrementAt(before, last, i);
      CheckoutAt(ps, init, i);
      assert CheckoutAll(ps, cart) == Decrement(before, last);
      assert QuantityOf(cart, ps[i].id) ==
        QuantityOf(init, ps[i].id) + if last.id == ps[i].id then last.quantity else 0;
    }
  }

  /** Lines whose id no product has leave the catalog exactly as it was. */
  lemma {:induction false} CheckoutIgnoresUnknownIds(ps: seq<Product>, cart: seq<CartItem>)
    requires forall c, p :: c in cart && p in ps ==> p.id != c.id
    ensures CheckoutAll(ps, cart) == ps
    decreases |cart|
  {
    if |cart| != 0 {
      var init := cart[..|cart| - 1];
      assert forall c :: c in init ==> c in cart;
      CheckoutIgnoresUnknownIds(ps, init);
    }
  }

  /** A product whose id no cart line names keeps its quantity. */
  lemma CheckoutKeepsUnorderedStock(ps: seq<Product>, cart: seq<CartItem>, i: int)
    requires 0 <= i < |ps|
    requires forall c :: c in cart ==> c.id != ps[i].id
    ensures CheckoutAll(ps, cart)[i] == ps[i]
  {
    CheckoutAt(ps, cart, i);
    QuantityOfAbsent(cart, ps[i].id);
  }

  /** Stock can go below zero: ordering more than is held leaves a negative quantity. */
  lemma CheckoutCanGoNegative(ps: seq<Product>, cart: seq<CartItem>, i: int)
    requires 0 <= i < |ps|
    requires IsFirst(ps, ProductId, ps[i].id, i)
    requires QuantityOf(cart, ps[i].id) > ps[i].quantity
    ensures CheckoutAll(ps, cart)[i].quantity < 0
  {
    CheckoutAt(ps, cart, i);
  }
}
