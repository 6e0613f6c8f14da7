/**
 * Cart: the root application's cart of variant ids. Adding appends (so an
 * id may appear several times); removing deletes only the first occurrence
 * of the id and ignores an id that is not in the cart.
 */
module Cart {

  /** Position of the first `x` in `s`, or -1 when there is none. */
  function IndexOf(s: seq<int>, x: int): (i: int)
    ensures -1 <= i < |s|
    ensures i == -1 <==> x !in s
    ensures 0 <= i ==> s[i] == x && forall j :: 0 <= j < i ==> s[j] != x
  {
    if s == [] then -1
    else if s[0] == x then 0
    else
      var k := IndexOf(s[1..], x);
      if k == -1 then -1 else k + 1
  }

  /** The cart after removing the first occurrence of `x`, if any. */
  function RemoveFirst(s: seq<int>, x: int): (r: seq<int>) {
    var i := IndexOf(s, x);
    if i == -1 then s else s[..i] + s[i + 1..]
  }

  /** Removing an id that is not in the cart leaves it unchanged. */
  lemma RemoveAbsent(s: seq<int>, x: int)
    requires x !in s
    ensures RemoveFirst(s, x) == s
  {
  }

  /** Removal cuts out exactly the element at the first index holding `x`. */
  lemma RemoveAtFirstMatch(s: seq<int>, x: int, k: nat)
    requires k < |s| && s[k] == x
    requires forall j :: 0 <= j < k ==> s[j] != x
    ensures RemoveFirst(s, x) == s[..k] + s[k + 1..]
    ensures |RemoveFirst(s, x)| == |s| - 1
  {
  }

  /** The removal takes away one copy of `x` and keeps every other element. */
  lemma RemoveFirstMultiset(s: seq<int>, x: int)
    ensures multiset(RemoveFirst(s, x)) == multiset(s) - multiset{x}
  {
    var i := IndexOf(s, x);
    if i == -1 {
      assert multiset(s)[x] == 0;
    } else {
      assert s == s[..i] + [s[i]] + s[i + 1..];
      assert multiset(s) == multiset(s[..i]) + multiset{x} + multiset(s[i + 1..]);
    }
  }

  /** Adding an id and then removing it restores the cart's contents as a multiset. */
  lemma AddThenRemove(s: seq<int>, x: int)
    ensures multiset(RemoveFirst(s + [x], x)) == multiset(s)
  {
    RemoveFirstMultiset(s + [x], x);
  }

  /** The example of a cart holding an id twice: only the first copy goes. */
  lemma RemoveFirstExample()
    ensures RemoveFirst([5, 7, 5], 5) == [7, 5]
    ensures RemoveFirst([5, 7, 5], 3) == [5, 7, 5]
  {
  }

  /** The root application: its cart and the premium-shipping flag it passes to the card. */
  class App {
    const premium: bool
    var cart: seq<int>

    constructor (premium: bool)
      ensures this.premium == premium && cart == []
    {
      this.premium := premium;
      cart := [];
    }

    method UpdateCart(id: int)
      modifies `cart
      ensures cart == old(cart) + [id]
    {
      cart := cart + [id];
    }

    method RemoveFromCart(id: int)
      modifies `cart
      ensures cart == RemoveFirst(old(cart), id)
      ensures multiset(cart) == multiset(old(cart)) - multiset{id}
      ensures id !in old(cart) ==> cart == old(cart)
      ensures id in old(cart) ==> |cart| == |old(cart)| - 1
    {
      RemoveFirstMultiset(cart, id);
      var index := IndexOf(cart, id);
      if index != -1 {
        cart := cart[..index] + cart[index + 1..];
      }
    }
  }
}
