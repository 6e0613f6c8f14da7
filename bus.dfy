/**
 * Bus: the channel that carries submitted reviews from the review form to
 * the product cards. It is created once and passed explicitly to the two
 * components that use it. Its only handlers are product cards' review
 * subscribers, kept in registration order.
 */
module Bus {
  import opened Reviews
  import opened Product

  /** `n` copies of `r`. */
  function Repeat(r: Review, n: nat): (s: seq<Review>)
    ensures |s| == n
    ensures forall k :: 0 <= k < n ==> s[k] == r
  {
    if n == 0 then [] else Repeat(r, n - 1) + [r]
  }

  class Channel {
    var handlers: seq<ProductCard>

    constructor ()
      ensures handlers == []
    {
      handlers := [];
    }

    /** A card's mount hook: register its review subscriber after the others. */
    method Subscribe(card: ProductCard)
      modifies `handlers
      ensures handlers == old(handlers) + [card]
    {
      handlers := handlers + [card];
    }

    /**
     * Publish a submitted review: every registered subscriber runs, in
     * registration order, before this returns. A card registered k times
     * receives k copies; only the cards' review lists change.
     */
    method Publish(r: Review)
      modifies set c | c in handlers
      ensures forall c :: c in handlers ==>
        c.reviews == old(c.reviews) + Repeat(r, multiset(handlers)[c]) && c.selected == old(c.selected)
    {
      var i := 0;
      while i < |handlers|
        invariant 0 <= i <= |handlers|
        invariant forall c :: c in handlers ==>
          c.reviews == old(c.reviews) + Repeat(r, multiset(handlers[..i])[c]) && c.selected == old(c.selected)
      {
        assert handlers[..i + 1] == handlers[..i] + [handlers[i]];
        handlers[i].ReceiveReview(r);
        i := i + 1;
      }
      assert handlers[..i] == handlers;
    }
  }
}
