/**
 * Product: the variant catalogue, the values the product card derives from
 * its state, and the card itself.
 */
module Product {
  import opened Wrappers
  import opened Reviews

  /** One colour of the product; the catalogue is fixed once the card exists. */
  datatype Variant = Variant(variantId: int, variantColor: string, variantImage: string, variantQuantity: int)

  // Derived values: each is a pure function of the card's state.

  function Title(brand: string, product: string): (t: string) {
    brand + " " + product
  }

  function Sale(onSale: bool, brand: string, product: string): (message: string) {
    if onSale then brand + " " + product + " are on sale!"
    else brand + " " + product + " are not on sale."
  }

  function Image(variants: seq<Variant>, selected: nat): (image: string)
    requires selected < |variants|
  {
    variants[selected].variantImage
  }

  predicate InStock(variants: seq<Variant>, selected: nat)
    requires selected < |variants|
  {
    variants[selected].variantQuantity > 0
  }

  function Shipping(premium: bool): (cost: string)
    ensures cost == "Free" <==> premium
    ensures cost == "$2.99" <==> !premium
  {
    if premium then "Free" else "$2.99"
  }

  /** The title splits back into brand, one space and product name. */
  lemma TitleParts(brand: string, product: string)
    ensures var t := Title(brand, product);
      |t| == |brand| + 1 + |product| &&
      t[..|brand|] == brand && t[|brand|] == ' ' && t[|brand| + 1..] == product
  {
  }

  /** For one brand, the title determines the product name. */
  lemma TitleDeterminesProduct(brand: string, p1: string, p2: string)
    requires Title(brand, p1) == Title(brand, p2)
    ensures p1 == p2
  {
    TitleParts(brand, p1);
    TitleParts(brand, p2);
  }

  /** The sale message is the title followed by a fixed suffix chosen by the flag. */
  lemma SaleExtendsTitle(onSale: bool, brand: string, product: string)
    ensures Sale(onSale, brand, product) ==
      Title(brand, product) + (if onSale then " are on sale!" else " are not on sale.")
  {
  }

  /** The two sale messages always differ, so the message tells the flag. */
  lemma SaleTellsFlag(brand: string, product: string)
    ensures Sale(true, brand, product) != Sale(false, brand, product)
  {
  }

  /**
   * A product card. The catalogue and texts never change; `selected` moves
   * with the hovered colour box, and `reviews` grows with each review
   * delivered to the card's subscriber.
   */
  class ProductCard {
    const brand: string
    const product: string
    const onSale: bool
    const variants: seq<Variant>
    /** Passed in by the root application. */
    const premium: bool
    var selected: nat
    var reviews: seq<Review>

    ghost predicate Valid()
      reads this
    {
      selected < |variants|
    }

    constructor (brand: string, product: string, onSale: bool, variants: seq<Variant>, premium: bool)
      requires |variants| > 0
      ensures Valid()
      ensures this.brand == brand && this.product == product && this.onSale == onSale
      ensures this.variants == variants && this.premium == premium
      ensures selected == 0 && reviews == []
    {
      this.brand := brand;
      this.product := product;
      this.onSale := onSale;
      this.variants := variants;
      this.premium := premium;
      selected := 0;
      reviews := [];
    }

    /** Hovering colour box `index` selects that variant; nothing else changes. */
    method UpdateProduct(index: nat)
      requires Valid()
      requires index < |variants|
      modifies `selected
      ensures Valid() && selected == index
      ensures Image(variants, selected) == variants[index].variantImage
      ensures InStock(variants, selected) <==> variants[index].variantQuantity > 0
    {
      selected := index;
    }

    /** The id the card emits as an add-to-cart request. */
    method AddToCart() returns (id: int)
      requires Valid()
      ensures id == variants[selected].variantId
    {
      id := variants[selected].variantId;
    }

    /** The id the card emits as a remove-from-cart request, whatever the stock. */
    method RemoveFromCart() returns (id: int)
      requires Valid()
      ensures id == variants[selected].variantId
    {
      id := variants[selected].variantId;
    }

    /**
     * A click on the add button: the button is disabled while the selected
     * variant is out of stock, so then nothing is emitted.
     */
    method PressAddButton() returns (emitted: Option<int>)
      requires Valid()
      ensures emitted.Some? <==> InStock(variants, selected)
      ensures emitted.Some? ==> emitted.value == variants[selected].variantId
    {
      if InStock(variants, selected) {
        var id := AddToCart();
        emitted := Some(id);
      } else {
        emitted := None;
      }
    }

    /** The card's review subscriber: append the review at the end. */
    method ReceiveReview(r: Review)
      modifies `reviews
      ensures reviews == old(reviews) + [r]
    {
      reviews := reviews + [r];
    }
  }

  // The catalogue the page ships with.

  const SocksBrand: string := "Vue Mastery"
  const SocksProduct: string := "Socks"
  const SocksVariants: seq<Variant> := [
    Variant(2234, "green", "./assets/vmSocks-green-onWhite.jpg", 10),
    Variant(2235, "blue", "./assets/vmSocks-blue-onWhite.jpg", 0)
  ]

  /** In the shipped catalogue the green socks are in stock and the blue ones are not. */
  lemma ShippedStock()
    ensures InStock(SocksVariants, 0) && !InStock(SocksVariants, 1)
    ensures Image(SocksVariants, 1) == "./assets/vmSocks-blue-onWhite.jpg"
    ensures Sale(true, SocksBrand, SocksProduct) == "Vue Mastery Socks are on sale!"
  {
  }
}
