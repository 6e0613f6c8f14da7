/**
 * Page: the page as it starts up with its shipped data, and what a visitor
 * can then observe through the components' contracts alone.
 */
module Page {
  import opened Wrappers
  import opened Reviews
  import opened Product
  import opened Bus
  import opened ReviewForm
  import opened Cart

  /**
   * Start-up: the root application (premium shipping on, empty cart), the
   * socks card it renders, the channel and the form. Mounting the card
   * registers its review subscriber, the only one.
   */
  method MountPage() returns (app: App, bus: Channel, card: ProductCard, form: Form)
    ensures fresh(app) && fresh(bus) && fresh(card) && fresh(form)
    ensures app.premium && app.cart == []
    ensures card.Valid() && card.brand == SocksBrand && card.product == SocksProduct && card.onSale
    ensures card.variants == SocksVariants && card.premium == app.premium
    ensures card.selected == 0 && card.reviews == []
    ensures bus.handlers == [card]
    ensures form.name == None && form.review == None && form.rating == None && form.recommend == None
    ensures form.errors == []
  {
    app := new App(true);
    bus := new Channel();
    card := new ProductCard(SocksBrand, SocksProduct, true, SocksVariants, app.premium);
    bus.Subscribe(card);
    form := new Form();
  }

  /** A complete review reaches the card exactly once and clears the form. */
  method SubmitCompleteReview() {
    var app, bus, card, form := MountPage();
    form.name, form.review, form.rating, form.recommend := Some("Alice"), Some("Great!"), Some(5), Some("yes");
    form.OnSubmit(bus);
    assert form.errors == [];
    assert multiset(bus.handlers)[card] == 1;
    assert card.reviews == [Review("Alice", "Great!", 5, "yes")];
    assert form.name == None && form.review == None && form.rating == None && form.recommend == None;
  }

  /** An empty form records all four messages and publishes nothing. */
  method SubmitEmptyForm() {
    var app, bus, card, form := MountPage();
    form.OnSubmit(bus);
    ErrorsWhenAllMissing();
    assert form.errors == AllMessages;
    assert card.reviews == [];
    assert form.name == None;
  }

  /** Hovering the blue socks selects them, and the add button then emits nothing. */
  method BlueSocksCannotBeAdded() {
    var app, bus, card, form := MountPage();
    app.UpdateCart(2234);
    card.UpdateProduct(1);
    ShippedStock();
    assert !InStock(card.variants, card.selected);
    var emitted := card.PressAddButton();
    assert emitted == None;
    var id := card.RemoveFromCart();
    assert id == 2235;
    app.RemoveFromCart(id);
    assert app.cart == [2234];
    assert Shipping(card.premium) == "Free";
  }
}
