# Product card state model

A Dafny model of the state behind a single-page Vue product card (`js/main.js`):
a card for a pair of socks with colour variants, a review form whose submissions
travel over a shared event channel to the card, and a root application that keeps
a cart of variant ids.

Modules:

- `Wrappers` — `Option`, for form fields that start out `null`.
- `Reviews` — the `Review` record and the form's validation rule as pure
  functions (`ValidationErrors`, `Complete`, `MakeReview`). A field is missing
  when it is unset or falsy: `""` for the text fields, `0` for the rating.
- `Product` — `Variant`, the card's derived values as pure functions of its
  state (`Title`, `Sale`, `Image`, `InStock`, `Shipping`), and the class
  `ProductCard`. Its catalogue and texts are `const`; `selected` and `reviews`
  are the fields the source updates. `Valid()` is the invariant
  `selected < |variants|`.
- `Bus` — the event channel `Channel`, created once and passed explicitly.
  It holds the registered review subscribers (product cards) in registration
  order. `Publish` runs each of them synchronously, in that order.
- `ReviewForm` — the class `Form` with its four optional fields, its error
  list, and `OnSubmit`, which rebuilds the error list step by step. When no
  error is recorded, it publishes the review and clears the fields.
- `Cart` — `IndexOf` and `RemoveFirst` on sequences, and the class `App`
  with `cart` and `premium`.
- `Page` — start-up with the shipped data (`MountPage`) and three client
  methods. They derive, from the contracts alone, the behaviour of a
  complete submission, of an empty submission, and of the out-of-stock
  blue socks.

Two behaviours differ from what the page suggests; the model follows the code:

- The code does not restrict a review's rating to 1–5. It rejects only a
  missing rating or the rating 0. The values 1–5 come only from the
  `<select>` options, so the model accepts any non-zero rating.
- The code does not make `addToCart` a no-op for an out-of-stock variant.
  The template disables the button (line 173). That guard is modelled
  separately, in `PressAddButton`.

## Model

| member | source | states |
|---|---|---|
| `Reviews.MakeReview` | js/main.js:74-79 | the review built from a complete form holds exactly the four field values, each non-empty or non-zero |
| `Reviews.ErrorsEmptyIffComplete` | js/main.js:67-73 | the error list is empty exactly when all four fields are present, which is the condition for publishing |
| `Reviews.ErrorsNameMissingFields` | js/main.js:67-71 | each of the four messages is in the error list exactly when its own field is missing, and no other message ever appears |
| `Reviews.ErrorsInFixedOrder` | js/main.js:67-71 | the messages appear strictly in the order name, review, rating, recommendation, so none appears twice |
| `Reviews.ErrorsWhenAllMissing` | js/main.js:58-71 | an untouched form (all null) and a form of falsy values (`""`, 0) both get all four messages in order |
| `Product.Shipping` | js/main.js:229-231 | shipping is "Free" exactly when premium is set and "$2.99" exactly when it is not |
| `Product.TitleParts` | js/main.js:217-219 | the title is the brand, one space and the product name; each part can be cut back out at its position |
| `Product.TitleDeterminesProduct` | js/main.js:217-219 | two products of the same brand have equal titles only when their names are equal |
| `Product.SaleExtendsTitle` | js/main.js:220-222 | the sale message is the title followed by " are on sale!" when the flag is set, and " are not on sale." otherwise |
| `Product.SaleTellsFlag` | js/main.js:220-222 | the on-sale and not-on-sale messages for the same product always differ |
| `Product.ShippedStock` | js/main.js:198-212 | in the shipped catalogue variant 0 is in stock, variant 1 is not, and its image is the blue one; the sale text reads "Vue Mastery Socks are on sale!" |
| `Product.ProductCard.constructor` | js/main.js:188-215 | a new card holds the given catalogue, selects variant 0 and has no reviews |
| `Product.ProductCard.UpdateProduct` | js/main.js:240-242 | sets the selected index to the hovered index and changes nothing else; then `Image` is that variant's image and `InStock` holds iff its quantity is positive |
| `Product.ProductCard.AddToCart` | js/main.js:234-236 | emits the id of the selected variant |
| `Product.ProductCard.RemoveFromCart` | js/main.js:237-239 | emits the id of the selected variant, whatever its stock |
| `Product.ProductCard.PressAddButton` | js/main.js:173 | a click on the add button emits the selected id iff the variant is in stock; otherwise nothing is emitted |
| `Product.ProductCard.ReceiveReview` | js/main.js:245-247 | the subscriber appends the review at the end; earlier reviews are kept in order; only `reviews` changes |
| `Bus.Channel.constructor` | js/main.js:1 | a new channel has no subscribers |
| `Bus.Channel.Subscribe` | js/main.js:244-248 | mounting a card registers its subscriber after all earlier ones |
| `Bus.Channel.Publish` | js/main.js:80 | every subscribed card receives the review at the end of its list, once per registration; no card's selection changes |
| `ReviewForm.Form.constructor` | js/main.js:56-64 | a new form has all four fields unset and no errors |
| `ReviewForm.Form.OnSubmit` | js/main.js:66-86 | the new errors depend only on the field values; with no errors, the review of the pre-call values reaches every subscriber and all fields become null; otherwise no review list changes and the fields stay as they were |
| `Cart.IndexOf` | js/main.js:262 | the result is -1 iff the id is absent; otherwise it is an index holding the id with no earlier occurrence |
| `Cart.RemoveAbsent` | js/main.js:261-266 | removing an id that is not in the cart leaves the cart unchanged |
| `Cart.RemoveAtFirstMatch` | js/main.js:261-266 | removal cuts out exactly the element at the first index holding the id, shortening the cart by one |
| `Cart.RemoveFirstMultiset` | js/main.js:261-266 | removal takes away one copy of the id (none if absent) and keeps every other element |
| `Cart.AddThenRemove` | js/main.js:258-266 | adding an id and then removing it restores the cart's contents as a multiset |
| `Cart.RemoveFirstExample` | js/main.js:261-266 | removing 5 from [5, 7, 5] gives [7, 5]; removing 3 from it changes nothing |
| `Cart.App.constructor` | js/main.js:251-256 | the application starts with the given premium flag and an empty cart |
| `Cart.App.UpdateCart` | js/main.js:258-260 | appends the id to the cart; duplicates are allowed |
| `Cart.App.RemoveFromCart` | js/main.js:261-266 | the cart becomes the first-match removal of the id; it loses one copy if the id was present and is unchanged otherwise |
| `Page.MountPage` | js/main.js:251-256 | start-up: premium on, empty cart, the socks card on variant 0 with no reviews, and the card as the channel's only subscriber |

## Left out

- Templates, CSS class bindings and `v-for`/`v-show` rendering: presentation only. The same goes for the `product-details` and `product-tabs` components, whose tab selection is a bare assignment.
- Vue's reactivity engine: the computed values are explicit pure functions, recomputed by whoever reads them.
- Vue's event internals: the global bus is an explicit `Channel`. Its only handler kind is the card's review subscriber, since that is the only one the code registers. There is one topic, "review-submitted", so no topic is modelled.
- The page's HTML template, outside js/main.js, wires the card's emits to the root's `updateCart`/`removeFromCart`. The emits are modelled as returned ids and the cart operations as separate methods.
- The same template binds the root's `premium` flag to the card's required `premium` prop. `Page.MountPage` assumes this binding and passes `app.premium` to the card.
- DOM events (hover, click, submit), the HTML `required` attributes, and the `description`, `altText`, `link`, `details` and `sizes` data: none of them carries behaviour. Field edits are modelled as direct assignments to the form's fields.
- Product.ProductCard.UpdateProduct: it requires an index inside the catalogue. The UI only passes colour-box indices. In the code, an index out of range would make the computed `image` fail.
- `NaN` ratings: JavaScript treats `NaN` as falsy too, but it is not modelled. Ratings are integers.
- JavaScript's reference semantics for the published review object are not modelled. The review is a value, so every subscriber receives an equal copy.
