/**
 * ReviewForm: the review submission form. Its four fields start unset; a
 * submission records which of them are missing and, when none is, publishes
 * the review on the channel and clears the fields.
 */
module ReviewForm {
  import opened Wrappers
  import opened Reviews
  import opened Product
  import opened Bus

  class Form {
    var name: Option<string>
    var review: Option<string>
    var rating: Option<int>
    var recommend: Option<string>
    var errors: seq<string>

    constructor ()
      ensures name == None && review == None && rating == None && recommend == None
      ensures errors == []
    {
      name, review, rating, recommend := None, None, None, None;
      errors := [];
    }

    /**
     * Submit the form. The new error list depends only on the field values,
     * never on earlier submissions. Without errors, exactly the review made of
     * the field values reaches every subscriber and the fields are cleared;
     * otherwise nothing is published and the fields stay as they were.
     */
    method OnSubmit(bus: Channel)
      modifies this, set c | c in bus.handlers
      ensures errors == ValidationErrors(old(name), old(review), old(rating), old(recommend))
      ensures bus.handlers == old(bus.handlers)
      ensures forall c :: c in bus.handlers ==> c.selected == old(c.selected)
      ensures errors == [] ==>
        Complete(old(name), old(review), old(rating), old(recommend)) &&
        (var r := MakeReview(old(name), old(review), old(rating), old(recommend));
         forall c :: c in bus.handlers ==> c.reviews == old(c.reviews) + Repeat(r, multiset(bus.handlers)[c])) &&
        name == None && review == None && rating == None && recommend == None
      ensures errors != [] ==>
        (forall c :: c in bus.handlers ==> c.reviews == old(c.reviews)) &&
        name == old(name) && review == old(review) && rating == old(rating) && recommend == old(recommend)
    {
      ErrorsEmptyIffComplete(name, review, rating, recommend);
      errors := [];
      if !Filled(name) { errors := errors + [NameRequired]; }
      if !Filled(review) { errors := errors + [ReviewRequired]; }
      if !Rated(rating) { errors := errors + [RatingRequired]; }
      if !Filled(recommend) { errors := errors + [RecommendRequired]; }

      if |errors| == 0 {
        var productReview := Review(name.value, review.value, rating.value, recommend.value);
        bus.Publish(productReview);
        name := None;
        review := None;
        rating := None;
        recommend := None;
      }
    }
  }
}
