/**
 * Reviews: the review record and the validation rule of the review form.
 * A form field counts as missing when it is unset (`null`) or falsy: the
 * empty string for the text fields, 0 for the rating.
 */
module Reviews {
  import opened Wrappers

  /** A submitted review; built only from a form whose four fields are filled. */
  datatype Review = Review(name: string, review: string, rating: int, recommend: string)

  const NameRequired: string := "Name required."
  const ReviewRequired: string := "Review required."
  const RatingRequired: string := "Rating required."
  const RecommendRequired: string := "Recommendation required."

  /** The four messages in the fixed order in which the form checks its fields. */
  const AllMessages: seq<string> := [NameRequired, ReviewRequired, RatingRequired, RecommendRequired]

  /** A text field is present when it is set and not the empty string. */
  predicate Filled(s: Option<string>) {
    s.Some? && s.value != ""
  }

  /** The rating is present when it is set and not 0. */
  predicate Rated(r: Option<int>) {
    r.Some? && r.value != 0
  }

  predicate Complete(name: Option<string>, review: Option<string>, rating: Option<int>, recommend: Option<string>) {
    Filled(name) && Filled(review) && Rated(rating) && Filled(recommend)
  }

  /** The error list the form shows after a submission with these field values. */
  function ValidationErrors(name: Option<string>, review: Option<string>, rating: Option<int>, recommend: Option<string>): (errors: seq<string>) {
    Part(Filled(name), NameRequired) +
    Part(Filled(review), ReviewRequired) +
    Part(Rated(rating), RatingRequired) +
    Part(Filled(recommend), RecommendRequired)
  }

  /** Position of a message in the fixed checking order (-1 for any other string). */
  function Rank(m: string): (k: int)
    ensures -1 <= k < |AllMessages|
    ensures 0 <= k ==> AllMessages[k] == m
    ensures k == -1 <==> m !in AllMessages
  {
    if m == NameRequired then 0
    else if m == ReviewRequired then 1
    else if m == RatingRequired then 2
    else if m == RecommendRequired then 3
    else -1
  }

  /** The review record built from a complete form. */
  function MakeReview(name: Option<string>, review: Option<string>, rating: Option<int>, recommend: Option<string>): (r: Review)
    requires Complete(name, review, rating, recommend)
    ensures Some(r.name) == name && Some(r.review) == review && Some(r.rating) == rating && Some(r.recommend) == recommend
    ensures r.name != "" && r.review != "" && r.rating != 0 && r.recommend != ""
  {
    Review(name.value, review.value, rating.value, recommend.value)
  }

  /** No error is recorded exactly when every field is present. */
  lemma ErrorsEmptyIffComplete(name: Option<string>, review: Option<string>, rating: Option<int>, recommend: Option<string>)
    ensures ValidationErrors(name, review, rating, recommend) == [] <==> Complete(name, review, rating, recommend)
  {
  }

  /** Each message is in the list exactly when its field is missing. */
  lemma ErrorsNameMissingFields(name: Option<string>, review: Option<string>, rating: Option<int>, recommend: Option<string>)
    ensures var e := ValidationErrors(name, review, rating, recommend);
      (NameRequired in e <==> !Filled(name)) &&
      (ReviewRequired in e <==> !Filled(review)) &&
      (RatingRequired in e <==> !Rated(rating)) &&
      (RecommendRequired in e <==> !Filled(recommend))
    ensures forall m :: m in ValidationErrors(name, review, rating, recommend) ==> m in AllMessages
  {
  }

  /** The messages appear in the fixed order name, review, rating, recommendation, each at most once. */
  lemma ErrorsInFixedOrder(name: Option<string>, review: Option<string>, rating: Option<int>, recommend: Option<string>)
    ensures StrictlyRanked(ValidationErrors(name, review, rating, recommend))
  {
    MessagesDistinct();
    var a := Part(Filled(name), NameRequired);
    var b := Part(Filled(review), ReviewRequired);
    var c := Part(Rated(rating), RatingRequired);
    var d := Part(Filled(recommend), RecommendRequired);
    PartRanked(Filled(name), NameRequired);
    PartRanked(Filled(review), ReviewRequired);
    PartRanked(Rated(rating), RatingRequired);
    PartRanked(Filled(recommend), RecommendRequired);
    RankedConcat(a, b, 0, 1, 2);
    RankedConcat(a + b, c, 0, 2, 3);
    RankedConcat(a + b + c, d, 0, 3, 4);
  }

  /** The contribution of one check to the error list. */
  function Part(present: bool, m: string): (part: seq<string>) {
    if present then [] else [m]
  }

  lemma PartRanked(present: bool, m: string)
    requires 0 <= Rank(m)
    ensures StrictlyRanked(Part(present, m)) && RanksWithin(Part(present, m), Rank(m), Rank(m) + 1)
  {
  }

  /** The four messages are pairwise different strings. */
  lemma MessagesDistinct()
    ensures Rank(NameRequired) == 0 && Rank(ReviewRequired) == 1
    ensures Rank(RatingRequired) == 2 && Rank(RecommendRequired) == 3
  {
  }

  /** Every message of `e` has a rank in [lo, hi). */
  ghost predicate RanksWithin(e: seq<string>, lo: int, hi: int) {
    forall k :: 0 <= k < |e| ==> lo <= Rank(e[k]) < hi
  }

  /** Strictly increasing in the checking order: so also free of repeats. */
  ghost predicate StrictlyRanked(e: seq<string>) {
    forall i, j :: 0 <= i < j < |e| ==> 0 <= Rank(e[i]) < Rank(e[j])
  }

  /** Joining two ranked lists whose ranks are separated at `m` keeps them ranked. */
  lemma RankedConcat(p: seq<string>, q: seq<string>, lo: int, m: int, hi: int)
    requires 0 <= lo <= m <= hi
    requires StrictlyRanked(p) && StrictlyRanked(q)
    requires RanksWithin(p, lo, m) && RanksWithin(q, m, hi)
    ensures StrictlyRanked(p + q) && RanksWithin(p + q, lo, hi)
  {
  }

  /** A submission with no field filled in records all four messages, in order. */
  lemma ErrorsWhenAllMissing()
    ensures ValidationErrors(None, None, None, None) == AllMessages
    ensures ValidationErrors(Some(""), Some(""), Some(0), Some("")) == AllMessages
  {
  }
}
