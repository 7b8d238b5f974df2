/** Customer reviews and the rule the review form applies before storing one. */
module Reviews {
  datatype Review = Review(id: string, customerName: string, rating: int, comment: string, createdAt: string)

  /** What the form says about a submission. */
  datatype ReviewVerdict =
    | Accepted
    | MissingFields     // "Please fill in your name and review comment."
    | CommentTooShort   // "Review comment must be at least 10 characters long."

  const MinCommentLength := 10

  /** The checks of the review form, in the order the form makes them. */
  function CheckReview(name: string, comment: string): (v: ReviewVerdict)
    ensures v == Accepted <==> name != "" && |comment| >= MinCommentLength
    ensures v == MissingFields <==> name == "" || comment == ""
    ensures v == CommentTooShort <==> name != "" && 0 < |comment| < MinCommentLength
  {
    if name == "" || comment == "" then MissingFields
    else if |comment| < MinCommentLength then CommentTooShort
    else Accepted
  }

  /** The reviews after a submission: an accepted review goes to the front, newest first;
      a refused one leaves the list as it was. */
  function Submit(reviews: seq<Review>, review: Review): (r: seq<Review>)
    ensures CheckReview(review.customerName, review.comment) == Accepted ==>
      |r| == |reviews| + 1 && r[0] == review && r[1..] == reviews
    ensures CheckReview(review.customerName, review.comment) != Accepted ==> r == reviews
  {
    if CheckReview(review.customerName, review.comment) == Accepted then [review] + reviews else reviews
  }

  /** Every stored review passed the form's check, when the loaded ones did. */
  predicate AllAcceptable(reviews: seq<Review>) {
    forall i :: 0 <= i < |reviews| ==> CheckReview(reviews[i].customerName, reviews[i].comment) == Accepted
  }

  lemma SubmitKeepsAcceptable(reviews: seq<Review>, review: Review)
    requires AllAcceptable(reviews)
    ensures AllAcceptable(Submit(reviews, review))
  {
    var r := Submit(reviews, review);
    if CheckReview(review.customerName, review.comment) == Accepted {
      forall i | 0 <= i < |r| ensures CheckReview(r[i].customerName, r[i].comment) == Accepted {
        if i > 0 {
          assert r[i] == reviews[i - 1];
        }
      }
    }
  }

  /** A nine-character comment is refused, a ten-character one accepted. */
  lemma CommentLengthBoundary()
    ensures CheckReview("Asha", "Good food") == CommentTooShort
    ensures CheckReview("Asha", "Good food!") == Accepted
  {
  }
}
