/** The admin review moderation screen: edit a review's text in place, save it
    (then refetch), or delete it after a confirmation. */
module ManageReviews {
  import opened Optional
  import opened Http
  import opened Lists
  import opened Entities
  import CarListing

  /** `reviews.filter(review => review._id !== reviewId)`. */
  function WithoutReview(reviews: seq<Review>, reviewId: string): (r: seq<Review>)
    ensures forall v :: v in r <==> v in reviews && v.id != reviewId
    ensures forall v :: multiset(r)[v] == if v.id == reviewId then 0 else multiset(reviews)[v]
    ensures IsSubsequence(r, reviews)
  {
    Filter(reviews, (v: Review) => v.id != reviewId)
  }

  /** Deleting a review that is not listed leaves the list as it is. */
  lemma {:induction false} WithoutAbsentReview(reviews: seq<Review>, reviewId: string)
    requires forall v :: v in reviews ==> v.id != reviewId
    ensures WithoutReview(reviews, reviewId) == reviews
  {
    FilterKeepsAll(reviews, (v: Review) => v.id != reviewId);
  }

  datatype ReviewUpdate = ReviewUpdate(reviewId: string, reviewText: string)

  class ManageReviewsView {
    var reviews: seq<Review>
    var loading: bool
    var error: Option<string>
    /** The `_id` of the review whose row shows the text input, if any. */
    var editingReview: Option<string>
    var editedText: string

    constructor ()
      ensures reviews == [] && loading && error == None && editingReview == None && editedText == ""
    {
      reviews := [];
      loading := true;
      error := None;
      editingReview := None;
      editedText := "";
    }

    /** `fetchAllReviews`: on success the `reviews` array, or `[]` when absent;
        on failure the list is kept and the error set. Loading always ends. */
    method FetchAllReviews(response: Outcome<ReviewsReply>)
      modifies this
      ensures reviews == if response.Ok? then CarListing.ReviewsFrom(response) else old(reviews)
      ensures error == if response.Ok? then old(error) else Some("Failed to fetch reviews.")
      ensures !loading
      ensures editingReview == old(editingReview) && editedText == old(editedText)
    {
      if response.Ok? {
        reviews := CarListing.ReviewsFrom(response);
      } else {
        error := Some("Failed to fetch reviews.");
      }
      loading := false;
    }

    /** `handleEdit`: the row switches to an input holding the current text. */
    method HandleEdit(review: Review)
      modifies this
      ensures editingReview == Some(review.id) && editedText == review.reviewText
      ensures reviews == old(reviews) && loading == old(loading) && error == old(error)
    {
      editingReview := Some(review.id);
      editedText := review.reviewText;
    }

    method SetEditedText(value: string)
      modifies this
      ensures editedText == value
      ensures reviews == old(reviews) && loading == old(loading) && error == old(error)
      ensures editingReview == old(editingReview)
    {
      editedText := value;
    }

    /** `handleUpdate`: on success edit mode ends and the list is fetched again
        (`refetch` is that request's answer); on failure edit mode and its text stay. */
    method HandleUpdate(reviewId: string, response: Outcome<()>, refetch: Outcome<ReviewsReply>)
      returns (sent: ReviewUpdate)
      modifies this
      ensures sent == ReviewUpdate(reviewId, old(editedText))
      ensures editedText == old(editedText)
      ensures response.Ok? ==>
                && editingReview == None && !loading
                && reviews == (if refetch.Ok? then CarListing.ReviewsFrom(refetch) else old(reviews))
                && error == (if refetch.Ok? then old(error) else Some("Failed to fetch reviews."))
      ensures response.Failed? ==>
                editingReview == old(editingReview) && reviews == old(reviews)
                && loading == old(loading) && error == old(error)
    {
      sent := ReviewUpdate(reviewId, editedText);
      if response.Ok? {
        editingReview := None;
        FetchAllReviews(refetch);
      }
    }

    /** `handleDelete`: declining the confirmation issues no request. */
    method HandleDelete(reviewId: string, confirmed: bool, response: Outcome<()>) returns (requested: bool)
      modifies this
      ensures requested == confirmed
      ensures reviews == if confirmed && response.Ok? then WithoutReview(old(reviews), reviewId) else old(reviews)
      ensures loading == old(loading) && error == old(error)
      ensures editingReview == old(editingReview) && editedText == old(editedText)
    {
      requested := confirmed;
      if confirmed && response.Ok? {
        reviews := WithoutReview(reviews, reviewId);
      }
    }
  }
}
