/** The product review form of src/components/dashboard/user/ReviewForm.tsx:
    a star rating, a comment, and a submit handler that refuses a blank
    comment, sends the trimmed comment, and resets only on success. */
module ReviewForm {
  import opened Wrappers
  import opened Backend
  import opened Text

  const InitialRating := 5
  const BlankCommentAlert := "Please write a review comment"

  /** What `onSubmit` receives. */
  datatype ReviewInput = ReviewInput(rating: int, comment: string)

  /** The caption under the stars. */
  function RatingLabel(rating: int): string {
    if rating == 5 then "Excellent"
    else if rating == 4 then "Good"
    else if rating == 3 then "Average"
    else if rating == 2 then "Poor"
    else "Very Poor"
  }

  /** Five ratings have their own caption; every other value, 1 included,
      reads "Very Poor". */
  lemma RatingLabelMap(rating: int)
    ensures RatingLabel(5) == "Excellent" && RatingLabel(4) == "Good" && RatingLabel(3) == "Average"
    ensures RatingLabel(2) == "Poor"
    ensures RatingLabel(rating) == "Very Poor" <==> rating !in {2, 3, 4, 5}
  {
  }

  /** Star `star` is drawn filled when `star <= rating`. */
  predicate StarFilled(star: int, rating: int) {
    star <= rating
  }

  /** The number of filled stars among the five buttons. */
  function FilledStars(rating: int): (n: nat)
    ensures n <= 5
  {
    (if StarFilled(1, rating) then 1 else 0) + (if StarFilled(2, rating) then 1 else 0) +
    (if StarFilled(3, rating) then 1 else 0) + (if StarFilled(4, rating) then 1 else 0) +
    (if StarFilled(5, rating) then 1 else 0)
  }

  /** After clicking star `k` the rating is `k`, and exactly `k` stars are filled. */
  lemma ClickedStarsFilled(k: int)
    requires 1 <= k <= 5
    ensures FilledStars(k) == k
  {
  }

  /** The form's component state, with the alerts it raised. */
  class ReviewFormState {
    var rating: int
    var comment: string
    var loading: bool
    var alerts: seq<string>

    constructor ()
      ensures rating == InitialRating && comment == "" && !loading && alerts == []
    {
      rating, comment, loading, alerts := InitialRating, "", false, [];
    }

    /** Clicking a star. */
    method SetRating(star: int)
      modifies this
      ensures rating == star && comment == old(comment) && loading == old(loading) && alerts == old(alerts)
    {
      rating := star;
    }

    /** Typing in the comment box. */
    method SetComment(value: string)
      modifies this
      ensures comment == value && rating == old(rating) && loading == old(loading) && alerts == old(alerts)
    {
      comment := value;
    }

    /** `handleSubmit`. A blank comment raises an alert and nothing else
        happens. Otherwise the rating and the trimmed comment are submitted;
        on success the form resets to an empty comment and five stars, on
        failure it keeps what was typed. */
    method HandleSubmit(reply: Reply<()>) returns (submitted: Option<ReviewInput>)
      modifies this
      ensures AllWhitespace(old(comment)) ==>
                submitted.None? && alerts == old(alerts) + [BlankCommentAlert] &&
                rating == old(rating) && comment == old(comment) && loading == old(loading)
      ensures !AllWhitespace(old(comment)) ==>
                submitted == Some(ReviewInput(old(rating), Trim(old(comment)))) &&
                alerts == old(alerts) && !loading
      ensures !AllWhitespace(old(comment)) && reply.Ok? ==> comment == "" && rating == InitialRating
      ensures reply.Err? ==> comment == old(comment) && rating == old(rating)
      ensures submitted.Some? ==>
                submitted.value.comment != "" &&
                !IsWhitespace(submitted.value.comment[0]) &&
                !IsWhitespace(submitted.value.comment[|submitted.value.comment| - 1])
    {
      TrimEmptyIffBlank(comment);
      var trimmed := Trim(comment);
      if trimmed == "" {
        alerts := alerts + [BlankCommentAlert];
        submitted := None;
        return;
      }
      loading := true;
      submitted := Some(ReviewInput(rating, trimmed));
      if reply.Ok? {
        comment := "";
        rating := InitialRating;
      }
      loading := false;
    }
  }
}
