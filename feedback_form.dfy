/** The feedback form shown after a try-on: the star rating with its hover preview, the
    rating labels, the submit guard and the payload posted to /api/feedback. */
module FeedbackForm {
  import opened Wrappers

  const RatingRequired: string := "Please select a rating"
  const SubmitFailed: string := "Failed to submit feedback. Please try again."
  const StarCount: nat := 5

  /** The body posted to /api/feedback; an empty comment or name is sent as null. */
  datatype FeedbackPayload = FeedbackPayload(tryonId: string, rating: int, comment: Option<string>, customerName: Option<string>)

  /** `value || null` on a text field. */
  function NullIfEmpty(s: string): (r: Option<string>)
    ensures r.None? <==> s == ""
    ensures r.Some? ==> r.value == s
  {
    if s == "" then None else Some(s)
  }

  /** The rating the stars show: the hovered star when there is one, else the chosen one. */
  function ShownRating(hoveredRating: int, rating: int): int {
    if hoveredRating != 0 then hoveredRating else rating
  }

  /** Star k is drawn active: `star <= (hoveredRating || rating)`. */
  predicate StarActive(star: int, hoveredRating: int, rating: int) {
    star <= ShownRating(hoveredRating, rating)
  }

  /** The active stars are always the first ones: an active star has only active stars
      before it. */
  lemma ActiveStarsArePrefix(hoveredRating: int, rating: int, star: int, earlier: int)
    requires 1 <= earlier <= star <= StarCount
    requires StarActive(star, hoveredRating, rating)
    ensures StarActive(earlier, hoveredRating, rating)
  {
  }

  /** The number of active stars among stars 1..n. */
  function ActiveCount(n: nat, hoveredRating: int, rating: int): (c: nat)
    ensures c <= n
    decreases n
  {
    if n == 0 then 0
    else ActiveCount(n - 1, hoveredRating, rating) + (if StarActive(n, hoveredRating, rating) then 1 else 0)
  }

  /** Exactly min(shown, n) of stars 1..n are active, none when the shown rating is 0. */
  lemma {:induction false} ActiveCountIsShown(n: nat, hoveredRating: int, rating: int)
    ensures var shown := ShownRating(hoveredRating, rating);
      ActiveCount(n, hoveredRating, rating) == if shown <= 0 then 0 else if shown >= n then n else shown
    decreases n
  {
    if n > 0 {
      ActiveCountIsShown(n - 1, hoveredRating, rating);
    }
  }

  /** The label next to the stars; no label for 0 (nothing chosen). */
  function RatingLabel(rating: int): (text: Option<string>)
    ensures text.Some? <==> 1 <= rating <= 5
    ensures rating == 1 ==> text == Some("Poor")
    ensures rating == 2 ==> text == Some("Fair")
    ensures rating == 3 ==> text == Some("Good")
    ensures rating == 4 ==> text == Some("Very Good")
    ensures rating == 5 ==> text == Some("Excellent")
  {
    if rating == 1 then Some("Poor")
    else if rating == 2 then Some("Fair")
    else if rating == 3 then Some("Good")
    else if rating == 4 then Some("Very Good")
    else if rating == 5 then Some("Excellent")
    else None
  }

  /** Different ratings never share a label. */
  lemma LabelsAreDistinct(a: int, b: int)
    requires RatingLabel(a).Some? && RatingLabel(a) == RatingLabel(b)
    ensures a == b
  {
  }

  /** The submit button is disabled while submitting or while no rating is chosen. */
  predicate SubmitDisabled(submitting: bool, rating: int) {
    submitting || rating == 0
  }

  class FeedbackFormState {
    const tryonId: string
    var rating: int
    var hoveredRating: int
    var comment: string
    var customerName: string
    var submitting: bool
    var submitted: bool
    var error: Option<string>

    ghost predicate Valid()
      reads this
    {
      0 <= rating <= StarCount && 0 <= hoveredRating <= StarCount
    }

    constructor (tryonId: string)
      ensures Valid() && this.tryonId == tryonId
      ensures rating == 0 && hoveredRating == 0 && comment == "" && customerName == ""
      ensures !submitting && !submitted && error.None?
    {
      this.tryonId := tryonId;
      rating, hoveredRating := 0, 0;
      comment, customerName := "", "";
      submitting, submitted, error := false, false, None;
    }

    /** Clicking star k chooses rating k. */
    method ClickStar(star: int)
      requires Valid() && 1 <= star <= StarCount
      modifies this`rating
      ensures Valid() && rating == star
    {
      rating := star;
    }

    /** Pointer over star k previews it; leaving a star clears the preview. */
    method HoverStar(star: int)
      requires Valid() && 1 <= star <= StarCount
      modifies this`hoveredRating
      ensures Valid() && hoveredRating == star
    {
      hoveredRating := star;
    }

    method LeaveStar()
      requires Valid()
      modifies this`hoveredRating
      ensures Valid() && hoveredRating == 0
    {
      hoveredRating := 0;
    }

    /** handleSubmit. With no rating only the error changes and nothing is posted.
        Otherwise the payload is posted; success marks the form submitted, failure sets
        the error; either way `submitting` ends false. `postSucceeds` is the outcome of
        the POST; `posted` is the body sent, None when nothing is sent; `closeScheduled`
        is whether the two-second timer that closes the form was started. A submit the
        enabled button can trigger always posts. */
    method HandleSubmit(postSucceeds: bool) returns (posted: Option<FeedbackPayload>, closeScheduled: bool)
      requires Valid()
      modifies this`submitting, this`submitted, this`error
      ensures Valid()
      ensures rating == 0 ==>
        posted.None? && error == Some(RatingRequired) &&
        submitting == old(submitting) && submitted == old(submitted)
      ensures rating != 0 ==>
        && posted == Some(FeedbackPayload(tryonId, rating, NullIfEmpty(comment), NullIfEmpty(customerName)))
        && !submitting
        && (postSucceeds ==> submitted && error.None?)
        && (!postSucceeds ==> submitted == old(submitted) && error == Some(SubmitFailed))
      ensures closeScheduled <==> rating != 0 && postSucceeds
      ensures !SubmitDisabled(old(submitting), rating) ==> posted.Some? && error != Some(RatingRequired)
    {
      if rating == 0 {
        error := Some(RatingRequired);
        return None, false;
      }
      submitting := true;
      error := None;
      posted := Some(FeedbackPayload(tryonId, rating, NullIfEmpty(comment), NullIfEmpty(customerName)));
      closeScheduled := postSucceeds;
      if postSucceeds {
        submitted := true;
      } else {
        error := Some(SubmitFailed);
      }
      submitting := false;
    }
  }
}
