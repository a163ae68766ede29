/** opinion-hub-frontend/components/FeedbackSystem.tsx: the feedback dialog. The
    user picks a feedback type, a star rating of one to five and writes a
    message. Submitting it waits, records it, and closes the dialog a little
    later with the form reset. */
module Feedback {
  import opened Base

  datatype FeedbackType = General | Bug | Feature | Improvement

  /** `type Rating = 1 | 2 | 3 | 4 | 5` (line 30). */
  type Rating = r: int | 1 <= r <= 5 witness 1

  /** The form can be sent when the message is not blank and a rating was
      chosen (line 79). */
  predicate IsFormValid(message: string, rating: Option<Rating>) {
    |Trim(message)| > 0 && rating.Some?
  }

  /** A whitespace-only message never makes the form valid, whatever the
      rating. */
  lemma FormValidIff(message: string, rating: Option<Rating>)
    ensures IsFormValid(message, rating) <==> !IsBlank(message) && rating.Some?
    ensures (forall i :: 0 <= i < |message| ==> IsWhitespace(message[i])) ==> !IsFormValid(message, rating)
  {
    BlankIffAllWhitespace(message);
  }

  // ---------------------------------------------------------------------
  // The stars (lines 172-186) and the rating's label (lines 198-201)

  const Stars: seq<int> := [1, 2, 3, 4, 5]

  /** `rating && star <= rating`: a rating is never 0, so only a missing
      rating is falsy. */
  predicate StarFilled(star: int, rating: Option<Rating>) {
    rating.Some? && star <= rating.value
  }

  function FilledStars(rating: Option<Rating>): (n: nat)
    ensures n <= |Stars|
  {
    CountWhere(Stars, s => StarFilled(s, rating))
  }

  /** The filled stars are the first `rating` ones, so their number is the
      rating, and none are filled without one. */
  lemma FilledStarsShowRating(rating: Option<Rating>)
    ensures FilledStars(rating) == (if rating.Some? then rating.value else 0)
    ensures forall i :: 0 <= i < |Stars| ==> (StarFilled(Stars[i], rating) <==> rating.Some? && i < rating.value)
  {
    var p := s => StarFilled(s, rating);
    assert Stars[1..] == [2, 3, 4, 5];
    assert Stars[1..][1..] == [3, 4, 5];
    assert Stars[1..][1..][1..] == [4, 5];
    assert Stars[1..][1..][1..][1..] == [5];
    assert CountWhere([5], p) == (if p(5) then 1 else 0) + CountWhere([5][1..], p);
  }

  /** The word shown under the stars. */
  function RatingLabel(r: Rating): (word: string)
    ensures r == 5 ==> word == "Excellent!"
    ensures r == 4 ==> word == "Good!"
    ensures r == 3 ==> word == "Okay"
    ensures r == 2 ==> word == "Could be better"
    ensures r == 1 ==> word == "Needs improvement"
    ensures word[|word| - 1] == '!' <==> r >= 4
  {
    if r == 5 then "Excellent!"
    else if r == 4 then "Good!"
    else if r == 3 then "Okay"
    else if r == 2 then "Could be better"
    else "Needs improvement"
  }

  /** Different ratings get different words, so the label identifies the
      rating. */
  lemma RatingLabelInjective(a: Rating, b: Rating)
    ensures RatingLabel(a) == RatingLabel(b) ==> a == b
  {
  }

  /** The record logged on submission; the survey id and topic come from the
      dialog's caller and the time stamp from the clock. */
  datatype Submission = Submission(
    feedbackType: FeedbackType,
    rating: Option<Rating>,
    message: string,
    email: string)

  class FeedbackForm {
    var feedbackType: FeedbackType
    var rating: Option<Rating>
    var message: string
    var email: string
    var isSubmitting: bool
    var isSubmitted: bool

    /** The initial state (lines 34-39). */
    constructor ()
      ensures feedbackType == General && rating == None && message == "" && email == ""
      ensures !isSubmitting && !isSubmitted
    {
      feedbackType := General;
      rating := None;
      message := "";
      email := "";
      isSubmitting := false;
      isSubmitted := false;
    }

    /** The submit button is enabled on a valid form with nothing in flight
        (line 245). */
    predicate SubmitEnabled()
      reads this
    {
      IsFormValid(message, rating) && !isSubmitting
    }

    /** The type buttons and the two text inputs. */
    method SetInputs(feedbackType': FeedbackType, message': string, email': string)
      modifies this`feedbackType, this`message, this`email
      ensures feedbackType == feedbackType' && message == message' && email == email'
    {
      feedbackType, message, email := feedbackType', message', email';
    }

    /** A click on a star (line 178): the rating becomes that star. */
    method SetRating(star: Rating)
      modifies this`rating
      ensures rating == Some(star)
    {
      rating := Some(star);
    }

    /** `handleSubmit` up to its simulated wait: the flag goes up. The
        handler does not check the form itself; the disabled button does. */
    method BeginSubmit()
      modifies this`isSubmitting
      ensures isSubmitting
    {
      isSubmitting := true;
    }

    /** After the wait: the entry is recorded exactly as typed and the
        dialog switches to its thank-you view. */
    method FinishSubmit() returns (logged: Submission)
      modifies this`isSubmitting, this`isSubmitted
      ensures logged == Submission(feedbackType, rating, message, email)
      ensures !isSubmitting && isSubmitted
    {
      logged := Submission(feedbackType, rating, message, email);
      isSubmitting := false;
      isSubmitted := true;
    }

    /** The timer set after a submission: the dialog closes and every input
        returns to its initial value. */
    method TimedReset() returns (closed: bool)
      modifies this`feedbackType, this`rating, this`message, this`email, this`isSubmitted
      ensures closed
      ensures feedbackType == General && rating == None && message == "" && email == "" && !isSubmitted
      ensures !SubmitEnabled()
    {
      closed := true;
      isSubmitted := false;
      message := "";
      email := "";
      rating := None;
      feedbackType := General;
    }
  }
}
