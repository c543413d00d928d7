/**
  `frontend/src/app/pre/components/Answer.tsx`: rating the current completion and
  sending the evaluation. `handleAddEvaluation` is split at its `await` into
  `BeginEvaluation` and `SettleEvaluation`; the message timer armed on success is the
  separate transition `TimerFires`.
 */
module Answer {
  import opened Json
  import opened Slider
  import opened Session

  const SUCCESS_MESSAGE: string := "Added Successfully"
  const MESSAGE_TIMEOUT: nat := 5000
  /** `" "`, the no-break space shown when there is no message. */
  const BLANK: string := "\U{00A0}"

  /** The rating slider: `min 0.0`, `max 3.0`, `step 0.5`. */
  const RATING_MIN: real := 0.0
  const RATING_MAX: real := 3.0
  const RATING_STEP: real := 0.5

  /** The Add Evaluation button's `disabled` expression; the loading flag is not part of it. */
  predicate AddDisabled(qaId: Json, comment: string) {
    NullOrEmpty(qaId) || comment == ""
  }

  /**
    The request record of `handleAddEvaluation`, in the order of the object literal;
    the finish reason and the content are not sent.
   */
  function EvaluationRequest(c: Completion, promptClass: string, temperature: real,
                             rating: real, comment: string): (fields: seq<(string, Json)>)
    ensures |fields| == 8 && DistinctKeys(fields)
  {
    [("qa_id", c.qaId), ("lines", c.lines), ("prompt_class", Str(promptClass)),
     ("temperature", Num(temperature)), ("completion_tokens", c.completionTokens),
     ("prompt_tokens", c.promptTokens), ("rating", Num(rating)), ("comment", Str(comment))]
  }

  class AnswerPanel {
    const page: Page
    var rating: real
    var error: Json
    var loading: bool
    var success: bool
    var comment: string
    var resultMessage: string
    ghost var evaluationsInFlight: nat
    ghost var pendingTimers: nat

    /**
      The rating is a value the slider can show; the message is blank or the success
      message, and the success message only while a timer to clear it is pending;
      loading only while an evaluation is in flight.
     */
    ghost predicate Valid()
      reads this, page
    {
      page.Valid()
      && OnGrid(rating, RATING_MIN, RATING_MAX, RATING_STEP)
      && (resultMessage == BLANK || resultMessage == SUCCESS_MESSAGE)
      && (pendingTimers == 0 ==> resultMessage == BLANK)
      && (evaluationsInFlight == 0 ==> !loading)
    }

    predicate AddEnabled()
      reads this, page
    {
      !AddDisabled(page.qaId, comment)
    }

    constructor (page: Page)
      requires page.Valid()
      ensures Valid() && this.page == page
      ensures rating == 0.0 && error == Str("") && !loading && !success && comment == ""
      ensures resultMessage == BLANK
      ensures evaluationsInFlight == 0 && pendingTimers == 0
    {
      this.page := page;
      rating := 0.0;
      error := Str("");
      loading := false;
      success := false;
      comment := "";
      resultMessage := BLANK;
      evaluationsInFlight := 0;
      pendingTimers := 0;
    }

    /**
      `handleAddEvaluation` up to the `await`: loading on, error cleared, and the
      request built from the completion slots, the session's class and temperature,
      and the rating and comment. Only an enabled button starts it; a second one may
      start while the first is loading.
     */
    method BeginEvaluation() returns (request: seq<(string, Json)>)
      requires Valid() && AddEnabled()
      modifies this`loading, this`error, this`evaluationsInFlight
      ensures Valid() && loading && error == Str("")
      ensures evaluationsInFlight == old(evaluationsInFlight) + 1
      ensures request == EvaluationRequest(page.CurrentCompletion(), page.promptClass, page.temperature,
                                           rating, comment)
    {
      loading := true;
      error := Str("");
      evaluationsInFlight := evaluationsInFlight + 1;
      request := EvaluationRequest(page.CurrentCompletion(), page.promptClass, page.temperature,
                                   rating, comment);
    }

    /**
      The rest of `handleAddEvaluation`. A body with `result` clears the error, the
      completion slots, the prompt, the class and the comment, shows the success
      message and arms its timer; rating and temperature stay. Any other body shows its
      `detail`; a thrown `Error` with a non-empty message shows it; neither resets a
      slot. Loading is off afterwards on every path.
     */
    method SettleEvaluation(outcome: Outcome)
      requires Valid() && evaluationsInFlight > 0
      modifies this`loading, this`error, this`success, this`comment, this`resultMessage
      modifies this`evaluationsInFlight, this`pendingTimers
      modifies page`qaId, page`lines, page`finishReason, page`promptTokens, page`completionTokens
      modifies page`content, page`userContent, page`promptClass
      ensures Valid() && !loading && evaluationsInFlight == old(evaluationsInFlight) - 1
      ensures rating == old(rating) && page.temperature == old(page.temperature)
      ensures outcome.Delivered? && "result" in outcome.payload ==>
        page.CurrentCompletion() == CLEARED && page.userContent == Str("") && page.promptClass == ""
        && comment == "" && error == Str("") && success
        && resultMessage == SUCCESS_MESSAGE && pendingTimers == old(pendingTimers) + 1
        && !AddEnabled()
      ensures !(outcome.Delivered? && "result" in outcome.payload) ==>
        page.CurrentCompletion() == old(page.CurrentCompletion()) && page.userContent == old(page.userContent)
        && page.promptClass == old(page.promptClass) && comment == old(comment)
        && resultMessage == old(resultMessage) && pendingTimers == old(pendingTimers)
      ensures outcome.Delivered? && "result" !in outcome.payload ==>
        error == Get(outcome.payload, "detail") && !success
      ensures outcome.Thrown? && outcome.message != "" ==> error == Str(outcome.message) && !success
      ensures outcome.Thrown? && outcome.message == "" ==> error == old(error) && success == old(success)
    {
      match outcome {
        case Delivered(payload) =>
          if "result" in payload {
            Succeeded();
          } else {
            error := Get(payload, "detail");
            loading := false;
            success := false;
          }
        case Thrown(message) =>
          if message != "" {
            error := Str(message);
            loading := false;
            success := false;
          }
      }
      loading := false;
      evaluationsInFlight := evaluationsInFlight - 1;
    }

    /**
      The success branch of `handleAddEvaluation`: every slot the evaluation was about
      is reset, the success message shown and its timer armed.
     */
    method Succeeded()
      requires Valid()
      modifies this`loading, this`error, this`success, this`comment, this`resultMessage, this`pendingTimers
      modifies page`qaId, page`lines, page`finishReason, page`promptTokens, page`completionTokens
      modifies page`content, page`userContent, page`promptClass
      ensures Valid() && !loading && rating == old(rating) && page.temperature == old(page.temperature)
      ensures page.CurrentCompletion() == CLEARED && page.userContent == Str("") && page.promptClass == ""
      ensures comment == "" && error == Str("") && success
      ensures resultMessage == SUCCESS_MESSAGE && pendingTimers == old(pendingTimers) + 1
      ensures !AddEnabled()
    {
      error := Str("");
      loading := false;
      success := true;
      page.SetUserContent("");
      page.promptClass := "";
      page.SetCompletion(CLEARED);
      resultMessage := SUCCESS_MESSAGE;
      pendingTimers := pendingTimers + 1;
      comment := "";
    }

    /** A success timer fires after `MESSAGE_TIMEOUT` ms: the message goes blank. */
    method TimerFires()
      requires Valid() && pendingTimers > 0
      modifies this`resultMessage, this`pendingTimers
      ensures Valid() && resultMessage == BLANK && pendingTimers == old(pendingTimers) - 1
    {
      resultMessage := BLANK;
      pendingTimers := pendingTimers - 1;
    }

    /** The rating slider moved to `change`: a single value is snapped and stored, an array ignored. */
    method ChangeRating(change: Change)
      requires Valid()
      modifies this`rating
      ensures Valid()
      ensures change.Range? ==> rating == old(rating)
      ensures change.Single? ==> rating == Snap(change.value, RATING_MIN, RATING_MAX, RATING_STEP)
    {
      assert (RATING_MAX - RATING_MIN) / RATING_STEP == 6.0;
      var delivered := Deliver(change, RATING_MIN, RATING_MAX, RATING_STEP);
      if delivered.Single? {
        rating := delivered.value;
      }
    }

    /** `handleComment` */
    method ChangeComment(value: string)
      requires Valid()
      modifies this`comment
      ensures Valid() && comment == value
    {
      comment := value;
    }
  }

  /**
    The Add Evaluation button is enabled exactly when there is a completion id and a
    comment, whether or not an evaluation is loading: a second one can be sent while
    the first is in flight.
   */
  lemma AddGuard(panel: AnswerPanel)
    ensures panel.AddEnabled() <==>
              panel.page.qaId != Null && panel.page.qaId != Str("") && panel.comment != ""
    ensures panel.loading && panel.page.qaId.Str? && panel.page.qaId != Str("") && panel.comment != "" ==>
              panel.AddEnabled()
  {
  }

  /** Whatever the panel's history, the rating is one of the seven values the slider admits. */
  lemma RatingBounded(panel: AnswerPanel)
    requires panel.Valid()
    ensures panel.rating in {0.0, 0.5, 1.0, 1.5, 2.0, 2.5, 3.0}
  {
    RatingValues(panel.rating);
  }
}
