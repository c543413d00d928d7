/**
  `frontend/src/app/pre/components/Question.tsx`: asking for a completion and fetching
  the model list. Each async handler is two transitions: `Begin…` (the writes before
  the `await`) and `Settle…` (the branch taken on the settled outcome, then `finally`).
  The ghost counters record how many requests of each kind are in flight.
 */
module Question {
  import opened Json
  import opened Slider
  import opened Session

  const INVALID_RESPONSE: string := "Invalid response data"

  /** The Ask Question button's `disabled` expression. */
  predicate AskDisabled(userContent: Json, promptClass: string, selectedModel: Json, loading: bool) {
    NullOrEmpty(userContent) || promptClass == "" || NullOrEmpty(selectedModel) || loading
  }

  /**
    The request record of `handleAskQuestion`, property by property in the order of the
    object literal; `system_content` is `NEXT_PUBLIC_SYSTEM_CONTENT`, undefined when unset.
   */
  function ChatRequest(systemContent: Option<string>, userContent: Json, temperature: real,
                       promptClass: string, userId: string, selectedModel: Json): (fields: seq<(string, Json)>)
    ensures |fields| == 6 && DistinctKeys(fields)
  {
    [("system_content", FromEnv(systemContent)), ("user_content", userContent),
     ("temperature", Num(temperature)), ("prompt_class", Str(promptClass)),
     ("user_id", Str(userId)), ("selected_model", selectedModel)]
  }

  /** The completion slots as the success branch fills them from the response body. */
  function CompletionFrom(payload: map<string, Json>): (c: Completion)
    ensures Decoded(payload) && "qa_id" in payload ==> c.qaId == payload["qa_id"]
  {
    Completion(Get(payload, "qa_id"), Get(payload, "lines"), Get(payload, "finish_reason"),
               Get(payload, "prompt_tokens"), Get(payload, "completion_tokens"), Get(payload, "content"))
  }

  /** The `catch` block: an `Error` with a non-empty message replaces the shown error; an empty one leaves it. */
  function Caught(current: Json, message: string): Json
  {
    if message != "" then Str(message) else current
  }

  /** `response.data.models[0].name`: the selected model, or the TypeError the read throws. */
  function FirstModelName(models: Json): Access {
    ThenProperty(First(models), "name")
  }

  /** An empty model list has no first entry: reading its name throws. */
  lemma EmptyListThrows()
    ensures FirstModelName(Arr([])) == TypeError(ReadErrorMessage(Undefined, "name"))
  {
  }

  /**
    Reading the selected model from a list throws exactly when the list is empty or
    its first entry is null or undefined; a missing list throws on the index itself.
   */
  lemma ModelNameThrows(models: Json)
    ensures models.Arr? ==> (FirstModelName(models).TypeError? <==>
              |models.items| == 0 || models.items[0] == Null || models.items[0] == Undefined)
    ensures models == Null || models == Undefined ==>
              FirstModelName(models) == TypeError(ReadErrorMessage(models, "0"))
  {
  }

  /** A non-empty list of objects selects the first entry's `name`, undefined when it has none. */
  lemma FirstModelSelected(entries: seq<map<string, Json>>, rest: seq<Json>)
    requires |entries| > 0
    ensures FirstModelName(Arr([Obj(entries[0])] + rest)) == Value(Get(entries[0], "name"))
  {
  }

  class QuestionPanel {
    const page: Page
    var askError: Json
    var askLoading: bool
    var listError: Json
    var listLoading: bool
    var models: Json
    ghost var asksInFlight: nat
    ghost var listsInFlight: nat

    /**
      At most one ask is in flight, exactly while the ask is loading, and its error is
      clear until it settles; the model list is loading only while one is in flight.
     */
    ghost predicate Valid()
      reads this, page
    {
      page.Valid()
      && asksInFlight <= 1 && (askLoading <==> asksInFlight == 1)
      && (asksInFlight == 1 ==> askError == Str(""))
      && (listsInFlight == 0 ==> !listLoading)
    }

    predicate AskEnabled()
      reads this, page
    {
      !AskDisabled(page.userContent, page.promptClass, page.selectedModel, askLoading)
    }

    constructor (page: Page)
      requires page.Valid()
      ensures Valid() && this.page == page
      ensures askError == Str("") && !askLoading && listError == Str("") && !listLoading
      ensures models == Arr([])
      ensures asksInFlight == 0 && listsInFlight == 0
    {
      this.page := page;
      askError := Str("");
      askLoading := false;
      listError := Str("");
      listLoading := false;
      models := Arr([]);
      asksInFlight := 0;
      listsInFlight := 0;
    }

    /**
      `handleAskQuestion` up to the `await`: loading on, error cleared, and the request
      built from the current slots. Only an enabled button starts it.
     */
    method BeginAsk(systemContent: Option<string>) returns (request: seq<(string, Json)>)
      requires Valid() && AskEnabled()
      modifies this`askLoading, this`askError, this`asksInFlight
      ensures Valid() && askLoading && askError == Str("") && asksInFlight == 1
      ensures request == ChatRequest(systemContent, page.userContent, page.temperature,
                                     page.promptClass, page.userId, page.selectedModel)
    {
      askLoading := true;
      askError := Str("");
      asksInFlight := 1;
      request := ChatRequest(systemContent, page.userContent, page.temperature,
                             page.promptClass, page.userId, page.selectedModel);
    }

    /**
      The rest of `handleAskQuestion`: a body with `qa_id` fills the six completion
      slots, any other body shows its `detail`, a thrown `Error` shows a non-empty
      message; loading is off afterwards on every path. Prompt, class, temperature,
      model and user id are never written, whatever the body carries.
     */
    method SettleAsk(outcome: Outcome)
      requires Valid() && asksInFlight == 1
      modifies this`askLoading, this`askError, this`asksInFlight
      modifies page`qaId, page`lines, page`finishReason, page`promptTokens, page`completionTokens, page`content
      ensures Valid() && !askLoading && asksInFlight == 0
      ensures outcome.Delivered? && "qa_id" in outcome.payload ==>
        page.CurrentCompletion() == CompletionFrom(outcome.payload) && askError == Str("")
      ensures outcome.Delivered? && "qa_id" !in outcome.payload ==>
        page.CurrentCompletion() == old(page.CurrentCompletion()) && askError == Get(outcome.payload, "detail")
      ensures outcome.Thrown? ==>
        page.CurrentCompletion() == old(page.CurrentCompletion()) && askError == Caught(Str(""), outcome.message)
    {
      match outcome {
        case Delivered(payload) =>
          if "qa_id" in payload {
            page.SetCompletion(CompletionFrom(payload));
          } else {
            askError := Get(payload, "detail");
          }
        case Thrown(message) =>
          if message != "" {
            askError := Str(message);
          }
      }
      askLoading := false;
      asksInFlight := 0;
    }

    /** `handleGetModelList` up to the `await`. The button has no guard, so lists may overlap. */
    method BeginModelList()
      requires Valid()
      modifies this`listLoading, this`listError, this`listsInFlight
      ensures Valid() && listLoading && listError == Str("")
      ensures listsInFlight == old(listsInFlight) + 1
    {
      listLoading := true;
      listError := Str("");
      listsInFlight := listsInFlight + 1;
    }

    /**
      The rest of `handleGetModelList`: a body with `models` replaces the list and then
      selects the first entry's name, the read throwing (into the `catch`) when there is
      no first entry; any other body shows "Invalid response data"; a thrown `Error`
      shows a non-empty message. Loading is off afterwards on every path.
     */
    method SettleModelList(outcome: Outcome)
      requires Valid() && listsInFlight > 0
      modifies this`listLoading, this`listError, this`listsInFlight, this`models, page`selectedModel
      ensures Valid() && !listLoading && listsInFlight == old(listsInFlight) - 1
      ensures outcome.Delivered? && "models" in outcome.payload ==>
        models == outcome.payload["models"]
        && match FirstModelName(models)
           case Value(name) => page.selectedModel == name && listError == old(listError)
           case TypeError(message) => page.selectedModel == old(page.selectedModel) && listError == Str(message)
      ensures outcome.Delivered? && "models" !in outcome.payload ==>
        models == old(models) && page.selectedModel == old(page.selectedModel)
        && listError == Str(INVALID_RESPONSE)
      ensures outcome.Thrown? ==>
        models == old(models) && page.selectedModel == old(page.selectedModel)
        && listError == Caught(old(listError), outcome.message)
    {
      match outcome {
        case Delivered(payload) =>
          if "models" in payload {
            models := payload["models"];
            match FirstModelName(models) {
              case Value(name) =>
                page.selectedModel := name;
              case TypeError(message) =>
                listError := Str(message);
            }
          } else {
            listError := Str(INVALID_RESPONSE);
          }
        case Thrown(message) =>
          if message != "" {
            listError := Str(message);
          }
      }
      listLoading := false;
      listsInFlight := listsInFlight - 1;
    }

    /** `handleModelChange`: any value is taken, whether or not the list holds it. */
    method ChangeModel(value: string)
      requires Valid()
      modifies page`selectedModel
      ensures Valid() && page.selectedModel == Str(value)
    {
      page.selectedModel := Str(value);
    }

    /** `inputPromptClassHandler` */
    method ChangePromptClass(value: string)
      requires Valid()
      modifies page`promptClass
      ensures Valid() && page.promptClass == value
    {
      page.promptClass := value;
    }

    /** `handleEditorChange`: an undefined editor value is stored as the empty string. */
    method ChangeEditor(value: Option<string>)
      requires Valid()
      modifies page`userContent
      ensures Valid() && page.userContent == Str(value.GetOr(""))
    {
      page.SetUserContent(value.GetOr(""));
    }

    /**
      The temperature slider moved to `change`: the slider snaps a single value to its
      grid and `handleTemperatureChange` stores it; an array is ignored.
     */
    method ChangeTemperature(change: Change)
      requires Valid()
      modifies page`temperature
      ensures Valid()
      ensures change.Range? ==> page.temperature == old(page.temperature)
      ensures change.Single? ==>
        page.temperature == Snap(change.value, TEMPERATURE_MIN, TEMPERATURE_MAX, TEMPERATURE_STEP)
    {
      assert (TEMPERATURE_MAX - TEMPERATURE_MIN) / TEMPERATURE_STEP == 10.0;
      var delivered := Deliver(change, TEMPERATURE_MIN, TEMPERATURE_MAX, TEMPERATURE_STEP);
      if delivered.Single? {
        page.SetTemperature(delivered.value);
      }
    }
  }

  /** While an ask is in flight the button is disabled: a second ask cannot start. */
  lemma NoSecondAsk(panel: QuestionPanel)
    requires panel.Valid() && panel.asksInFlight == 1
    ensures !panel.AskEnabled()
  {
  }
}
