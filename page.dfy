/**
  `frontend/src/app/pre/page.tsx`: the session slots the page holds with `useState`
  and hands to its children, and the drawer handlers. Slots the children fill from a
  response body hold whatever JSON value the body carried, as JavaScript does not
  check the declared types.
 */
module Session {
  import opened Json
  import opened Slider

  const PRE_DEFAULT_TEMPERATURE: real := 0.8

  /** The temperature slider: `min 0.0`, `max 1.0`, `step 0.1`. */
  const TEMPERATURE_MIN: real := 0.0
  const TEMPERATURE_MAX: real := 1.0
  const TEMPERATURE_STEP: real := 0.1

  /** What an awaited request settles with: the response body, or the `Error` thrown with its message. */
  datatype Outcome = Delivered(payload: map<string, Json>) | Thrown(message: string)

  /** The slots describing the current completion, written by both Question and Answer. */
  datatype Completion = Completion(
    qaId: Json, lines: Json, finishReason: Json, promptTokens: Json, completionTokens: Json, content: Json)

  /** The completion slots as the page initialises them and Answer resets them. */
  const CLEARED: Completion := Completion(Str(""), Num(0.0), Str(""), Num(0.0), Num(0.0), Str(""))

  class Page {
    var isDrawerOpen: bool
    var userContent: Json
    var temperature: real
    var promptClass: string
    var selectedModel: Json
    var qaId: Json
    var lines: Json
    var finishReason: Json
    var promptTokens: Json
    var completionTokens: Json
    var content: Json
    var userId: string

    /** The prompt is null or a string, and the temperature is a value the slider can show. */
    ghost predicate Valid()
      reads this
    {
      (userContent == Null || userContent.Str?)
      && OnGrid(temperature, TEMPERATURE_MIN, TEMPERATURE_MAX, TEMPERATURE_STEP)
    }

    function CurrentCompletion(): Completion
      reads this
    {
      Completion(qaId, lines, finishReason, promptTokens, completionTokens, content)
    }

    /** The initial values of the slots. */
    constructor ()
      ensures Valid()
      ensures !isDrawerOpen && userContent == Null && temperature == PRE_DEFAULT_TEMPERATURE
      ensures promptClass == "" && selectedModel == Str("") && userId == ""
      ensures CurrentCompletion() == CLEARED
    {
      isDrawerOpen := false;
      userContent := Null;
      temperature := PRE_DEFAULT_TEMPERATURE;
      promptClass := "";
      selectedModel := Str("");
      qaId := Str("");
      lines := Num(0.0);
      finishReason := Str("");
      promptTokens := Num(0.0);
      completionTokens := Num(0.0);
      content := Str("");
      userId := "";
      assert (PRE_DEFAULT_TEMPERATURE - TEMPERATURE_MIN) / TEMPERATURE_STEP == 8.0;
    }

    /** `handleDrawerOpen`; opening an open drawer changes nothing. */
    method DrawerOpen()
      modifies this`isDrawerOpen
      ensures isDrawerOpen
    {
      isDrawerOpen := true;
    }

    /** `handleDrawerClose`; closing a closed drawer changes nothing. */
    method DrawerClose()
      modifies this`isDrawerOpen
      ensures !isDrawerOpen
    {
      isDrawerOpen := false;
    }

    /** The six completion setters called one after another. */
    method SetCompletion(c: Completion)
      requires Valid()
      modifies this`qaId, this`lines, this`finishReason, this`promptTokens, this`completionTokens, this`content
      ensures Valid() && CurrentCompletion() == c
    {
      qaId := c.qaId;
      lines := c.lines;
      finishReason := c.finishReason;
      promptTokens := c.promptTokens;
      completionTokens := c.completionTokens;
      content := c.content;
    }

    /** `setUserContent` with a string. */
    method SetUserContent(text: string)
      requires Valid()
      modifies this`userContent
      ensures Valid() && userContent == Str(text)
    {
      userContent := Str(text);
    }

    /** `setTemperature` as the temperature slider's handler calls it, with a value the slider snapped. */
    method SetTemperature(v: real)
      requires Valid() && OnGrid(v, TEMPERATURE_MIN, TEMPERATURE_MAX, TEMPERATURE_STEP)
      modifies this`temperature
      ensures Valid() && temperature == v
    {
      temperature := v;
    }
  }
}
