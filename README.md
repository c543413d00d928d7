# Prompt Engineering Tool (qae): a Dafny model

The Prompt Engineering Tool is a small web application for trying out prompts against a
language model and rating the answers. A Next.js page holds the session (the prompt, a
prompt class, the temperature, the selected model, the user id and the last
completion). It is shared by four panels:

- the navigation bar derives the user id from the client address;
- the side bar loads a prompt from a dropped text file;
- the Question panel fetches the model list and asks for a completion;
- the Answer panel sends a rating and a comment for the completion.

A Flask backend decodes the requests. Its `chat_completion` finds the configured model
in a TOML definition file, checks its settings, asks the model (or reads mock data),
shapes the response and writes a QA log.

This project models those parts:

- **Session state and panels.** The page state is the class `Session.Page`. Each panel
  that keeps its own state is a class over that page: `Question.QuestionPanel`,
  `Answer.AnswerPanel` and `SideBar.SideBarPanel`. Each asynchronous handler is split at
  its `await` into a `Begin…` and a `Settle…` transition. Ghost counters keep track of
  the requests in flight and the pending timers.
- **JavaScript values** are the datatype `Json.Json`. It includes `undefined`, and
  property reads that throw a `TypeError` on null and undefined. Slider values are
  snapped to their grid (module `Slider`).
- **Python exceptions and error bodies** are in module `PyErrors`.
- **The backend.**
  - `PreChat.ChatCompletion` is stated against an ordered list of thirteen modelled
    checks at which `chat_completion` raises: the first one that fails decides the
    error body.
  - `PreChat.FindModelByName` is a loop proved against a recursive first-match
    function.
  - The routes of `backend/app.py` are functions of the decoded body. The domain call
    is a parameter.
- **Across the wire.** The module `Wire` connects the two sides. `JSON.stringify` drops
  properties whose value is `undefined`, so a backend route that reads such a key raises
  `KeyError`. Deeper down, it writes an `undefined` array element as `null` and drops
  an `undefined` object member (`Json.Encode`).

One error message is kept exactly as written. `chat_completion` raises the literal text
`model_name {model_name} not found` (no f-string) when the configured model is missing
from the list.

## Model

| member | source | states |
|---|---|---|
| Json.Get | frontend/src/app/pre/components/Question.tsx:147-153 | a present member is returned; on a decoded body the read is undefined exactly when the key is absent |
| Json.Encode | frontend/src/app/pre/util/api.ts:10 | a nested value comes back from the wire holding no undefined at any depth: undefined array elements arrive as null, undefined object members are dropped |
| Json.EncodeIdentity | frontend/src/app/pre/util/api.ts:10 | a value holding no undefined anywhere crosses the wire unchanged |
| Json.Stringify | frontend/src/app/pre/util/api.ts:10 | no decoded body holds an undefined, at any depth |
| Json.StringifyMembers | frontend/src/app/pre/util/api.ts:10 | with distinct names, a property reaches the server exactly when it is defined, with its value encoded |
| Json.StringifyKeys | frontend/src/app/pre/util/api.ts:10 | the server sees no key the request record did not have |
| Strings.Split | frontend/src/app/pre/components/NavBar.tsx:26 | splitting always yields at least one part |
| Strings.SplitCount | backend/pre_chat.py:155 | there is one more part than there are separators |
| Strings.SplitPartsFree | frontend/src/app/pre/components/NavBar.tsx:26 | no part contains the separator |
| Strings.JoinSplit | frontend/src/app/pre/components/NavBar.tsx:26 | joining the parts with the separator gives back the string |
| Strings.SplitJoin | frontend/src/app/pre/components/NavBar.tsx:26-28 | separator-free parts joined by the separator split back into exactly those parts |
| Strings.PadStart | frontend/src/app/pre/components/NavBar.tsx:30 | the result has length max(width, len), ends with the input and is fill characters before it |
| Strings.ZeroPadded | backend/pre_chat.py:66 | a strftime numeric field is all digits, reads back to its number and is at least `width` long |
| Strings.ParseIntDecimal | frontend/src/app/pre/components/SideBar.tsx:29 | `parseInt` reads a decimal numeral back to its value, whatever non-digit follows it |
| Strings.ParseIntNegative | frontend/src/app/pre/components/SideBar.tsx:29 | a leading minus sign negates the value |
| Strings.NoDigitIsNaN | frontend/src/app/pre/components/SideBar.tsx:29-30 | a string without any digit parses to NaN |
| Slider.Snap | frontend/src/app/pre/components/Question.tsx:263-274 | the value a slider reports lies in `[min, max]` at a whole number of steps from `min` |
| Slider.Deliver | frontend/src/app/pre/components/Question.tsx:118-126 | a single value reaches the handler snapped to the grid; an array reaches it as an array |
| Slider.SnapOnGrid | frontend/src/app/pre/components/Answer.tsx:215-226 | a value already on the grid is reported unchanged |
| Slider.RatingValues | frontend/src/app/pre/components/Answer.tsx:222-224 | the rating slider admits exactly 0.0, 0.5, …, 3.0 |
| Slider.TemperatureValues | frontend/src/app/pre/components/Question.tsx:270-272 | the temperature slider admits exactly 0.0, 0.1, …, 1.0 |
| Session.Page.constructor | frontend/src/app/pre/page.tsx:9-29 | the initial slot values: drawer closed, prompt null, temperature 0.8, empty class, model and user id, cleared completion; the page invariant holds, so 0.8 is a value the temperature slider can show |
| Session.Page.DrawerOpen | frontend/src/app/pre/page.tsx:31-33 | the drawer is open afterwards, and nothing else changes |
| Session.Page.DrawerClose | frontend/src/app/pre/page.tsx:34-36 | the drawer is closed afterwards, and nothing else changes |
| Session.Page.SetCompletion | frontend/src/app/pre/page.tsx:23-28 | the six completion slots hold the given values; only those change |
| Session.Page.SetUserContent | frontend/src/app/pre/page.tsx:15 | the prompt holds the given string; only it changes |
| Session.Page.SetTemperature | frontend/src/app/pre/page.tsx:16-18 | the temperature holds the given on-grid value; only it changes |
| PyErrors.FormatExceptionOnly | backend/app.py:37 | the detail line starts with the class name and ends with a newline |
| PyErrors.ErrorDataOf | backend/pre_chat.py:237-238 | the error body names the exception class; for a built-in exception with a message the detail is `Name: message\n` |
| PyErrors.ErrorJson | backend/app.py:38-40 | the JSON error body has exactly the keys `error` and `detail` |
| Question.ChatRequest | frontend/src/app/pre/components/Question.tsx:131-138 | the ask request has six distinctly named properties |
| Question.CompletionFrom | frontend/src/app/pre/components/Question.tsx:147-153 | the qa_id slot receives the body's `qa_id` |
| Question.EmptyListThrows | frontend/src/app/pre/components/Question.tsx:188 | selecting the first model of an empty list throws reading `name` of undefined |
| Question.FirstModelSelected | frontend/src/app/pre/components/Question.tsx:188 | a non-empty list selects the first entry's `name`, undefined when it has none |
| Question.ModelNameThrows | frontend/src/app/pre/components/Question.tsx:188 | reading the selected model from a list throws exactly when the list is empty or its first entry is null or undefined; a null or undefined list throws reading index 0 |
| Question.QuestionPanel.constructor | frontend/src/app/pre/components/Question.tsx:104-109 | no error, not loading, empty model list |
| Question.QuestionPanel.BeginAsk | frontend/src/app/pre/components/Question.tsx:127-139 | only an enabled button starts an ask; loading on, error cleared, request built from the current slots |
| Question.QuestionPanel.SettleAsk | frontend/src/app/pre/components/Question.tsx:141-165 | a body with `qa_id` fills the completion slots; another body shows its `detail`; a thrown error shows a non-empty message; loading off on every path |
| Question.QuestionPanel.BeginModelList | frontend/src/app/pre/components/Question.tsx:175-180 | loading on and error cleared; lists may overlap |
| Question.QuestionPanel.SettleModelList | frontend/src/app/pre/components/Question.tsx:181-199 | a body with `models` replaces the list and selects the first name, or shows the TypeError the read throws; another body shows "Invalid response data"; loading off on every path |
| Question.QuestionPanel.ChangeModel | frontend/src/app/pre/components/Question.tsx:201-203 | any value is selected, listed or not; the panel invariant is kept |
| Question.QuestionPanel.ChangePromptClass | frontend/src/app/pre/components/Question.tsx:110-114 | the prompt class becomes the typed value; the panel invariant is kept |
| Question.QuestionPanel.ChangeEditor | frontend/src/app/pre/components/Question.tsx:170-174 | the prompt becomes the editor text, the empty string when undefined |
| Question.QuestionPanel.ChangeTemperature | frontend/src/app/pre/components/Question.tsx:118-126 | a single value is snapped and stored; an array leaves the temperature unchanged |
| Question.NoSecondAsk | frontend/src/app/pre/components/Question.tsx:282-290 | while an ask is in flight the button is disabled |
| Answer.EvaluationRequest | frontend/src/app/pre/components/Answer.tsx:118-127 | the evaluation request has eight distinctly named properties |
| Answer.AnswerPanel.constructor | frontend/src/app/pre/components/Answer.tsx:90-95 | rating 0.0, no error, not loading, no success, empty comment, blank message |
| Answer.AnswerPanel.BeginEvaluation | frontend/src/app/pre/components/Answer.tsx:114-128 | only an enabled button starts it; loading on, error cleared, request built from the completion slots, class, temperature, rating and comment |
| Answer.AnswerPanel.SettleEvaluation | frontend/src/app/pre/components/Answer.tsx:129-169 | a body with `result` clears completion, prompt, class and comment, shows the success message and arms its timer; otherwise nothing is reset and the error shown is the `detail` or a non-empty thrown message; loading off on every path |
| Answer.AnswerPanel.Succeeded | frontend/src/app/pre/components/Answer.tsx:135-152 | the success branch clears the completion, prompt, class and comment, shows the success message and arms one more timer; rating and temperature stay; the Add Evaluation button is disabled afterwards |
| Answer.AnswerPanel.TimerFires | frontend/src/app/pre/components/Answer.tsx:149-151 | the success message goes blank when its timer fires |
| Answer.AnswerPanel.ChangeRating | frontend/src/app/pre/components/Answer.tsx:99-104 | a single value is snapped and stored; an array leaves the rating unchanged |
| Answer.AnswerPanel.ChangeComment | frontend/src/app/pre/components/Answer.tsx:108-113 | the comment becomes the typed value; the panel invariant is kept |
| Answer.AddGuard | frontend/src/app/pre/components/Answer.tsx:246-248 | the button is enabled exactly when there is a non-empty qa_id and a comment, whether or not an evaluation is loading |
| Answer.RatingBounded | frontend/src/app/pre/components/Answer.tsx:90-104 | in every reachable state the rating is one of the seven slider values |
| NavBar.UserIdFromAddress | frontend/src/app/pre/components/NavBar.tsx:26-32 | with four dot-separated parts the id is "A" and the last part left-padded with `0` to three characters; otherwise "A901" |
| NavBar.DottedQuad | frontend/src/app/pre/components/NavBar.tsx:26-32 | a dotted quad gives "A" followed by its padded last part |
| NavBar.OtherAddressesDefault | frontend/src/app/pre/components/NavBar.tsx:27-28 | an address without exactly three dots gets "A901" |
| NavBar.HostNumberKept | frontend/src/app/pre/components/NavBar.tsx:26-32 | the host number of an IPv4 address below 1000 becomes three digits that read back to it |
| NavBar.PrivateAddressExample | frontend/src/app/pre/components/NavBar.tsx:24-33 | "192.168.1.7" gives "A007" |
| NavBar.AddressThrows | frontend/src/app/pre/components/NavBar.tsx:23 | reading the address throws exactly when the body is not an object or its `response` is null or missing; otherwise it is that member's `user-address` |
| NavBar.SplitError | frontend/src/app/pre/components/NavBar.tsx:26 | splitting a non-string throws a TypeError with a message |
| NavBar.LookupSettled | frontend/src/app/pre/components/NavBar.tsx:20-34 | a string address sets the derived id; a failed request leaves it; a missing or non-string address throws and leaves it |
| SideBar.Decide | frontend/src/app/pre/components/SideBar.tsx:20-48 | a file is accepted exactly when it is text/plain, the maximum is set and parses, and the size is within it; each failed check is rejected with its own message, in check order: wrong type, maximum unset, maximum not an integer, file larger than the maximum |
| SideBar.SizeBoundary | frontend/src/app/pre/components/SideBar.tsx:35 | a file exactly at the maximum is accepted, one byte more is rejected |
| SideBar.UnitSuffixIgnored | frontend/src/app/pre/components/SideBar.tsx:29 | a maximum written with a unit suffix acts as its number |
| SideBar.NoDigitsInvalid | frontend/src/app/pre/components/SideBar.tsx:29-32 | a maximum without digits is a configuration error |
| SideBar.NegativeMaxRejectsAll | frontend/src/app/pre/components/SideBar.tsx:29-36 | a negative maximum rejects every text file by size |
| SideBar.SideBarPanel.constructor | frontend/src/app/pre/components/SideBar.tsx:16 | no files and no pending reads |
| SideBar.SideBarPanel.OnDrop | frontend/src/app/pre/components/SideBar.tsx:18-49 | an empty batch throws before writing; a rejected last file writes its message as the prompt; an accepted one is appended to the files and its read started |
| SideBar.SideBarPanel.ReadCompletes | frontend/src/app/pre/components/SideBar.tsx:40-43 | a completed read writes the file's text as the prompt and is no longer pending |
| PreChat.FirstMatch | backend/pre_chat.py:82-93 | the position of the first entry with the name, and none exactly when no entry has it |
| PreChat.FindModelByName | backend/pre_chat.py:82-93 | the loop returns the first entry with the name, a model exactly when some entry has it, named as asked |
| PreChat.FirstMatchAt | backend/pre_chat.py:83-84 | a named entry with no earlier namesake is the first match |
| PreChat.UnreadableFileRaises | backend/pre_chat.py:70-79 | an error opening the definition file other than a missing file or a decode error is what the call raises, unchanged |
| PreChat.TimestampRoundTrip | backend/pre_chat.py:64-67 | the timestamp has fifteen characters and reads back to the instant |
| PreChat.QaIdParts | backend/pre_chat.py:151-152 | a qa_id is the timestamp, `_` at position 15, then the user id, and both parts can be recovered |
| PreChat.LinesCount | backend/pre_chat.py:155 | the line count is the number of newlines plus one; an empty prompt has one line |
| PreChat.PassedEach | backend/pre_chat.py:108-230 | having passed the first n stages, none of them raises |
| PreChat.SelectModel | backend/pre_chat.py:108-121 | the model lookup succeeds exactly when its four stages pass, with the configured model; otherwise the first failing stage's exception |
| PreChat.CheckModel | backend/pre_chat.py:126-149 | the settings checks pass exactly when stages 4 to 8 pass; otherwise the first failing one's exception |
| PreChat.CheckCredentials | backend/pre_chat.py:126-135 | the credential checks pass exactly when stages 4 to 6 pass; otherwise the first failing one's exception |
| PreChat.CheckService | backend/pre_chat.py:138-149 | an Azure model needs an endpoint and any other service must be OpenAI, exactly when stages 7 and 8 pass; otherwise the first failing one's exception |
| PreChat.Generate | backend/pre_chat.py:151-204 | the reply is shaped exactly when the mock-file and model stages pass; usage defaults to 0 |
| PreChat.ChatCompletion | backend/pre_chat.py:96-240 | status 200 exactly when every stage passes, with the shaped response and the log file named after the qa_id; otherwise status 500 and the error body of the first stage that raises |
| PreChat.FirstFailureUnique | backend/pre_chat.py:236-240 | the first failing stage, and so the error body, is unique |
| PreChat.FailureStops | backend/pre_chat.py:236-240 | once a stage raises, the call cannot complete |
| PreChat.CompletedPassedAll | backend/pre_chat.py:234 | a completed call passed every check |
| PreChat.DefFileFirst | backend/pre_chat.py:108-110 | without PRE_DEF_MODEL the first stage fails with "PRE_DEF_MODEL not defined" |
| PreChat.MissingFileMeansNoModels | backend/pre_chat.py:111-121 | a missing or undecodable definition file fails with "model not found in table" |
| App.HandleException | backend/app.py:27-41 | status is the HTTPException's code when it has one, else 500; the body is the class name and formatted first line |
| App.FirstMissing | backend/app.py:65-72 | the position of the first key the body lacks, none exactly when all are present |
| App.ReadKeys | backend/app.py:65-72 | reading the keys succeeds exactly when all are present and yields their values; otherwise the KeyError of the first missing key |
| App.DecodeChatRecord | backend/app.py:64-72 | the chat record holds the six body values, or KeyError for the first missing key |
| App.DecodeEvaluationRecord | backend/app.py:83-93 | the evaluation record holds the eight body values, or KeyError for the first missing key |
| App.PostChatCompletion | backend/app.py:60-77 | only an object body holding all six keys reaches the domain call, with the six values read by name, whose body and status are the answer; anything else is answered with status 500: a decoding error with its own error body, a non-object body with a TypeError |
| App.PostAddEvaluation | backend/app.py:80-98 | the same for the evaluation route and its eight keys |
| App.MissingKeyIs500 | backend/app.py:66-71 | a missing key is answered with status 500 and `KeyError: 'key'` |
| App.MissingEvaluationKeyIs500 | backend/app.py:85-92 | on the evaluation route the first missing key is answered with status 500 and `KeyError: 'key'` |
| Wire.Arrives | frontend/src/app/pre/util/api.ts:10 | a defined property reaches the server under its name, its value encoded |
| Wire.ChatRoundTrip | backend/app.py:64-72 | with the system prompt set and every slot defined, the route reads back what the Question panel sent, each slot encoded |
| Wire.ChatRoundTripExact | backend/app.py:64-72 | slots that hold no undefined anywhere are read back exactly as the Question panel sent them |
| Wire.SystemContentUnset | frontend/src/app/pre/components/Question.tsx:132 | without NEXT_PUBLIC_SYSTEM_CONTENT every ask is answered with `KeyError: 'system_content'` |
| Wire.UnnamedModelReachesServer | frontend/src/app/pre/components/Question.tsx:188 | a first model without `name` selects undefined, passes the ask guard and is answered with `KeyError: 'selected_model'` |
| Wire.EvaluationRoundTrip | backend/app.py:83-93 | with every completion slot defined, the route reads back what the Answer panel sent, each slot encoded |
| Wire.EvaluationRoundTripExact | backend/app.py:83-93 | completion slots that hold no undefined anywhere are read back exactly as the Answer panel sent them |
| Wire.CompletionWithoutLines | frontend/src/app/pre/components/Answer.tsx:118-127 | a completion body without `lines` makes the evaluation fail with `KeyError: 'lines'` |

## Left out

- `backend/app.py` imports `pre_chat_completion`, `pre_add_evaluation` and `pre_get_modellist`. These modules are not part of this model, so their calls are parameters of the routes. The `RequestData` of `backend/pre_chat.py` has no `selected_model` field, while the route passes one; which class the route really builds cannot be seen here.
- The `/get_modellist` and `/` routes and the `PRE_LOG_DIR` check at start-up in `backend/app.py`: they are configuration and I/O around modules not modelled.
- Logging, `console.log`, `load_dotenv` and the `current_app` logger: they have no effect on state or replies.
- Building the OpenAI/Azure client and the chat messages (`backend/pre_chat.py:137-167`), and the exceptions they raise. For example, `AzureOpenAI(...)` raises when the entry has no `api_version` and no `OPENAI_API_VERSION` is set, before the mock-data check; the model has no stage for it. The constructors are library code that is not part of this model.
- The API call and the mock-data read themselves: their outcome is one input (`LlmReply`) that either raised or is an answer with a first choice. A reply without choices, whose `choices[0]` raises `IndexError` at `backend/pre_chat.py:196`, cannot be expressed.
- `App.NotSubscriptable`: the TypeError texts for a request body that is a string or a list are Python 3.11's wording. A JSON number is taken as an `int` exactly when it is integral, whereas `json.loads` gives a `float` for `1.0`.
- The contents written to the QA log: the model gives the file name and whether writing raised, not the TOML text.
- TOML decoding: a table is either undecodable or gives a `model` list whose entries are string-valued maps. Values of other types are not modelled.
- `PreChat.TimestampRoundTrip`: only holds for years 1000 to 9999, where `%Y` gives four digits.
- Floating point: temperatures, ratings and token counts are exact reals, so rounding in `Math.round` and in the sliders is not modelled.
- `Strings.PadStart` and `NavBar.UserIdFromAddress`: string lengths are counted in Unicode scalar values, not in UTF-16 code units as JavaScript's `length` and `padStart` count them, so a part holding a character outside the Basic Multilingual Plane is padded with one `0` more than in JavaScript. `Json.First` on a string likewise takes the first scalar value, not the first code unit.
- `Strings.ParseInt`: reads any number of digits exactly, without the precision loss of JavaScript numbers above 2^53.
- `Json.ReadErrorMessage`: the TypeError text is V8's wording. Other engines word it differently.
- Property reads are modelled only for the names this frontend reads (`response`, `user-address`, `name`, and `split` on non-strings; `Json.ReadKey`). These are never inherited members, never array indices and never `length`, so `Json.Property` does not model prototype lookups.
- `Json.Encode`: only `undefined` is treated specially. `toJSON` methods, functions and non-finite numbers, which `JSON.stringify` also rewrites, cannot occur in these values, so they are not modelled. A settled request's payload (`Session.Outcome`) is not required to be `Json.FullyDefined`, although a parsed body always is. A payload holding a nested `undefined` can therefore reach a page slot in the model; when it is sent on, it is encoded as `JSON.stringify` would encode it.
- Non-object response bodies: a payload is always a JSON object, so `"qa_id" in response.data` on a string or array is not modelled.
- The HTTP transport in `frontend/src/app/pre/util/api.ts` and `back_mock/mock.js`: a request settles either with a body or with a thrown `Error` message.
- `fetch`, `FileReader` and `setTimeout`: each is a separate transition (`LookupSettled`, `ReadCompletes`, `TimerFires`) rather than a callback.
- React batching and re-rendering: a handler's writes happen in order on one shared page object, and the closures' captured values are the current ones.
- The Monaco editor, the layout and the slider marks: presentation only.
