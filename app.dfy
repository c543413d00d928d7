/**
  `backend/app.py`: the Flask error handler and the two POST routes. A route decodes
  the request body, reads its record key by key, and answers with whatever the domain
  function returns; the domain functions themselves (`pre_chat_completion`,
  `pre_add_evaluation`) are parameters, as their modules are not part of this model.
 */
module App {
  import opened Json
  import opened PyErrors

  /** What `handle_exception` asks of an exception's class: an `HTTPException` carries a code. */
  datatype ExceptionKind = Plain | Http(code: Option<int>)

  /** `make_response(jsonify(body), status)` */
  datatype Response = Response(body: Json, status: int)

  /**
    `handle_exception`: status 500 unless the exception is an `HTTPException` with a
    code; the body is the class name and the first line of the formatted exception.
   */
  function HandleException(e: PyError, kind: ExceptionKind): (r: Response)
    ensures r.status != 500 ==> kind == Http(Some(r.status))
    ensures kind.Http? && kind.code.Some? ==> r.status == kind.code.value
    ensures r.body == ErrorJson(ErrorDataOf(e))
  {
    var status := if kind.Http? && kind.code.Some? then kind.code.value else 500;
    Response(ErrorJson(ErrorDataOf(e)), status)
  }

  /** The keys `post_chat_completion` reads, in order. */
  const CHAT_KEYS: seq<string> :=
    ["system_content", "user_content", "temperature", "prompt_class", "user_id", "selected_model"]

  /** The keys `post_add_evaluation` reads, in order. */
  const EVALUATION_KEYS: seq<string> :=
    ["qa_id", "lines", "prompt_class", "temperature", "completion_tokens", "prompt_tokens", "rating", "comment"]

  predicate Quotable(keys: seq<string>) {
    forall i :: 0 <= i < |keys| ==> '\'' !in keys[i]
  }

  /** The position of the first key the body lacks, if any. */
  function FirstMissing(body: map<string, Json>, keys: seq<string>): (r: Option<nat>)
    ensures r.Some? ==> r.value < |keys| && keys[r.value] !in body
    ensures r.Some? ==> forall j :: 0 <= j < r.value ==> keys[j] in body
    ensures r.None? <==> forall j :: 0 <= j < |keys| ==> keys[j] in body
  {
    if keys == [] then None
    else if keys[0] !in body then Some(0)
    else match FirstMissing(body, keys[1..])
      case None => None
      case Some(i) => Some(i + 1)
  }

  /**
    `request_data_dict[key]` for each key in turn: the values, or the `KeyError` of
    the first key that is missing.
   */
  function ReadKeys(body: map<string, Json>, keys: seq<string>): (r: Result<seq<Json>>)
    requires Quotable(keys)
    ensures r.Ok? <==> FirstMissing(body, keys).None?
    ensures r.Ok? ==> |r.value| == |keys| && forall i :: 0 <= i < |keys| ==> r.value[i] == body[keys[i]]
    ensures r.Raise? ==> r.error == KeyError(keys[FirstMissing(body, keys).value])
  {
    if keys == [] then Ok([])
    else if keys[0] !in body then Raise(KeyError(keys[0]))
    else match ReadKeys(body, keys[1..])
      case Ok(values) => Ok([body[keys[0]]] + values)
      case Raise(e) => Raise(e)
  }

  /** `pre_chat_completion.RequestData(...)` as the route builds it; values are not checked. */
  datatype ChatRecord = ChatRecord(
    systemContent: Json, userContent: Json, temperature: Json,
    promptClass: Json, userId: Json, selectedModel: Json)

  /** `pre_add_evaluation.RequestData(...)` as the route builds it. */
  datatype EvaluationRecord = EvaluationRecord(
    qaId: Json, lines: Json, promptClass: Json, temperature: Json,
    completionTokens: Json, promptTokens: Json, rating: Json, comment: Json)

  function DecodeChatRecord(body: map<string, Json>): (r: Result<ChatRecord>)
    ensures r.Ok? <==> forall j :: 0 <= j < |CHAT_KEYS| ==> CHAT_KEYS[j] in body
    ensures r.Ok? ==>
      r.value == ChatRecord(Get(body, "system_content"), Get(body, "user_content"), Get(body, "temperature"),
                            Get(body, "prompt_class"), Get(body, "user_id"), Get(body, "selected_model"))
    ensures r.Raise? ==> r.error == KeyError(CHAT_KEYS[FirstMissing(body, CHAT_KEYS).value])
  {
    match ReadKeys(body, CHAT_KEYS)
    case Ok(v) => Ok(ChatRecord(v[0], v[1], v[2], v[3], v[4], v[5]))
    case Raise(e) => Raise(e)
  }

  function DecodeEvaluationRecord(body: map<string, Json>): (r: Result<EvaluationRecord>)
    ensures r.Ok? <==> forall j :: 0 <= j < |EVALUATION_KEYS| ==> EVALUATION_KEYS[j] in body
    ensures r.Ok? ==>
      r.value == EvaluationRecord(Get(body, "qa_id"), Get(body, "lines"), Get(body, "prompt_class"),
                                  Get(body, "temperature"), Get(body, "completion_tokens"),
                                  Get(body, "prompt_tokens"), Get(body, "rating"), Get(body, "comment"))
    ensures r.Raise? ==> r.error == KeyError(EVALUATION_KEYS[FirstMissing(body, EVALUATION_KEYS).value])
  {
    match ReadKeys(body, EVALUATION_KEYS)
    case Ok(v) => Ok(EvaluationRecord(v[0], v[1], v[2], v[3], v[4], v[5], v[6], v[7]))
    case Raise(e) => Raise(e)
  }

  /**
    The TypeError the first `request_data_dict[key]` raises when the decoded body is
    not an object; a number is an `int` when it is integral.
   */
  function NotSubscriptable(v: Json): (e: PyError)
    requires v != Undefined && !v.Obj?
    ensures e.owner == "builtins" && e.name == "TypeError" && e.message != ""
  {
    var message := match v
      case Arr(_) => "list indices must be integers or slices, not str"
      case Str(_) => "string indices must be integers, not 'str'"
      case Null => "'NoneType' object is not subscriptable"
      case Bool(_) => "'bool' object is not subscriptable"
      case Num(n) => if n.Floor as real == n then "'int' object is not subscriptable"
                     else "'float' object is not subscriptable";
    PyError("builtins", "TypeError", message)
  }

  /**
    `json.loads(request.data)` and the first subscript: the body's members, or the
    exception decoding raised, or the TypeError of a body that is not an object.
   */
  function BodyObject(request: Result<Json>): Result<map<string, Json>>
    requires request.Ok? ==> request.value != Undefined
  {
    match request
    case Raise(e) => Raise(e)
    case Ok(v) => if v.Obj? then Ok(v.fields) else Raise(NotSubscriptable(v))
  }

  /** The decoded body is an object holding every one of `keys`. */
  predicate Complete(request: Result<Json>, keys: seq<string>) {
    request.Ok? && request.value.Obj? && forall j :: 0 <= j < |keys| ==> keys[j] in request.value.fields
  }

  /**
    `post_chat_completion`: `request` is `json.loads(request.data)`, a decoded value or
    the exception decoding raised. Only an object holding all six keys reaches the
    domain function, whose body and status are the answer; everything raised before
    is answered by `handle_exception` with status 500.
   */
  function PostChatCompletion(request: Result<Json>, chatCompletion: ChatRecord -> Response): (r: Response)
    requires request.Ok? ==> request.value != Undefined
    ensures Complete(request, CHAT_KEYS) ==>
      var body := request.value.fields;
      r == chatCompletion(ChatRecord(Get(body, "system_content"), Get(body, "user_content"),
                                     Get(body, "temperature"), Get(body, "prompt_class"),
                                     Get(body, "user_id"), Get(body, "selected_model")))
    ensures !Complete(request, CHAT_KEYS) ==> r.status == 500
    ensures request.Raise? ==> r.body == ErrorJson(ErrorDataOf(request.error))
    ensures request.Ok? && !request.value.Obj? ==> r.body == ErrorJson(ErrorDataOf(NotSubscriptable(request.value)))
  {
    match BodyObject(request)
    case Raise(e) => HandleException(e, Plain)
    case Ok(body) =>
      match DecodeChatRecord(body)
      case Raise(e) => HandleException(e, Plain)
      case Ok(record) => chatCompletion(record)
  }

  /** `post_add_evaluation`, built the same way from its eight keys. */
  function PostAddEvaluation(request: Result<Json>, addEvaluation: EvaluationRecord -> Response): (r: Response)
    requires request.Ok? ==> request.value != Undefined
    ensures Complete(request, EVALUATION_KEYS) ==>
      var body := request.value.fields;
      r == addEvaluation(EvaluationRecord(Get(body, "qa_id"), Get(body, "lines"), Get(body, "prompt_class"),
                                          Get(body, "temperature"), Get(body, "completion_tokens"),
                                          Get(body, "prompt_tokens"), Get(body, "rating"), Get(body, "comment")))
    ensures !Complete(request, EVALUATION_KEYS) ==> r.status == 500
    ensures request.Raise? ==> r.body == ErrorJson(ErrorDataOf(request.error))
    ensures request.Ok? && !request.value.Obj? ==> r.body == ErrorJson(ErrorDataOf(NotSubscriptable(request.value)))
  {
    match BodyObject(request)
    case Raise(e) => HandleException(e, Plain)
    case Ok(body) =>
      match DecodeEvaluationRecord(body)
      case Raise(e) => HandleException(e, Plain)
      case Ok(record) => addEvaluation(record)
  }

  /** A missing key is answered with status 500, naming `KeyError` and the quoted key. */
  lemma MissingKeyIs500(body: map<string, Json>, chatCompletion: ChatRecord -> Response)
    requires FirstMissing(body, CHAT_KEYS).Some?
    ensures var key := CHAT_KEYS[FirstMissing(body, CHAT_KEYS).value];
            var r := PostChatCompletion(Ok(Obj(body)), chatCompletion);
            r.status == 500
            && r.body == ErrorJson(ErrorData("KeyError", "KeyError: '" + key + "'\n"))
  {
    KeysQuotable();
    var key := CHAT_KEYS[FirstMissing(body, CHAT_KEYS).value];
    assert BodyObject(Ok(Obj(body))) == Ok(body);
    assert DecodeChatRecord(body) == Raise(KeyError(key));
    assert PostChatCompletion(Ok(Obj(body)), chatCompletion) == HandleException(KeyError(key), Plain);
    KeyErrorDetail(key);
  }

  /** The same for the evaluation route: the first missing of its eight keys is named. */
  lemma MissingEvaluationKeyIs500(body: map<string, Json>, addEvaluation: EvaluationRecord -> Response)
    requires FirstMissing(body, EVALUATION_KEYS).Some?
    ensures var key := EVALUATION_KEYS[FirstMissing(body, EVALUATION_KEYS).value];
            var r := PostAddEvaluation(Ok(Obj(body)), addEvaluation);
            r.status == 500
            && r.body == ErrorJson(ErrorData("KeyError", "KeyError: '" + key + "'\n"))
  {
    KeysQuotable();
    var key := EVALUATION_KEYS[FirstMissing(body, EVALUATION_KEYS).value];
    assert BodyObject(Ok(Obj(body))) == Ok(body);
    assert DecodeEvaluationRecord(body) == Raise(KeyError(key));
    assert PostAddEvaluation(Ok(Obj(body)), addEvaluation) == HandleException(KeyError(key), Plain);
    KeyErrorDetail(key);
  }

  /** No key either route reads holds a quote, so each `KeyError` prints it plainly quoted. */
  lemma KeysQuotable()
    ensures Quotable(CHAT_KEYS) && Quotable(EVALUATION_KEYS)
  {
  }

  /** The body `handle_exception` makes of a `KeyError`: the class name and the quoted key. */
  lemma KeyErrorDetail(key: string)
    requires '\'' !in key
    ensures ErrorDataOf(KeyError(key)) == ErrorData("KeyError", "KeyError: '" + key + "'\n")
  {
    assert "'" + key + "'" != "";
    assert "KeyError" + ": " + ("'" + key + "'") + "\n" == "KeyError: '" + key + "'\n";
  }
}
