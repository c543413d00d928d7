/**
  `backend/pre_chat.py`: answering one completion request. The model definition file,
  the process environment (after `load_dotenv`), the clock, the language model's reply
  and the outcome of writing the QA log are inputs; the validation chain, the lookup
  of the configured model and the shaping of the response are modelled.
 */
module PreChat {
  import opened Json
  import opened Strings
  import opened PyErrors

  /** The model looked up, whatever the request says. */
  const LLM_MODEL: string := "openai-gpt-3.5"
  const QA_LOGFILE_EXTENSION: string := ".toml"

  datatype RequestData = RequestData(
    systemContent: string,
    userContent: string,
    temperature: real,
    promptClass: string,
    userId: string)

  datatype ResponseData = ResponseData(
    finishReason: string,
    content: Option<string>,
    completionTokens: int,
    promptTokens: int,
    qaId: string,
    lines: nat,
    promptClass: string,
    temperature: real)

  /** What `chat_completion` returns with its status: the response or the error record. */
  datatype Reply = Completed(data: ResponseData) | Failed(error: ErrorData)

  /** `Model`: every field may be None. */
  datatype Model = Model(
    name: Option<string>,
    llmService: Option<string>,
    deploymentName: Option<string>,
    apiKey: Option<string>,
    apiVersion: Option<string>,
    azureEndpoint: Option<string>)

  /** One `[[model]]` table of the model definition file. */
  type ModelEntry = map<string, string>

  /** `dict.get(key)` on a model entry, `os.getenv(key)` on the environment. */
  function Lookup(m: map<string, string>, key: string): Option<string> {
    if key in m then Some(m[key]) else None
  }

  /** The `Model(...)` built from an entry, each field copied by its key. */
  function ModelOf(entry: ModelEntry): Model {
    Model(Lookup(entry, "name"), Lookup(entry, "llm_service"), Lookup(entry, "deployment_name"),
          Lookup(entry, "api_key"), Lookup(entry, "api_version"), Lookup(entry, "azure_endpoint"))
  }

  predicate Named(entry: ModelEntry, name: string) {
    Lookup(entry, "name") == Some(name)
  }

  /** The position of the first entry named `name`, if any. */
  function FirstMatch(models: seq<ModelEntry>, name: string): (r: Option<nat>)
    ensures r.Some? ==> r.value < |models| && Named(models[r.value], name)
    ensures r.Some? ==> forall j :: 0 <= j < r.value ==> !Named(models[j], name)
    ensures r.None? <==> forall j :: 0 <= j < |models| ==> !Named(models[j], name)
  {
    if models == [] then None
    else if Named(models[0], name) then Some(0)
    else match FirstMatch(models[1..], name)
      case None => None
      case Some(i) => Some(i + 1)
  }

  /** What `find_model_by_name` returns. */
  function FindModel(models: seq<ModelEntry>, name: string): Option<Model> {
    match FirstMatch(models, name)
    case None => None
    case Some(i) => Some(ModelOf(models[i]))
  }

  /** `find_model_by_name`: a linear search returning the first entry with the name. */
  method FindModelByName(models: seq<ModelEntry>, name: string) returns (model: Option<Model>)
    ensures model == FindModel(models, name)
    ensures model.Some? <==> exists i :: 0 <= i < |models| && Named(models[i], name)
    ensures model.Some? ==> model.value.name == Some(name)
  {
    var i := 0;
    while i < |models|
      invariant 0 <= i <= |models|
      invariant forall j :: 0 <= j < i ==> !Named(models[j], name)
    {
      if Lookup(models[i], "name") == Some(name) {
        assert FirstMatch(models, name) == Some(i) by { FirstMatchAt(models, name, i); }
        return Some(ModelOf(models[i]));
      }
      i := i + 1;
    }
    return None;
  }

  /** A named entry preceded by no other of that name is the first match. */
  lemma {:induction false} FirstMatchAt(models: seq<ModelEntry>, name: string, i: nat)
    requires i < |models| && Named(models[i], name)
    requires forall j :: 0 <= j < i ==> !Named(models[j], name)
    ensures FirstMatch(models, name) == Some(i)
  {
    if i > 0 {
      FirstMatchAt(models[1..], name, i - 1);
    }
  }

  /** The decoded model definition file; only its `model` key is read. */
  datatype TomlTable = TomlTable(model: Option<seq<ModelEntry>>)

  /** What opening and decoding a file gives: a table, a decode error, or another I/O error. */
  datatype TomlFile = Parsed(table: TomlTable) | Undecodable | Unreadable(error: PyError)

  /** `{}` */
  const EMPTY_TABLE: TomlTable := TomlTable(None)

  /**
    `load_toml`: a missing file or one that does not decode gives the empty table;
    any other error opening the file propagates.
   */
  function LoadToml(files: map<string, TomlFile>, path: string): Result<TomlTable>
  {
    if path !in files then Ok(EMPTY_TABLE)
    else match files[path]
      case Parsed(t) => Ok(t)
      case Undecodable => Ok(EMPTY_TABLE)
      case Unreadable(e) => Raise(e)
  }

  /** `datetime.now()`, restricted to four-digit years. */
  datatype DateTime = DateTime(year: nat, month: nat, day: nat, hour: nat, minute: nat, second: nat)
  {
    predicate Valid() {
      1000 <= year <= 9999 && 1 <= month <= 12 && 1 <= day <= 31
      && hour < 24 && minute < 60 && second < 60
    }
  }

  /** `now.strftime("%Y%m%d_%H%M%S")` */
  function Timestamp(dt: DateTime): string {
    ZeroPadded(dt.year, 4) + ZeroPadded(dt.month, 2) + ZeroPadded(dt.day, 2) + "_"
    + ZeroPadded(dt.hour, 2) + ZeroPadded(dt.minute, 2) + ZeroPadded(dt.second, 2)
  }

  /** Reads a timestamp back: fifteen characters, digits around an underscore at position 8. */
  function ParseTimestamp(ts: string): Option<DateTime> {
    if |ts| == 15 && ts[8] == '_' && AllDigits(ts[..8]) && AllDigits(ts[9..]) then
      Some(DateTime(DigitsValue(ts[0..4]), DigitsValue(ts[4..6]), DigitsValue(ts[6..8]),
                    DigitsValue(ts[9..11]), DigitsValue(ts[11..13]), DigitsValue(ts[13..15])))
    else None
  }

  lemma PaddedWidth(n: nat, width: nat)
    requires width == 2 || width == 4
    requires if width == 2 then n < 100 else 1000 <= n < 10000
    ensures |ZeroPadded(n, width)| == width
  {
    DecimalLength(n);
  }

  /** Slicing the seven pieces of a timestamp back out of their concatenation. */
  lemma TimestampFields(y: string, mo: string, d: string, h: string, mi: string, s: string)
    requires |y| == 4 && |mo| == 2 && |d| == 2 && |h| == 2 && |mi| == 2 && |s| == 2
    requires AllDigits(y) && AllDigits(mo) && AllDigits(d)
    requires AllDigits(h) && AllDigits(mi) && AllDigits(s)
    ensures var ts := y + mo + d + "_" + h + mi + s;
            |ts| == 15 && ts[8] == '_'
            && ts[..8] == y + mo + d && ts[9..] == h + mi + s
            && AllDigits(ts[..8]) && AllDigits(ts[9..])
            && ts[0..4] == y && ts[4..6] == mo && ts[6..8] == d
            && ts[9..11] == h && ts[11..13] == mi && ts[13..15] == s
  {
    var ts := y + mo + d + "_" + h + mi + s;
    var date, time := y + mo + d, h + mi + s;
    assert ts == date + "_" + time;
    assert ts[..8] == date;
    assert ts[9..] == time;
    assert AllDigits(date) by {
      forall i | 0 <= i < 8 ensures IsDigit(date[i]) {
        if i < 4 { assert date[i] == y[i]; }
        else if i < 6 { assert date[i] == mo[i - 4]; }
        else { assert date[i] == d[i - 6]; }
      }
    }
    assert AllDigits(time) by {
      forall i | 0 <= i < 6 ensures IsDigit(time[i]) {
        if i < 2 { assert time[i] == h[i]; }
        else if i < 4 { assert time[i] == mi[i - 2]; }
        else { assert time[i] == s[i - 4]; }
      }
    }
  }

  /** The timestamp has fifteen characters and reads back to the instant it was made from. */
  lemma TimestampRoundTrip(dt: DateTime)
    requires dt.Valid()
    ensures |Timestamp(dt)| == 15
    ensures ParseTimestamp(Timestamp(dt)) == Some(dt)
  {
    PaddedWidth(dt.year, 4);
    PaddedWidth(dt.month, 2);
    PaddedWidth(dt.day, 2);
    PaddedWidth(dt.hour, 2);
    PaddedWidth(dt.minute, 2);
    PaddedWidth(dt.second, 2);
    TimestampFields(ZeroPadded(dt.year, 4), ZeroPadded(dt.month, 2), ZeroPadded(dt.day, 2),
                    ZeroPadded(dt.hour, 2), ZeroPadded(dt.minute, 2), ZeroPadded(dt.second, 2));
  }

  /** `qa_id = current_datetime + "_" + request_data.user_id` */
  function QaId(now: DateTime, userId: string): string {
    Timestamp(now) + "_" + userId
  }

  /** A qa_id splits at position 15 into the instant and the user id it was made from. */
  lemma QaIdParts(now: DateTime, userId: string)
    requires now.Valid()
    ensures var q := QaId(now, userId);
            |q| == 16 + |userId| && q[15] == '_'
            && ParseTimestamp(q[..15]) == Some(now) && q[16..] == userId
  {
    TimestampRoundTrip(now);
    JoinedParts(Timestamp(now), userId);
  }

  /** The two sides of `a + "_" + b` are recovered by slicing around position `|a|`. */
  lemma JoinedParts(a: string, b: string)
    ensures var q := a + "_" + b;
            |q| == |a| + 1 + |b| && q[|a|] == '_' && q[..|a|] == a && q[|a| + 1..] == b
  {
  }

  /** `len(user_content.split("\n"))` */
  function Lines(userContent: string): nat {
    |Split(userContent, '\n')|
  }

  /** The line count is one more than the number of newlines; the empty prompt has one line. */
  lemma LinesCount(userContent: string)
    ensures Lines(userContent) == Count(userContent, '\n') + 1
    ensures Lines("") == 1
  {
    SplitCount(userContent, '\n');
  }

  datatype Usage = Usage(completionTokens: int, promptTokens: int)

  /**
    The language model's reply (read from the mock data file in mock run mode, from the
    API otherwise): its first choice and its usage, or the exception the call raised.
   */
  datatype LlmReply =
    | Answered(finishReason: string, content: Option<string>, usage: Option<Usage>)
    | LlmRaised(error: PyError)

  /** Everything one call of `chat_completion` depends on. */
  datatype Context = Context(
    request: RequestData,
    env: map<string, string>,
    files: map<string, TomlFile>,
    now: DateTime,
    llm: LlmReply,
    logWrite: Option<PyError>)

  /** The modelled checks at which `chat_completion` raises, in the order the code reaches them. */
  datatype Stage =
    | DefFileUnset | TableUnreadable | ModelKeyMissing | ModelNameNotFound
    | ApiKeyNameUnset | DeploymentUnset | ApiKeyUnset | AzureEndpointUnset | ServiceInvalid
    | MockFileUnset | LlmFailed | LogDirUnset | LogWriteFailed

  const PIPELINE: seq<Stage> := [
    DefFileUnset, TableUnreadable, ModelKeyMissing, ModelNameNotFound,
    ApiKeyNameUnset, DeploymentUnset, ApiKeyUnset, AzureEndpointUnset, ServiceInvalid,
    MockFileUnset, LlmFailed, LogDirUnset, LogWriteFailed]

  /** The loaded definition table, once `PRE_DEF_MODEL` names a file. */
  function Loaded(ctx: Context): Option<Result<TomlTable>> {
    if "PRE_DEF_MODEL" in ctx.env then Some(LoadToml(ctx.files, ctx.env["PRE_DEF_MODEL"])) else None
  }

  /** The configured model, when the table has a `model` list naming it. */
  function Selected(ctx: Context): Option<Model> {
    match Loaded(ctx)
    case Some(Ok(TomlTable(Some(models)))) => FindModel(models, LLM_MODEL)
    case _ => None
  }

  /** The condition under which the stage raises, stated on its own. */
  predicate Fails(st: Stage, ctx: Context) {
    match st
    case DefFileUnset => "PRE_DEF_MODEL" !in ctx.env
    case TableUnreadable => Loaded(ctx).Some? && Loaded(ctx).value.Raise?
    case ModelKeyMissing => Loaded(ctx).Some? && Loaded(ctx).value.Ok? && Loaded(ctx).value.value.model.None?
    case ModelNameNotFound =>
      Loaded(ctx).Some? && Loaded(ctx).value.Ok? && Loaded(ctx).value.value.model.Some? && Selected(ctx).None?
    case ApiKeyNameUnset => Selected(ctx).Some? && Selected(ctx).value.apiKey.None?
    case DeploymentUnset => Selected(ctx).Some? && Selected(ctx).value.deploymentName.None?
    case ApiKeyUnset =>
      Selected(ctx).Some? && Selected(ctx).value.apiKey.Some? && Selected(ctx).value.apiKey.value !in ctx.env
    case AzureEndpointUnset =>
      Selected(ctx).Some? && Selected(ctx).value.llmService == Some("Azure")
      && Selected(ctx).value.azureEndpoint.None?
    case ServiceInvalid =>
      Selected(ctx).Some? && Selected(ctx).value.llmService != Some("Azure")
      && Selected(ctx).value.llmService != Some("OpenAI")
    case MockFileUnset => Lookup(ctx.env, "PRE_RUNMODE") == Some("Mock") && "PRE_MOCKDATA_FILE" !in ctx.env
    case LlmFailed => ctx.llm.LlmRaised?
    case LogDirUnset => "PRE_QA_LOG_DIR" !in ctx.env
    case LogWriteFailed => ctx.logWrite.Some?
  }

  /** The exception a failing stage raises. */
  function StageError(st: Stage, ctx: Context): PyError
    requires Fails(st, ctx)
  {
    match st
    case DefFileUnset => Exception("PRE_DEF_MODEL not defined")
    case TableUnreadable => Loaded(ctx).value.error
    case ModelKeyMissing => Exception("model not found in table")
    case ModelNameNotFound => Exception("model_name {model_name} not found")
    case ApiKeyNameUnset => Exception("api_key envname not defined")
    case DeploymentUnset => Exception("deployment name not defined")
    case ApiKeyUnset => Exception("api_key not defined")
    case AzureEndpointUnset => Exception("azure_endpoint is None")
    case ServiceInvalid => Exception("invalid llm_service")
    case MockFileUnset => Exception("PRE_MOCKDATA_FILE not defined")
    case LlmFailed => ctx.llm.error
    case LogDirUnset => Exception("PRE_QA_LOG_DIR is not set.")
    case LogWriteFailed => ctx.logWrite.value
  }

  /** No stage before the `n`-th raises. */
  predicate PassedFirst(ctx: Context, n: nat)
    requires n <= |PIPELINE|
  {
    n == 0 || (PassedFirst(ctx, n - 1) && !Fails(PIPELINE[n - 1], ctx))
  }

  /** Stage `i` is the first in pipeline order to raise. */
  predicate FirstFailure(ctx: Context, i: nat) {
    i < |PIPELINE| && Fails(PIPELINE[i], ctx) && PassedFirst(ctx, i)
  }

  /** Having passed the first `n` stages, none of them raises. */
  lemma {:induction false} PassedEach(ctx: Context, n: nat, j: nat)
    requires n <= |PIPELINE| && PassedFirst(ctx, n) && j < n
    ensures !Fails(PIPELINE[j], ctx)
  {
    if j < n - 1 {
      PassedEach(ctx, n - 1, j);
    }
  }

  /** The response when nothing raises. */
  function Shaped(ctx: Context): ResponseData
    requires ctx.llm.Answered?
  {
    var r := ctx.request;
    var usage := ctx.llm.usage;
    ResponseData(
      ctx.llm.finishReason, ctx.llm.content,
      if usage.Some? then usage.value.completionTokens else 0,
      if usage.Some? then usage.value.promptTokens else 0,
      QaId(ctx.now, r.userId), Lines(r.userContent), r.promptClass, r.temperature)
  }

  /** The QA log file: the log directory, the qa_id and the extension. */
  function LogFile(ctx: Context): string
    requires "PRE_QA_LOG_DIR" in ctx.env
  {
    ctx.env["PRE_QA_LOG_DIR"] + QaId(ctx.now, ctx.request.userId) + QA_LOGFILE_EXTENSION
  }

  /**
    The model lookup that opens `chat_completion`: the definition file named by
    `PRE_DEF_MODEL`, its `model` list and the entry named `LLM_MODEL` (stages 0 to 3).
   */
  method SelectModel(ctx: Context) returns (r: Result<Model>)
    ensures r.Ok? <==> PassedFirst(ctx, 4)
    ensures r.Ok? ==> Selected(ctx) == Some(r.value)
    ensures r.Raise? ==> !PassedFirst(ctx, |PIPELINE|)
    ensures r.Raise? ==> exists i: nat :: i < 4 && FirstFailure(ctx, i) && r.error == StageError(PIPELINE[i], ctx)
  {
    var env := ctx.env;
    if "PRE_DEF_MODEL" !in env {
      r := Raise(Exception("PRE_DEF_MODEL not defined"));
      FailureStops(ctx, 0, 4);
      return;
    }
    assert PassedFirst(ctx, 1);
    var loaded := LoadToml(ctx.files, env["PRE_DEF_MODEL"]);
    if loaded.Raise? {
      r := Raise(loaded.error);
      FailureStops(ctx, 1, 4);
      return;
    }
    assert PassedFirst(ctx, 2);
    var table := loaded.value;
    if table.model.None? {
      r := Raise(Exception("model not found in table"));
      FailureStops(ctx, 2, 4);
      return;
    }
    assert PassedFirst(ctx, 3);
    var found := FindModelByName(table.model.value, LLM_MODEL);
    if found.None? {
      r := Raise(Exception("model_name {model_name} not found"));
      FailureStops(ctx, 3, 4);
      return;
    }
    assert Selected(ctx) == found;
    assert PassedFirst(ctx, 4);
    r := Ok(found.value);
  }

  /**
    The checks made while building the client for the selected model (stages 4 to 8):
    the credentials, then the service.
   */
  method CheckModel(ctx: Context, model: Model) returns (err: Option<PyError>)
    requires PassedFirst(ctx, 4) && Selected(ctx) == Some(model)
    ensures err.None? <==> PassedFirst(ctx, 9)
    ensures err.Some? ==> !PassedFirst(ctx, |PIPELINE|)
    ensures err.Some? ==>
      exists i: nat :: 4 <= i < 9 && FirstFailure(ctx, i) && err.value == StageError(PIPELINE[i], ctx)
  {
    err := CheckCredentials(ctx, model);
    if err.Some? {
      ghost var i: nat :| 4 <= i < 7 && FirstFailure(ctx, i) && err.value == StageError(PIPELINE[i], ctx);
      FailureStops(ctx, i, 9);
      return;
    }
    err := CheckService(ctx, model);
  }

  /** Stages 4 to 6: the api key's variable name, the deployment name, and the api key itself. */
  method CheckCredentials(ctx: Context, model: Model) returns (err: Option<PyError>)
    requires PassedFirst(ctx, 4) && Selected(ctx) == Some(model)
    ensures err.None? <==> PassedFirst(ctx, 7)
    ensures err.Some? ==> !PassedFirst(ctx, |PIPELINE|)
    ensures err.Some? ==>
      exists i: nat :: 4 <= i < 7 && FirstFailure(ctx, i) && err.value == StageError(PIPELINE[i], ctx)
  {
    if model.apiKey.None? {
      err := Some(Exception("api_key envname not defined"));
      FailureStops(ctx, 4, 7);
      return;
    }
    assert PassedFirst(ctx, 5);
    if model.deploymentName.None? {
      err := Some(Exception("deployment name not defined"));
      FailureStops(ctx, 5, 7);
      return;
    }
    assert PassedFirst(ctx, 6);
    if model.apiKey.value !in ctx.env {
      err := Some(Exception("api_key not defined"));
      FailureStops(ctx, 6, 7);
      return;
    }
    assert PassedFirst(ctx, 7);
    err := None;
  }

  /** Stages 7 and 8: a known service, Azure also needing an endpoint. */
  method CheckService(ctx: Context, model: Model) returns (err: Option<PyError>)
    requires PassedFirst(ctx, 7) && Selected(ctx) == Some(model)
    ensures err.None? <==> PassedFirst(ctx, 9)
    ensures err.Some? ==> !PassedFirst(ctx, |PIPELINE|)
    ensures err.Some? ==>
      exists i: nat :: 7 <= i < 9 && FirstFailure(ctx, i) && err.value == StageError(PIPELINE[i], ctx)
  {
    if model.llmService == Some("Azure") {
      if model.azureEndpoint.None? {
        err := Some(Exception("azure_endpoint is None"));
        FailureStops(ctx, 7, 9);
        return;
      }
    } else if model.llmService != Some("OpenAI") {
      err := Some(Exception("invalid llm_service"));
      FailureStops(ctx, 8, 9);
      return;
    }
    assert PassedFirst(ctx, 8);
    assert PassedFirst(ctx, 9);
    err := None;
  }

  /**
    The part of `chat_completion` that asks the language model (stages 9 and 10): the
    qa_id and line count, the mock data file in mock run mode, the reply, and the
    response shaped from it, usage counts defaulting to 0.
   */
  method Generate(ctx: Context) returns (r: Result<ResponseData>)
    requires PassedFirst(ctx, 9)
    ensures r.Ok? <==> PassedFirst(ctx, 11)
    ensures r.Ok? ==> ctx.llm.Answered? && r.value == Shaped(ctx)
    ensures r.Raise? ==> !PassedFirst(ctx, |PIPELINE|)
    ensures r.Raise? ==>
      exists i: nat :: 9 <= i < 11 && FirstFailure(ctx, i) && r.error == StageError(PIPELINE[i], ctx)
  {
    var env := ctx.env;
    var qaId := QaId(ctx.now, ctx.request.userId);
    var lines := Lines(ctx.request.userContent);
    if Lookup(env, "PRE_RUNMODE") == Some("Mock") && "PRE_MOCKDATA_FILE" !in env {
      r := Raise(Exception("PRE_MOCKDATA_FILE not defined"));
      assert FirstFailure(ctx, 9) && r.error == StageError(PIPELINE[9], ctx);
      FailureStops(ctx, 9, 11);
      return;
    }
    assert PassedFirst(ctx, 10);
    if ctx.llm.LlmRaised? {
      r := Raise(ctx.llm.error);
      assert FirstFailure(ctx, 10) && r.error == StageError(PIPELINE[10], ctx);
      FailureStops(ctx, 10, 11);
      return;
    }
    assert PassedFirst(ctx, 11);
    var completionTokens, promptTokens := 0, 0;
    if ctx.llm.usage.Some? {
      completionTokens, promptTokens := ctx.llm.usage.value.completionTokens, ctx.llm.usage.value.promptTokens;
    }
    r := Ok(ResponseData(ctx.llm.finishReason, ctx.llm.content, completionTokens, promptTokens,
                         qaId, lines, ctx.request.promptClass, ctx.request.temperature));
  }

  /**
    `chat_completion`: the first stage in pipeline order that raises decides the error
    record and status 500; when none raises, the shaped response with status 200, and
    the QA log is written to the file named after the qa_id.
   */
  method ChatCompletion(ctx: Context) returns (reply: Reply, status: int, logged: Option<string>)
    ensures status == 200 <==> reply.Completed?
    ensures reply.Failed? ==> status == 500 && logged.None?
    ensures reply.Completed? <==> PassedFirst(ctx, |PIPELINE|)
    ensures reply.Completed? ==> ctx.llm.Answered? && reply.data == Shaped(ctx)
    ensures reply.Completed? ==> "PRE_QA_LOG_DIR" in ctx.env && logged == Some(LogFile(ctx))
    ensures reply.Failed? ==>
      exists i: nat :: FirstFailure(ctx, i) && reply.error == ErrorDataOf(StageError(PIPELINE[i], ctx))
  {
    logged := None;
    var selected := SelectModel(ctx);
    if selected.Raise? {
      reply, status := Failed(ErrorDataOf(selected.error)), 500;
      ghost var i: nat :| FirstFailure(ctx, i) && selected.error == StageError(PIPELINE[i], ctx);
      return;
    }
    var invalid := CheckModel(ctx, selected.value);
    if invalid.Some? {
      reply, status := Failed(ErrorDataOf(invalid.value)), 500;
      ghost var i: nat :| FirstFailure(ctx, i) && invalid.value == StageError(PIPELINE[i], ctx);
      return;
    }
    var generated := Generate(ctx);
    if generated.Raise? {
      reply, status := Failed(ErrorDataOf(generated.error)), 500;
      ghost var i: nat :| FirstFailure(ctx, i) && generated.error == StageError(PIPELINE[i], ctx);
      return;
    }
    var env := ctx.env;
    if "PRE_QA_LOG_DIR" !in env {
      reply, status := Failed(ErrorDataOf(Exception("PRE_QA_LOG_DIR is not set."))), 500;
      assert FirstFailure(ctx, 11) && reply.error == ErrorDataOf(StageError(PIPELINE[11], ctx));
      FailureStops(ctx, 11, 13);
      return;
    }
    assert PassedFirst(ctx, 12);
    var logfile := env["PRE_QA_LOG_DIR"] + QaId(ctx.now, ctx.request.userId) + QA_LOGFILE_EXTENSION;
    if ctx.logWrite.Some? {
      reply, status := Failed(ErrorDataOf(ctx.logWrite.value)), 500;
      assert FirstFailure(ctx, 12) && reply.error == ErrorDataOf(StageError(PIPELINE[12], ctx));
      FailureStops(ctx, 12, 13);
      return;
    }
    assert PassedFirst(ctx, 13);
    logged := Some(logfile);
    reply, status := Completed(generated.value), 200;
  }

  /** At most one stage is the first to fail, so the error record is determined. */
  lemma FirstFailureUnique(ctx: Context, i: nat, j: nat)
    requires FirstFailure(ctx, i) && FirstFailure(ctx, j)
    ensures i == j
  {
    if i < j {
      PassedEach(ctx, j, i);
    } else if j < i {
      PassedEach(ctx, i, j);
    }
  }

  /** Once a stage raises, the call cannot pass the whole pipeline. */
  lemma FailureStops(ctx: Context, i: nat, n: nat)
    requires FirstFailure(ctx, i) && i < n <= |PIPELINE|
    ensures !PassedFirst(ctx, n) && !PassedFirst(ctx, |PIPELINE|)
  {
    if PassedFirst(ctx, n) {
      PassedEach(ctx, n, i);
    }
    if PassedFirst(ctx, |PIPELINE|) {
      PassedEach(ctx, |PIPELINE|, i);
    }
  }

  /** A completed call passed every stage; a stage that raises rules completion out. */
  lemma CompletedPassedAll(ctx: Context, st: Stage)
    requires PassedFirst(ctx, |PIPELINE|) && st in PIPELINE
    ensures !Fails(st, ctx)
  {
    var j :| 0 <= j < |PIPELINE| && PIPELINE[j] == st;
    PassedEach(ctx, |PIPELINE|, j);
  }

  /** Without `PRE_DEF_MODEL` nothing else is consulted: the reply is that error, whatever the rest. */
  lemma DefFileFirst(ctx: Context)
    requires "PRE_DEF_MODEL" !in ctx.env
    ensures FirstFailure(ctx, 0)
    ensures StageError(PIPELINE[0], ctx) == Exception("PRE_DEF_MODEL not defined")
  {
  }

  /** A missing or undecodable definition file reads as a table without models. */
  lemma MissingFileMeansNoModels(ctx: Context)
    requires "PRE_DEF_MODEL" in ctx.env
    requires var path := ctx.env["PRE_DEF_MODEL"];
             path !in ctx.files || ctx.files[path].Undecodable?
    ensures FirstFailure(ctx, 2)
    ensures StageError(PIPELINE[2], ctx) == Exception("model not found in table")
  {
    assert PassedFirst(ctx, 1);
    assert PassedFirst(ctx, 2);
  }

  /** Any other error opening the definition file is what the call raises, unchanged. */
  lemma UnreadableFileRaises(ctx: Context, e: PyError)
    requires "PRE_DEF_MODEL" in ctx.env
    requires var path := ctx.env["PRE_DEF_MODEL"];
             path in ctx.files && ctx.files[path] == Unreadable(e)
    ensures FirstFailure(ctx, 1)
    ensures StageError(PIPELINE[1], ctx) == e
  {
    assert PassedFirst(ctx, 1);
  }
}
