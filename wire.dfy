/**
  The request records as they travel from the frontend to the backend: the object
  literal the component builds, `JSON.stringify`, and the route reading it key by key.
  A property whose value is `undefined` does not reach the server, which then answers
  with a `KeyError` for it.
 */
module Wire {
  import opened Json
  import opened PyErrors
  import opened Session
  import opened App
  import Question
  import Answer

  /** A defined property reaches the server under its own name, encoded. */
  lemma Arrives(fields: seq<(string, Json)>, i: nat)
    requires DistinctKeys(fields) && i < |fields| && fields[i].1 != Undefined
    ensures fields[i].0 in Stringify(fields) && Stringify(fields)[fields[i].0] == Encode(fields[i].1)
  {
    StringifyMembers(fields, i);
  }

  /** With the system prompt configured and every slot defined, the route reads back what was sent, each slot encoded. */
  lemma ChatRoundTrip(systemContent: string, userContent: Json, temperature: real,
                      promptClass: string, userId: string, selectedModel: Json)
    requires userContent != Undefined && selectedModel != Undefined
    ensures var fields := Question.ChatRequest(Some(systemContent), userContent, temperature,
                                               promptClass, userId, selectedModel);
            DecodeChatRecord(Stringify(fields))
            == Ok(ChatRecord(Str(systemContent), Encode(userContent), Num(temperature),
                             Str(promptClass), Str(userId), Encode(selectedModel)))
  {
    var fields := Question.ChatRequest(Some(systemContent), userContent, temperature,
                                       promptClass, userId, selectedModel);
    Arrives(fields, 0);
    Arrives(fields, 1);
    Arrives(fields, 2);
    Arrives(fields, 3);
    Arrives(fields, 4);
    Arrives(fields, 5);
    ChatRead(Stringify(fields), Str(systemContent), Encode(userContent), Num(temperature),
             Str(promptClass), Str(userId), Encode(selectedModel));
  }

  /** A body holding the six keys decodes to the record of their values. */
  lemma ChatRead(body: map<string, Json>, systemContent: Json, userContent: Json, temperature: Json,
                 promptClass: Json, userId: Json, selectedModel: Json)
    requires "system_content" in body && body["system_content"] == systemContent
    requires "user_content" in body && body["user_content"] == userContent
    requires "temperature" in body && body["temperature"] == temperature
    requires "prompt_class" in body && body["prompt_class"] == promptClass
    requires "user_id" in body && body["user_id"] == userId
    requires "selected_model" in body && body["selected_model"] == selectedModel
    ensures DecodeChatRecord(body)
            == Ok(ChatRecord(systemContent, userContent, temperature, promptClass, userId, selectedModel))
  {
  }

  /** Slots that hold no `undefined` anywhere, as every string and every parsed value, come back exactly. */
  lemma ChatRoundTripExact(systemContent: string, userContent: Json, temperature: real,
                           promptClass: string, userId: string, selectedModel: Json)
    requires FullyDefined(userContent) && FullyDefined(selectedModel)
    ensures var fields := Question.ChatRequest(Some(systemContent), userContent, temperature,
                                               promptClass, userId, selectedModel);
            DecodeChatRecord(Stringify(fields))
            == Ok(ChatRecord(Str(systemContent), userContent, Num(temperature),
                             Str(promptClass), Str(userId), selectedModel))
  {
    ChatRoundTrip(systemContent, userContent, temperature, promptClass, userId, selectedModel);
    EncodeIdentity(userContent);
    EncodeIdentity(selectedModel);
  }

  /** Without `NEXT_PUBLIC_SYSTEM_CONTENT` every ask is answered with `KeyError: 'system_content'`. */
  lemma SystemContentUnset(userContent: Json, temperature: real, promptClass: string,
                           userId: string, selectedModel: Json)
    ensures var fields := Question.ChatRequest(None, userContent, temperature, promptClass, userId, selectedModel);
            DecodeChatRecord(Stringify(fields)) == Raise(KeyError("system_content"))
  {
    var fields := Question.ChatRequest(None, userContent, temperature, promptClass, userId, selectedModel);
    StringifyMembers(fields, 0);
    assert FirstMissing(Stringify(fields), CHAT_KEYS) == Some(0);
  }

  /**
    A model list whose first entry has no `name` selects `undefined`. The Ask Question
    guard tests only null and "", so the ask goes out, and the server answers with
    `KeyError: 'selected_model'`.
   */
  lemma UnnamedModelReachesServer(systemContent: string, entry: map<string, Json>, rest: seq<Json>,
                                  userContent: Json, temperature: real, promptClass: string, userId: string)
    requires "name" !in entry
    requires userContent.Str? && userContent != Str("") && promptClass != ""
    ensures Question.FirstModelName(Arr([Obj(entry)] + rest)) == Value(Undefined)
    ensures !Question.AskDisabled(userContent, promptClass, Undefined, false)
    ensures var fields := Question.ChatRequest(Some(systemContent), userContent, temperature,
                                               promptClass, userId, Undefined);
            DecodeChatRecord(Stringify(fields)) == Raise(KeyError("selected_model"))
  {
    var fields := Question.ChatRequest(Some(systemContent), userContent, temperature,
                                       promptClass, userId, Undefined);
    var body := Stringify(fields);
    forall j | 0 <= j < 5
      ensures CHAT_KEYS[j] in body
    {
      assert CHAT_KEYS[j] == fields[j].0 && fields[j].1 != Undefined;
      StringifyMembers(fields, j);
    }
    StringifyMembers(fields, 5);
    assert CHAT_KEYS[5] == fields[5].0 && CHAT_KEYS[5] !in body;
    assert FirstMissing(body, CHAT_KEYS) == Some(5);
  }

  /** With every completion slot defined, the evaluation route reads back what was sent, each slot encoded. */
  lemma EvaluationRoundTrip(c: Completion, promptClass: string, temperature: real, rating: real, comment: string)
    requires c.qaId != Undefined && c.lines != Undefined
    requires c.completionTokens != Undefined && c.promptTokens != Undefined
    ensures var fields := Answer.EvaluationRequest(c, promptClass, temperature, rating, comment);
            DecodeEvaluationRecord(Stringify(fields))
            == Ok(EvaluationRecord(Encode(c.qaId), Encode(c.lines), Str(promptClass), Num(temperature),
                                   Encode(c.completionTokens), Encode(c.promptTokens), Num(rating), Str(comment)))
  {
    var fields := Answer.EvaluationRequest(c, promptClass, temperature, rating, comment);
    Arrives(fields, 0);
    Arrives(fields, 1);
    Arrives(fields, 2);
    Arrives(fields, 3);
    Arrives(fields, 4);
    Arrives(fields, 5);
    Arrives(fields, 6);
    Arrives(fields, 7);
    EvaluationRead(Stringify(fields), Encode(c.qaId), Encode(c.lines), Str(promptClass), Num(temperature),
                   Encode(c.completionTokens), Encode(c.promptTokens), Num(rating), Str(comment));
  }

  /** A body holding the eight keys decodes to the record of their values. */
  lemma EvaluationRead(body: map<string, Json>, qaId: Json, lines: Json, promptClass: Json, temperature: Json,
                       completionTokens: Json, promptTokens: Json, rating: Json, comment: Json)
    requires "qa_id" in body && body["qa_id"] == qaId && "lines" in body && body["lines"] == lines
    requires "prompt_class" in body && body["prompt_class"] == promptClass
    requires "temperature" in body && body["temperature"] == temperature
    requires "completion_tokens" in body && body["completion_tokens"] == completionTokens
    requires "prompt_tokens" in body && body["prompt_tokens"] == promptTokens
    requires "rating" in body && body["rating"] == rating && "comment" in body && body["comment"] == comment
    ensures DecodeEvaluationRecord(body)
            == Ok(EvaluationRecord(qaId, lines, promptClass, temperature, completionTokens, promptTokens, rating, comment))
  {
  }

  /** Completion slots that hold no `undefined` anywhere come back exactly. */
  lemma EvaluationRoundTripExact(c: Completion, promptClass: string, temperature: real, rating: real, comment: string)
    requires FullyDefined(c.qaId) && FullyDefined(c.lines)
    requires FullyDefined(c.completionTokens) && FullyDefined(c.promptTokens)
    ensures var fields := Answer.EvaluationRequest(c, promptClass, temperature, rating, comment);
            DecodeEvaluationRecord(Stringify(fields))
            == Ok(EvaluationRecord(c.qaId, c.lines, Str(promptClass), Num(temperature),
                                   c.completionTokens, c.promptTokens, Num(rating), Str(comment)))
  {
    EvaluationRoundTrip(c, promptClass, temperature, rating, comment);
    EncodeIdentity(c.qaId);
    EncodeIdentity(c.lines);
    EncodeIdentity(c.completionTokens);
    EncodeIdentity(c.promptTokens);
  }

  /**
    A completion body with `qa_id` but without `lines` leaves the lines slot undefined,
    and the evaluation sent from it is answered with `KeyError: 'lines'`.
   */
  lemma CompletionWithoutLines(payload: map<string, Json>, promptClass: string, temperature: real,
                               rating: real, comment: string)
    requires Decoded(payload) && "qa_id" in payload && "lines" !in payload
    ensures var c := Question.CompletionFrom(payload);
            var fields := Answer.EvaluationRequest(c, promptClass, temperature, rating, comment);
            DecodeEvaluationRecord(Stringify(fields)) == Raise(KeyError("lines"))
  {
    var c := Question.CompletionFrom(payload);
    var fields := Answer.EvaluationRequest(c, promptClass, temperature, rating, comment);
    Arrives(fields, 0);
    StringifyMembers(fields, 1);
    assert FirstMissing(Stringify(fields), EVALUATION_KEYS) == Some(1);
  }
}
