/**
 * The parse handler `parse()` (app.py:96-140) put together from its steps:
 * sanitise, pick the level, decide on translation, build the content for the
 * external model, and turn its reply into the HTTP response.
 */
module ParseEndpoint {
  import opened Wrappers
  import opened Text
  import opened JsonValue
  import opened Http
  import opened Sanitizer
  import opened Prompt
  import opened Normalizer

  /**
   * The parse request's fields: `sentence` already defaulted to `""` when
   * missing, and `level` None when it is missing or a JSON value that is
   * neither a string nor an array or object: a number, a boolean or null is
   * hashable, is not a key of the table, and so falls back like an unknown
   * name. An array or object level makes `in` raise TypeError, and that
   * request is not modelled.
   */
  datatype ParseRequest = ParseRequest(sentence: string, level: Option<string>)

  /** What the handler has settled on before it calls the model. */
  datatype ParseCall = ParseCall(sentence: string, level: string, translate: bool, content: string)

  /** The error text of app.py:138. */
  const InvalidJson := "AI response was not valid JSON. Please try again."

  /** app.py:98-122 up to the model call: a 400 reply, or the settings and the content to send. */
  function PrepareParse(request: ParseRequest, isLo: char -> bool): (r: Result<ParseCall, Response>)
    ensures r.Failure? <==> Sanitize(request.sentence).Failure?
    ensures r.Failure? ==> r.error == ErrorResponse(400, Sanitize(request.sentence).error)
    ensures r.Success? ==>
              r.value.sentence == Sanitize(request.sentence).value
              && r.value.level == SelectLevel(request.level)
              && r.value.translate == NeedsTranslation(r.value.sentence, isLo)
              && r.value.content == BuildPrompt(r.value.sentence, r.value.level, r.value.translate) + r.value.sentence
  {
    match Sanitize(request.sentence)
    case Failure(message) => Failure(ErrorResponse(400, message))
    case Success(sentence) =>
      var level := SelectLevel(request.level);
      var translate := NeedsTranslation(sentence, isLo);
      Success(ParseCall(sentence, level, translate, BuildPrompt(sentence, level, translate) + sentence))
  }

  /**
   * app.py:124-140 once the model has answered or raised: `loads` stands for
   * `json.loads`, None meaning it raised `JSONDecodeError`.
   */
  function CompleteParse(sentence: string, reply: Upstream, loads: string -> Option<Json>): (resp: Response)
    ensures reply.Raised? ==> resp == ErrorResponse(500, reply.message)
    ensures reply.Replied? && loads(StripFences(Strip(reply.text))).None? ==> resp == ErrorResponse(500, InvalidJson)
    ensures reply.Replied? && loads(StripFences(Strip(reply.text))).Some? ==>
              resp == Response(200, Normalize(sentence, loads(StripFences(Strip(reply.text))).value))
    ensures resp.status == 200 || resp.status == 500
    ensures resp.status == 200 ==> HasKey(resp.body, "sentences")
  {
    match reply
    case Raised(message) => ErrorResponse(500, message)
    case Replied(text) =>
      match loads(StripFences(Strip(text)))
      case None => ErrorResponse(500, InvalidJson)
      case Some(parsed) => Response(200, Normalize(sentence, parsed))
  }

  /** `parse()`, with `model` standing for the external model applied to the content. */
  function HandleParse(request: ParseRequest, isLo: char -> bool, model: string -> Upstream,
                       loads: string -> Option<Json>): Response
  {
    match PrepareParse(request, isLo)
    case Failure(rejection) => rejection
    case Success(call) => CompleteParse(call.sentence, model(call.content), loads)
  }

  /** Every reply is 200, 400 or 500, and a 200 reply always carries `sentences`. */
  lemma ResponseShape(request: ParseRequest, isLo: char -> bool, model: string -> Upstream,
                      loads: string -> Option<Json>)
    ensures var resp := HandleParse(request, isLo, model, loads);
            (resp.status == 200 || resp.status == 400 || resp.status == 500)
            && (resp.status == 200 ==> HasKey(resp.body, "sentences"))
            && (resp.status == 400 <==> Sanitize(request.sentence).Failure?)
  {
  }

  /** A rejected sentence is answered with 400 whatever the model and the JSON parser would do. */
  lemma RejectedBeforeModel(request: ParseRequest, isLo: char -> bool,
                            m1: string -> Upstream, m2: string -> Upstream,
                            l1: string -> Option<Json>, l2: string -> Option<Json>)
    requires Sanitize(request.sentence).Failure?
    ensures HandleParse(request, isLo, m1, l1) == HandleParse(request, isLo, m2, l2)
    ensures HandleParse(request, isLo, m1, l1).status == 400
    ensures AllSpaces(request.sentence) ==> HandleParse(request, isLo, m1, l1) == ErrorResponse(400, NoSentence)
    ensures !AllSpaces(request.sentence) ==> HandleParse(request, isLo, m1, l1) == ErrorResponse(400, NoValidText)
  {
  }

  /**
   * The content sent to the model (app.py:122) is the prompt, with the level
   * block and the translation setting, followed by the sentence.
   */
  lemma ContentSent(sentence: string, level: string, translate: bool)
    ensures var content := BuildPrompt(sentence, level, translate) + sentence;
            EndsWith(content, sentence)
            && Contains(content, LevelInstruction(level))
            && (translate ==> Contains(content, NotEnglishInstruction))
            && (!translate ==> Contains(content, EnglishInstruction))
  {
    var prompt := BuildPrompt(sentence, level, translate);
    PromptEmbedsLevel(sentence, level, translate);
    if translate {
      PromptTranslated(sentence, level);
      ContentParts(prompt, sentence, LevelInstruction(level), NotEnglishInstruction);
    } else {
      PromptInEnglish(sentence, level);
      ContentParts(prompt, sentence, LevelInstruction(level), EnglishInstruction);
    }
  }

  /** Appending the sentence keeps what the prompt contains, and the content ends with the sentence. */
  lemma ContentParts(prompt: string, sentence: string, a: string, b: string)
    requires Contains(prompt, a) && Contains(prompt, b)
    ensures EndsWith(prompt + sentence, sentence)
    ensures Contains(prompt + sentence, a) && Contains(prompt + sentence, b)
  {
    assert (prompt + sentence)[|prompt|..] == sentence;
    ContainsPrefix(prompt, sentence, a);
    ContainsPrefix(prompt, sentence, b);
  }

  /** Text found in a prefix is found in the whole. */
  lemma ContainsPrefix(a: string, b: string, t: string)
    requires Contains(a, t)
    ensures Contains(a + b, t)
  {
    var i :| 0 <= i <= |a| - |t| && OccursAt(a, t, i);
    assert (a + b)[i..i + |t|] == a[i..i + |t|];
    assert OccursAt(a + b, t, i);
  }

  /** A reply in a `json` fence is parsed from the text inside the fence. */
  lemma FencedReply(sentence: string, w0: string, w1: string, body: string, w2: string, w3: string,
                    loads: string -> Option<Json>)
    requires AllSpaces(w0) && AllSpaces(w1) && AllSpaces(w2) && AllSpaces(w3)
    requires Trimmed(body) && body != []
    ensures var resp := CompleteParse(sentence, Replied(w0 + JsonFence + w1 + body + w2 + Fence + w3), loads);
            (loads(body).None? ==> resp == ErrorResponse(500, InvalidJson))
            && (loads(body).Some? ==> resp == Response(200, Normalize(sentence, loads(body).value)))
  {
    FenceRoundTrip(w0, w1, body, w2, w3);
  }
}
