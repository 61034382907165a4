/**
 * The completion provider: it resolves the configured model name, builds the message
 * list sent to the chat-completions endpoint, and turns the decoded reply into the
 * text handed back to the bot. The HTTP round trip itself is a parameter: either the
 * decoded body, or a failure that raises.
 */
module AiProvider {
  import opened Wrappers
  import opened PyCore
  import opened PyJson

  /** The configuration values the bot and the provider read. */
  datatype Config = Config(apiKey: string, modelName: string, maxTokens: nat, maxHistoryLength: nat)

  /** Short aliases for the models the provider knows by name. */
  const Models: map<string, string> := map[
    "mythomax" := "gryphe/mythomax-l2-13b",
    "nous-hermes" := "nousresearch/hermes-3-llama-3.1-70b",
    "nous-hermes-8b" := "nousresearch/hermes-2-pro-llama-3-8b",
    "hermes-4" := "nousresearch/hermes-4-70b",
    "llama-70b" := "meta-llama/llama-2-70b-chat",
    "dolphin" := "cognitivecomputations/dolphin-mixtral-8x7b"
  ]

  /** `MODELS.get(name, name)`: an alias becomes its full model id; any other name is
      passed through as a full id. No full id is itself an alias. */
  function ResolveModel(name: string): (model: string)
    ensures name in Models ==> model == Models[name]
    ensures model != name <==> name in Models
    ensures model in Models.Values || model == name
  {
    if name in Models then Models[name] else name
  }

  /** Resolving an already resolved name changes nothing. */
  lemma ResolveModelIdempotent(name: string)
    ensures ResolveModel(ResolveModel(name)) == ResolveModel(name)
  {
    if name in Models {
      assert Models[name] in Models.Values;
    }
  }

  datatype Role = System | User | Assistant

  /** One entry of the message list, `{"role": ..., "content": ...}`. The content of
      an assistant turn is whatever the provider returned, so it is a JSON value. */
  datatype Turn = Turn(role: Role, content: Json)

  /** The payload posted to the endpoint (sampling parameters are not modelled). */
  datatype Request = Request(model: string, messages: seq<Turn>, maxTokens: nat)

  /** The outcome of the HTTP round trip: the decoded JSON body, or a failure of the
      connection or of JSON decoding, which raises out of `generate_response`. */
  datatype Transport = Received(body: Json) | Failed

  const ErrorPrefix := "Извините, произошла ошибка: "
  const UnknownError := "Unknown error"
  const NoAnswer := "Извините, не удалось получить ответ от модели."

  /** `["choices"][0]["message"]["content"]` */
  const ContentPath: seq<Key> := [Name("choices"), Position(0), Name("message"), Name("content")]

  /** What `generate_response` does with the decoded reply: it returns a value or
      raises. A reply holding `"error"` is reported before any content is looked for;
      otherwise the content is extracted, and a missing key or index on the way gives
      the fixed apology, while any other exception escapes. */
  function Classify(reply: Json): (r: PyResult<Json>)
    ensures r.Raise? ==> r.exc == TypeError || r.exc == AttributeError
  {
    match Contains(reply, "error")
    case Raise(e) => Raise(e)
    case Ok(hasError) =>
      if hasError then
        match Index(reply, Name("error"))
        case Raise(e) => Raise(e)
        case Ok(err) =>
          match Get(err, "message", JStr(UnknownError))
          case Raise(e) => Raise(e)
          case Ok(msg) => Ok(JStr(ErrorPrefix + Str(msg)))
      else
        match Path(reply, ContentPath)
        case Ok(content) => Ok(content)
        case Raise(e) => if e == KeyError || e == IndexError then Ok(JStr(NoAnswer)) else Raise(e)
  }

  /** What `generate_response` returns or raises for one round trip. */
  function Respond(t: Transport): (r: PyResult<Json>)
    ensures r == Raise(ClientError) <==> t.Failed?
    ensures t.Received? ==> r == Classify(t.body)
  {
    if t.Received? then Classify(t.body) else Raise(ClientError)
  }

  /** A reply object with an `"error"` object yields the prefixed error message, or the
      prefixed "Unknown error" when the error has no message, whatever else the reply holds. */
  lemma ProviderErrorReported(fields: seq<(string, Json)>, errFields: seq<(string, Json)>)
    requires Lookup(fields, "error") == Some(JObj(errFields))
    ensures Lookup(errFields, "message").None? ==>
              Classify(JObj(fields)) == Ok(JStr(ErrorPrefix + UnknownError))
    ensures Lookup(errFields, "message").Some? ==>
              Classify(JObj(fields)) == Ok(JStr(ErrorPrefix + Str(Lookup(errFields, "message").value)))
    ensures forall m :: Lookup(errFields, "message") == Some(JStr(m)) ==>
              Classify(JObj(fields)) == Ok(JStr(ErrorPrefix + m))
  {
  }

  /** The error check comes first: a reply holding both `"error"` and a well-formed
      `"choices"` still yields the error text, not the content. */
  lemma ErrorTakesPrecedence(fields: seq<(string, Json)>, errFields: seq<(string, Json)>, content: Json)
    requires Lookup(fields, "error") == Some(JObj(errFields))
    requires Path(JObj(fields), ContentPath) == Ok(content)
    ensures Classify(JObj(fields)).Ok?
    ensures Classify(JObj(fields)).value.JStr?
    ensures StartsWith(Classify(JObj(fields)).value.s, ErrorPrefix)
  {
    ProviderErrorReported(fields, errFields);
  }

  /** An `"error"` member that is not an object has no `get`: the reply raises. */
  lemma MalformedErrorRaises(fields: seq<(string, Json)>)
    requires Lookup(fields, "error").Some? && !Lookup(fields, "error").value.JObj?
    ensures Classify(JObj(fields)) == Raise(AttributeError)
  {
  }

  /** One named step of the content path: a present key moves on to its value, a
      missing key stops with a `KeyError`. */
  lemma PathThroughName(fields: seq<(string, Json)>, i: nat)
    requires i < |ContentPath| && ContentPath[i].Name?
    ensures Lookup(fields, ContentPath[i].name).Some? ==>
              Path(JObj(fields), ContentPath[i..]) == Path(Lookup(fields, ContentPath[i].name).value, ContentPath[i + 1..])
    ensures Lookup(fields, ContentPath[i].name).None? ==> Path(JObj(fields), ContentPath[i..]) == Raise(KeyError)
  {
    assert ContentPath[i..][1..] == ContentPath[i + 1..];
  }

  /** The positional step of the content path: the first choice, or an `IndexError`. */
  lemma PathThroughFirst(items: seq<Json>)
    ensures |items| > 0 ==> Path(JArr(items), ContentPath[1..]) == Path(items[0], ContentPath[2..])
    ensures items == [] ==> Path(JArr(items), ContentPath[1..]) == Raise(IndexError)
  {
    assert ContentPath[1..][1..] == ContentPath[2..];
  }

  /** Without `"error"`, a reply whose first choice holds a message object with a
      content yields that content, unchanged. */
  lemma ContentExtracted(fields: seq<(string, Json)>, choices: seq<Json>, first: seq<(string, Json)>,
                         message: seq<(string, Json)>, content: Json)
    requires Lookup(fields, "error").None?
    requires Lookup(fields, "choices") == Some(JArr(choices))
    requires |choices| > 0 && choices[0] == JObj(first)
    requires Lookup(first, "message") == Some(JObj(message))
    requires Lookup(message, "content") == Some(content)
    ensures Classify(JObj(fields)) == Ok(content)
  {
    PathThroughName(fields, 0);
    PathThroughFirst(choices);
    PathThroughName(first, 2);
    PathThroughName(message, 3);
    assert ContentPath[4..] == [];
    assert ContentPath[0..] == ContentPath;
    PathFoundYields(fields, content);
  }

  /** The smallest successful completion: one choice whose message holds `content`. */
  function CompletionReply(content: Json): Json
  {
    JObj([("choices", JArr([JObj([("message", JObj([("content", content)]))])]))])
  }

  lemma CompletionReplyYieldsContent(content: Json)
    ensures Classify(CompletionReply(content)) == Ok(content)
  {
    var message := [("content", content)];
    var first := [("message", JObj(message))];
    var fields := [("choices", JArr([JObj(first)]))];
    assert Lookup(fields, "error") == None by {
      assert Lookup(fields[..0], "error") == None;
    }
    assert Lookup(fields, "choices") == Some(JArr([JObj(first)]));
    assert Lookup(first, "message") == Some(JObj(message));
    assert Lookup(message, "content") == Some(content);
    ContentExtracted(fields, [JObj(first)], first, message, content);
  }

  /** Without `"error"`, the value at the content path is the result. */
  lemma PathFoundYields(fields: seq<(string, Json)>, content: Json)
    requires Lookup(fields, "error").None?
    requires Path(JObj(fields), ContentPath) == Ok(content)
    ensures Classify(JObj(fields)) == Ok(content)
  {
  }

  /** Without `"error"`, a missing key or index on the content path gives the apology. */
  lemma PathMissingApologises(fields: seq<(string, Json)>)
    requires Lookup(fields, "error").None?
    requires Path(JObj(fields), ContentPath) == Raise(KeyError) || Path(JObj(fields), ContentPath) == Raise(IndexError)
    ensures Classify(JObj(fields)) == Ok(JStr(NoAnswer))
  {
  }

  /** A first choice without `"message"`: the path stops with a `KeyError`. */
  lemma MissingMessageApologises(fields: seq<(string, Json)>, choices: seq<Json>, first: seq<(string, Json)>)
    requires Lookup(fields, "error").None?
    requires Lookup(fields, "choices") == Some(JArr(choices)) && |choices| > 0
    requires choices[0] == JObj(first) && Lookup(first, "message").None?
    ensures Classify(JObj(fields)) == Ok(JStr(NoAnswer))
  {
    PathThroughName(fields, 0);
    PathThroughFirst(choices);
    PathThroughName(first, 2);
    assert ContentPath[0..] == ContentPath;
    PathMissingApologises(fields);
  }

  /** A message without `"content"`: the path stops with a `KeyError`. */
  lemma MissingContentFieldApologises(fields: seq<(string, Json)>, choices: seq<Json>, first: seq<(string, Json)>,
                                      message: seq<(string, Json)>)
    requires Lookup(fields, "error").None?
    requires Lookup(fields, "choices") == Some(JArr(choices)) && |choices| > 0
    requires choices[0] == JObj(first) && Lookup(first, "message") == Some(JObj(message))
    requires Lookup(message, "content").None?
    ensures Classify(JObj(fields)) == Ok(JStr(NoAnswer))
  {
    PathThroughName(fields, 0);
    PathThroughFirst(choices);
    PathThroughName(first, 2);
    PathThroughName(message, 3);
    assert ContentPath[0..] == ContentPath;
    PathMissingApologises(fields);
  }

  /** Without `"error"`, a reply object missing `"choices"`, with an empty `"choices"`
      list, whose first choice has no `"message"`, or whose message has no `"content"`,
      yields the fixed apology and raises nothing. */
  lemma MissingContentApologises(fields: seq<(string, Json)>)
    requires Lookup(fields, "error").None?
    requires || Lookup(fields, "choices").None?
             || Lookup(fields, "choices") == Some(JArr([]))
             || (exists choices: seq<Json>, first: seq<(string, Json)> ::
                   Lookup(fields, "choices") == Some(JArr(choices)) && |choices| > 0 &&
                   choices[0] == JObj(first) && Lookup(first, "message").None?)
             || (exists choices: seq<Json>, first: seq<(string, Json)>, message: seq<(string, Json)> ::
                   Lookup(fields, "choices") == Some(JArr(choices)) && |choices| > 0 &&
                   choices[0] == JObj(first) && Lookup(first, "message") == Some(JObj(message)) &&
                   Lookup(message, "content").None?)
    ensures Classify(JObj(fields)) == Ok(JStr(NoAnswer))
  {
    if Lookup(fields, "choices").None? {
      assert Path(JObj(fields), ContentPath) == Raise(KeyError);
      PathMissingApologises(fields);
    } else if Lookup(fields, "choices") == Some(JArr([])) {
      PathThroughName(fields, 0);
      PathThroughFirst([]);
      assert ContentPath[0..] == ContentPath;
      PathMissingApologises(fields);
    } else if exists choices: seq<Json>, first: seq<(string, Json)> ::
                Lookup(fields, "choices") == Some(JArr(choices)) && |choices| > 0 &&
                choices[0] == JObj(first) && Lookup(first, "message").None? {
      var choices: seq<Json>, first: seq<(string, Json)> :|
        Lookup(fields, "choices") == Some(JArr(choices)) && |choices| > 0 &&
        choices[0] == JObj(first) && Lookup(first, "message").None?;
      MissingMessageApologises(fields, choices, first);
    } else {
      var choices: seq<Json>, first: seq<(string, Json)>, message: seq<(string, Json)> :|
        Lookup(fields, "choices") == Some(JArr(choices)) && |choices| > 0 &&
        choices[0] == JObj(first) && Lookup(first, "message") == Some(JObj(message)) &&
        Lookup(message, "content").None?;
      MissingContentFieldApologises(fields, choices, first, message);
    }
  }

  /** A reply that is not a JSON object always raises (a `TypeError`): a number, a
      boolean or `null` is not searchable with `in`, and a list or a string cannot be
      subscripted with `"error"` or `"choices"`. */
  lemma NonObjectReplyRaises(reply: Json)
    requires !reply.JObj?
    ensures Classify(reply) == Raise(TypeError)
  {
  }

  /** Every value `generate_response` returns without raising is one of three things:
      the prefixed provider error, the fixed apology, or the value found at the content
      path of the reply. */
  lemma ClassifyOutcomes(reply: Json)
    ensures Classify(reply).Ok? ==>
              || (Classify(reply).value.JStr? && StartsWith(Classify(reply).value.s, ErrorPrefix))
              || Classify(reply).value == JStr(NoAnswer)
              || Path(reply, ContentPath) == Classify(reply)
  {
    match Contains(reply, "error")
    case Raise(_) =>
    case Ok(hasError) =>
      if hasError {
        match Index(reply, Name("error"))
        case Raise(_) =>
        case Ok(err) =>
          match Get(err, "message", JStr(UnknownError))
          case Raise(_) =>
          case Ok(msg) =>
            assert (ErrorPrefix + Str(msg))[..|ErrorPrefix|] == ErrorPrefix;
      }
  }

  /** The provider object: it reads the configuration once, at construction. */
  class OpenRouterProvider {
    const apiKey: string
    const model: string
    const maxTokens: nat
    const maxHistoryLength: nat

    constructor (config: Config)
      ensures apiKey == config.apiKey && model == ResolveModel(config.modelName)
      ensures maxTokens == config.maxTokens && maxHistoryLength == config.maxHistoryLength
    {
      apiKey := config.apiKey;
      model := ResolveModel(config.modelName);
      maxTokens := config.maxTokens;
      maxHistoryLength := config.maxHistoryLength;
    }

    /** One call: the posted request and what the call returns or raises. The message
        list is the system turn, then the last `maxHistoryLength` history turns in their
        order, then the user turn; when `maxHistoryLength` is 0, Python's `[-0:]` sends
        the whole history. */
    method GenerateResponse(systemPrompt: string, history: seq<Turn>, userMessage: string, transport: Transport)
      returns (request: Request, response: PyResult<Json>)
      ensures request.model == model && request.maxTokens == maxTokens
      ensures |request.messages| >= 2
      ensures request.messages[0] == Turn(System, JStr(systemPrompt))
      ensures request.messages[|request.messages| - 1] == Turn(User, JStr(userMessage))
      ensures maxHistoryLength >= 1 ==>
                && |request.messages| == 2 + Min(maxHistoryLength, |history|)
                && request.messages[1..|request.messages| - 1] == Last(history, maxHistoryLength)
      ensures maxHistoryLength == 0 ==> request.messages[1..|request.messages| - 1] == history
      ensures response == Respond(transport)
    {
      var messages := [Turn(System, JStr(systemPrompt))];
      var window := SliceFrom(history, -(maxHistoryLength as int));
      messages := messages + window;
      messages := messages + [Turn(User, JStr(userMessage))];
      assert messages[1..|messages| - 1] == window;
      if maxHistoryLength >= 1 {
        SliceFromNegative(history, maxHistoryLength);
      }
      request := Request(model, messages, maxTokens);
      response := Respond(transport);
    }
  }

}
