/**
 * The backend's Gemini wrapper (`GeminiService`): reading and validating the
 * API key when the service starts, and the two generation calls that turn any
 * failure into an error string.
 *
 * The generative model is an oracle: a function from a request to either the
 * text it produced or the message of the exception it raised. Requests carry
 * their inputs rather than the prompt wording built around them.
 */
module AiService {
  import opened Base
  import opened Text

  datatype AiRequest =
    | Categorize(emailContent: string)
    | Summarize(emailContent: string)
    | ExtractActionItems(emailContent: string)
    | Respond(context: string, query: string)
    | DraftReply(original: string, instruction: string)
    | ConnectionTest

  datatype AiReply = Replied(text: string) | Raised(message: string)

  type Model = AiRequest -> AiReply

  /** A configured service: the model it calls. */
  datatype GeminiService = GeminiService(model: Model)

  const MinKeyLength := 30
  const KeyNotFound := "GEMINI_API_KEY not found in environment variables. Check backend/.env file."

  function KeyTooShort(length: nat): string
  {
    "GEMINI_API_KEY seems too short (" + NatToString(length) + " chars). Check if it's complete."
  }

  function ConfigureFailed(message: string): string
  {
    "Failed to configure Gemini API: " + message
  }

  /** Whitespace, then double quotes, then single quotes removed from both ends. */
  function NormaliseKey(raw: string): string
  {
    PyStripChar(PyStripChar(PyStrip(raw), '"'), '\'')
  }

  /** `api_key` once cleaned: an empty variable is falsy and is left as it is. */
  function CleanedKey(env: Option<string>): Option<string>
  {
    if env.Some? && env.value != "" then Some(NormaliseKey(env.value)) else env
  }

  /** The checks on the cleaned key: the key, or the message of the `ValueError` raised. */
  function Validated(key: Option<string>): (r: Result<string, string>)
    ensures r.Ok? <==> key.Some? && |key.value| >= MinKeyLength
    ensures r.Ok? ==> r.value == key.value
    ensures key.None? || key.value == "" ==> r == Err(KeyNotFound)
  {
    if key.None? || key.value == "" then Err(KeyNotFound)
    else if |key.value| < MinKeyLength then Err(KeyTooShort(|key.value|))
    else Ok(key.value)
  }

  /** The key check of `__init__`, from the environment variable. */
  function CheckKey(env: Option<string>): (r: Result<string, string>)
    ensures r.Ok? ==> env.Some? && r.value == NormaliseKey(env.value) && |r.value| >= MinKeyLength
    ensures env.None? ==> r == Err(KeyNotFound)
  {
    Validated(CleanedKey(env))
  }

  /** What constructing the service yields: the service, or the message of the `ValueError` it raises. */
  function Started(env: Option<string>, model: Model): Result<GeminiService, string>
  {
    match CheckKey(env)
    case Err(message) => Err(message)
    case Ok(_) =>
      match model(ConnectionTest)
      case Raised(message) => Err(ConfigureFailed(message))
      case Replied(_) => Ok(GeminiService(model))
  }

  /** The start of `__init__`: a set variable is stripped of whitespace, then of each kind of quote. */
  method CleanKey(env: Option<string>) returns (apiKey: Option<string>)
    ensures apiKey == CleanedKey(env)
  {
    apiKey := env;
    if apiKey.Some? && apiKey.value != "" {
      var k := PyStrip(apiKey.value);
      k := PyStripChar(k, '"');
      k := PyStripChar(k, '\'');
      apiKey := Some(k);
    }
  }

  /** The two `raise` statements guarding the key. */
  method ValidateKey(apiKey: Option<string>) returns (r: Result<string, string>)
    ensures r == Validated(apiKey)
  {
    if apiKey.None? || apiKey.value == "" {
      return Err(KeyNotFound);
    }
    if |apiKey.value| < MinKeyLength {
      return Err(KeyTooShort(|apiKey.value|));
    }
    r := Ok(apiKey.value);
  }

  /** `__init__`: the key is cleaned and validated, and the model tested once. */
  method Init(env: Option<string>, model: Model) returns (r: Result<GeminiService, string>)
    ensures r == Started(env, model)
  {
    var apiKey := CleanKey(env);
    var checked := ValidateKey(apiKey);
    if checked.Err? {
      return Err(checked.error);
    }
    var test := model(ConnectionTest);
    if test.Raised? {
      return Err(ConfigureFailed(test.message));
    }
    r := Ok(GeminiService(model));
  }

  /** `generate_response`: the model's text, or "Error: " and the exception's message. */
  function GenerateResponse(service: GeminiService, context: string, query: string): (r: string)
    ensures service.model(Respond(context, query)).Replied? ==> r == service.model(Respond(context, query)).text
    ensures service.model(Respond(context, query)).Raised?
            ==> r == "Error: " + service.model(Respond(context, query)).message
  {
    match service.model(Respond(context, query))
    case Replied(text) => text
    case Raised(message) => "Error: " + message
  }

  /** `generate_draft`: the model's text, or "Error generating draft: " and the exception's message. */
  function GenerateDraft(service: GeminiService, original: string, instruction: string): (r: string)
    ensures service.model(DraftReply(original, instruction)).Replied?
            ==> r == service.model(DraftReply(original, instruction)).text
    ensures service.model(DraftReply(original, instruction)).Raised?
            ==> r == "Error generating draft: " + service.model(DraftReply(original, instruction)).message
  {
    match service.model(DraftReply(original, instruction))
    case Replied(text) => text
    case Raised(message) => "Error generating draft: " + message
  }

  // ---------------------------------------------------------------- properties

  /** The normalised key is a contiguous part of the raw value. */
  lemma NormalisedKeyIsPart(raw: string)
    ensures Contains(raw, NormaliseKey(raw))
  {
    var a := PyStrip(raw);
    var b := PyStripChar(a, '"');
    StripIsPart(raw, IsPySpace);
    StripIsPart(a, x => x == '"');
    StripIsPart(b, x => x == '\'');
    ContainsTransitive(raw, a, b);
    ContainsTransitive(raw, b, NormaliseKey(raw));
  }

  /** Normalising removes surrounding whitespace, then surrounding quotes of either kind. */
  lemma QuotedKeyNormalises(space: string, quote: char, key: string)
    requires forall i :: 0 <= i < |space| ==> IsPySpace(space[i])
    requires quote == '"' || quote == '\''
    requires key != [] && key[0] !in " \"'" && key[|key| - 1] !in " \"'"
    ensures NormaliseKey(space + [quote] + key + [quote] + space) == key
  {
    var quoted := [quote] + key + [quote];
    assert space + [quote] + key + [quote] + space == space + quoted + space;
    StripWrapped(space, quoted, space, IsPySpace);
    assert PyStrip(space + quoted + space) == quoted;
    var other := if quote == '"' then '\'' else '"';
    assert key[0] != quote && key[|key| - 1] != quote && key[0] != other && key[|key| - 1] != other;
    StripCharWrapped(key, quote);
    StripCharKeeps(key, other);
    StripCharKeeps(quoted, other);
  }

  /** A value of only double quotes inside whitespace, such as `""`, counts as missing. */
  lemma EmptyQuotesAreMissing(space: string, quotes: string)
    requires forall i :: 0 <= i < |space| ==> IsPySpace(space[i])
    requires forall i :: 0 <= i < |quotes| ==> quotes[i] == '"'
    requires space + quotes + space != ""
    ensures CheckKey(Some(space + quotes + space)) == Err(KeyNotFound)
  {
    var raw := space + quotes + space;
    if quotes == [] {
      assert raw == space + space;
      forall i | 0 <= i < |raw|
        ensures IsPySpace(raw[i])
      {
        if i >= |space| {
          assert raw[i] == space[i - |space|];
        }
      }
      StripEmptyIff(raw, IsPySpace);
      assert PyStrip(raw) == [];
      StripCharKeeps([], '"');
    } else {
      StripWrapped(space, quotes, space, IsPySpace);
      assert PyStrip(raw) == quotes;
      StripEmptyIff(quotes, x => x == '"');
      assert PyStripChar(quotes, '"') == [];
    }
    StripCharKeeps([], '\'');
    assert NormaliseKey(raw) == "";
  }

  /** A normalised key of fewer than 30 characters is refused with its length in the message. */
  lemma ShortKeyRefused(raw: string)
    requires NormaliseKey(raw) != "" && |NormaliseKey(raw)| < MinKeyLength && raw != ""
    ensures CheckKey(Some(raw)) == Err(KeyTooShort(|NormaliseKey(raw)|))
  {
  }

  /** The service starts exactly when the key passes and the connection test replies. */
  lemma StartedIff(env: Option<string>, model: Model)
    ensures Started(env, model).Ok? <==> CheckKey(env).Ok? && model(ConnectionTest).Replied?
    ensures Started(env, model).Ok? ==> Started(env, model).value.model == model
  {
  }
}
