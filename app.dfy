/** The `/generate` endpoint: validates the decoded JSON body, forwards a
    valid request to the manager and chooses the HTTP status. */
module App {
  import opened Values
  import opened Providers
  import opened LlmManager

  const NoBodyMessage: string := "No JSON body provided"
  const RequiredMessage: string := "Prompt, provider, and model are required"
  const InvalidProviderMessage: string := "Invalid provider"

  /** The providers the endpoint accepts. */
  const KnownProviders: seq<string> := ["mistral", "huggingface", "gemini"]

  /** The value `temperature` and `top_p` take when the body omits them. */
  const DefaultSampling: Value := Number(1.0)

  /** What the endpoint decides from the body alone. */
  datatype Decision =
    | BadRequest(message: string)
      // `data.get` on a truthy JSON value that is not an object raises, and Flask answers 500
    | ServerError
    | Dispatch(prompt: Value, provider: string, model: Value, temperature: Value, topP: Value)

  /** `prompt`, `provider` and `model` are all present and truthy. */
  predicate HasRequiredFields(fields: map<string, Value>) {
    Truthy(Get(fields, "prompt", String("")))
    && Truthy(Get(fields, "provider", String("")))
    && Truthy(Get(fields, "model", String("")))
  }

  /** `provider in ["mistral", "huggingface", "gemini"]`. */
  predicate KnownProvider(v: Value) {
    v.String? && v.s in KnownProviders
  }

  /** The validation chain of `generate`, in the order the source checks it. */
  function Validate(body: Option<Value>): (d: Decision)
    ensures body.None? || !Truthy(body.value) ==> d == BadRequest(NoBodyMessage)
    ensures d.ServerError? <==> body.Some? && Truthy(body.value) && !body.value.Object?
    ensures d.Dispatch? <==>
      body.Some? && body.value.Object? && HasRequiredFields(body.value.fields)
      && KnownProvider(body.value.fields["provider"])
    ensures d.Dispatch? ==>
      var fields := body.value.fields;
      d.prompt == fields["prompt"] && d.model == fields["model"]
      && String(d.provider) == fields["provider"] && d.provider in KnownProviders
      && d.temperature == Get(fields, "temperature", DefaultSampling)
      && d.topP == Get(fields, "top_p", DefaultSampling)
    ensures d.BadRequest? ==> d.message in {NoBodyMessage, RequiredMessage, InvalidProviderMessage}
  {
    if body.None? || !Truthy(body.value) then BadRequest(NoBodyMessage)
    else if !body.value.Object? then ServerError
    else
      var data := body.value.fields;
      var prompt := Get(data, "prompt", String(""));
      var provider := Get(data, "provider", String(""));
      var model := Get(data, "model", String(""));
      var temperature := Get(data, "temperature", DefaultSampling);
      var topP := Get(data, "top_p", DefaultSampling);
      if !Truthy(prompt) || !Truthy(provider) || !Truthy(model) then BadRequest(RequiredMessage)
      else if !(provider.String? && provider.s in KnownProviders) then BadRequest(InvalidProviderMessage)
      else Dispatch(prompt, provider.s, model, temperature, topP)
  }

  /** A missing or falsy required field is reported before the provider is
      looked at, whatever the provider is. */
  lemma RequiredCheckedFirst(fields: map<string, Value>)
    requires fields != map[] && !HasRequiredFields(fields)
    ensures Validate(Some(Object(fields))) == BadRequest(RequiredMessage)
  {
  }

  /** With the required fields present, an unknown provider is a bad request. */
  lemma UnknownProviderRejected(fields: map<string, Value>)
    requires HasRequiredFields(fields) && !KnownProvider(fields["provider"])
    ensures Validate(Some(Object(fields))) == BadRequest(InvalidProviderMessage)
  {
  }

  /** `"openrouter"`, although the endpoint's documentation lists it, is rejected. */
  lemma OpenRouterRejected()
    ensures Validate(Some(Object(map["prompt" := String("hi"), "provider" := String("openrouter"), "model" := String("m")])))
         == BadRequest(InvalidProviderMessage)
  {
    assert "openrouter" !in KnownProviders;
  }

  /** A body without `model` is a bad request. */
  lemma MissingModelRejected()
    ensures Validate(Some(Object(map["prompt" := String("hi"), "provider" := String("mistral")])))
         == BadRequest(RequiredMessage)
  {
  }

  /** `jsonify` of a manager result. */
  function ResultBody(r: Result): Value {
    match r
    case Ok(provider, text) => Object(map["provider" := String(provider), "response" := Object(map["text" := String(text)])])
    case Error(message) => Object(map["error" := String(message)])
  }

  function ErrorBody(message: string): Value {
    Object(map["error" := String(message)])
  }

  /** An HTTP response: a status and a JSON body, or no JSON body for
      Flask's own error page. */
  datatype Response = Response(status: int, body: Option<Value>)

  /** The frame one `generate` call may change: the handler of the provider
      it dispatches to, if it dispatches. */
  ghost function Touched(manager: Manager, body: Option<Value>): set<object>
    reads manager
  {
    var d := Validate(body);
    if d.Dispatch? then manager.HandlerFor(d.provider) else {}
  }

  /** `generate`: 400 for a body that fails validation, without calling the
      manager; otherwise 200 with whatever the manager returned, an error
      result included, or 500 when the manager's rate-limit wait raised. At
      most one wait is recorded. */
  method Generate(manager: Manager, body: Option<Value>, services: Services) returns (response: Response)
    requires manager.Valid()
    modifies manager`delays, Touched(manager, body)
    ensures manager.Valid()
    ensures match Validate(body)
      case BadRequest(message) =>
        response == Response(400, Some(ErrorBody(message))) && manager.delays == old(manager.delays)
      case ServerError =>
        response == Response(500, None) && manager.delays == old(manager.delays)
      case Dispatch(prompt, provider, model, temperature, topP) =>
        (match old(manager.Outcome(prompt, provider, model, temperature, topP, services))
           case Returned(result) => response == Response(200, Some(ResultBody(result)))
           case SleepRaised(_) => response == Response(500, None))
        && (old(manager.Configured(provider)) ==>
              var h := manager.providers[provider].value;
              h.keyIndex == (if SleepError(manager.rateLimit).Some? then old(h.keyIndex) else NextIndex(h.apiKeys, old(h.keyIndex))))
        && manager.delays == old(manager.delays)
             + (if old(manager.Configured(provider)) && SleepError(manager.rateLimit).None? then [manager.rateLimit] else [])
  {
    var d := Validate(body);
    match d {
      case BadRequest(message) =>
        response := Response(400, Some(ErrorBody(message)));
      case ServerError =>
        response := Response(500, None);
      case Dispatch(prompt, provider, model, temperature, topP) =>
        var reply := manager.Request(prompt, provider, model, temperature, topP, services);
        match reply {
          case Returned(result) => response := Response(200, Some(ResultBody(result)));
          // the exception escapes the view, and Flask answers 500 with its own error page
          case SleepRaised(_) => response := Response(500, None);
        }
    }
  }

  /** The body `{"prompt": "hi", "provider": "mistral", "model": "m1"}` passes
      validation with the default sampling values. */
  lemma HelloBodyDispatches()
    ensures Validate(Some(Object(map["prompt" := String("hi"), "provider" := String("mistral"), "model" := String("m1")])))
         == Dispatch(String("hi"), "mistral", String("m1"), DefaultSampling, DefaultSampling)
  {
  }

  /** One Mistral key, a vendor that answers "hello", and a request for
      `mistral`: status 200 with the vendor's text under the provider's name. */
  method MistralRoundTrip() returns (response: Response)
    ensures response == Response(200, Some(Object(map[
      "provider" := String("mistral"),
      "response" := Object(map["text" := String("hello")])])))
  {
    SingleMistralKey();
    HelloBodyDispatches();
    var manager := new Manager(0.0, map["MISTRAL_KEY1" := "secret"]);
    var handler := manager.providers["mistral"].value;
    assert handler in manager.Repr;
    var services := Services(c => Completed("hello"), c => Stream([], None), c => Raised("unused"));
    assert manager.Outcome(String("hi"), "mistral", String("m1"), DefaultSampling, DefaultSampling, services)
        == Returned(Ok("mistral", "hello"));
    response := Generate(manager, Some(Object(map["prompt" := String("hi"), "provider" := String("mistral"), "model" := String("m1")])), services);
  }

  /** The same request with `LLM_RATE_LIMIT=-1`: the wait raises before the
      handler is reached, so the endpoint answers 500 and the cursor stays. */
  method NegativeRateLimitFails() returns (response: Response, cursor: nat)
    ensures response == Response(500, None) && cursor == 0
  {
    SingleMistralKey();
    HelloBodyDispatches();
    var manager := new Manager(-1.0, map["MISTRAL_KEY1" := "secret"]);
    var handler := manager.providers["mistral"].value;
    assert handler in manager.Repr;
    var services := Services(c => Completed("hello"), c => Stream([], None), c => Raised("unused"));
    response := Generate(manager, Some(Object(map["prompt" := String("hi"), "provider" := String("mistral"), "model" := String("m1")])), services);
    cursor := handler.keyIndex;
  }

  /** With `LLM_RATE_LIMIT=1e10` the nanosecond count of the wait overflows the
      clock, so the same request is answered 500 and the cursor stays. */
  method HugeRateLimitFails() returns (response: Response, cursor: nat)
    ensures response == Response(500, None) && cursor == 0
  {
    SingleMistralKey();
    HelloBodyDispatches();
    var manager := new Manager(10000000000.0, map["MISTRAL_KEY1" := "secret"]);
    var handler := manager.providers["mistral"].value;
    assert handler in manager.Repr;
    var services := Services(c => Completed("hello"), c => Stream([], None), c => Raised("unused"));
    response := Generate(manager, Some(Object(map["prompt" := String("hi"), "provider" := String("mistral"), "model" := String("m1")])), services);
    cursor := handler.keyIndex;
  }
}
