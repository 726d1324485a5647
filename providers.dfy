/** The vendor handlers: a credential list with a round-robin cursor, and
    one adapter per vendor that turns the uniform request into that vendor's
    call and the vendor's reply or exception into a uniform result. */
module Providers {
  import opened Values

  datatype Vendor = Mistral | HuggingFace | Gemini

  /** The provider name each vendor is registered and reported under. */
  function VendorName(v: Vendor): string {
    match v
    case Mistral => "mistral"
    case HuggingFace => "huggingface"
    case Gemini => "gemini"
  }

  /** The error a handler returns when its rotated key is falsy. */
  function NoKeyMessage(v: Vendor): string {
    match v
    case Mistral => "No Mistral API key available"
    case HuggingFace => "No Hugging Face API key available"
    case Gemini => "No Gemini API key available"
  }

  // ---------------------------------------------------------------------
  // Round-robin rotation over (api_keys, key_index)
  // ---------------------------------------------------------------------

  /** The cursor invariant: inside the list, or 0 for an empty list. */
  predicate IndexOk(keys: seq<string>, i: nat) {
    i < |keys| || i == 0
  }

  /** What one `get_api_key` returns from cursor `i`. */
  function KeyAt(keys: seq<string>, i: nat): (k: Option<string>)
    requires IndexOk(keys, i)
    ensures k.None? <==> keys == []
    ensures k.Some? ==> k.value in keys
  {
    if keys == [] then None else Some(keys[i])
  }

  /** The cursor after one `get_api_key` from cursor `i`. */
  function NextIndex(keys: seq<string>, i: nat): (j: nat)
    requires IndexOk(keys, i)
    ensures IndexOk(keys, j)
    ensures keys != [] ==> j < |keys|
  {
    if keys == [] then i else (i + 1) % |keys|
  }

  /** The keys returned by `n` consecutive fetches starting at cursor `i`. */
  function Issued(keys: seq<string>, i: nat, n: nat): seq<string>
    requires i < |keys|
    decreases n
  {
    if n == 0 then [] else [keys[i]] + Issued(keys, NextIndex(keys, i), n - 1)
  }

  /** The cursor after `n` consecutive fetches starting at cursor `i`. */
  function IndexAfter(keys: seq<string>, i: nat, n: nat): (j: nat)
    requires i < |keys|
    ensures j < |keys|
    decreases n
  {
    if n == 0 then i else IndexAfter(keys, NextIndex(keys, i), n - 1)
  }

  /** Fetching `a + b` keys is fetching `a`, then `b` from where that left the cursor. */
  lemma {:induction false} IssuedSplit(keys: seq<string>, i: nat, a: nat, b: nat)
    requires i < |keys|
    ensures Issued(keys, i, a + b) == Issued(keys, i, a) + Issued(keys, IndexAfter(keys, i, a), b)
    ensures IndexAfter(keys, i, a + b) == IndexAfter(keys, IndexAfter(keys, i, a), b)
    decreases a
  {
    if a > 0 {
      IssuedSplit(keys, NextIndex(keys, i), a - 1, b);
      assert a + b - 1 == (a - 1) + b;
    }
  }

  /** One fetch moves the cursor to the next position, wrapping at the end. */
  lemma NextIndexStep(keys: seq<string>, i: nat)
    requires i < |keys|
    ensures NextIndex(keys, i) == if i + 1 == |keys| then 0 else i + 1
  {
  }

  /** Until the end of the list is reached, fetching walks the list in order. */
  lemma {:induction false} IssuedWithoutWrap(keys: seq<string>, i: nat, n: nat)
    requires i < |keys| && i + n <= |keys|
    ensures Issued(keys, i, n) == keys[i..i + n]
    decreases n
  {
    if n > 0 {
      NextIndexStep(keys, i);
      if i + 1 < |keys| {
        IssuedWithoutWrap(keys, i + 1, n - 1);
        assert keys[i..i + n] == [keys[i]] + keys[i + 1..i + n];
      } else {
        assert Issued(keys, 0, 0) == [];
      }
    }
  }

  /** Until the end of the list is reached, the cursor counts up, and it
      returns to 0 on reaching the end. */
  lemma {:induction false} IndexAfterWithoutWrap(keys: seq<string>, i: nat, n: nat)
    requires i < |keys| && i + n <= |keys|
    ensures IndexAfter(keys, i, n) == if i + n == |keys| then 0 else i + n
    decreases n
  {
    if n > 0 {
      NextIndexStep(keys, i);
      if i + 1 < |keys| {
        IndexAfterWithoutWrap(keys, i + 1, n - 1);
      }
    }
  }

  /** From any cursor, |keys| fetches return the list rotated to that cursor
      and bring the cursor back to where it started. */
  lemma IssuedCycle(keys: seq<string>, i: nat)
    requires i < |keys|
    ensures Issued(keys, i, |keys|) == keys[i..] + keys[..i]
    ensures IndexAfter(keys, i, |keys|) == i
  {
    var n, a := |keys|, |keys| - i;
    assert a + i == n;
    IssuedSplit(keys, i, a, i);
    IssuedWithoutWrap(keys, i, a);
    IndexAfterWithoutWrap(keys, i, a);
    assert IndexAfter(keys, i, a) == 0;
    assert keys[i..i + a] == keys[i..];
    if i > 0 {
      IssuedWithoutWrap(keys, 0, i);
      IndexAfterWithoutWrap(keys, 0, i);
      assert keys[0..0 + i] == keys[..i];
    } else {
      assert Issued(keys, 0, 0) == [] && IndexAfter(keys, 0, 0) == 0;
    }
  }

  /** Each key is issued exactly once in every |keys| consecutive fetches. */
  lemma IssuedOncePerCycle(keys: seq<string>, i: nat)
    requires i < |keys|
    ensures multiset(Issued(keys, i, |keys|)) == multiset(keys)
  {
    IssuedCycle(keys, i);
    assert keys == keys[..i] + keys[i..];
  }

  /** From a fresh handler (cursor 0): N fetches return the list in order and
      fetch N + 1 returns the first key again. */
  lemma FreshHandlerOrder(keys: seq<string>)
    requires keys != []
    ensures Issued(keys, 0, |keys|) == keys
    ensures Issued(keys, 0, |keys| + 1) == keys + [keys[0]]
  {
    var n := |keys|;
    IssuedCycle(keys, 0);
    assert keys[0..] + keys[..0] == keys;
    IssuedSplit(keys, 0, n, 1);
    assert IndexAfter(keys, 0, n) == 0;
    assert Issued(keys, 0, 1) == [keys[0]] + Issued(keys, NextIndex(keys, 0), 0);
  }

  // ---------------------------------------------------------------------
  // The calls handed to the vendor SDKs
  // ---------------------------------------------------------------------

  datatype Message = Message(role: string, content: Value)

  datatype GenerationConfig = GenerationConfig(
    temperature: Value,
    topP: Value,
    topK: int,
    maxOutputTokens: int,
    responseMimeType: string)

  const HuggingFaceMaxTokens: int := 2048
  const GeminiTopK: int := 64
  const GeminiMaxOutputTokens: int := 8192
  const GeminiMimeType: string := "text/plain"

  /** The fixed, permissive content-safety settings of the Gemini handler. */
  const GeminiSafetySettings: map<string, string> := map[
    "HARM_CATEGORY_HARASSMENT" := "BLOCK_NONE",
    "HARM_CATEGORY_HATE_SPEECH" := "BLOCK_NONE",
    "HARM_CATEGORY_SEXUALLY_EXPLICIT" := "BLOCK_NONE",
    "HARM_CATEGORY_DANGEROUS_CONTENT" := "BLOCK_NONE"
  ]

  datatype MistralCall = MistralCall(apiKey: string, model: Value, messages: seq<Message>)

  datatype HuggingFaceCall = HuggingFaceCall(
    apiKey: string,
    model: Value,
    messages: seq<Message>,
    temperature: Value,
    topP: Value,
    maxTokens: int,
    stream: bool)

  datatype GeminiCall = GeminiCall(
    apiKey: string,
    modelName: Value,
    config: GenerationConfig,
    safetySettings: map<string, string>,
    history: seq<Message>,
    prompt: Value)

  /** A blocking SDK call: the completion text, or the text of the exception it raised. */
  datatype Completion = Completed(text: string) | Raised(message: string)

  /** A streamed SDK call: the `delta.content` of each chunk delivered, in
      order, and the exception that ended the stream early, if any (an
      exception while opening the stream has no chunks before it). */
  datatype Stream = Stream(chunks: seq<Option<string>>, raised: Option<string>)

  /** The vendor SDKs, as functions from the call made to what it produced. */
  datatype Services = Services(
    mistral: MistralCall -> Completion,
    huggingFace: HuggingFaceCall -> Stream,
    gemini: GeminiCall -> Completion)

  /** The uniform result: `{"provider": p, "response": {"text": t}}` or `{"error": m}`. */
  datatype Result = Ok(provider: string, text: string) | Error(message: string)

  function UserMessages(prompt: Value): seq<Message> {
    [Message("user", prompt)]
  }

  function MistralRequest(apiKey: string, prompt: Value, model: Value): MistralCall {
    MistralCall(apiKey, model, UserMessages(prompt))
  }

  function HuggingFaceRequest(apiKey: string, prompt: Value, model: Value, temperature: Value, topP: Value): HuggingFaceCall {
    HuggingFaceCall(apiKey, model, UserMessages(prompt), temperature, topP, HuggingFaceMaxTokens, true)
  }

  function GeminiRequest(apiKey: string, prompt: Value, model: Value, temperature: Value, topP: Value): GeminiCall {
    GeminiCall(apiKey, model,
      GenerationConfig(temperature, topP, GeminiTopK, GeminiMaxOutputTokens, GeminiMimeType),
      GeminiSafetySettings, [], prompt)
  }

  /** The Mistral call carries the model and one user message holding the
      prompt; it does not depend on temperature or top_p. */
  lemma MistralIgnoresSampling(apiKey: string, prompt: Value, model: Value)
    ensures MistralRequest(apiKey, prompt, model).messages == [Message("user", prompt)]
    ensures MistralRequest(apiKey, prompt, model).model == model
    ensures MistralRequest(apiKey, prompt, model).apiKey == apiKey
  {
  }

  /** Temperature and top_p change nothing about a Mistral request or its result. */
  lemma MistralResultIgnoresSampling(key: Option<string>, prompt: Value, model: Value,
                                     t1: Value, p1: Value, t2: Value, p2: Value, services: Services)
    ensures Respond(Mistral, key, prompt, model, t1, p1, services) == Respond(Mistral, key, prompt, model, t2, p2, services)
  {
  }

  /** Hugging Face and Gemini forward temperature and top_p exactly as given. */
  lemma SamplingForwarded(apiKey: string, prompt: Value, model: Value, temperature: Value, topP: Value)
    ensures HuggingFaceRequest(apiKey, prompt, model, temperature, topP).temperature == temperature
    ensures HuggingFaceRequest(apiKey, prompt, model, temperature, topP).topP == topP
    ensures GeminiRequest(apiKey, prompt, model, temperature, topP).config.temperature == temperature
    ensures GeminiRequest(apiKey, prompt, model, temperature, topP).config.topP == topP
  {
  }

  // ---------------------------------------------------------------------
  // The Hugging Face stream fold
  // ---------------------------------------------------------------------

  /** The chunk contents the handler appends: the non-empty ones, in order. */
  function NonEmptyContents(chunks: seq<Option<string>>): seq<string> {
    if chunks == [] then []
    else (if Present(chunks[0]) then [chunks[0].value] else []) + NonEmptyContents(chunks[1..])
  }

  function Concat(parts: seq<string>): string {
    if parts == [] then "" else parts[0] + Concat(parts[1..])
  }

  /** The text a completed stream yields. */
  function StreamText(chunks: seq<Option<string>>): string {
    Concat(NonEmptyContents(chunks))
  }

  /** A chunk's content, with a missing content read as the empty text. */
  function ContentOrEmpty(c: Option<string>): string {
    if c.Some? then c.value else ""
  }

  lemma {:induction false} NonEmptyContentsAppend(a: seq<Option<string>>, b: seq<Option<string>>)
    ensures NonEmptyContents(a + b) == NonEmptyContents(a) + NonEmptyContents(b)
    decreases |a|
  {
    if a != [] {
      assert (a + b)[1..] == a[1..] + b;
      NonEmptyContentsAppend(a[1..], b);
    } else {
      assert a + b == b;
    }
  }

  lemma {:induction false} ConcatAppend(a: seq<string>, b: seq<string>)
    ensures Concat(a + b) == Concat(a) + Concat(b)
    decreases |a|
  {
    if a != [] {
      assert (a + b)[1..] == a[1..] + b;
      ConcatAppend(a[1..], b);
    } else {
      assert a + b == b;
    }
  }

  /** The fold distributes over splitting the stream. */
  lemma StreamTextAppend(a: seq<Option<string>>, b: seq<Option<string>>)
    ensures StreamText(a + b) == StreamText(a) + StreamText(b)
  {
    NonEmptyContentsAppend(a, b);
    ConcatAppend(NonEmptyContents(a), NonEmptyContents(b));
  }

  /** Skipping empty chunks loses nothing: the response is every chunk's
      content, in order, with missing contents read as empty. */
  lemma {:induction false} StreamTextIsAllContents(chunks: seq<Option<string>>)
    ensures StreamText(chunks) == Concat(seq(|chunks|, k requires 0 <= k < |chunks| => ContentOrEmpty(chunks[k])))
    decreases |chunks|
  {
    if chunks != [] {
      StreamTextIsAllContents(chunks[1..]);
      var all := seq(|chunks|, k requires 0 <= k < |chunks| => ContentOrEmpty(chunks[k]));
      var rest := seq(|chunks| - 1, k requires 0 <= k < |chunks| - 1 => ContentOrEmpty(chunks[1..][k]));
      assert all[1..] == rest;
      StreamTextCons(chunks);
    }
  }

  lemma StreamTextCons(chunks: seq<Option<string>>)
    requires chunks != []
    ensures StreamText(chunks) == ContentOrEmpty(chunks[0]) + StreamText(chunks[1..])
  {
    var rest := NonEmptyContents(chunks[1..]);
    if Present(chunks[0]) {
      var parts := [chunks[0].value] + rest;
      assert parts[0] == chunks[0].value && parts[1..] == rest;
    } else {
      assert NonEmptyContents(chunks) == rest;
    }
  }

  /** Reading one more chunk appends its content when it is non-empty. */
  lemma StreamTextStep(chunks: seq<Option<string>>, i: nat)
    requires i < |chunks|
    ensures StreamText(chunks[..i + 1]) == StreamText(chunks[..i]) + (if Present(chunks[i]) then chunks[i].value else "")
  {
    var c := chunks[i];
    assert chunks[..i + 1] == chunks[..i] + [c];
    StreamTextAppend(chunks[..i], [c]);
    StreamTextCons([c]);
    assert [c][1..] == [];
  }

  /** The `for chunk in stream` loop of the Hugging Face handler. */
  method CollectStream(chunks: seq<Option<string>>) returns (response: string)
    ensures response == StreamText(chunks)
  {
    response := "";
    for i := 0 to |chunks|
      invariant response == StreamText(chunks[..i])
    {
      StreamTextStep(chunks, i);
      if Present(chunks[i]) {
        response := response + chunks[i].value;
      }
    }
    assert chunks[..|chunks|] == chunks;
  }

  // ---------------------------------------------------------------------
  // The handlers
  // ---------------------------------------------------------------------

  /** What a handler returns once `get_api_key` gave it `key`. */
  function Respond(v: Vendor, key: Option<string>, prompt: Value, model: Value,
                   temperature: Value, topP: Value, services: Services): (r: Result)
    ensures !Present(key) ==> r == Error(NoKeyMessage(v))
    ensures r.Ok? ==> Present(key) && r.provider == VendorName(v)
  {
    match v
    case Mistral => MistralRespond(key, prompt, model, services)
    case HuggingFace => HuggingFaceRespond(key, prompt, model, temperature, topP, services)
    case Gemini => GeminiRespond(key, prompt, model, temperature, topP, services)
  }

  function MistralRespond(key: Option<string>, prompt: Value, model: Value, services: Services): Result {
    if !Present(key) then Error(NoKeyMessage(Mistral))
    else FromCompletion(Mistral, services.mistral(MistralRequest(key.value, prompt, model)))
  }

  function HuggingFaceRespond(key: Option<string>, prompt: Value, model: Value,
                              temperature: Value, topP: Value, services: Services): Result {
    if !Present(key) then Error(NoKeyMessage(HuggingFace))
    else
      var s := services.huggingFace(HuggingFaceRequest(key.value, prompt, model, temperature, topP));
      if s.raised.Some? then Error(s.raised.value) else Ok(VendorName(HuggingFace), StreamText(s.chunks))
  }

  function GeminiRespond(key: Option<string>, prompt: Value, model: Value,
                         temperature: Value, topP: Value, services: Services): Result {
    if !Present(key) then Error(NoKeyMessage(Gemini))
    else FromCompletion(Gemini, services.gemini(GeminiRequest(key.value, prompt, model, temperature, topP)))
  }

  /** The `try`/`except Exception` wrapping of a blocking SDK call. */
  function FromCompletion(v: Vendor, c: Completion): Result {
    match c
    case Completed(text) => Ok(VendorName(v), text)
    case Raised(message) => Error(message)
  }

  /** With a usable key, the handler reports the vendor's text under its own
      name, or the vendor's exception text as the error. */
  lemma RespondWrapsVendor(v: Vendor, key: string, prompt: Value, model: Value,
                           temperature: Value, topP: Value, services: Services)
    requires key != ""
    ensures v == Mistral ==>
      Respond(v, Some(key), prompt, model, temperature, topP, services)
        == FromCompletion(v, services.mistral(MistralRequest(key, prompt, model)))
    ensures v == Gemini ==>
      Respond(v, Some(key), prompt, model, temperature, topP, services)
        == FromCompletion(v, services.gemini(GeminiRequest(key, prompt, model, temperature, topP)))
    ensures v == HuggingFace ==>
      var s := services.huggingFace(HuggingFaceRequest(key, prompt, model, temperature, topP));
      Respond(v, Some(key), prompt, model, temperature, topP, services)
        == if s.raised.Some? then Error(s.raised.value) else Ok("huggingface", StreamText(s.chunks))
  {
  }

  /** `HuggingFaceProvider.send_request` after the key fetch. */
  method HuggingFaceSend(apiKey: Option<string>, prompt: Value, model: Value,
                         temperature: Value, topP: Value, services: Services) returns (r: Result)
    ensures r == Respond(HuggingFace, apiKey, prompt, model, temperature, topP, services)
  {
    if !Present(apiKey) {
      return Error(NoKeyMessage(HuggingFace));
    }
    var stream := services.huggingFace(HuggingFaceRequest(apiKey.value, prompt, model, temperature, topP));
    var response := CollectStream(stream.chunks);
    if stream.raised.Some? {
      r := Error(stream.raised.value);
    } else {
      r := Ok(VendorName(HuggingFace), response);
    }
  }

  /** One vendor handler: `LLMProviderBase` with its vendor subclass. */
  class Provider {
    const vendor: Vendor
    const providerName: string
    const apiKeys: seq<string>
    var keyIndex: nat

    ghost predicate Valid()
      reads this
    {
      IndexOk(apiKeys, keyIndex)
    }

    constructor (vendor: Vendor, providerName: string, apiKeys: seq<string>)
      ensures Valid()
      ensures this.vendor == vendor && this.providerName == providerName && this.apiKeys == apiKeys
      ensures keyIndex == 0
    {
      this.vendor := vendor;
      this.providerName := providerName;
      this.apiKeys := apiKeys;
      keyIndex := 0;
    }

    /** `get_api_key`: the key under the cursor, and the cursor one step on. */
    method GetApiKey() returns (key: Option<string>)
      requires Valid()
      modifies this`keyIndex
      ensures Valid()
      ensures key == KeyAt(apiKeys, old(keyIndex))
      ensures keyIndex == NextIndex(apiKeys, old(keyIndex))
      ensures apiKeys == [] ==> key.None? && keyIndex == old(keyIndex)
      ensures apiKeys != [] ==> key == Some(apiKeys[old(keyIndex)]) && keyIndex == (old(keyIndex) + 1) % |apiKeys|
    {
      if apiKeys == [] {
        return None;
      }
      key := Some(apiKeys[keyIndex]);
      keyIndex := (keyIndex + 1) % |apiKeys|;
    }

    /** `n` successive `get_api_key` calls, one for each request the handler
        serves: the keys they return are `Issued`, and the cursor ends at
        `IndexAfter`. */
    method FetchKeys(n: nat) returns (fetched: seq<string>)
      requires Valid() && apiKeys != []
      modifies this`keyIndex
      ensures Valid()
      ensures fetched == Issued(apiKeys, old(keyIndex), n)
      ensures keyIndex == IndexAfter(apiKeys, old(keyIndex), n)
    {
      ghost var start := keyIndex;
      fetched := [];
      for k := 0 to n
        invariant Valid()
        invariant keyIndex == IndexAfter(apiKeys, start, k)
        invariant fetched == Issued(apiKeys, start, k)
      {
        ghost var at := keyIndex;
        var key := GetApiKey();
        IssuedSplit(apiKeys, start, k, 1);
        assert Issued(apiKeys, at, 1) == [apiKeys[at]] + Issued(apiKeys, NextIndex(apiKeys, at), 0);
        fetched := fetched + [key.value];
      }
    }

    /** The vendor's `send_request`: rotate, check the key, call the vendor,
        wrap its reply or exception. */
    method SendRequest(prompt: Value, model: Value, temperature: Value, topP: Value, services: Services)
      returns (r: Result)
      requires Valid()
      modifies this`keyIndex
      ensures Valid()
      ensures keyIndex == NextIndex(apiKeys, old(keyIndex))
      ensures r == Respond(vendor, KeyAt(apiKeys, old(keyIndex)), prompt, model, temperature, topP, services)
    {
      var apiKey := GetApiKey();
      if vendor == HuggingFace {
        // the streamed reply is folded by the `for chunk in stream` loop
        r := HuggingFaceSend(apiKey, prompt, model, temperature, topP, services);
      } else {
        r := Respond(vendor, apiKey, prompt, model, temperature, topP, services);
      }
    }
  }

  /** A fresh handler over `keys` serves them in list order, and the request
      after the last key gets the first key again. */
  method FreshRotation(v: Vendor, name: string, keys: seq<string>) returns (fetched: seq<string>)
    requires keys != []
    ensures fetched == keys + [keys[0]]
  {
    var handler := new Provider(v, name, keys);
    fetched := handler.FetchKeys(|keys| + 1);
    FreshHandlerOrder(keys);
  }
}
