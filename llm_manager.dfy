/** The provider registry and the request dispatcher: key discovery from the
    environment, one handler per vendor that has keys, and `request`. */
module LlmManager {
  import opened Values
  import opened Providers

  // ---------------------------------------------------------------------
  // Environment variable names: f"{env_prefix}{index}"
  // ---------------------------------------------------------------------

  function Digit(d: nat): char
    requires d < 10
  {
    (48 + d) as char
  }

  /** `str(n)` for a natural number: its decimal digits, no leading zeros. */
  function Decimal(n: nat): (s: string)
    ensures |s| >= 1
    ensures n >= 10 ==> |s| >= 2
  {
    if n < 10 then [Digit(n)] else Decimal(n / 10) + [Digit(n % 10)]
  }

  /** Distinct numbers are rendered as distinct strings. */
  lemma {:induction false} DecimalInjective(a: nat, b: nat)
    requires Decimal(a) == Decimal(b)
    ensures a == b
  {
    if a < 10 {
      assert Decimal(a)[0] == Digit(a);
    } else {
      var sa, sb := Decimal(a), Decimal(b);
      assert sa[..|sa| - 1] == Decimal(a / 10);
      assert sb[..|sb| - 1] == Decimal(b / 10);
      assert sa[|sa| - 1] == Digit(a % 10) && sb[|sb| - 1] == Digit(b % 10);
      DecimalInjective(a / 10, b / 10);
    }
  }

  /** The numbered variable probed for key `i`. */
  function Name(prefix: string, i: nat): string {
    prefix + Decimal(i)
  }

  lemma NameInjective(prefix: string, a: nat, b: nat)
    requires Name(prefix, a) == Name(prefix, b)
    ensures a == b
  {
    assert Name(prefix, a)[|prefix|..] == Decimal(a);
    assert Name(prefix, b)[|prefix|..] == Decimal(b);
    DecimalInjective(a, b);
  }

  /** The names probed for keys 1..n. */
  ghost function NameSet(prefix: string, n: nat): set<string> {
    if n == 0 then {} else NameSet(prefix, n - 1) + {Name(prefix, n)}
  }

  lemma {:induction false} NameSetCard(prefix: string, n: nat)
    ensures forall m: nat :: m > n ==> Name(prefix, m) !in NameSet(prefix, n)
    ensures |NameSet(prefix, n)| == n
  {
    if n > 0 {
      NameSetCard(prefix, n - 1);
      forall m: nat | m > n ensures Name(prefix, m) !in NameSet(prefix, n) {
        if Name(prefix, m) == Name(prefix, n) {
          NameInjective(prefix, m, n);
        }
      }
    }
  }

  lemma {:induction false} NameSetInEnv(prefix: string, env: map<string, string>, n: nat)
    requires forall j :: 1 <= j <= n ==> Name(prefix, j) in env
    ensures NameSet(prefix, n) <= env.Keys
  {
    if n > 0 {
      NameSetInEnv(prefix, env, n - 1);
    }
  }

  /** If keys 1..n are all present, the environment holds at least n variables. */
  lemma NamesBoundedByEnv(prefix: string, env: map<string, string>, n: nat)
    requires forall j :: 1 <= j <= n ==> Name(prefix, j) in env
    ensures n <= |env.Keys|
  {
    var s := NameSet(prefix, n);
    NameSetCard(prefix, n);
    NameSetInEnv(prefix, env, n);
    assert env.Keys == s + (env.Keys - s);
  }

  // ---------------------------------------------------------------------
  // Key discovery
  // ---------------------------------------------------------------------

  /** The values of the unbroken run of numbered variables from index `i` on. */
  function RunFrom(prefix: string, env: map<string, string>, i: nat): seq<string>
    requires i >= 1
    requires forall j :: 1 <= j < i ==> Name(prefix, j) in env
    decreases |env.Keys| + 1 - i
  {
    if Name(prefix, i) in env then
      NamesBoundedByEnv(prefix, env, i);
      [env[Name(prefix, i)]] + RunFrom(prefix, env, i + 1)
    else []
  }

  /** The numbered keys `prefix1`, `prefix2`, … up to the first gap. */
  function NumberedKeys(prefix: string, env: map<string, string>): seq<string> {
    RunFrom(prefix, env, 1)
  }

  /** The keys `_load_provider_keys` discovers: the numbered keys, or failing
      those the bare `prefix` variable, or none. */
  function ProviderKeys(prefix: string, env: map<string, string>): (keys: seq<string>)
    ensures keys == [] <==> Name(prefix, 1) !in env && prefix !in env
    ensures Name(prefix, 1) in env ==> keys == NumberedKeys(prefix, env)
    ensures Name(prefix, 1) !in env && prefix in env ==> keys == [env[prefix]]
  {
    var numbered := NumberedKeys(prefix, env);
    if numbered == [] && prefix in env then [env[prefix]] else numbered
  }

  /** `keys` holds the values of `prefix1..prefixk`, and `prefix(k+1)` is missing. */
  ghost predicate IsNumberedRun(prefix: string, env: map<string, string>, keys: seq<string>) {
    (forall j :: 1 <= j <= |keys| ==> Name(prefix, j) in env && keys[j - 1] == env[Name(prefix, j)])
    && Name(prefix, |keys| + 1) !in env
  }

  lemma {:induction false} RunFromSpec(prefix: string, env: map<string, string>, i: nat)
    requires i >= 1
    requires forall j :: 1 <= j < i ==> Name(prefix, j) in env
    ensures var r := RunFrom(prefix, env, i);
      (forall j :: i <= j < i + |r| ==> Name(prefix, j) in env && r[j - i] == env[Name(prefix, j)])
      && Name(prefix, i + |r|) !in env
    decreases |env.Keys| + 1 - i
  {
    if Name(prefix, i) in env {
      NamesBoundedByEnv(prefix, env, i);
      RunFromSpec(prefix, env, i + 1);
      var rest := RunFrom(prefix, env, i + 1);
      assert RunFrom(prefix, env, i) == [env[Name(prefix, i)]] + rest;
    }
  }

  /** The numbered keys are exactly the unbroken run from `prefix1`. */
  lemma NumberedKeysAreRun(prefix: string, env: map<string, string>)
    ensures IsNumberedRun(prefix, env, NumberedKeys(prefix, env))
  {
    RunFromSpec(prefix, env, 1);
  }

  /** The run from `prefix1` is unique: any list with that description is the discovered one. */
  lemma NumberedRunUnique(prefix: string, env: map<string, string>, keys: seq<string>)
    requires IsNumberedRun(prefix, env, keys)
    ensures keys == NumberedKeys(prefix, env)
  {
    var r := NumberedKeys(prefix, env);
    NumberedKeysAreRun(prefix, env);
    assert |keys| == |r|;
    forall k | 0 <= k < |keys| ensures keys[k] == r[k] {
      assert Name(prefix, k + 1) in env;
    }
  }

  /** Discovery stops at the first gap: nothing from index `g` on is loaded when `prefix g` is missing. */
  lemma DiscoveryStopsAtGap(prefix: string, env: map<string, string>, g: nat)
    requires g >= 1 && Name(prefix, g) !in env
    ensures |NumberedKeys(prefix, env)| < g
  {
    NumberedKeysAreRun(prefix, env);
  }

  /** `X`, `X1`, `X2` and `X4` set, `X3` not: probing stops at the gap and the
      bare `X` is ignored, so exactly the first two numbered keys are loaded. */
  lemma GapExample()
    ensures ProviderKeys("X", map["X" := "z", "X1" := "a", "X2" := "b", "X4" := "d"]) == ["a", "b"]
  {
    var env := map["X" := "z", "X1" := "a", "X2" := "b", "X4" := "d"];
    assert Name("X", 1) == "X1" && Name("X", 2) == "X2" && Name("X", 3) == "X3";
    NumberedRunUnique("X", env, ["a", "b"]);
  }

  /** The body of `_load_provider_keys` up to the registry write: probe
      `prefix1`, `prefix2`, … until the first missing one, then fall back to
      the bare `prefix`. */
  method DiscoverKeys(prefix: string, env: map<string, string>) returns (keys: seq<string>)
    ensures keys == ProviderKeys(prefix, env)
  {
    keys := [];
    var index := 1;
    while true
      invariant index >= 1
      invariant forall j :: 1 <= j < index ==> Name(prefix, j) in env
      invariant keys + RunFrom(prefix, env, index) == NumberedKeys(prefix, env)
      decreases |env.Keys| + 1 - index
    {
      var envVar := prefix + Decimal(index);
      if envVar in env {
        NamesBoundedByEnv(prefix, env, index);
        assert RunFrom(prefix, env, index) == [env[envVar]] + RunFrom(prefix, env, index + 1);
        keys := keys + [env[envVar]];
        index := index + 1;
      } else {
        break;
      }
    }
    if keys == [] && prefix in env {
      keys := keys + [env[prefix]];
    }
  }

  // ---------------------------------------------------------------------
  // The registry and the dispatcher
  // ---------------------------------------------------------------------

  /** The environment prefix each vendor's keys are discovered under. */
  function EnvPrefix(v: Vendor): string {
    match v
    case Mistral => "MISTRAL_KEY"
    case HuggingFace => "HF_KEY"
    case Gemini => "GEMINI_API_KEY"
  }

  /** The error `request` returns for an unknown or unconfigured provider. */
  function UnconfiguredMessage(provider: string): string {
    "Provider '" + provider + "' is not configured or has no API keys."
  }

  /** The message of the `ValueError` that `time.sleep` raises for a negative length. */
  const NegativeSleepMessage: string := "sleep length must be non-negative"
  /** The message of the `OverflowError` that `time.sleep` raises for a length
      whose nanosecond count does not fit the clock's signed 64-bit type. */
  const OverflowSleepMessage: string := "timestamp too large to convert to C PyTime_t"

  const NanosecondsPerSecond: real := 1000000000.0
  /** The range of a signed 64-bit nanosecond count, -2^63 to 2^63 - 1. */
  const MinNanoseconds: real := -9223372036854775808.0
  const MaxNanoseconds: real := 9223372036854775807.0

  /** The exception `time.sleep(seconds)` raises before it waits, if any. The
      length is first converted to whole nanoseconds, rounded away from zero,
      and must fit the 64-bit range; only then is a negative length refused. */
  function SleepError(seconds: real): (e: Option<string>)
    ensures e.None? <==> 0.0 <= seconds && seconds * NanosecondsPerSecond <= MaxNanoseconds
    ensures e == Some(NegativeSleepMessage) <==> MinNanoseconds <= seconds * NanosecondsPerSecond < 0.0
  {
    var ns := seconds * NanosecondsPerSecond;
    if ns < MinNanoseconds || MaxNanoseconds < ns then Some(OverflowSleepMessage)
    else if seconds < 0.0 then Some(NegativeSleepMessage)
    else None
  }

  /** Discovery from an environment holding only `MISTRAL_KEY1`. */
  lemma SingleMistralKey()
    ensures ProviderKeys("MISTRAL_KEY", map["MISTRAL_KEY1" := "secret"]) == ["secret"]
  {
    var env := map["MISTRAL_KEY1" := "secret"];
    assert Name("MISTRAL_KEY", 1) == "MISTRAL_KEY1";
    assert Name("MISTRAL_KEY", 2) == "MISTRAL_KEY2";
    NumberedRunUnique("MISTRAL_KEY", env, ["secret"]);
  }

  /** How a `request` call ends: it returns a result dict, or the rate-limit
      wait raises before any handler is called. */
  datatype Reply = Returned(result: Result) | SleepRaised(message: string)

  class Manager {
    const rateLimit: real
    var providers: map<string, Option<Provider>>
    /** The `time.sleep(rate_limit)` waits made so far, in order. */
    ghost var delays: seq<real>
    /** Every handler this manager has created. */
    ghost var Repr: set<Provider>

    /** The handler registered under `name`, as a frame. */
    ghost function HandlerFor(name: string): set<object>
      reads this
    {
      if name in providers && providers[name].Some? then {providers[name].value} else {}
    }

    /** Every handler keeps its cursor invariant, is registered under its own
        name, and no handler is shared by two names. */
    ghost predicate Valid()
      reads this, Repr
    {
      (forall n | n in providers && providers[n].Some? ::
         providers[n].value in Repr && providers[n].value.Valid() && providers[n].value.providerName == n)
      && (forall n, m | n in providers && m in providers && providers[n].Some? && providers[m].Some? && n != m ::
            providers[n].value != providers[m].value)
    }

    /** `provider in self.providers and self.providers[provider]`. */
    predicate Configured(provider: string)
      reads this
    {
      provider in providers && providers[provider].Some?
    }

    /** How `request` ends in the current state. */
    ghost function Outcome(prompt: Value, provider: string, model: Value,
                           temperature: Value, topP: Value, services: Services): Reply
      reads this, Repr
      requires Valid()
    {
      if !Configured(provider) then Returned(Error(UnconfiguredMessage(provider)))
      else if SleepError(rateLimit).Some? then SleepRaised(SleepError(rateLimit).value)
      else
        var h := providers[provider].value;
        Returned(Respond(h.vendor, KeyAt(h.apiKeys, h.keyIndex), prompt, model, temperature, topP, services))
    }

    /** `name` is registered as discovery from `prefix` in `env` prescribes:
        no handler without keys, else a fresh-cursor handler of vendor `v`
        holding exactly the discovered keys. */
    ghost predicate Loaded(v: Vendor, prefix: string, env: map<string, string>)
      reads this, HandlerFor(VendorName(v))
    {
      var name := VendorName(v);
      name in providers
      && (providers[name].None? <==> ProviderKeys(prefix, env) == [])
      && (providers[name].Some? ==>
            var h := providers[name].value;
            h.vendor == v && h.providerName == name && h.apiKeys == ProviderKeys(prefix, env) && h.keyIndex == 0)
    }

    /** `LLMManager(rate_limit)`: registers the three vendors from `env`. */
    constructor (rateLimit: real, env: map<string, string>)
      ensures Valid() && fresh(Repr)
      ensures this.rateLimit == rateLimit && delays == []
      ensures providers.Keys == {"mistral", "huggingface", "gemini"}
      ensures Loaded(Mistral, EnvPrefix(Mistral), env)
      ensures Loaded(HuggingFace, EnvPrefix(HuggingFace), env)
      ensures Loaded(Gemini, EnvPrefix(Gemini), env)
    {
      this.rateLimit := rateLimit;
      providers := map[];
      delays := [];
      Repr := {};
      new;
      LoadProviderKeys(Mistral, "MISTRAL_KEY", env);
      assert Loaded(Mistral, EnvPrefix(Mistral), env);
      LoadProviderKeys(HuggingFace, "HF_KEY", env);
      assert Loaded(Mistral, EnvPrefix(Mistral), env);
      LoadProviderKeys(Gemini, "GEMINI_API_KEY", env);
    }

    /** `_load_provider_keys`: discovers the keys and registers a handler
        for them, or no handler when there are none. */
    method LoadProviderKeys(v: Vendor, prefix: string, env: map<string, string>)
      requires Valid()
      modifies this`providers, this`Repr
      ensures Valid()
      ensures Loaded(v, prefix, env)
      ensures VendorName(v) in providers
      ensures providers == old(providers)[VendorName(v) := providers[VendorName(v)]]
      ensures old(Repr) <= Repr && fresh(Repr - old(Repr))
      ensures providers[VendorName(v)].Some? ==> fresh(providers[VendorName(v)].value)
    {
      var keys := DiscoverKeys(prefix, env);
      var name := VendorName(v);
      if keys != [] {
        var handler := new Provider(v, name, keys);
        providers := providers[name := Some(handler)];
        Repr := Repr + {handler};
      } else {
        providers := providers[name := None];
      }
    }

    /** `request`: rejects an unknown or unconfigured provider without
        touching any handler. Otherwise it waits `rate_limit`, which raises
        for a negative limit or one too large for the clock before the
        handler is reached, and returns what
        that provider's handler returns, which advances its cursor one step. */
    method Request(prompt: Value, provider: string, model: Value,
                   temperature: Value, topP: Value, services: Services) returns (r: Reply)
      requires Valid()
      modifies this`delays, HandlerFor(provider)
      ensures Valid()
      ensures r == old(Outcome(prompt, provider, model, temperature, topP, services))
      ensures !old(Configured(provider)) ==>
        r == Returned(Error(UnconfiguredMessage(provider))) && delays == old(delays)
      ensures old(Configured(provider)) && SleepError(rateLimit).Some? ==>
        var h := providers[provider].value;
        r == SleepRaised(SleepError(rateLimit).value) && h.keyIndex == old(h.keyIndex) && delays == old(delays)
      ensures old(Configured(provider)) && SleepError(rateLimit).None? ==>
        var h := providers[provider].value;
        r.Returned? && h.keyIndex == NextIndex(h.apiKeys, old(h.keyIndex)) && delays == old(delays) + [rateLimit]
    {
      if provider !in providers || providers[provider].None? {
        return Returned(Error(UnconfiguredMessage(provider)));
      }
      var failure := SleepError(rateLimit);
      if failure.Some? {
        return SleepRaised(failure.value);
      }
      delays := delays + [rateLimit];
      var handler := providers[provider].value;
      var result := handler.SendRequest(prompt, model, temperature, topP, services);
      r := Returned(result);
    }
  }
}
