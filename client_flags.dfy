/**
 * The browser's copy of the feature flags: built-in defaults (all off), merged with what
 * the server's flag endpoint returns, and a strict test that only a JSON `true` enables.
 * The HTTP exchange is given as its outcome.
 */
module ClientFlags {
  import opened Wrappers

  datatype Json = JBool(b: bool) | JNumber(n: real) | JString(s: string) | JNull | JObject(fields: map<string, Json>)

  /** The flags known before the server answers. */
  function DefaultFlags(): (d: map<string, Json>)
    ensures forall k :: k in d ==> d[k] == JBool(false)
  {
    map["ensemble_model" := JBool(false), "multilingual_voice" := JBool(false),
        "advanced_heatmap" := JBool(false), "dicom_support" := JBool(false),
        "mobile_pwa" := JBool(false)]
  }

  /**
   * What the request came to: a response with its status and its body (a parsed JSON
   * value, or the parse failure), or a failure to get any response (network, timeout).
   */
  datatype FetchOutcome = Response(ok: bool, status: int, body: Result<Json, string>) | NoResponse

  /** The own keys a JSON value spreads into an object literal (only objects have any here). */
  function Spread(v: Json): map<string, Json>
  {
    if v.JObject? then v.fields else map[]
  }

  /**
   * `fetchFeatureFlags()`: the defaults, overridden key by key by a successful answer.  A
   * 404 (no flag endpoint) and any other failure status both fall back to the defaults.
   */
  function FetchFeatureFlags(outcome: FetchOutcome): (r: map<string, Json>)
    ensures outcome.NoResponse? || !outcome.ok || outcome.body.Failure? ==> r == DefaultFlags()
    ensures outcome.Response? && outcome.ok && outcome.body.Success? ==>
      r.Keys == DefaultFlags().Keys + Spread(outcome.body.value).Keys
  {
    match outcome
    case NoResponse => DefaultFlags()
    case Response(ok, status, body) =>
      if !ok then DefaultFlags()
      else match body
        case Failure(_) => DefaultFlags()
        case Success(v) => DefaultFlags() + Spread(v)
  }

  /** `isFlagEnabled(flags, key)`: only a flag that is exactly `true` is on. */
  function IsFlagEnabled(flags: Option<map<string, Json>>, key: string): (b: bool)
    ensures b <==> flags.Some? && key in flags.value && flags.value[key] == JBool(true)
  {
    match flags
    case None => false
    case Some(f) => key in f && f[key] == JBool(true)
  }

  /** Server values win; defaults the server leaves out keep their default. */
  lemma ServerOverridesDefaults(outcome: FetchOutcome, key: string)
    requires outcome.Response? && outcome.ok && outcome.body.Success?
    ensures var server := Spread(outcome.body.value);
      (key in server ==> FetchFeatureFlags(outcome)[key] == server[key])
      && (key !in server && key in DefaultFlags() ==> FetchFeatureFlags(outcome)[key] == DefaultFlags()[key])
  {
  }

  /** Until the server says otherwise, and whenever it fails, every flag is off. */
  lemma DefaultsAllOff(outcome: FetchOutcome, key: string)
    requires outcome.NoResponse? || !outcome.ok || outcome.body.Failure?
    ensures !IsFlagEnabled(Some(FetchFeatureFlags(outcome)), key)
  {
  }

  /** A truthy value that is not the boolean `true` does not enable a flag. */
  lemma TruthyIsNotTrue(key: string)
    ensures !IsFlagEnabled(Some(map[key := JNumber(1.0)]), key)
    ensures !IsFlagEnabled(Some(map[key := JString("true")]), key)
    ensures IsFlagEnabled(Some(map[key := JBool(true)]), key)
  {
  }
}
