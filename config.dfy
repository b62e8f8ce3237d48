/**
 * The front end's configuration (services/config.ts): values looked up by
 * key in the build-time environment, then in the environment injected at
 * run time, with the three settings derived from them.
 */
module Config {
  import opened Common
  import opened JsText

  /** A value of an environment record: a string, or a value of another
      type (the build-time record also holds flags such as `DEV`). */
  datatype EnvValue = Text(text: string) | NotText

  /** An environment record; a key it does not hold is `undefined`. */
  type EnvRecord = map<string, EnvValue>

  /** `viteEnv[k] ?? runtimeEnv[k]`: a value the build-time record holds
      hides the run-time one. */
  function Lookup(vite: EnvRecord, runtime: EnvRecord, key: string): Option<EnvValue> {
    if key in vite then Some(vite[key]) else if key in runtime then Some(runtime[key]) else None
  }

  /** The key resolves to a non-empty string. */
  predicate Usable(vite: EnvRecord, runtime: EnvRecord, key: string) {
    var v := Lookup(vite, runtime, key);
    v.Some? && v.value.Text? && |v.value.text| > 0
  }

  /** The string a usable key resolves to. */
  function Resolved(vite: EnvRecord, runtime: EnvRecord, key: string): string
    requires Usable(vite, runtime, key)
  {
    Lookup(vite, runtime, key).value.text
  }

  /**
   * `get(keys, fallback)`: the resolved string of the first key, in list
   * order, that resolves to a non-empty string; without one, the fallback
   * or the empty string.
   */
  function Get(vite: EnvRecord, runtime: EnvRecord, keys: seq<string>, fallback: Option<string>): (v: string)
    ensures forall i :: 0 <= i < |keys| && Usable(vite, runtime, keys[i])
                        && (forall j :: 0 <= j < i ==> !Usable(vite, runtime, keys[j])) ==>
              v == Resolved(vite, runtime, keys[i])
    ensures (forall i :: 0 <= i < |keys| ==> !Usable(vite, runtime, keys[i])) ==> v == fallback.GetOr("")
    decreases |keys|
  {
    if keys == [] then fallback.GetOr("")
    else if Usable(vite, runtime, keys[0]) then Resolved(vite, runtime, keys[0])
    else
      assert forall i :: 0 < i < |keys| ==> keys[i] == keys[1..][i - 1];
      Get(vite, runtime, keys[1..], fallback)
  }

  /** The first usable key wins: later keys are not consulted. */
  lemma GetFirstUsable(vite: EnvRecord, runtime: EnvRecord, keys: seq<string>, fallback: Option<string>)
    requires exists i :: 0 <= i < |keys| && Usable(vite, runtime, keys[i])
    ensures exists i :: 0 <= i < |keys| && Usable(vite, runtime, keys[i])
                        && Get(vite, runtime, keys, fallback) == Resolved(vite, runtime, keys[i])
                        && forall j :: 0 <= j < i ==> !Usable(vite, runtime, keys[j])
  {
    var i :| 0 <= i < |keys| && Usable(vite, runtime, keys[i]);
    var first := FirstUsable(vite, runtime, keys, i);
  }

  /** The first usable position, at or before a known usable one. */
  lemma {:induction false} FirstUsable(vite: EnvRecord, runtime: EnvRecord, keys: seq<string>, i: nat) returns (first: nat)
    requires i < |keys| && Usable(vite, runtime, keys[i])
    ensures first <= i && Usable(vite, runtime, keys[first])
    ensures forall j :: 0 <= j < first ==> !Usable(vite, runtime, keys[j])
    decreases i
  {
    if exists j :: 0 <= j < i && Usable(vite, runtime, keys[j]) {
      var j :| 0 <= j < i && Usable(vite, runtime, keys[j]);
      first := FirstUsable(vite, runtime, keys, j);
    } else {
      first := i;
    }
  }

  /** A build-time value that is empty or not a string hides the run-time
      value of the same key, so the key is skipped. */
  lemma BuildTimeShadows(vite: EnvRecord, runtime: EnvRecord, key: string, fallback: Option<string>)
    requires key in vite && (vite[key] == NotText || vite[key] == Text(""))
    ensures Get(vite, runtime, [key], fallback) == fallback.GetOr("")
  {
  }

  /** `parseBool(value, fallback)`: the fallback for `undefined`, else
      whether the text is `true` or `1`. */
  function ParseBool(value: Option<string>, fallback: bool): (b: bool)
    ensures value.None? ==> b == fallback
    ensures value.Some? ==> (b <==> value.value == "true" || value.value == "1")
  {
    if value.None? then fallback else value.value == "true" || value.value == "1"
  }

  /** `.replace(/\/$/, '')`: one `/` at the very end is removed. */
  function StripTrailingSlash(url: string): (r: string)
    ensures EndsWith(url, "/") ==> url == r + "/"
    ensures !EndsWith(url, "/") ==> r == url
  {
    if EndsWith(url, "/") then url[..|url| - 1] else url
  }

  /** Only one slash goes: a URL ending in two keeps one, so stripping
      again changes it further. */
  lemma StripRemovesOneSlash(url: string)
    requires EndsWith(url, "//")
    ensures EndsWith(StripTrailingSlash(url), "/")
    ensures StripTrailingSlash(StripTrailingSlash(url)) != StripTrailingSlash(url)
  {
    assert url[|url| - 1] == '/' && url[|url| - 2] == '/';
    assert StripTrailingSlash(url) == url[..|url| - 1];
  }

  /** The default fetch timeout, in milliseconds. */
  const DefaultTimeoutMs := 30000

  /** `Number(text) || 30000`: NaN and 0 give the default. */
  function TimeoutMs(text: string): (ms: int)
    ensures ms != 0
    ensures ToNumber(text).Some? && ToNumber(text).value != 0 ==> ms == ToNumber(text).value
    ensures ToNumber(text).None? || ToNumber(text) == Some(0) ==> ms == DefaultTimeoutMs
  {
    var n := ToNumber(text);
    if n.None? || n.value == 0 then DefaultTimeoutMs else n.value
  }

  const FunctionUrlKeys := ["VITE_FUNCTION_URL", "FUNCTION_URL"]
  const MockGeminiKeys := ["VITE_USE_MOCK_GEMINI", "USE_MOCK_GEMINI"]
  const TimeoutKeys := ["VITE_FUNCTION_FETCH_TIMEOUT_MS", "FUNCTION_FETCH_TIMEOUT_MS"]

  datatype AppConfig = AppConfig(functionUrl: string, useMockGemini: bool, fetchTimeoutMs: int)

  /** `appConfig`: the function URL without its trailing slash, the mock
      flag, and the fetch timeout read from its keys with `30000` as their
      fallback. */
  function AppConfigOf(vite: EnvRecord, runtime: EnvRecord): (c: AppConfig)
    ensures c.fetchTimeoutMs != 0
    ensures c.fetchTimeoutMs == TimeoutMs(Get(vite, runtime, TimeoutKeys, Some("30000")))
    ensures c.useMockGemini <==> Get(vite, runtime, MockGeminiKeys, None) in {"true", "1"}
    ensures StripTrailingSlash(Get(vite, runtime, FunctionUrlKeys, None)) == c.functionUrl
  {
    AppConfig(
      StripTrailingSlash(Get(vite, runtime, FunctionUrlKeys, None)),
      ParseBool(Some(Get(vite, runtime, MockGeminiKeys, None)), false),
      TimeoutMs(Get(vite, runtime, TimeoutKeys, Some("30000"))))
  }

  /** `get` always returns a string, so the mock flag never takes the
      fallback of `parseBool`: an unset flag reads as the empty string,
      which is false. */
  lemma MockFlagUnset(vite: EnvRecord, runtime: EnvRecord)
    requires forall k :: k in MockGeminiKeys ==> k !in vite && k !in runtime
    ensures !AppConfigOf(vite, runtime).useMockGemini
  {
    assert !Usable(vite, runtime, MockGeminiKeys[0]) && !Usable(vite, runtime, MockGeminiKeys[1]);
  }

  /** With no timeout configured, the fallback text `30000` is read. */
  lemma TimeoutUnset(vite: EnvRecord, runtime: EnvRecord)
    requires forall k :: k in TimeoutKeys ==> k !in vite && k !in runtime
    ensures AppConfigOf(vite, runtime).fetchTimeoutMs == DefaultTimeoutMs
  {
    assert !Usable(vite, runtime, TimeoutKeys[0]) && !Usable(vite, runtime, TimeoutKeys[1]);
    var text := Get(vite, runtime, TimeoutKeys, Some("30000"));
    assert text == "30000";
    DefaultTimeoutText(text);
  }

  /** The fallback text reads as the default timeout. */
  lemma DefaultTimeoutText(text: string)
    requires text == "30000"
    ensures TimeoutMs(text) == DefaultTimeoutMs
  {
    var three := text[..1];
    assert AllDigits(three) && DigitsValue(three) == 3 by {
      assert three == [three[0]];
      assert DigitsValue(three) == DigitsValue(three[..0]) * 10 + 3;
    }
    ZeroAppended(three);
    ZeroAppended(three + "0");
    ZeroAppended(three + "0" + "0");
    ZeroAppended(three + "0" + "0" + "0");
    assert text == three + "0" + "0" + "0" + "0";
    NumberOfDigits(text);
  }

  /** A `0` appended to decimal digits multiplies their value by ten. */
  lemma ZeroAppended(s: string)
    requires AllDigits(s)
    ensures AllDigits(s + "0") && DigitsValue(s + "0") == DigitsValue(s) * 10
  {
    assert (s + "0")[..|s|] == s;
  }
}
