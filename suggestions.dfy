/**
 * The serverless suggestion function (functions/suggestions.ts): the retry
 * loop around the generative model with jittered exponential backoff, the
 * extraction of a JSON payload from the model's text, the two prompts, and
 * the HTTP handler that routes a request to one of them.
 *
 * The model, `JSON.parse`, `Math.random` and the engine's rendering of a
 * number are parameters: `reply(n)` is what the n-th call returns,
 * `parse(text)` the parsed payload, `rand(n)` the random number drawn
 * before the n-th backoff and `show(x)` the text of a number.
 */
module Suggestions {
  import opened Common
  import opened JsText
  import opened PromptText
  import opened Types

  // ---------------------------------------------------------------------
  // Configuration
  // ---------------------------------------------------------------------

  /** `Number(process.env.GEMINI_MAX_RETRIES || '3')`. A value that is not
      a number bounds the loop like 0: it makes no attempt. */
  function MaxRetriesFrom(env: Option<string>): (n: int)
    ensures env.None? || env == Some("") ==> n == 3
    ensures env.Some? && env.value != "" && ToNumber(env.value).Some? ==> n == ToNumber(env.value).value
    ensures env.Some? && env.value != "" && ToNumber(env.value).None? ==> n == 0
  {
    var text := if env.None? || env == Some("") then "3" else env.value;
    assert ToNumber("3") == Some(3) by { NumberOfString(3); }
    match ToNumber(text)
    case Some(v) => v
    case None => 0
  }

  /** The two configurations a call can send: grounding through Google
      Search, or a JSON response constrained by the response schema. */
  datatype CallConfig = GoogleSearch | JsonSchema

  datatype ModelRequest = ModelRequest(prompt: string, config: CallConfig)

  function RequestFor(prompt: string, useGrounding: bool): (r: ModelRequest)
    ensures r.prompt == prompt
    ensures r.config == GoogleSearch <==> useGrounding
  {
    ModelRequest(prompt, if useGrounding then GoogleSearch else JsonSchema)
  }

  // ---------------------------------------------------------------------
  // Extracting the JSON payload from the model's text
  // ---------------------------------------------------------------------

  const Fence := "```json"
  const FenceEnd := "```"

  /** Removes the opening fence with the whitespace after it, then a
      closing fence with the whitespace before it. */
  function StripFence(text: string): string
    requires StartsWith(text, Fence)
  {
    StripClosing(TrimStart(text[|Fence|..]))
  }

  /** Removes a closing fence with the whitespace before it, if there is one. */
  function StripClosing(rest: string): string {
    if EndsWith(rest, FenceEnd) then TrimEnd(rest[..|rest| - |FenceEnd|]) else rest
  }

  /** `text[i..j]` is the payload inside a fence: only whitespace between
      the fence and `i`, none at `i`, and up to `j` either the end of the
      text or only whitespace between `j` and a closing fence. */
  predicate FencedSpan(text: string, i: int, j: int) {
    && |Fence| <= i <= j <= |text|
    && AllSpace(text[|Fence|..i]) && (i < |text| ==> !IsSpace(text[i]))
    && (if EndsWith(text[i..], FenceEnd)
        then j <= |text| - |FenceEnd| && AllSpace(text[j..|text| - |FenceEnd|])
        else j == |text|)
  }

  /** A fenced payload is unwrapped; otherwise the braces are cut out. */
  function ExtractPayload(text: string): string {
    if StartsWith(text, Fence) then StripFence(text) else BraceSlice(text)
  }

  /** The text from the first `{` to the last `}`, when that `}` comes
      after the `{`; the whole text otherwise. */
  function BraceSlice(text: string): string {
    var b := IndexOf(text, '{');
    var e := LastIndexOf(text, '}');
    if b >= 0 && e > b then text[b..e + 1] else text
  }

  /** The text holds a `{` with a `}` somewhere after it. */
  predicate HasBraces(text: string) {
    IndexOf(text, '{') >= 0 && '}' in text[IndexOf(text, '{') + 1..]
  }

  /** The whitespace after the fence ends at `i`. */
  lemma OpeningSpaces(text: string, i: nat)
    requires StartsWith(text, Fence) && i == |Fence| + LeadingSpaces(text[|Fence|..])
    ensures i <= |text| && TrimStart(text[|Fence|..]) == text[i..]
    ensures AllSpace(text[|Fence|..i]) && (i < |text| ==> !IsSpace(text[i]))
  {
    var after := text[|Fence|..];
    assert text[|Fence|..i] == after[..i - |Fence|];
    assert i < |text| ==> text[i] == after[i - |Fence|];
  }

  /** A closing fence and the whitespace before it end `rest` at `m`. */
  lemma ClosingSpaces(rest: string, m: nat)
    requires EndsWith(rest, FenceEnd) && m == EndOfText(rest[..|rest| - |FenceEnd|])
    ensures m <= |rest| - |FenceEnd| && StripClosing(rest) == rest[..m]
    ensures AllSpace(rest[m..|rest| - |FenceEnd|])
  {
    var body := rest[..|rest| - |FenceEnd|];
    assert rest[m..|rest| - |FenceEnd|] == body[m..];
  }

  /** Without a closing fence the payload runs to the end of the text. */
  lemma StripOpen(text: string, i: nat)
    requires StartsWith(text, Fence) && i == |Fence| + LeadingSpaces(text[|Fence|..])
    requires !EndsWith(text[i..], FenceEnd)
    ensures FencedSpan(text, i, |text|) && StripFence(text) == text[i..|text|]
  {
    OpeningSpaces(text, i);
    assert text[i..] == text[i..|text|];
  }

  /** With a closing fence the payload ends where the whitespace before it
      starts. */
  lemma StripClosed(text: string, i: nat, m: nat)
    requires StartsWith(text, Fence) && i == |Fence| + LeadingSpaces(text[|Fence|..])
    requires EndsWith(text[i..], FenceEnd) && m == EndOfText(text[i..][..|text[i..]| - |FenceEnd|])
    ensures FencedSpan(text, i, i + m) && StripFence(text) == text[i..i + m]
  {
    OpeningSpaces(text, i);
    ClosingValue(text, i, m);
    ClosingSpan(text, i, m);
  }

  /** The payload of a closed fence, given where the opening whitespace ends. */
  lemma ClosingValue(text: string, i: nat, m: nat)
    requires StartsWith(text, Fence) && i <= |text| && TrimStart(text[|Fence|..]) == text[i..]
    requires EndsWith(text[i..], FenceEnd) && m == EndOfText(text[i..][..|text[i..]| - |FenceEnd|])
    ensures i + m <= |text| && StripFence(text) == text[i..i + m]
  {
    ClosingSpaces(text[i..], m);
    PrefixOfSuffix(text, i, m);
  }

  /** The span of a closed fence, given where the opening whitespace ends. */
  lemma ClosingSpan(text: string, i: nat, m: nat)
    requires |Fence| <= i <= |text| && AllSpace(text[|Fence|..i]) && (i < |text| ==> !IsSpace(text[i]))
    requires EndsWith(text[i..], FenceEnd) && m == EndOfText(text[i..][..|text[i..]| - |FenceEnd|])
    ensures FencedSpan(text, i, i + m)
  {
    ClosingSpaces(text[i..], m);
    MiddleOfSuffix(text, i, m, |text| - i - |FenceEnd|);
  }

  /** The fence and the whitespace around the payload are removed. */
  lemma StripFenceSpan(text: string)
    requires StartsWith(text, Fence)
    ensures exists i, j :: FencedSpan(text, i, j) && StripFence(text) == text[i..j]
  {
    var i := |Fence| + LeadingSpaces(text[|Fence|..]);
    if EndsWith(text[i..], FenceEnd) {
      StripClosed(text, i, EndOfText(text[i..][..|text[i..]| - |FenceEnd|]));
    } else {
      StripOpen(text, i);
    }
  }

  /** A fenced payload loses the fence and the whitespace after it; at the
      end it loses a closing fence and the whitespace before it, if the
      rest ends with one, and nothing otherwise. */
  lemma ExtractFenced(text: string)
    requires StartsWith(text, Fence)
    ensures exists i, j :: FencedSpan(text, i, j) && ExtractPayload(text) == text[i..j]
  {
    StripFenceSpan(text);
  }

  /** With a `}` after the first `{`, the last `}` comes after the first `{`. */
  lemma BracesInOrder(text: string)
    requires HasBraces(text)
    ensures 0 <= IndexOf(text, '{') < LastIndexOf(text, '}')
  {
    var b := IndexOf(text, '{');
    var tail := text[b + 1..];
    var k := IndexOf(tail, '}');
    assert text[b + 1 + k] == tail[k];
    LastIndexOfLast(text, '}', b + 1 + k);
  }

  /** With braces in order, the slice runs from the first `{` to the last `}`. */
  lemma BraceSliceSpan(text: string, b: int, e: int)
    requires b == IndexOf(text, '{') && e == LastIndexOf(text, '}') && 0 <= b < e
    ensures BraceSlice(text) == text[b..e + 1]
  {
  }

  /** Without a fence, a `{` followed somewhere by a `}` selects the text
      from the first `{` to the last `}`, both included. */
  lemma ExtractBraces(text: string)
    requires !StartsWith(text, Fence) && HasBraces(text)
    ensures exists b, e ::
              && 0 <= b < e < |text| && ExtractPayload(text) == text[b..e + 1]
              && text[b] == '{' && '{' !in text[..b] && text[e] == '}' && '}' !in text[e + 1..]
  {
    BracesInOrder(text);
    var b, e := IndexOf(text, '{'), LastIndexOf(text, '}');
    BraceSliceSpan(text, b, e);
  }

  /** Without braces in order, the slice is the whole text. */
  lemma BraceSliceWhole(text: string)
    requires !HasBraces(text)
    ensures BraceSlice(text) == text
  {
    var b := IndexOf(text, '{');
    if b >= 0 {
      forall k | b + 1 <= k < |text| ensures text[k] != '}' {
        assert text[k] == text[b + 1..][k - b - 1];
      }
      LastIndexOfBefore(text, '}', b + 1);
    }
  }

  /** Without a fence, text that has no `}` after its first `{` is passed
      on unchanged; the square brackets of an array are never looked at. */
  lemma ExtractUnchanged(text: string)
    requires !StartsWith(text, Fence) && !HasBraces(text)
    ensures ExtractPayload(text) == text
  {
    BraceSliceWhole(text);
  }

  /** Text that runs from a `{` to a `}` is its own brace slice, and
      carries no fence. */
  lemma BracedIsSlice(p: string)
    requires |p| >= 2 && p[0] == '{' && p[|p| - 1] == '}'
    ensures BraceSlice(p) == p && !StartsWith(p, Fence)
  {
    assert !StartsWith(p, Fence) by { assert Fence[0] == '`'; }
    IndexOfFirst(p, '{', 0);
    LastIndexOfLast(p, '}', |p| - 1);
    BraceSliceSpan(p, 0, |p| - 1);
    assert p[0..|p|] == p;
  }

  /** Extracting the braces twice changes nothing more. */
  lemma ExtractBracesIdempotent(text: string)
    requires !StartsWith(text, Fence) && HasBraces(text)
    ensures ExtractPayload(ExtractPayload(text)) == ExtractPayload(text)
  {
    BracesInOrder(text);
    var b, e := IndexOf(text, '{'), LastIndexOf(text, '}');
    BraceSliceSpan(text, b, e);
    BracedIsSlice(text[b..e + 1]);
  }

  /** A top-level array of objects is not kept whole: its brackets and
      everything outside the outermost braces are cut away. */
  lemma ExtractArrayOfObjects()
    ensures ExtractPayload("[{\"a\":1},{\"b\":2}]") == "{\"a\":1},{\"b\":2}"
  {
    var t := "[{\"a\":1},{\"b\":2}]";
    assert !StartsWith(t, Fence) by { assert t[0] != Fence[0]; }
    assert IndexOf(t, '{') == 1 by { IndexOfFirst(t, '{', 1); assert t[0] != '{'; }
    assert LastIndexOf(t, '}') == 15 by { LastIndexOfLast(t, '}', 15); assert t[16] != '}'; }
    BraceSliceSpan(t, 1, 15);
    assert t[1..16] == "{\"a\":1},{\"b\":2}";
  }

  // ---------------------------------------------------------------------
  // One attempt and the retry loop
  // ---------------------------------------------------------------------

  const MissingWeather := "Missing weather object in model output"
  const UnknownFailure := "Unknown failure calling Gemini"

  /** `parse` stands for `JSON.parse`; it gives `None` for a falsy value
      (`null`, `false`, `0`, `""`) and a response without `weather` for a
      value that has no such property. */
  type Parser = string -> Result<Option<GeminiResponse>, Error>

  /** The text handed to `JSON.parse`: the trimmed reply text (empty when
      the reply has none), with the fence or the text around the braces
      cut away. */
  function PayloadOf(text: Option<string>): string {
    ExtractPayload(Trim(text.GetOr("")))
  }

  /**
   * The check after `JSON.parse`: its thrown error, the missing-weather
   * error for a falsy value or one without `weather`, or else the parsed
   * response itself.
   */
  function ParsedOutcome(parsed: Result<Option<GeminiResponse>, Error>): (r: Result<GeminiResponse, Error>)
    ensures r.Ok? ==> r.value.weather.Some?
    ensures parsed.Err? ==> r == Err(parsed.error)
    ensures parsed.Ok? && parsed.value.Some? && parsed.value.value.weather.Some? ==> r == Ok(parsed.value.value)
    ensures parsed.Ok? && (parsed.value.None? || parsed.value.value.weather.None?) ==> r == Err(Error(MissingWeather))
  {
    match parsed
    case Err(e) => Err(e)
    case Ok(p) =>
      if p.None? || p.value.weather.None? then Err(Error(MissingWeather))
      else Ok(p.value)
  }

  /** What one attempt yields: the error the call threw, or the check of
      the parse of the payload extracted from the reply. */
  function AttemptResult(reply: Reply, parse: Parser): (r: Result<GeminiResponse, Error>)
    ensures r.Ok? ==> r.value.weather.Some?
    ensures reply.Threw? ==> r == Err(reply.error)
    ensures reply.Replied? ==> r == ParsedOutcome(parse(PayloadOf(reply.text)))
  {
    match reply
    case Threw(e) => Err(e)
    case Replied(text) => ParsedOutcome(parse(PayloadOf(text)))
  }

  /** `Math.pow(2, n)` */
  function Pow2(n: nat): (p: nat)
    ensures p >= 1
  {
    if n == 0 then 1 else 2 * Pow2(n - 1)
  }

  /** The base wait before the attempt after `attempt`, in milliseconds. */
  function Backoff(attempt: nat): nat {
    500 * Pow2(attempt)
  }

  /** `Math.floor(base * (0.5 + r))`, `r` being the random draw. */
  function Jitter(base: nat, r: real): (w: int)
    ensures 0.0 <= r < 1.0 ==> base / 2 <= w && 2 * w <= 3 * base && (base > 0 ==> 2 * w < 3 * base)
  {
    JitterBounds(base, r);
    (base as real * (0.5 + r)).Floor
  }

  /** The jittered wait lies between half and one and a half times the
      base. */
  lemma JitterBounds(base: nat, r: real)
    ensures var w := (base as real * (0.5 + r)).Floor;
      0.0 <= r < 1.0 ==> base / 2 <= w && 2 * w <= 3 * base && (base > 0 ==> 2 * w < 3 * base)
  {
    var b := base as real;
    if 0.0 <= r < 1.0 {
      ScaledFraction(b, r);
      Distribute(b, r);
      FloorBounds(base, b * r, b * (0.5 + r));
    }
  }

  /** `b * (0.5 + r)` is half of `b` plus the fraction `b * r`. */
  lemma Distribute(b: real, r: real)
    ensures b * (0.5 + r) == b * 0.5 + b * r
  {
  }

  /** The floor of half of `base` plus a fraction of `base` lies between
      half and one and a half times `base`. */
  lemma FloorBounds(base: nat, fraction: real, x: real)
    requires 0.0 <= fraction <= base as real
    requires base > 0 ==> fraction < base as real
    requires x == base as real * 0.5 + fraction
    ensures base / 2 <= x.Floor && 2 * x.Floor <= 3 * base && (base > 0 ==> 2 * x.Floor < 3 * base)
  {
    var w := x.Floor;
    assert w as real <= x < w as real + 1.0;
    assert ((base / 2) * 2) as real <= base as real;
  }

  /** `0 <= b * r <= b`, and `< b` when `b > 0`, for `r` in `[0, 1)`. */
  lemma ScaledFraction(b: real, r: real)
    requires 0.0 <= b && 0.0 <= r < 1.0
    ensures 0.0 <= b * r <= b
    ensures 0.0 < b ==> b * r < b
  {
    assert b * (1.0 - r) >= 0.0;
  }

  /** The message of the error that ends the last attempt. */
  function FinalError(maxRetries: int, message: string): Error {
    Error("Failed to get suggestions after " + IntToString(maxRetries) + " attempts: " + message)
  }

  /** What a run of the retry loop produces: its outcome, the requests it
      sent and the waits between them. */
  datatype Run = Run(result: Result<GeminiResponse, Error>, calls: seq<ModelRequest>, waits: seq<int>)

  /** The outcomes of the successive attempts of `callGemini`. */
  type Outcomes = nat -> Result<GeminiResponse, Error>

  /** The retry loop from attempt `attempt` on, `outcomes(n)` being what the
      n-th attempt yields. */
  function RunFrom(attempt: nat, maxRetries: int, request: ModelRequest, outcomes: Outcomes, rand: nat -> real): Run
    decreases if attempt <= maxRetries then maxRetries - attempt + 1 else 0
  {
    if attempt > maxRetries then Run(Err(Error(UnknownFailure)), [], [])
    else if outcomes(attempt).Ok? then Run(outcomes(attempt), [request], [])
    else if attempt == maxRetries then Run(Err(FinalError(maxRetries, outcomes(attempt).error.message)), [request], [])
    else
      var rest := RunFrom(attempt + 1, maxRetries, request, outcomes, rand);
      Run(rest.result, [request] + rest.calls, [Jitter(Backoff(attempt), rand(attempt))] + rest.waits)
  }

  /** `callGemini(prompt, useGrounding)` as a function of the oracles. */
  function CallGeminiSpec(prompt: string, useGrounding: bool, maxRetries: int, reply: nat -> Reply, parse: Parser,
                          rand: nat -> real): Run {
    RunFrom(1, maxRetries, RequestFor(prompt, useGrounding), (n: nat) => AttemptResult(reply(n), parse), rand)
  }

  /** A run sends the same request each time, and one request at least
      exactly when an attempt is left; it sends at most `maxRetries` of
      them. Without an attempt it fails with the fallback message. */
  lemma {:induction false} RunCalls(attempt: nat, maxRetries: int, request: ModelRequest, outcomes: Outcomes,
                                    rand: nat -> real)
    ensures var run := RunFrom(attempt, maxRetries, request, outcomes, rand);
      && (attempt > maxRetries <==> run.calls == [])
      && (attempt > maxRetries ==> run.result == Err(Error(UnknownFailure)) && run.waits == [])
      && |run.calls| <= (if attempt <= maxRetries then maxRetries - attempt + 1 else 0)
      && (forall c :: c in run.calls ==> c == request)
    decreases if attempt <= maxRetries then maxRetries - attempt + 1 else 0
  {
    if attempt < maxRetries && outcomes(attempt).Err? {
      RunCalls(attempt + 1, maxRetries, request, outcomes, rand);
    }
  }

  /** Every attempt of a run but its last one failed. */
  lemma {:induction false} RunFailures(attempt: nat, maxRetries: int, request: ModelRequest, outcomes: Outcomes,
                                       rand: nat -> real)
    ensures var run := RunFrom(attempt, maxRetries, request, outcomes, rand);
      forall n :: attempt <= n < attempt + |run.calls| - 1 ==> outcomes(n).Err?
    decreases if attempt <= maxRetries then maxRetries - attempt + 1 else 0
  {
    if attempt < maxRetries && outcomes(attempt).Err? {
      RunFailures(attempt + 1, maxRetries, request, outcomes, rand);
    }
  }

  /** A run waits once between two attempts, each time for the jittered
      backoff of the attempt that just failed. */
  lemma {:induction false} RunWaits(attempt: nat, maxRetries: int, request: ModelRequest, outcomes: Outcomes,
                                    rand: nat -> real)
    ensures var run := RunFrom(attempt, maxRetries, request, outcomes, rand);
      && (run.calls != [] ==> |run.waits| == |run.calls| - 1)
      && (forall k :: 0 <= k < |run.waits| ==> run.waits[k] == Jitter(Backoff(attempt + k), rand(attempt + k)))
    decreases if attempt <= maxRetries then maxRetries - attempt + 1 else 0
  {
    if attempt < maxRetries && outcomes(attempt).Err? {
      RunWaits(attempt + 1, maxRetries, request, outcomes, rand);
      RunCalls(attempt + 1, maxRetries, request, outcomes, rand);
      var rest := RunFrom(attempt + 1, maxRetries, request, outcomes, rand);
      var run := RunFrom(attempt, maxRetries, request, outcomes, rand);
      assert forall k :: 1 <= k < |run.waits| ==> run.waits[k] == rest.waits[k - 1];
    }
  }

  /** A run returns the response of the attempt that succeeded; when every
      attempt failed it wraps the message of the last one, made when no
      attempt was left. */
  lemma {:induction false} RunResult(attempt: nat, maxRetries: int, request: ModelRequest, outcomes: Outcomes,
                                     rand: nat -> real)
    ensures var run := RunFrom(attempt, maxRetries, request, outcomes, rand);
      && (run.result.Ok? ==> run.calls != [] && run.result == outcomes(attempt + |run.calls| - 1))
      && (run.result.Err? && run.calls != [] ==>
            && attempt + |run.calls| - 1 == maxRetries
            && outcomes(maxRetries).Err?
            && run.result.error == FinalError(maxRetries, outcomes(maxRetries).error.message))
    decreases if attempt <= maxRetries then maxRetries - attempt + 1 else 0
  {
    if attempt < maxRetries && outcomes(attempt).Err? {
      RunResult(attempt + 1, maxRetries, request, outcomes, rand);
    }
  }

  /** One attempt of `callGemini`: the model call, the extraction, the parse
      and the check for a weather object. */
  method Attempt(reply: Reply, parse: Parser) returns (outcome: Result<GeminiResponse, Error>)
    ensures outcome == AttemptResult(reply, parse)
  {
    match reply {
      case Threw(e) =>
        outcome := Err(e);
      case Replied(text) =>
        var rawText := if text.Some? then Trim(text.value) else "";
        var payload := ExtractPayload(rawText);
        match parse(payload) {
          case Err(e) =>
            outcome := Err(e);
          case Ok(parsed) =>
            if parsed.None? || parsed.value.weather.None? {
              outcome := Err(Error(MissingWeather));
            } else {
              outcome := Ok(parsed.value);
            }
        }
    }
  }

  /** The loop of `callGemini`. */
  method CallGemini(prompt: string, useGrounding: bool, maxRetries: int, reply: nat -> Reply, parse: Parser,
                    rand: nat -> real)
    returns (result: Result<GeminiResponse, Error>, calls: seq<ModelRequest>, waits: seq<int>)
    ensures Run(result, calls, waits) == CallGeminiSpec(prompt, useGrounding, maxRetries, reply, parse, rand)
  {
    var request := RequestFor(prompt, useGrounding);
    ghost var outcomes: Outcomes := (n: nat) => AttemptResult(reply(n), parse);
    ghost var spec := RunFrom(1, maxRetries, request, outcomes, rand);
    var lastErr: Option<Error> := None;
    calls, waits := [], [];
    var attempt := 1;
    while attempt <= maxRetries
      invariant 1 <= attempt && (attempt > 1 ==> attempt <= maxRetries)
      invariant lastErr.None? <==> attempt == 1
      invariant spec.result == RunFrom(attempt, maxRetries, request, outcomes, rand).result
      invariant spec.calls == calls + RunFrom(attempt, maxRetries, request, outcomes, rand).calls
      invariant spec.waits == waits + RunFrom(attempt, maxRetries, request, outcomes, rand).waits
      decreases maxRetries - attempt
    {
      ghost var here := RunFrom(attempt, maxRetries, request, outcomes, rand);
      calls := calls + [request];
      var outcome := Attempt(reply(attempt), parse);
      assert outcome == outcomes(attempt);
      if outcome.Ok? {
        return outcome, calls, waits;
      }
      lastErr := Some(outcome.error);
      if attempt == maxRetries {
        return Err(FinalError(maxRetries, outcome.error.message)), calls, waits;
      }
      ghost var rest := RunFrom(attempt + 1, maxRetries, request, outcomes, rand);
      assert here.calls == [request] + rest.calls;
      assert here.waits == [Jitter(Backoff(attempt), rand(attempt))] + rest.waits;
      waits := waits + [Jitter(Backoff(attempt), rand(attempt))];
      attempt := attempt + 1;
    }
    result := match lastErr case Some(e) => Err(e) case None => Err(Error(UnknownFailure));
  }

  // ---------------------------------------------------------------------
  // Prompts
  // ---------------------------------------------------------------------

  /** The location argument of `createDailyPrompt`: coordinates (an object
      with a `lat` key, whatever its value) or a place name. */
  datatype DailyLocation = Coordinates(lat: Option<real>, lon: Option<real>) | Place(location: Option<string>)

  function DailyLocationClause(info: Option<DailyLocation>, show: real -> string): string {
    match info
    case None => ""
    case Some(Coordinates(lat, lon)) => "at latitude " + NumberText(lat, show) + " and longitude " + NumberText(lon, show)
    case Some(Place(location)) => "for the location " + Quoted(TextOf(location))
  }

  const DailyIntro := "Using the best available real-time weather data via Google Search for the entire day "
  const DailyFamily := ", provide a detailed weather summary and clothing suggestions for a family consisting of: "
  const DailyFormat := "\nIf the location is in Switzerland, prioritize weather data from MeteoSchweiz. For all other locations, use the best available real-time weather data.\nThe response MUST be a single, valid JSON object and nothing else. Do not include markdown formatting or any other text outside the JSON.\nThe JSON object must have two top-level keys: \"weather\" and \"suggestions\".\n\nThe \"weather\" object must contain:\n- \"location\": a string (e.g., \"San Francisco, CA\").\n- \"highTemp\": an integer for the day's high in Celsius.\n- \"lowTemp\": an integer for the day's low in Celsius.\n- \"dayParts\": an array of exactly 4 objects, for \"Morning\", \"Afternoon\", \"Evening\", and \"Night\". Each object must have:\n  - \"period\": a string (\"Morning\", \"Afternoon\", \"Evening\", or \"Night\").\n  - \"temp\": an integer temperature in Celsius.\n  - \"condition\": a brief string description of the weather.\n  - \"conditionIcon\": a single keyword string from: 'SUNNY', 'CLOUDY', 'RAIN', 'SNOW', 'WINDY', 'PARTLY_CLOUDY'.\n  - \"time\": a string for a representative time in HH:MM format. It MUST be \"07:00\" for Morning, \"12:00\" for Afternoon, \"17:00\" for Evening, and \"22:00\" for Night.\n\nThe \"suggestions\" key must be an array of objects, one for each family member. The 'member' field must exactly match a provided family member description. Each object must contain:\n- \"member\": a string matching one of the provided family members ("
  const DailyNorms := ").\n- \"outfit\": an array of strings listing clothing items. For items only needed for a specific part of the day, specify when (e.g., \"Rain jacket (for evening)\"). If a suggestion is specifically for an activity in the provided schedule, you MUST mention it in parentheses, for example: \"Running shoes (for morning run)\".\n- \"notes\": a string for any additional advice.\n\nClothing suggestions must be practical for the full day's temperature range and conditions, accounting for significant weather changes. Also, consider local clothing norms and styles for the provided location.\n"

  /** `createDailyPrompt(family, day, rawschedule, locationInfo)` */
  function CreateDailyPrompt(family: seq<string>, day: Option<string>, rawschedule: Option<string>,
                             info: Option<DailyLocation>, show: real -> string): string {
    DailyIntro + DayClause(day) + " " + DailyLocationClause(info, show) + DailyFamily + FamilyList(family)
    + "." + ScheduleClause(rawschedule) + DailyFormat + FamilyList(family) + DailyNorms
  }

  const TravelIntro := "Using real-time, live weather data from Google Search for an upcoming trip to "
  const TravelFamily := ", provide a weather summary and a detailed packing list for a family consisting of: "
  const TravelFormat := ".\nThe response MUST be a single, valid JSON object and nothing else. Do not include markdown formatting or any other text outside the JSON.\nThe JSON object must have two top-level keys: \"weather\" and \"suggestions\".\n\nThe \"weather\" object must contain:\n- \"location\": a string (e.g., \"Paris, France\").\n- \"dateRange\": a string describing the interpreted date range for the trip (e.g., \"Dec 24, 2024 - Dec 28, 2024\"). This is crucial and must be included, especially if the user provides a relative date like \"Christmas\" or \"next weekend\".\n- \"highTemp\": an integer for the typical high in Celsius.\n- \"lowTemp\": an integer for the typical low in Celsius.\n- \"dayParts\": an array of exactly 4 objects representing a typical day's \"Morning\", \"Afternoon\", \"Evening\", and \"Night\". Each object must have:\n  - \"period\": a string (\"Morning\", \"Afternoon\", \"Evening\", or \"Night\").\n  - \"temp\": an integer temperature in Celsius.\n  - \"condition\": a brief string description of the weather.\n  - \"conditionIcon\": a single keyword string from: 'SUNNY', 'CLOUDY', 'RAIN', 'SNOW', 'WINDY', 'PARTLY_CLOUDY'.\n  - \"time\": a string for a representative time in HH:MM format. It MUST be \"07:00\" for Morning, \"12:00\" for Afternoon, \"17:00\" for Evening, and \"22:00\" for Night.\n\nThe \"suggestions\" key must be an array of objects, one for each family member, representing a packing list. The 'member' field must exactly match a provided family member description. Each object must contain:\n- \"member\": a string matching one of the provided family members ("
  const TravelNorms := ").\n- \"outfit\": an array of strings listing clothing items to pack.\n- \"notes\": a string for any additional advice (e.g., \"Pack an umbrella, rain is likely.\").\n\nThe packing list should be practical for the likely temperature ranges and conditions. Consider local clothing norms and styles.\n"

  /** `createTravelPrompt(destinationAndDuration, family)` */
  function CreateTravelPrompt(destinationAndDuration: string, family: seq<string>): string {
    TravelIntro + destinationAndDuration + TravelFamily + FamilyList(family) + TravelFormat
    + FamilyList(family) + TravelNorms
  }

  /** The daily prompt names the day, the location clause and every family
      member. */
  lemma DailyPromptMentions(family: seq<string>, day: Option<string>, rawschedule: Option<string>,
                            info: Option<DailyLocation>, show: real -> string)
    ensures Contains(CreateDailyPrompt(family, day, rawschedule, info, show), DayClause(day))
    ensures Contains(CreateDailyPrompt(family, day, rawschedule, info, show), DailyLocationClause(info, show))
    ensures forall k :: 0 <= k < |family| ==> Contains(CreateDailyPrompt(family, day, rawschedule, info, show), family[k])
  {
    var p := CreateDailyPrompt(family, day, rawschedule, info, show);
    var d := DayClause(day);
    var l := DailyLocationClause(info, show);
    var f := FamilyList(family);
    var s := ScheduleClause(rawschedule);
    var a := DailyIntro + d + " " + l;
    var b := a + DailyFamily + f + "." + s + DailyFormat + f;
    ContainsItself(d);
    ContainsInRight(DailyIntro, d, d);
    ContainsInLeft(DailyIntro + d, " ", d);
    ContainsInLeft(DailyIntro + d + " ", l, d);
    ContainsItself(l);
    ContainsInRight(DailyIntro + d + " ", l, l);
    ContainsItself(f);
    ContainsInRight(a + DailyFamily, f, f);
    forall t | t == d || t == l || t == f
      ensures Contains(p, t)
    {
      if t != f {
        ContainsInLeft(a, DailyFamily, t);
        ContainsInLeft(a + DailyFamily, f, t);
      }
      ContainsInLeft(a + DailyFamily + f, ".", t);
      ContainsInLeft(a + DailyFamily + f + ".", s, t);
      ContainsInLeft(a + DailyFamily + f + "." + s, DailyFormat, t);
      ContainsInLeft(a + DailyFamily + f + "." + s + DailyFormat, f, t);
      ContainsInLeft(b, DailyNorms, t);
    }
    forall k | 0 <= k < |family| ensures Contains(p, family[k]) {
      FamilyListContains(family, k);
      ContainsTransitive(p, f, family[k]);
    }
  }

  /** Coordinates are rendered even when the latitude is 0 or absent: the
      test is for the key, not for its value. */
  lemma DailyPromptCoordinates(family: seq<string>, day: Option<string>, rawschedule: Option<string>,
                               lat: Option<real>, lon: Option<real>, show: real -> string)
    ensures Contains(CreateDailyPrompt(family, day, rawschedule, Some(Coordinates(lat, lon)), show),
                     "at latitude " + NumberText(lat, show))
  {
    var c := "at latitude " + NumberText(lat, show);
    ContainsItself(c);
    ContainsInLeft(c, " and longitude ", c);
    ContainsInLeft(c + " and longitude ", NumberText(lon, show), c);
    DailyPromptMentions(family, day, rawschedule, Some(Coordinates(lat, lon)), show);
    ContainsTransitive(CreateDailyPrompt(family, day, rawschedule, Some(Coordinates(lat, lon)), show),
                       DailyLocationClause(Some(Coordinates(lat, lon)), show), c);
  }

  /** A place name is quoted, even when it is empty. */
  lemma DailyPromptPlace(family: seq<string>, day: Option<string>, rawschedule: Option<string>,
                         location: Option<string>, show: real -> string)
    ensures Contains(CreateDailyPrompt(family, day, rawschedule, Some(Place(location)), show),
                     Quoted(TextOf(location)))
  {
    var q := Quoted(TextOf(location));
    ContainsItself(q);
    ContainsInRight("for the location ", q, q);
    DailyPromptMentions(family, day, rawschedule, Some(Place(location)), show);
    ContainsTransitive(CreateDailyPrompt(family, day, rawschedule, Some(Place(location)), show),
                       DailyLocationClause(Some(Place(location)), show), q);
  }

  /** A schedule that is not blank after the cut is quoted in the prompt. */
  lemma DailyPromptSchedule(family: seq<string>, day: Option<string>, rawschedule: Option<string>,
                            info: Option<DailyLocation>, show: real -> string)
    requires !IsBlank(ScheduleOf(rawschedule))
    ensures Contains(CreateDailyPrompt(family, day, rawschedule, info, show), Quoted(ScheduleOf(rawschedule)))
  {
    var p := CreateDailyPrompt(family, day, rawschedule, info, show);
    var f := FamilyList(family);
    var s := ScheduleClause(rawschedule);
    var a := DailyIntro + DayClause(day) + " " + DailyLocationClause(info, show) + DailyFamily + f + ".";
    ContainsItself(s);
    ContainsInRight(a, s, s);
    ContainsInLeft(a + s, DailyFormat, s);
    ContainsInLeft(a + s + DailyFormat, f, s);
    ContainsInLeft(a + s + DailyFormat + f, DailyNorms, s);
    ScheduleClauseQuotes(rawschedule);
    ContainsTransitive(p, s, Quoted(ScheduleOf(rawschedule)));
  }

  /** A blank or absent schedule leaves no trace, and only the first 300
      characters of a schedule reach the prompt. */
  lemma DailyPromptScheduleCut(family: seq<string>, day: Option<string>, a: Option<string>, b: Option<string>,
                               info: Option<DailyLocation>, show: real -> string)
    requires (IsBlank(ScheduleOf(a)) && IsBlank(ScheduleOf(b))) || ScheduleOf(a) == ScheduleOf(b)
    ensures CreateDailyPrompt(family, day, a, info, show) == CreateDailyPrompt(family, day, b, info, show)
  {
    if IsBlank(ScheduleOf(a)) && IsBlank(ScheduleOf(b)) {
      NoScheduleIsBlankSchedule(a);
      NoScheduleIsBlankSchedule(b);
    }
  }

  /** The travel prompt names the destination and every family member. */
  lemma TravelPromptMentions(destinationAndDuration: string, family: seq<string>)
    ensures Contains(CreateTravelPrompt(destinationAndDuration, family), destinationAndDuration)
    ensures forall k :: 0 <= k < |family| ==> Contains(CreateTravelPrompt(destinationAndDuration, family), family[k])
  {
    var p := CreateTravelPrompt(destinationAndDuration, family);
    var f := FamilyList(family);
    var dest := destinationAndDuration;
    ContainsItself(dest);
    ContainsInRight(TravelIntro, dest, dest);
    ContainsInLeft(TravelIntro + dest, TravelFamily, dest);
    ContainsItself(f);
    ContainsInRight(TravelIntro + dest + TravelFamily, f, f);
    forall t | t == dest || t == f
      ensures Contains(p, t)
    {
      if t != f {
        ContainsInLeft(TravelIntro + dest + TravelFamily, f, t);
      }
      ContainsInLeft(TravelIntro + dest + TravelFamily + f, TravelFormat, t);
      ContainsInLeft(TravelIntro + dest + TravelFamily + f + TravelFormat, f, t);
      ContainsInLeft(TravelIntro + dest + TravelFamily + f + TravelFormat + f, TravelNorms, t);
    }
    forall k | 0 <= k < |family| ensures Contains(p, family[k]) {
      FamilyListContains(family, k);
      ContainsTransitive(p, f, family[k]);
    }
  }

  // ---------------------------------------------------------------------
  // The HTTP handler
  // ---------------------------------------------------------------------

  /** The fields of the request body the handler reads; a missing one is
      `undefined`. */
  datatype Body = Body(
    requestType: Option<string>,
    lat: Option<real>, lon: Option<real>, location: Option<string>,
    family: Option<seq<string>>, day: Option<string>, schedule: Option<string>,
    destinationAndDuration: Option<string>)

  datatype HttpRequest = HttpRequest(verb: string, body: Option<Body>)

  datatype ResponseBody = NoContent | Payload(response: GeminiResponse) | Failure(error: string)

  datatype HttpResponse = HttpResponse(status: nat, headers: seq<(string, string)>, body: ResponseBody,
                                       calls: seq<ModelRequest>)

  /** The CORS headers set on every response. */
  const CorsHeaders: seq<(string, string)> := [
    ("Access-Control-Allow-Origin", "*"),
    ("Access-Control-Allow-Methods", "POST, OPTIONS"),
    ("Access-Control-Allow-Headers", "Content-Type")]

  const MethodNotAllowed := "Method Not Allowed"
  const InvalidRequestType := "Invalid request type provided."
  /** The engine's messages for destructuring an absent body and for
      joining an absent family. */
  const NoBodyMessage := "Cannot destructure property 'requestType' of 'body' as it is undefined."
  const NoFamilyMessage := "Cannot read properties of undefined (reading 'join')"

  /** What the request type selects: a prompt, the invalid-type answer, or
      an error thrown while building the prompt. */
  datatype Selection = Prompt(prompt: string) | UnknownType | Thrown(message: string)

  function SelectPrompt(body: Option<Body>, show: real -> string): Selection {
    match body
    case None => Thrown(NoBodyMessage)
    case Some(b) =>
      if b.requestType == Some("geolocation") || b.requestType == Some("location") then
        if b.family.None? then Thrown(NoFamilyMessage)
        else
          var info := if b.requestType == Some("geolocation") then Coordinates(b.lat, b.lon) else Place(b.location);
          Prompt(CreateDailyPrompt(b.family.value, b.day, b.schedule, Some(info), show))
      else if b.requestType == Some("travel") then
        if b.family.None? then Thrown(NoFamilyMessage)
        else Prompt(CreateTravelPrompt(TextOf(b.destinationAndDuration), b.family.value))
      else UnknownType
  }

  /** The oracles the handler runs on. */
  datatype Environment = Environment(maxRetries: int, reply: nat -> Reply, parse: Parser, rand: nat -> real,
                                     show: real -> string)

  /** The `suggestions` HTTP function. */
  function Handle(request: HttpRequest, env: Environment): HttpResponse {
    if request.verb == "OPTIONS" then HttpResponse(204, CorsHeaders, NoContent, [])
    else if request.verb != "POST" then HttpResponse(405, CorsHeaders, Failure(MethodNotAllowed), [])
    else
      match SelectPrompt(request.body, env.show)
      case UnknownType => HttpResponse(400, CorsHeaders, Failure(InvalidRequestType), [])
      case Thrown(message) => HttpResponse(500, CorsHeaders, Failure(message), [])
      case Prompt(prompt) => Respond(prompt, env)
  }

  /** The answer once a prompt is built: the grounded model call, then 200
      with its response or 500 with its error message. */
  function Respond(prompt: string, env: Environment): HttpResponse {
    var run := CallGeminiSpec(prompt, true, env.maxRetries, env.reply, env.parse, env.rand);
    match run.result
    case Ok(response) => HttpResponse(200, CorsHeaders, Payload(response), run.calls)
    case Err(e) => HttpResponse(500, CorsHeaders, Failure(e.message), run.calls)
  }

  /** Every call made for a prompt is the grounded request for that prompt,
      at most `maxRetries` of them; 200 comes with a response holding a
      weather object and 500 with the error. */
  lemma RespondCalls(prompt: string, env: Environment)
    ensures var r := Respond(prompt, env);
      && (forall c :: c in r.calls ==> c == ModelRequest(prompt, GoogleSearch))
      && |r.calls| <= (if env.maxRetries > 0 then env.maxRetries else 0)
      && r.status in {200, 500}
      && (r.status == 200 <==> r.body.Payload?)
      && (r.status == 200 ==> r.body.response.weather.Some?)
  {
    var req := RequestFor(prompt, true);
    var outcomes: Outcomes := (n: nat) => AttemptResult(env.reply(n), env.parse);
    RunCalls(1, env.maxRetries, req, outcomes, env.rand);
    RunResult(1, env.maxRetries, req, outcomes, env.rand);
    var run := RunFrom(1, env.maxRetries, req, outcomes, env.rand);
    if run.result.Ok? {
      var n := |run.calls|;
      assert run.result == AttemptResult(env.reply(n), env.parse);
    }
  }


  /** Every response carries the CORS headers and one of five statuses. */
  lemma HandleHeadersAndStatus(request: HttpRequest, env: Environment)
    ensures Handle(request, env).headers == CorsHeaders
    ensures Handle(request, env).status in {200, 204, 400, 405, 500}
  {
  }

  /** A preflight request is answered 204 at once, whatever its origin;
      any other method but POST is refused with 405. Neither calls the
      model. */
  lemma HandleMethods(request: HttpRequest, env: Environment)
    ensures request.verb == "OPTIONS" <==> Handle(request, env).status == 204
    ensures request.verb != "OPTIONS" && request.verb != "POST" <==> Handle(request, env).status == 405
    ensures request.verb != "POST" ==> Handle(request, env).calls == []
  {
  }

  /** A POST with a request type other than the three known ones is
      refused with 400 without calling the model. */
  lemma HandleUnknownType(request: HttpRequest, env: Environment)
    requires request.verb == "POST" && request.body.Some?
    requires request.body.value.requestType !in {Some("geolocation"), Some("location"), Some("travel")}
    ensures Handle(request, env) == HttpResponse(400, CorsHeaders, Failure(InvalidRequestType), [])
  {
  }

  /** Every model call the handler makes is grounded with Google Search
      and carries the prompt of the request type; a 200 answer holds a
      response with a weather object, and 200 is given exactly when an
      attempt succeeded. */
  lemma HandleCalls(request: HttpRequest, env: Environment)
    requires request.verb == "POST"
    ensures var r := Handle(request, env);
      && (forall c :: c in r.calls ==>
            c.config == GoogleSearch && SelectPrompt(request.body, env.show) == Prompt(c.prompt))
      && |r.calls| <= (if env.maxRetries > 0 then env.maxRetries else 0)
      && (r.status == 200 <==> r.body.Payload?)
      && (r.status == 200 ==> r.body.response.weather.Some?)
  {
    var sel := SelectPrompt(request.body, env.show);
    if sel.Prompt? {
      RespondCalls(sel.prompt, env);
    }
  }
}
