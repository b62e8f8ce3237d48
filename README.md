# Family Weather Wardrobe — a Dafny model of its core

The application asks a generative model for the day's weather and for
clothing suggestions for each member of a family. It can also make a
packing list for a trip. This project models the logic around those
calls:

- the two back ends:
  - the Vertex AI client with its retry loops and prompt builders
    (`backend/geminiClient.js`);
  - the serverless suggestion function with its jittered retries, JSON
    extraction and HTTP handler (`functions/suggestions.ts`);
- the Express server's request schema and dispatch (`backend/server.js`);
- the front end's configuration (`services/config.ts`);
- the app's roster handling (`App.tsx`):
  - pinned-first sorting, the legacy roster migration and the unit
    preference;
  - the order of suggestions and the cycling loading messages;
  - the guards of the two request handlers;
- the weather card (`components/WeatherDisplay.tsx`): icons, unit
  conversion, time labels, the timeline's scale and the representative
  forecast;
- the roster editor (`components/FamilyConfigModal.tsx`) and the outfit
  item renderer (`components/SuggestionCard.tsx`).

The model call, `JSON.parse`, `Math.random` and the engine's rendering of
a number inside a template literal have no code here. They are
parameters (oracles), so every property holds for every possible answer
of the network, the parser and the random source.

Modules, one per file:

| module | file | models |
|---|---|---|
| `Common` | common.dfy | `Option`, `Result`, a thrown `Error` |
| `Types` | types.dfy | the records of `types.ts` |
| `JsText` | js_text.dfy | the JavaScript string and number built-ins the core uses |
| `JsSort` | js_sort.dfy | `Array.prototype.sort` with a key comparator (stable, in place) |
| `PromptText` | prompt_text.dfy | prompt clauses both back ends share |
| `GeminiClient` | gemini_client.dfy | `backend/geminiClient.js` |
| `Suggestions` | suggestions.dfy | `functions/suggestions.ts` |
| `Server` | server.dfy | `backend/server.js` |
| `Config` | config.dfy | `services/config.ts` |
| `App` | app.dfy | `App.tsx` |
| `WeatherDisplay` | weather_display.dfy | `components/WeatherDisplay.tsx` |
| `FamilyConfigModal` | family_config_modal.dfy | `components/FamilyConfigModal.tsx` |
| `SuggestionCard` | suggestion_card.dfy | `components/SuggestionCard.tsx` |

The loops become methods, each proved against a function:
- the retry loops of both back ends;
- the in-place sorts of `App.tsx`;
- the loading-message interval.

The Express handlers answer through a response object. That object is a
class whose `status` and `send` methods update its fields.

Notable behaviour of the code, which the model follows:
- `callGemini` in the serverless function never looks for a `[`. A reply
  that is a JSON array of objects is cut from its first `{` to its last
  `}` (`Suggestions.ExtractArrayOfObjects`).
- The Vertex AI client waits 1000 ms times the attempt number. The
  backoff is linear, not exponential.
- The serverless function answers every `OPTIONS` request with 204. It
  checks no origin.
- The Express schema requires neither `lat`/`lon` for `geolocation` nor
  `location` for `location`.
- An empty or missing `time` is labelled `12 AM` on the timeline.
  `Number('')` is 0.

## Model

| member | source | states |
|---|---|---|
| JsText.Trim | components/SuggestionCard.tsx:15 | `trim()`: the result is a slice of the input with only whitespace cut at both ends; it neither starts nor ends with whitespace, and is empty exactly when the input is all whitespace |
| JsText.ToLower | backend/geminiClient.js:240 | `toLowerCase()` keeps the length and lower-cases each character |
| JsText.ToUpper | components/WeatherDisplay.tsx:14 | `toUpperCase()` keeps the length and upper-cases each character |
| JsText.LowerIdempotent | backend/geminiClient.js:240 | lower-casing twice is lower-casing once |
| JsText.UpperIdempotent | components/WeatherDisplay.tsx:14 | upper-casing twice is upper-casing once |
| JsText.UpperOfLower | components/WeatherDisplay.tsx:14 | upper-casing ignores an earlier lower-casing, and the converse |
| JsText.Take | backend/geminiClient.js:280 | `substring(0, n)`: the prefix of length `min(n, |s|)`, the whole text when it is short enough |
| JsText.IndexOf | functions/suggestions.ts:87 | `indexOf(c)`: -1 exactly when `c` is absent, else the position of its first occurrence |
| JsText.LastIndexOf | functions/suggestions.ts:88 | `lastIndexOf(c)`: -1 exactly when `c` is absent, else the position of its last occurrence |
| JsText.IndexOfFirst | functions/suggestions.ts:87 | an occurrence at `k` bounds `indexOf` from above |
| JsText.LastIndexOfLast | functions/suggestions.ts:88 | an occurrence at `k` bounds `lastIndexOf` from below |
| JsText.LastIndexOfBefore | functions/suggestions.ts:88 | no occurrence from `m` on puts `lastIndexOf` before `m` |
| JsText.JoinContains | backend/geminiClient.js:290 | `join(sep)` contains every joined part |
| JsText.PadStart | components/WeatherDisplay.tsx:83 | `padStart(n, c)` has length `max(n, |s|)`, ends with `s`, and every added character is `c` |
| JsText.FirstField | components/WeatherDisplay.tsx:76 | the first field of `split(':')`: the whole text without a separator, else the prefix up to the first separator |
| JsText.SecondField | components/WeatherDisplay.tsx:76 | the second field of `split(':')` is absent exactly when there is no separator, else the first field of the text after the first separator |
| JsText.Rem | components/WeatherDisplay.tsx:81 | JavaScript's `%` takes the sign of the dividend and stays below the divisor in magnitude |
| JsText.RemDivision | components/WeatherDisplay.tsx:81 | the remainder completes the truncated division: `a == trunc(a / b)·b + a % b` |
| JsText.NatToString | components/WeatherDisplay.tsx:83 | `String(n)` of a natural number is a non-empty string of digits |
| JsText.DigitsOfNat | components/WeatherDisplay.tsx:77 | the digits of `String(n)` read back as `n` |
| JsText.NumberOfNat | services/config.ts:22 | `Number(String(n)) == n` for a natural number |
| JsText.NumberOfDigits | components/WeatherDisplay.tsx:77-78 | `Number` of a non-empty run of digits is its decimal value |
| JsText.NumberOfNegative | components/WeatherDisplay.tsx:77 | `Number("-" + String(n)) == -n` |
| JsText.NumberOfString | components/WeatherDisplay.tsx:77 | `Number(String(n)) == n` for every integer |
| JsText.TrimOfNoSpace | components/SuggestionCard.tsx:15 | `trim()` leaves text without whitespace unchanged |
| JsSort.SortPermutes | App.tsx:104 | the sort is a permutation of its input |
| JsSort.SortSorted | App.tsx:104 | the sort orders its elements by key |
| JsSort.SortStable | App.tsx:104 | the sort is stable: elements with the same key keep their relative order |
| JsSort.SortLength | App.tsx:104 | the sort keeps the length |
| JsSort.InsertPermutes | App.tsx:104 | one insertion adds exactly the inserted element |
| JsSort.InsertSorted | App.tsx:104 | inserting into a sorted sequence keeps it sorted |
| JsSort.InsertWithKey | App.tsx:104 | insertion puts the new element after the elements of its key |
| JsSort.InsertAt | App.tsx:162 | the inner loop moves `a[i]` down past the larger keys before it, in place |
| JsSort.Sort | App.tsx:162 | the in-place sort leaves the array equal to the stable sort of its old contents |
| PromptText.ScheduleOf | backend/geminiClient.js:280 | the schedule is cut to its first 300 characters, kept whole when shorter, and empty when absent |
| PromptText.DayClause | backend/geminiClient.js:253 | the day clause is `for tomorrow` exactly for `tomorrow`, else `for today` |
| PromptText.FamilyListContains | backend/geminiClient.js:290 | the joined family list names every member |
| PromptText.ScheduleClauseOmitted | backend/geminiClient.js:281 | the schedule sentence is empty exactly when the cut schedule is blank |
| PromptText.ScheduleClauseQuotes | backend/geminiClient.js:281 | a schedule that is not blank appears in quotes in the sentence |
| PromptText.ScheduleClauseCut | backend/geminiClient.js:280-281 | two schedules with the same first 300 characters give the same sentence |
| PromptText.NoScheduleIsBlankSchedule | backend/geminiClient.js:280-281 | a blank schedule gives the same sentence as no schedule |
| GeminiClient.MapConditionToIcon | backend/geminiClient.js:239-250 | on the lower-cased condition: rain words win, then snow, then wind, then cloud (partly cloudy with `partly` or `scattered`), then sun; every other condition is partly cloudy; each icon stated as an if-and-only-if |
| GeminiClient.IconIgnoresCase | backend/geminiClient.js:240 | conditions equal up to case get the same icon |
| GeminiClient.IconOfLowerCase | backend/geminiClient.js:240 | lower-casing the condition first changes nothing |
| GeminiClient.RainWins | backend/geminiClient.js:241 | a condition with a rain word is Rain whatever text comes before or after it |
| GeminiClient.LightRainShowers | backend/geminiClient.js:241 | `Light rain showers` is Rain |
| GeminiClient.PartlyCloudyAndWindy | backend/geminiClient.js:243 | `Partly cloudy and windy` is Windy: wind is tested before cloud |
| GeminiClient.NiceDay | backend/geminiClient.js:242 | `Nice day` is Snow, because it contains `ice` |
| GeminiClient.ScatteredClouds | backend/geminiClient.js:244-245 | `Scattered clouds` is partly cloudy |
| GeminiClient.Overcast | backend/geminiClient.js:244-246 | `Overcast` is Cloudy |
| GeminiClient.SunnySky | backend/geminiClient.js:248 | `Sunny` is Sunny |
| GeminiClient.Foggy | backend/geminiClient.js:249 | `Foggy` falls through to partly cloudy |
| GeminiClient.WeatherPromptOtherDay | backend/geminiClient.js:253 | any day but `tomorrow`, absent included, gives today's prompt |
| GeminiClient.WeatherPromptDay | backend/geminiClient.js:253-261 | the weather prompt contains its day clause |
| GeminiClient.WeatherPromptZeroLatitude | backend/geminiClient.js:255 | a latitude of 0 is falsy: the prompt is the one without coordinates |
| GeminiClient.WeatherPromptLocation | backend/geminiClient.js:254-261 | the weather prompt contains its location clause |
| GeminiClient.WeatherPromptCoordinates | backend/geminiClient.js:255-256 | with a truthy latitude the prompt names it |
| GeminiClient.WeatherPromptPlace | backend/geminiClient.js:257-258 | without a latitude, a place name appears in quotes |
| GeminiClient.ClothingPromptMentions | backend/geminiClient.js:283-297 | the clothing prompt names every family member and the location |
| GeminiClient.ClothingPromptBlankSchedule | backend/geminiClient.js:280-281 | a blank schedule gives the prompt without a schedule |
| GeminiClient.ClothingPromptSchedule | backend/geminiClient.js:281 | a schedule that is not blank appears in quotes |
| GeminiClient.ClothingPromptScheduleCut | backend/geminiClient.js:280 | only the first 300 characters of the schedule reach the prompt |
| GeminiClient.TravelWeatherPromptDestination | backend/geminiClient.js:300-301 | the travel weather prompt names the destination |
| GeminiClient.TravelClothingPromptMentions | backend/geminiClient.js:319-334 | the packing prompt names every member, the location and the date range |
| GeminiClient.RetryCalls | backend/geminiClient.js:161-188 | a run makes as many calls as the replies call for: up to the first success, or three |
| GeminiClient.RetryOutcomeUnique | backend/geminiClient.js:161-189 | the replies decide the outcome, the calls and the waits |
| GeminiClient.Retry | backend/geminiClient.js:161-189 | the loop makes one to three identical calls; every call but the last failed; it returns the last call's parsed trimmed text or its error, failing only after the third call; it waits 1000·n ms after the n-th failure, and not after the last |
| GeminiClient.GetWeatherData | backend/geminiClient.js:138-190 | the retry loop with the grounded, low-temperature weather request |
| GeminiClient.GetClothingSuggestions | backend/geminiClient.js:192-237 | the retry loop with the suggestion-list request, without search |
| Suggestions.MaxRetriesFrom | functions/suggestions.ts:7 | an unset or empty variable gives 3; integer text gives its value; text outside the integer subset `Number` is modelled on reads as NaN here, hence 0 |
| Suggestions.RequestFor | functions/suggestions.ts:73-79 | the request carries the prompt, with Google Search exactly when grounding is asked for |
| Suggestions.OpeningSpaces | functions/suggestions.ts:85 | the whitespace after the opening fence ends at the first non-space character |
| Suggestions.ClosingSpaces | functions/suggestions.ts:85 | a closing fence and the whitespace before it are cut |
| Suggestions.StripFenceSpan | functions/suggestions.ts:84-85 | the fence and the whitespace around the payload are removed: the result is a slice with only whitespace on either side |
| Suggestions.ExtractFenced | functions/suggestions.ts:84-85 | a reply starting with the fence yields the payload inside it |
| Suggestions.BracesInOrder | functions/suggestions.ts:87-89 | with a `}` after the first `{`, the last `}` comes after the first `{` |
| Suggestions.ExtractBraces | functions/suggestions.ts:86-90 | without a fence, a `{` followed by a `}` selects the text from the first `{` to the last `}` |
| Suggestions.BraceSliceWhole | functions/suggestions.ts:89 | without braces in that order the text is kept whole |
| Suggestions.ExtractUnchanged | functions/suggestions.ts:83-90 | without a fence or braces, the text passes unchanged |
| Suggestions.BracedIsSlice | functions/suggestions.ts:87-89 | text running from `{` to `}` is its own slice |
| Suggestions.ExtractBracesIdempotent | functions/suggestions.ts:86-90 | extracting twice changes nothing more |
| Suggestions.ExtractArrayOfObjects | functions/suggestions.ts:86-90 | a top-level array of objects loses its brackets |
| Suggestions.ParsedOutcome | functions/suggestions.ts:92-97 | the check after `JSON.parse`: its thrown error is kept; a falsy value or one without `weather` is the missing-weather error; otherwise the parsed response, which then has weather |
| Suggestions.AttemptResult | functions/suggestions.ts:75-97 | an attempt is the error the call threw, or else the check of the parse of the payload extracted from the trimmed reply text; a successful attempt has weather |
| Suggestions.Pow2 | functions/suggestions.ts:106 | `Math.pow(2, n)` is at least 1 |
| Suggestions.Jitter | functions/suggestions.ts:65 | a jittered wait lies between half and one and a half times the base |
| Suggestions.JitterBounds | functions/suggestions.ts:65 | the floor of `base·(0.5 + r)` is within those bounds for `r` in [0, 1) |
| Suggestions.RunCalls | functions/suggestions.ts:71-110 | a run sends the same request each time, at most `MAX_RETRIES` times, and none when no attempt is left, failing then with `Unknown failure calling Gemini` |
| Suggestions.RunFailures | functions/suggestions.ts:71-108 | every attempt but the last failed |
| Suggestions.RunWaits | functions/suggestions.ts:105-107 | one wait between two attempts, each the jittered `500·2^n` for the attempt `n` that failed |
| Suggestions.RunResult | functions/suggestions.ts:97-104 | the result is the succeeding attempt's response; a failure after the last attempt wraps its message in `Failed to get suggestions after N attempts: …` |
| Suggestions.Attempt | functions/suggestions.ts:72-97 | one attempt of the loop yields the attempt result: the thrown error, the parse's error, the missing-weather error or the response |
| Suggestions.CallGemini | functions/suggestions.ts:67-111 | the loop computes the run the specification function describes: result, calls and waits |
| Suggestions.DailyPromptMentions | functions/suggestions.ts:113-148 | the daily prompt names its day, its location clause and every family member |
| Suggestions.DailyPromptCoordinates | functions/suggestions.ts:120-121 | coordinates are written out even when the latitude is 0 or absent (an `in` test, not truthiness) |
| Suggestions.DailyPromptPlace | functions/suggestions.ts:122-123 | a place name appears in quotes, even when empty |
| Suggestions.DailyPromptSchedule | functions/suggestions.ts:114-116 | a schedule that is not blank appears in quotes |
| Suggestions.DailyPromptScheduleCut | functions/suggestions.ts:114-116 | blank schedules, or schedules with the same first 300 characters, give the same prompt |
| Suggestions.TravelPromptMentions | functions/suggestions.ts:151-174 | the travel prompt names the destination and every member |
| Suggestions.RespondCalls | functions/suggestions.ts:222-228 | every call for a prompt is the grounded request for it, at most `MAX_RETRIES`; 200 carries a response with weather, 500 the error |
| Suggestions.HandleHeadersAndStatus | functions/suggestions.ts:180-228 | every answer carries the three CORS headers and is 200, 204, 400, 405 or 500 |
| Suggestions.HandleMethods | functions/suggestions.ts:184-193 | 204 exactly for `OPTIONS`, 405 exactly for a method that is neither `OPTIONS` nor `POST`; neither calls the model |
| Suggestions.HandleUnknownType | functions/suggestions.ts:217-219 | an unknown request type is 400 `Invalid request type provided.` without a model call |
| Suggestions.HandleCalls | functions/suggestions.ts:195-228 | every model call is grounded and carries the prompt of the request type; 200 exactly with a response, which has weather |
| Server.StringsOf | backend/server.js:31 | an array reads as strings exactly when every item is a string, and wrapping those strings gives the array back |
| Server.StringsOfWrapped | backend/server.js:31 | reading back wrapped names gives the names |
| Server.OptionalField | backend/server.js:31-37 | `.optional()`: a missing key is fine, a present one is invalid exactly when its parser refuses it |
| Server.Validate | backend/server.js:29-64 | `safeParse` succeeds exactly when the body meets the schema, and then carries exactly the schema's fields of the body |
| Server.CarriesUnique | backend/server.js:29-38 | the parsed request is determined by the body |
| Server.UnknownKeysIgnored | backend/server.js:29-38 | keys the schema does not know are stripped: they change nothing |
| Server.PromptFor | backend/server.js:68-87 | the `default` case is taken exactly for a type outside the three; each case calls its builder with the request's fields, missing ones as undefined |
| Server.HandleStatus | backend/server.js:57-95 | every answer is 200, 400 or 500, and 400 exactly when the body fails the schema |
| Server.RejectedBeforeCalls | backend/server.js:59-63 | a refused body is 400 `Invalid input` whatever the back end |
| Server.UnknownRequestType | backend/server.js:30-63 | a `requestType` outside the three is 400 `Invalid input` |
| Server.DefaultCaseUnreachable | backend/server.js:30-86 | after validation the `default` case is never taken: no answer is 400 `Invalid requestType` |
| Server.AcceptedOutcome | backend/server.js:64-93 | an accepted body gets 200 with the model's result, or the 500 answer of the first thrown error; the model is called without grounding |
| Server.ErrorMessageFallback | backend/server.js:91-94 | a thrown error is 500 with its message, or `Server error` when it has none |
| Server.GeolocationWithoutCoordinates | backend/server.js:29-72 | a bare geolocation request is accepted and reaches the daily prompt with undefined coordinates |
| Server.LocationWithoutPlace | backend/server.js:29-77 | a bare location request is accepted and reaches the daily prompt with an undefined location |
| Server.Dispatch | backend/server.js:55-57 | only `GET /healthz` and `POST /suggestions` are answered |
| Server.HealthzOk | backend/server.js:55 | `GET /healthz` is 200 `ok` |
| Server.ResponseWriter.constructor | backend/server.js:57 | a fresh response has status 200 and nothing sent |
| Server.ResponseWriter.Status | backend/server.js:62 | `res.status(code)` sets the status and sends nothing |
| Server.ResponseWriter.Send | backend/server.js:90 | `res.json`/`res.send` sends the body once and keeps the status |
| Server.GetHealthz | backend/server.js:55 | the handler leaves status 200 and body `ok` |
| Server.PostSuggestions | backend/server.js:57-95 | the handler leaves on the response exactly the answer `HandleSuggestions` gives |
| Server.Respond | backend/server.js:65-93 | past validation, the handler leaves the answer of the switch, the model call and the catch block |
| Config.Get | services/config.ts:6-12 | the value of the first key, in order, that resolves to a non-empty string; without one, the fallback or `''` |
| Config.GetFirstUsable | services/config.ts:7-9 | with a usable key, the result is that of the first usable one and no earlier key is usable |
| Config.FirstUsable | services/config.ts:7-9 | a usable key has a first usable key at or before it |
| Config.BuildTimeShadows | services/config.ts:8 | a build-time value that is empty or not a string hides the run-time value |
| Config.ParseBool | services/config.ts:14-17 | undefined gives the fallback; otherwise true exactly for `true` or `1` |
| Config.StripTrailingSlash | services/config.ts:20 | one trailing `/` is removed; text without one is unchanged |
| Config.StripRemovesOneSlash | services/config.ts:20 | `a//` keeps a slash, so stripping is not idempotent |
| Config.TimeoutMs | services/config.ts:22 | never 0; a non-zero integer is kept; text outside the integer subset `Number` is modelled on reads as NaN here, and NaN and 0 give 30000 |
| Config.AppConfigOf | services/config.ts:19-23 | the timeout is `Number(get(keys, '30000')) || 30000`, never 0; the mock flag is true exactly for `true` or `1`; the URL is the stripped value |
| Config.MockFlagUnset | services/config.ts:21 | an unset mock flag reads as `''`, which is false |
| Config.TimeoutUnset | services/config.ts:22 | with no timeout configured, the timeout is 30000 |
| Config.DefaultTimeoutText | services/config.ts:22 | the fallback text `30000` reads as 30000 |
| App.WithKeyAll | App.tsx:104 | a sequence all of one pin key is kept whole under that key and dropped under the other |
| App.SortedSplits | App.tsx:104 | a roster sorted by pin is its pinned members, then its unpinned ones |
| App.PinSortSplits | App.tsx:104 | the pinned-first sort gives the pinned members in roster order, then the unpinned ones in roster order |
| App.PinSortPermutes | App.tsx:104 | the pinned-first sort is a permutation |
| App.SortPinnedFirst | App.tsx:104 | the in-place sort gives the stable pinned-first order |
| App.Toggled | App.tsx:158-160 | names are kept; the pin flips exactly for members of that name |
| App.ToggleTwice | App.tsx:158-160 | toggling twice gives the roster back |
| App.TogglePin | App.tsx:156-165 | toggle, then sort pinned-first in place |
| App.TogglePinOrder | App.tsx:156-165 | after a toggle, pinned members come first, each group in roster order, and no member is lost |
| App.DefaultRosterSorted | App.tsx:111-116 | the default roster is already pinned-first: only `Adult` is pinned |
| App.Migrate | App.tsx:94-99 | each legacy name becomes a member, pinned exactly when it is `Adult` |
| App.LoadRoster | App.tsx:87-117 | the initialiser computes the initial roster |
| App.InitialRosterPinnedFirst | App.tsx:87-117 | the loaded roster always has its pinned members first |
| App.LegacyRoster | App.tsx:92-105 | a legacy roster keeps its names, pinned ones first, each group in order; only `Adult` is pinned; an empty array gives an empty roster |
| App.DefaultWhenUnusable | App.tsx:89-116 | nothing stored, an empty string, a parse error or a non-array gives the default roster |
| App.StoredTempUnit | App.tsx:118-121 | Fahrenheit exactly when the stored value is `F`, Celsius otherwise |
| App.NameIndex | App.tsx:203 | `indexOf(name)`: -1 exactly when absent, else the first position |
| App.ReorderSuggestions | App.tsx:203 | the in-place reorder gives the stable sort by roster position |
| App.ReorderProperties | App.tsx:203 | the reorder is a permutation: suggestions for unknown members come first, then roster order, and suggestions of one member keep their order |
| App.ReorderResponse | App.tsx:202-205 | only the suggestions are reordered, and only when there are some |
| App.DailyMessages | App.tsx:176-182 | three fixed messages, one per member, then one more |
| App.TravelMessages | App.tsx:282-288 | two fixed messages, one per member, then two more |
| App.Position | App.tsx:190 | the counter stays below the number of messages |
| App.PositionCounts | App.tsx:185-190 | the first `n` steps visit 0 … n-1, and step `n` is back at 0 |
| App.PositionPeriodic | App.tsx:190 | the messages repeat every `n` steps |
| App.LoadingTicker.constructor | App.tsx:184-186 | the first message is shown at once and the counter moves to 1 |
| App.LoadingTicker.Tick | App.tsx:188-191 | each firing shows the message at the counter and advances it modulo the count |
| App.DailyDecision | App.tsx:193-237 | manual mode searches the typed location, or errors exactly when it is blank; otherwise no geolocation is the not-supported error, no skipped prompt is the explanation, and the position is requested exactly with geolocation and the prompt skipped |
| App.TravelDecision | App.tsx:270-273 | a blank trip input is an error, exactly; otherwise the input is sent as typed |
| App.GeolocationErrorMessage | App.tsx:256-260 | the permission message exactly when permission was denied, the could-not-retrieve message for every other failure |
| WeatherDisplay.IconComponentFor | components/WeatherDisplay.tsx:13-23 | the icon whose keyword is the upper-cased name, or partly cloudy when no keyword matches |
| WeatherDisplay.IconComponentIgnoresCase | components/WeatherDisplay.tsx:14 | names equal up to case give the same icon |
| WeatherDisplay.IconComponentOfKeyword | components/WeatherDisplay.tsx:14-20 | each keyword gives its icon, so the classifier's keywords round-trip |
| WeatherDisplay.ConvertTemp | components/WeatherDisplay.tsx:27-111 | Celsius is kept; Fahrenheit is `c·9/5 + 32` rounded half up: within half a degree, below the upper bound |
| WeatherDisplay.ConvertMonotonic | components/WeatherDisplay.tsx:106-111 | conversion keeps order |
| WeatherDisplay.ConvertExamples | components/__tests__/WeatherDisplay.test.tsx:52-54 | 25 °C is 77 °F and 15 °C is 59 °F; also 0, 100 and -40 |
| WeatherDisplay.ClockHour | components/WeatherDisplay.tsx:81 | `((hh + 11) % 12) + 1` is the 12-hour clock hour, from 1 to 12 |
| WeatherDisplay.ClockText | components/WeatherDisplay.tsx:80-85 | the label ends in ` PM` from 12 on, else ` AM` |
| WeatherDisplay.TimeLabel | components/WeatherDisplay.tsx:74-86 | an hour that is not a number leaves the text as it is; otherwise the label ends in AM or PM by the hour |
| WeatherDisplay.TwoDigitsText | components/WeatherDisplay.tsx:83 | two-digit padding of `n < 100` is digits worth `n` |
| WeatherDisplay.TwoDigitsValue | components/WeatherDisplay.tsx:76-78 | a two-digit field reads back as its number |
| WeatherDisplay.FieldsOfPair | components/WeatherDisplay.tsx:76 | `split(':')` of `p:q` gives `p` and `q` |
| WeatherDisplay.ClockLabel | components/WeatherDisplay.tsx:74-86 | `HH:MM` is labelled with the 12-hour hour, `:MM` only for non-zero minutes, then AM before noon and PM from noon |
| WeatherDisplay.ClockFields | components/WeatherDisplay.tsx:76-78 | `HH:MM` reads as hour `HH` and minute `MM` |
| WeatherDisplay.TimeLabelOfClock | components/WeatherDisplay.tsx:79-85 | a time whose fields read as numbers is labelled by those numbers |
| WeatherDisplay.SevenAm | components/__tests__/WeatherDisplay.test.tsx:87-91 | `07:00` is `7 AM` |
| WeatherDisplay.Noon | components/__tests__/WeatherDisplay.test.tsx:88-92 | `12:00` is `12 PM` |
| WeatherDisplay.FivePm | components/__tests__/WeatherDisplay.test.tsx:89-93 | `17:00` is `5 PM` |
| WeatherDisplay.TenPm | components/__tests__/WeatherDisplay.test.tsx:90-94 | `22:00` is `10 PM` |
| WeatherDisplay.HourExample | components/WeatherDisplay.tsx:74-86 | an `HH:00` time is labelled with the 12-hour hour alone |
| WeatherDisplay.EmptyTimeIsMidnight | components/WeatherDisplay.tsx:75-78 | an empty time reads as hour 0 and is labelled `12 AM` |
| WeatherDisplay.MinOf | components/WeatherDisplay.tsx:32 | `Math.min` is an element no larger than any other |
| WeatherDisplay.MaxOf | components/WeatherDisplay.tsx:33 | `Math.max` is an element no smaller than any other |
| WeatherDisplay.Temperatures | components/WeatherDisplay.tsx:31 | one converted temperature per day part, in order |
| WeatherDisplay.ScaleOf | components/WeatherDisplay.tsx:32-34 | the bounds are temperatures of the day and enclose all; the range is at least 1, and the spread when there is one |
| WeatherDisplay.TimelineOf | components/WeatherDisplay.tsx:29-60 | no timeline exactly for fewer than two parts; otherwise one point per part and the scale of the converted temperatures |
| WeatherDisplay.TimelinePointsOnScale | components/WeatherDisplay.tsx:31-59 | every point's temperature lies within the scale |
| WeatherDisplay.MinOfConverted | components/WeatherDisplay.tsx:31-32 | the minimum of converted temperatures is the converted minimum |
| WeatherDisplay.MaxOfConverted | components/WeatherDisplay.tsx:31-33 | the maximum of converted temperatures is the converted maximum |
| WeatherDisplay.TimelineScale | components/WeatherDisplay.tsx:31-33 | the scale bounds are the converted Celsius extremes |
| WeatherDisplay.FindAfternoon | components/WeatherDisplay.tsx:99 | `find`: nothing exactly when no part is an afternoon, else the first afternoon |
| WeatherDisplay.Representative | components/WeatherDisplay.tsx:98-101 | nothing exactly for no parts; the first afternoon part when there is one; otherwise the second part, else the first |
| WeatherDisplay.Display | components/WeatherDisplay.tsx:97-116 | high and low converted; the timeline of the parts; the condition and icon of the representative part, or the fallback condition and partly cloudy without parts |
| WeatherDisplay.DisplayPrefersAfternoon | components/WeatherDisplay.tsx:98-104 | with an afternoon part, the condition and icon are those of the first afternoon part |
| WeatherDisplay.DisplayWithoutAfternoon | components/WeatherDisplay.tsx:98-104 | without an afternoon part, the condition and icon are those of the second part, or of the only one |
| WeatherDisplay.DisplayKeepsHighAboveLow | components/WeatherDisplay.tsx:113-114 | conversion keeps the low at or below the high |
| FamilyConfigModal.AddMember | components/FamilyConfigModal.tsx:14-19 | a non-blank input is appended, trimmed and unpinned, to a roster of fewer than ten, and the input cleared; otherwise nothing changes; the old members stay in front |
| FamilyConfigModal.AddBounded | components/FamilyConfigModal.tsx:15 | the roster never grows past ten, and an added name is non-empty without whitespace at its ends |
| FamilyConfigModal.RemoveMember | components/FamilyConfigModal.tsx:21-23 | removing a position in range drops exactly that member; any other index keeps the roster |
| FamilyConfigModal.RemoveKeepsOthers | components/FamilyConfigModal.tsx:22 | one member fewer, every other kept and shifted past the removed position |
| FamilyConfigModal.RemoveAfterAdd | components/FamilyConfigModal.tsx:14-23 | removing the member just added gives the roster back |
| SuggestionCard.MatchFrom | components/SuggestionCard.tsx:10-13 | the leftmost match from a position on, or none when none starts there or later |
| SuggestionCard.NoEarlierClose | components/SuggestionCard.tsx:10 | at a matching `(`, the first `)` after it closes the match |
| SuggestionCard.DetailMatch | components/SuggestionCard.tsx:13 | `match` finds the leftmost parenthetical with at least one character, and none exactly when there is none |
| SuggestionCard.RenderOutfitItem | components/SuggestionCard.tsx:12-25 | the item is shown as it is exactly when it has no parenthetical |
| SuggestionCard.DetailedSplit | components/SuggestionCard.tsx:13-16 | a detailed item is `prefix (detail) suffix` with the first parenthetical; the main text is `trim(prefix + suffix)` and the detail is a non-empty text without `)` |
| SuggestionCard.LaterParentheticalsStay | components/SuggestionCard.tsx:15 | `replace` removes only the first match: later parentheticals remain, shifted |
| SuggestionCard.EmptyParenthesesStay | components/SuggestionCard.tsx:10 | `()` matches nothing and is shown as it is |

## Left out

- Network and foreign libraries are not modelled: the Vertex AI and Google GenAI clients, `fetch`, Express routing, `cors`, `express-rate-limit`, `body-parser` and winston logging. Replies, JSON parsing and random draws are oracles.
- Real waiting is not modelled. `setTimeout` is left out; only the computed waits are.
- The model name and project environment variables are left out. They only choose the remote model.
- Mock mode (`USE_MOCK_GEMINI`) is left out, and so is the ALLOWED_ORIGINS guard. Only tests claim them; the handlers in functions/suggestions.ts and backend/server.js have neither.
- The night icons (MoonIcon, CLEAR_NIGHT) and `clearLocalPreferences` exist only in tests, so they are left out.
- Floating-point numbers are left out. The serverless schema asks for integer temperatures, so `Types` and the weather card use `int`. The Vertex AI client's schema asks for NUMBER (backend/geminiClient.js:146-151), so `GeminiClient.FlatWeather` holds reals. Those reals, and latitude and longitude, are written into the prompts by a number-rendering oracle; its text for a fractional value such as `21.5` is not modelled.
- The SVG geometry of the timeline (components/WeatherDisplay.tsx:36-50) is float arithmetic and is left out.
- Case mapping is ASCII only. JavaScript's `toLowerCase`/`toUpperCase` cover all of Unicode.
- Strings are sequences of characters. UTF-16 code units are not modelled, so `substring(0, 300)` and `max(300)` count characters.
- JsText.ToNumber: `Number` is modelled for whitespace, an optional sign and decimal digits. Decimals, exponents, hex and `Infinity` read as NaN (`None`) here. JavaScript reads them as numbers. Config.TimeoutMs therefore gives 30000 for a timeout such as `1500.5`, which services/config.ts:22 keeps as it is.
- Suggestions.MaxRetriesFrom: a NaN retry count is modelled as 0. That count makes no attempt, just as NaN does. Because `Number` is modelled only on integer text, a fractional or exponent count such as `2.5` or `1e1` also reads as 0 here. In the source it gives that many attempts, `2` or `10` (functions/suggestions.ts:71). Its `attempt === MAX_RETRIES` test (functions/suggestions.ts:101) is then never true. So the source waits after its last attempt as well, and throws the unwrapped last error (functions/suggestions.ts:110) instead of the `Failed to get suggestions after N attempts` message. A count of `Infinity` retries until an attempt succeeds. None of this is modelled.
- The engine's own error texts appear as constants: destructuring an absent body, `join` of an absent family.
- A thrown value is represented by an `Error`. functions/suggestions.ts:99 turns a value that is not an `Error` into `new Error(String(err))`, so the reply oracle gives that `Error`. In backend/server.js a thrown value without a message is an `Error` with an empty message; both answer `Server error`.
- GeminiClient.Retry: a falsy thrown value (`null`, `undefined`, `0`, `''`) is not modelled. With one as the last error, backend/geminiClient.js:189 and :236 throw the fallback `Failed to get weather data` or `Failed to get clothing suggestions`. In the model every thrown value is an `Error`, which is truthy, so the result is always the last error.
- Suggestions.Body: the body's fields are typed. A `family` that is not an array cannot be represented; `family.join` throws on it at functions/suggestions.ts:126 and :152, giving 500. Nor can a truthy `schedule` that is not a string; `rawschedule.substring` throws on it at functions/suggestions.ts:114, giving 500.
- App.DailyDecision: only the next step is modelled. The state updates beside it are left out: switching to manual entry, remembering the pending day, stopping the loading ticker.
- Server.Validate: zod's error messages and the `details` of the 400 answer are left out. The answer keeps only its status and `error`.
- Server.Dispatch: Express matches paths case-insensitively, with an optional trailing slash, and answers `HEAD` through `GET` routes. Everything but the two exact routes is left to Express here.
- A request body that is not JSON is refused by `body-parser`, before the routes run. Here the body arrives already parsed.
- The server imports `callGemini`, `createDailyPrompt` and `createTravelPrompt`, which backend/geminiClient.js does not export, so they are parameters of the server model.
- WeatherDisplay.IconComponentFor: an undefined icon name (`iconName?.toUpperCase()`) is not modelled. The type gives every part a string.
- Config: an environment key present with the value `undefined` is not distinguished from a missing key. Both read as missing.
- React rendering, `localStorage` writes, scrolling and the locale-formatted results title (App.tsx:132-154, 313-326) are presentation and are left out.
- `hooks/useGeolocation.ts` and the browser geolocation API are left out. Their answers are inputs of `App.DailyDecision` and `App.GeolocationErrorMessage`.
