/**
 * The Express back end (backend/server.js): the request schema of
 * `POST /suggestions`, the dispatch on `requestType` to a prompt builder
 * and the model, the status codes of its answers, and `GET /healthz`.
 *
 * The prompt builders and the model call the server imports are not the
 * ones its client module exports, so they are parameters here (an
 * oracle `Backend`); JSON bodies arrive already parsed.
 */
module Server {
  import opened Common

  /** A parsed JSON value. */
  datatype Json =
    | JNull
    | JBool(b: bool)
    | JNumber(n: real)
    | JString(s: string)
    | JArray(items: seq<Json>)
    | JObject(fields: map<string, Json>)

  /** The values the schema's `requestType` enum admits. */
  const RequestTypes: set<string> := {"geolocation", "location", "travel"}

  /** The values the schema's `day` enum admits. */
  const Days: set<string> := {"today", "tomorrow"}

  /** The longest `schedule` the schema admits. */
  const MaxScheduleLength := 300

  /** The keys the schema knows; any other key is stripped. */
  const SchemaKeys: set<string> :=
    {"requestType", "family", "day", "schedule", "lat", "lon", "location", "destinationAndDuration"}

  /** What a successful `safeParse` yields: the known fields, each
      `None` when the body does not have it. */
  datatype SuggestionRequest = SuggestionRequest(
    requestType: string,
    family: Option<seq<string>>,
    day: Option<string>,
    schedule: Option<string>,
    lat: Option<real>,
    lon: Option<real>,
    location: Option<string>,
    destinationAndDuration: Option<string>)

  // The schema, rule by rule.

  predicate IsText(v: Json) { v.JString? }

  predicate IsNumber(v: Json) { v.JNumber? }

  /** `z.array(z.string()).min(1)` */
  predicate IsFamily(v: Json) {
    v.JArray? && |v.items| >= 1 && forall i :: 0 <= i < |v.items| ==> v.items[i].JString?
  }

  /** `z.enum(['today', 'tomorrow'])` */
  predicate IsDay(v: Json) { v.JString? && v.s in Days }

  /** `z.string().max(300)` */
  predicate IsSchedule(v: Json) { v.JString? && |v.s| <= MaxScheduleLength }

  /**
   * `suggestionSchema`: an object whose `requestType` is one of the three
   * types, and whose optional fields, where present, have their types
   * (`null` is not absent: it fails).
   */
  predicate Accepts(body: Json) {
    && body.JObject?
    && var f := body.fields;
    && "requestType" in f && f["requestType"].JString? && f["requestType"].s in RequestTypes
    && ("family" in f ==> IsFamily(f["family"]))
    && ("day" in f ==> IsDay(f["day"]))
    && ("schedule" in f ==> IsSchedule(f["schedule"]))
    && ("lat" in f ==> IsNumber(f["lat"]))
    && ("lon" in f ==> IsNumber(f["lon"]))
    && ("location" in f ==> IsText(f["location"]))
    && ("destinationAndDuration" in f ==> IsText(f["destinationAndDuration"]))
  }

  /** The strings of a JSON array of strings. */
  function Wrapped(names: seq<string>): (items: seq<Json>) {
    seq(|names|, i requires 0 <= i < |names| => JString(names[i]))
  }

  /** A text field is carried over: present exactly when the key is. */
  predicate CarriesText(f: map<string, Json>, key: string, v: Option<string>) {
    (key in f <==> v.Some?) && (v.Some? ==> f[key] == JString(v.value))
  }

  predicate CarriesNumber(f: map<string, Json>, key: string, v: Option<real>) {
    (key in f <==> v.Some?) && (v.Some? ==> f[key] == JNumber(v.value))
  }

  /** The request holds the schema's fields of the object and nothing else. */
  predicate Carries(f: map<string, Json>, req: SuggestionRequest) {
    && "requestType" in f && f["requestType"] == JString(req.requestType)
    && ("family" in f <==> req.family.Some?)
    && (req.family.Some? ==> f["family"] == JArray(Wrapped(req.family.value)))
    && CarriesText(f, "day", req.day)
    && CarriesText(f, "schedule", req.schedule)
    && CarriesNumber(f, "lat", req.lat)
    && CarriesNumber(f, "lon", req.lon)
    && CarriesText(f, "location", req.location)
    && CarriesText(f, "destinationAndDuration", req.destinationAndDuration)
  }

  // The parser, field by field.

  /** The strings of an array whose every item is a string. */
  function StringsOf(items: seq<Json>): (r: Option<seq<string>>)
    ensures r.Some? <==> forall i :: 0 <= i < |items| ==> items[i].JString?
    ensures r.Some? ==> Wrapped(r.value) == items
  {
    if items == [] then Some([])
    else if !items[0].JString? then None
    else
      match StringsOf(items[1..])
      case None => None
      case Some(rest) =>
        WrappedCons(items[0].s, rest);
        assert items == [items[0]] + items[1..];
        Some([items[0].s] + rest)
  }

  lemma WrappedCons(name: string, names: seq<string>)
    ensures Wrapped([name] + names) == [JString(name)] + Wrapped(names)
  {
    var w := Wrapped([name] + names);
    assert forall i :: 1 <= i < |w| ==> w[i] == Wrapped(names)[i - 1];
  }

  /** Wrapping the names of a family and reading them back gives the names. */
  lemma StringsOfWrapped(names: seq<string>)
    ensures StringsOf(Wrapped(names)) == Some(names)
  {
    var r := StringsOf(Wrapped(names));
    assert r.Some?;
    var w, v := Wrapped(names), Wrapped(r.value);
    assert |v| == |r.value| && |w| == |names| && v == w;
    forall i | 0 <= i < |names| ensures r.value[i] == names[i] {
      assert v[i] == JString(r.value[i]) && w[i] == JString(names[i]);
    }
    assert r.value == names;
  }

  function AsText(v: Json): Option<string> {
    if v.JString? then Some(v.s) else None
  }

  function AsNumber(v: Json): Option<real> {
    if v.JNumber? then Some(v.n) else None
  }

  function AsFamily(v: Json): Option<seq<string>> {
    if v.JArray? && |v.items| >= 1 then StringsOf(v.items) else None
  }

  function AsDay(v: Json): Option<string> {
    if v.JString? && v.s in Days then Some(v.s) else None
  }

  function AsSchedule(v: Json): Option<string> {
    if v.JString? && |v.s| <= MaxScheduleLength then Some(v.s) else None
  }

  /** How an optional field parses: its value is bad, or it is missing,
      or it gives a value. */
  datatype FieldResult<T> = Invalid | Missing | Given(value: T) {
    function ToOption(): Option<T> {
      match this
      case Given(v) => Some(v)
      case _ => None
    }
  }

  /** `.optional()` around a parser: a missing key is fine. */
  function OptionalField<T>(f: map<string, Json>, key: string, parse: Json -> Option<T>): (r: FieldResult<T>)
    ensures r.Missing? <==> key !in f
    ensures key in f ==> (r.Invalid? <==> parse(f[key]).None?)
    ensures r.Given? ==> key in f && parse(f[key]) == Some(r.value)
  {
    if key !in f then Missing
    else match parse(f[key])
      case None => Invalid
      case Some(v) => Given(v)
  }

  /**
   * `suggestionSchema.safeParse(body)`: the request when the body meets
   * the schema, carrying its known fields; nothing otherwise.
   */
  function Validate(body: Json): (r: Option<SuggestionRequest>)
    ensures r.Some? <==> Accepts(body)
    ensures r.Some? ==> Carries(body.fields, r.value)
  {
    if !body.JObject? || "requestType" !in body.fields then None
    else
      var f := body.fields;
      var kind := f["requestType"];
      FamilyField(f);
      TextField(f, "day", AsDay, IsDay);
      TextField(f, "schedule", AsSchedule, IsSchedule);
      NumberField(f, "lat");
      NumberField(f, "lon");
      TextField(f, "location", AsText, IsText);
      TextField(f, "destinationAndDuration", AsText, IsText);
      var family := OptionalField(f, "family", AsFamily);
      var day := OptionalField(f, "day", AsDay);
      var schedule := OptionalField(f, "schedule", AsSchedule);
      var lat := OptionalField(f, "lat", AsNumber);
      var lon := OptionalField(f, "lon", AsNumber);
      var location := OptionalField(f, "location", AsText);
      var destination := OptionalField(f, "destinationAndDuration", AsText);
      if !kind.JString? || kind.s !in RequestTypes
         || family.Invalid? || day.Invalid? || schedule.Invalid? || lat.Invalid? || lon.Invalid?
         || location.Invalid? || destination.Invalid?
      then None
      else
        Some(SuggestionRequest(kind.s, family.ToOption(), day.ToOption(), schedule.ToOption(),
                               lat.ToOption(), lon.ToOption(), location.ToOption(), destination.ToOption()))
  }

  /** A string field is invalid exactly when present with a value its
      rule refuses, and carried over otherwise. */
  lemma TextField(f: map<string, Json>, key: string, parse: Json -> Option<string>, ok: Json -> bool)
    requires forall v :: parse(v).Some? <==> ok(v)
    requires forall v :: parse(v).Some? ==> v == JString(parse(v).value)
    ensures var r := OptionalField(f, key, parse);
            (r.Invalid? <==> key in f && !ok(f[key])) && (!r.Invalid? ==> CarriesText(f, key, r.ToOption()))
  {
  }

  /** A number field, likewise. */
  lemma NumberField(f: map<string, Json>, key: string)
    ensures var r := OptionalField(f, key, AsNumber);
            (r.Invalid? <==> key in f && !IsNumber(f[key])) && (!r.Invalid? ==> CarriesNumber(f, key, r.ToOption()))
  {
  }

  /** The `family` field, likewise. */
  lemma FamilyField(f: map<string, Json>)
    ensures var r := OptionalField(f, "family", AsFamily);
            && (r.Invalid? <==> "family" in f && !IsFamily(f["family"]))
            && (!r.Invalid? ==> ("family" in f <==> r.ToOption().Some?))
            && (r.Given? ==> f["family"] == JArray(Wrapped(r.value)))
  {
  }

  /** A request is fixed by the object it came from. */
  lemma CarriesUnique(f: map<string, Json>, a: SuggestionRequest, b: SuggestionRequest)
    requires Carries(f, a) && Carries(f, b)
    ensures a == b
  {
    if a.family.Some? {
      StringsOfWrapped(a.family.value);
      StringsOfWrapped(b.family.value);
    }
  }

  /** Keys the schema does not know are stripped: they change nothing. */
  lemma UnknownKeysIgnored(f: map<string, Json>, key: string, v: Json)
    requires key !in SchemaKeys
    ensures Validate(JObject(f[key := v])) == Validate(JObject(f))
  {
    var g := f[key := v];
    assert forall k :: k in SchemaKeys ==> (k in g <==> k in f) && (k in f ==> g[k] == f[k]);
    assert Accepts(JObject(g)) <==> Accepts(JObject(f));
    if Validate(JObject(f)).Some? {
      assert Carries(g, Validate(JObject(f)).value);
      CarriesUnique(g, Validate(JObject(g)).value, Validate(JObject(f)).value);
    }
  }

  // The dispatch and the handler.

  /** The place argument of the daily prompt builder. */
  datatype PromptLocation = Coordinates(lat: Option<real>, lon: Option<real>) | Named(location: Option<string>)

  /**
   * The functions the server imports: the two prompt builders and the
   * model call, each of which may throw (an `Err`).
   */
  datatype Backend = Backend(
    dailyPrompt: (Option<seq<string>>, Option<string>, Option<string>, PromptLocation) -> Result<string, Error>,
    travelPrompt: (Option<string>, Option<seq<string>>) -> Result<string, Error>,
    callGemini: (string, bool) -> Result<Json, Error>)

  /**
   * The `switch (requestType)`: the prompt its case builds, from the
   * request's fields as they are (missing ones as `undefined`); `None`
   * for the `default` case.
   */
  function PromptFor(req: SuggestionRequest, backend: Backend): (r: Option<Result<string, Error>>)
    ensures r.None? <==> req.requestType !in RequestTypes
    ensures req.requestType == "geolocation" ==>
              r == Some(backend.dailyPrompt(req.family, req.day, req.schedule, Coordinates(req.lat, req.lon)))
    ensures req.requestType == "location" ==>
              r == Some(backend.dailyPrompt(req.family, req.day, req.schedule, Named(req.location)))
    ensures req.requestType == "travel" ==>
              r == Some(backend.travelPrompt(req.destinationAndDuration, req.family))
  {
    match req.requestType
    case "geolocation" => Some(backend.dailyPrompt(req.family, req.day, req.schedule, Coordinates(req.lat, req.lon)))
    case "location" => Some(backend.dailyPrompt(req.family, req.day, req.schedule, Named(req.location)))
    case "travel" => Some(backend.travelPrompt(req.destinationAndDuration, req.family))
    case _ => None
  }

  /** What a handler sends: JSON, a `{ error }` object, or text. */
  datatype Payload = JsonBody(json: Json) | ErrorBody(error: string) | TextBody(text: string)

  datatype ServerResponse = ServerResponse(status: nat, payload: Payload)

  /** `err && err.message ? err.message : 'Server error'` */
  function ErrorText(e: Error): string {
    if e.message != "" then e.message else "Server error"
  }

  /** The 500 answer of the `catch` block. */
  function ServerError(e: Error): ServerResponse {
    ServerResponse(500, ErrorBody(ErrorText(e)))
  }

  /** The answer to a validated request: the `switch`, then the model
      call without grounding. */
  function Answer(req: SuggestionRequest, backend: Backend): ServerResponse {
    match PromptFor(req, backend)
    case None => ServerResponse(400, ErrorBody("Invalid requestType"))
    case Some(Err(e)) => ServerError(e)
    case Some(Ok(prompt)) =>
      match backend.callGemini(prompt, false)
      case Err(e) => ServerError(e)
      case Ok(result) => ServerResponse(200, JsonBody(result))
  }

  /** `POST /suggestions`, answer by answer. */
  function HandleSuggestions(body: Json, backend: Backend): ServerResponse {
    match Validate(body)
    case None => ServerResponse(400, ErrorBody("Invalid input"))
    case Some(req) => Answer(req, backend)
  }

  /** Every answer is 200, 400 or 500, and it is 400 exactly when the
      body fails the schema. */
  lemma HandleStatus(body: Json, backend: Backend)
    ensures HandleSuggestions(body, backend).status in {200, 400, 500}
    ensures HandleSuggestions(body, backend).status == 400 <==> !Accepts(body)
  {
    var r := Validate(body);
    if r.Some? {
      assert r.value.requestType == body.fields["requestType"].s;
    }
  }

  /** A body the schema refuses is answered 400 `Invalid input` without
      building a prompt or calling the model. */
  lemma RejectedBeforeCalls(body: Json, backend: Backend, other: Backend)
    requires !Accepts(body)
    ensures HandleSuggestions(body, backend) == ServerResponse(400, ErrorBody("Invalid input"))
    ensures HandleSuggestions(body, backend) == HandleSuggestions(body, other)
  {
  }

  /** A `requestType` outside the three is refused by the schema, so the
      answer is `Invalid input`. */
  lemma UnknownRequestType(body: Json, backend: Backend)
    requires body.JObject? && "requestType" in body.fields
    requires !(body.fields["requestType"].JString? && body.fields["requestType"].s in RequestTypes)
    ensures HandleSuggestions(body, backend) == ServerResponse(400, ErrorBody("Invalid input"))
  {
  }

  /** The `default` case is dead after validation: a validated request
      always gets a prompt, and no answer says `Invalid requestType`. */
  lemma DefaultCaseUnreachable(body: Json, backend: Backend)
    ensures Validate(body).Some? ==> PromptFor(Validate(body).value, backend).Some?
    ensures HandleSuggestions(body, backend) != ServerResponse(400, ErrorBody("Invalid requestType"))
  {
    var r := Validate(body);
    if r.Some? {
      assert r.value.requestType == body.fields["requestType"].s;
    }
  }

  /** An accepted body gets the model's result with status 200 when the
      prompt and the call succeed (the call without grounding), and the
      500 answer of the first error otherwise. */
  lemma AcceptedOutcome(body: Json, backend: Backend)
    requires Accepts(body)
    ensures var prompt := PromptFor(Validate(body).value, backend).value;
            HandleSuggestions(body, backend) ==
              if prompt.Err? then ServerError(prompt.error)
              else if backend.callGemini(prompt.value, false).Err? then ServerError(backend.callGemini(prompt.value, false).error)
              else ServerResponse(200, JsonBody(backend.callGemini(prompt.value, false).value))
  {
    DefaultCaseUnreachable(body, backend);
  }

  /** A thrown error is answered with its message, or `Server error`
      when it has none; the message is never empty. */
  lemma ErrorMessageFallback(e: Error)
    ensures ServerError(e).status == 500
    ensures e.message != "" ==> ServerError(e).payload == ErrorBody(e.message)
    ensures e.message == "" ==> ServerError(e).payload == ErrorBody("Server error")
    ensures ServerError(e).payload.error != ""
  {
  }

  /** Validation requires no coordinates: a geolocation request without
      them reaches the daily prompt with both `undefined`. */
  lemma GeolocationWithoutCoordinates(body: Json, backend: Backend, kind: string)
    requires kind == "geolocation"
    requires body == JObject(map["requestType" := JString(kind)])
    ensures Validate(body) == Some(SuggestionRequest(kind, None, None, None, None, None, None, None))
    ensures PromptFor(Validate(body).value, backend) == Some(backend.dailyPrompt(None, None, None, Coordinates(None, None)))
  {
    var req := SuggestionRequest(kind, None, None, None, None, None, None, None);
    assert Accepts(body);
    assert Carries(body.fields, req);
    CarriesUnique(body.fields, Validate(body).value, req);
  }

  /** Nor does it require a place: a location request without one
      reaches the daily prompt with `location` undefined. */
  lemma LocationWithoutPlace(body: Json, backend: Backend, kind: string)
    requires kind == "location"
    requires body == JObject(map["requestType" := JString(kind)])
    ensures Validate(body) == Some(SuggestionRequest(kind, None, None, None, None, None, None, None))
    ensures PromptFor(Validate(body).value, backend) == Some(backend.dailyPrompt(None, None, None, Named(None)))
  {
    var req := SuggestionRequest(kind, None, None, None, None, None, None, None);
    assert Accepts(body);
    assert Carries(body.fields, req);
    CarriesUnique(body.fields, Validate(body).value, req);
  }

  /** The path of an HTTP request, with its method. */
  datatype Route = Route(verb: string, path: string)

  /** The two routes; `None` for any other, left to Express. */
  function Dispatch(route: Route, body: Json, backend: Backend): (r: Option<ServerResponse>)
    ensures r.Some? <==> route in {Route("GET", "/healthz"), Route("POST", "/suggestions")}
  {
    if route == Route("GET", "/healthz") then Some(ServerResponse(200, TextBody("ok")))
    else if route == Route("POST", "/suggestions") then Some(HandleSuggestions(body, backend))
    else None
  }

  /** `GET /healthz` answers 200 `ok`, whatever the body and the backend. */
  lemma HealthzOk(body: Json, backend: Backend)
    ensures Dispatch(Route("GET", "/healthz"), body, backend) == Some(ServerResponse(200, TextBody("ok")))
  {
  }

  // The handlers, answering through Express's response object.

  /** The part of Express's `res` the handlers use. */
  class ResponseWriter {
    var statusCode: nat
    var sent: Option<Payload>

    /** A fresh response: status 200, nothing sent. */
    constructor ()
      ensures statusCode == 200 && sent == None
    {
      statusCode := 200;
      sent := None;
    }

    /** `res.status(code)` */
    method Status(code: nat)
      modifies this
      ensures statusCode == code && sent == old(sent)
    {
      statusCode := code;
    }

    /** `res.json(value)` or `res.send(text)`: the body goes out once. */
    method Send(payload: Payload)
      requires sent.None?
      modifies this
      ensures sent == Some(payload) && statusCode == old(statusCode)
    {
      sent := Some(payload);
    }
  }

  /** The `/healthz` handler. */
  method GetHealthz(res: ResponseWriter)
    requires res.sent.None?
    modifies res
    ensures res.statusCode == 200 && res.sent == Some(TextBody("ok"))
  {
    res.Status(200);
    res.Send(TextBody("ok"));
  }

  /** The `/suggestions` handler: it answers as `HandleSuggestions`. */
  method PostSuggestions(body: Json, backend: Backend, res: ResponseWriter)
    requires res.sent.None? && res.statusCode == 200
    modifies res
    ensures res.sent.Some? && ServerResponse(res.statusCode, res.sent.value) == HandleSuggestions(body, backend)
  {
    var parsed := Validate(body);
    if parsed.None? {
      res.Status(400);
      res.Send(ErrorBody("Invalid input"));
      return;
    }
    Respond(parsed.value, backend, res);
  }

  /** The `try` block past validation: the `switch (requestType)`, the
      model call, and the `catch` block's answer to a thrown error. */
  method Respond(req: SuggestionRequest, backend: Backend, res: ResponseWriter)
    requires res.sent.None? && res.statusCode == 200
    modifies res
    ensures res.sent.Some? && ServerResponse(res.statusCode, res.sent.value) == Answer(req, backend)
  {
    var prompt: Result<string, Error>;
    if req.requestType == "geolocation" {
      prompt := backend.dailyPrompt(req.family, req.day, req.schedule, Coordinates(req.lat, req.lon));
    } else if req.requestType == "location" {
      prompt := backend.dailyPrompt(req.family, req.day, req.schedule, Named(req.location));
    } else if req.requestType == "travel" {
      prompt := backend.travelPrompt(req.destinationAndDuration, req.family);
    } else {
      res.Status(400);
      res.Send(ErrorBody("Invalid requestType"));
      return;
    }
    if prompt.Err? {
      res.Status(500);
      res.Send(ErrorBody(ErrorText(prompt.error)));
      return;
    }
    var result := backend.callGemini(prompt.value, false);
    if result.Err? {
      res.Status(500);
      res.Send(ErrorBody(ErrorText(result.error)));
      return;
    }
    res.Send(JsonBody(result.value));
  }
}
