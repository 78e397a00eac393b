/**
 * The DHL tracking client: one GET to the carrier's tracking endpoint, a
 * classification of what came back, and a pure parser from the carrier's
 * JSON into the application's `{status, location, events}` shape.
 *
 * The HTTP client and the logger are not called: the transport is a
 * parameter (`send`), and what the client does to the outside world is
 * returned as a trace of effects, so that "no request was made" and "one
 * warning was logged" are statements about that trace.
 */
module DhlTrackingService {
  import opened PhpValues
  import opened DhlTrackingStatus
  import opened DhlTrackingExceptions

  const BaseUrl: string := "https://api-eu.dhl.com/track/shipments"

  /** The standardised result; `events` is the carrier's array, unchanged. */
  datatype TrackingInfo = TrackingInfo(status: Option<string>, location: Option<string>, events: Json)

  /** A PHP error raised by the code itself. A TypeError (a value of the
      wrong type for a typed parameter, under strict types) and an Error are
      not Exceptions, so no `catch (Exception)` sees them. A warning is turned
      into an ErrorException, an Exception, by the framework's error handler. */
  datatype PhpError = TypeError(message: string) | Warning(message: string) | Error(message: string)

  /** A parser step either yields a value or raises a PHP error. */
  datatype Parse<T> = Parsed(value: T) | Raised(error: PhpError)

  /** What `$v[0]` reads: a value, or the warning PHP emits instead. */
  datatype Offset = Found(v: Json) | Missing(warning: string)

  function Offset0(v: Json): (r: Offset)
    ensures r.Found? <==> (v.JList? && |v.items| > 0) || (v.JObj? && "0" in v.fields) || (v.JStr? && |v.s| > 0)
    ensures v.JList? && |v.items| > 0 ==> r == Found(v.items[0])
    ensures v.JObj? && "0" in v.fields ==> r == Found(v.fields["0"])
    ensures v.JStr? && |v.s| > 0 ==> r == Found(JStr([v.s[0]]))
  {
    match v
    case JList(items) => if |items| > 0 then Found(items[0]) else Missing("Undefined array key 0")
    // JSON object keys that are decimal integers become integer array keys.
    case JObj(fields) => if "0" in fields then Found(fields["0"]) else Missing("Undefined array key 0")
    case JStr(s) => if |s| > 0 then Found(JStr([s[0]])) else Missing("Uninitialized string offset 0")
    case JNull => Missing("Trying to access array offset on value of type null")
    case JBool(_) => Missing("Trying to access array offset on value of type bool")
    case JInt(_) => Missing("Trying to access array offset on value of type int")
  }

  /** The result for a response without shipments. */
  function CreateEmptyTrackingResponse(): (r: TrackingInfo)
    ensures r.status.None? && r.location.None? && r.events == JList([])
  {
    TrackingInfo(None, None, JList([]))
  }

  /** Carrier code -> internal status: nothing for a missing or PHP-empty
      code, the table's entry for a known code, `shipped` otherwise. */
  function MapDhlStatus(dhlStatus: Option<string>): (r: Option<string>)
    ensures r.None? <==> dhlStatus.None? || EmptyString(dhlStatus.value)
    ensures r.Some? ==> r.value in InternalStatuses
    ensures r.Some? && dhlStatus.value in StatusMap ==> r.value == StatusMap[dhlStatus.value]
    ensures r.Some? && dhlStatus.value !in StatusMap ==> r.value == "shipped"
  {
    if dhlStatus.None? || EmptyString(dhlStatus.value) then None
    else if dhlStatus.value in StatusMap then Some(StatusMap[dhlStatus.value])
    else Some(StatusShipped)
  }

  /** `array_filter` without a callback: keeps the values that are not empty. */
  function NonEmptyOnly(vs: seq<Json>): (r: seq<Json>)
    ensures |r| <= |vs|
    ensures forall k :: 0 <= k < |r| ==> !Empty(r[k]) && r[k] in vs
    ensures forall k :: 0 <= k < |vs| && !Empty(vs[k]) ==> vs[k] in r
  {
    if vs == [] then []
    else (if Empty(vs[0]) then [] else [vs[0]]) + NonEmptyOnly(vs[1..])
  }

  lemma NonEmptyOnlyPair(a: Json, b: Json)
    ensures NonEmptyOnly([a, b]) == (if Empty(a) then [] else [a]) + (if Empty(b) then [] else [b])
  {
    assert [a, b][1..] == [b];
    assert [b][1..] == [];
  }

  /** PHP's conversion of a value to a string inside `implode`; an array
      becomes "Array" with a warning. */
  function ToPhpString(v: Json): (r: Parse<string>)
    ensures !Empty(v) && r.Parsed? ==> r.value != ""
    ensures r.Raised? <==> IsArray(v)
  {
    match v
    case JNull => Parsed("")
    case JBool(b) => Parsed(if b then "1" else "")
    case JInt(i) => Parsed(IntToString(i))
    case JStr(s) => Parsed(s)
    case JList(_) => Raised(Warning("Array to string conversion"))
    case JObj(_) => Raised(Warning("Array to string conversion"))
  }

  /** `implode($sep, $parts)`: the first part that cannot be converted raises. */
  function Implode(sep: string, parts: seq<Json>): (r: Parse<string>)
    ensures r.Raised? <==> exists k :: 0 <= k < |parts| && IsArray(parts[k])
    ensures r.Parsed? && |parts| > 0 && !Empty(parts[0]) ==> r.value != ""
    ensures r.Parsed? && |parts| == 1 ==> r.value == ToPhpString(parts[0]).value
    ensures r.Parsed? && |parts| == 2 ==> r.value == ToPhpString(parts[0]).value + sep + ToPhpString(parts[1]).value
    decreases |parts|
  {
    if parts == [] then Parsed("")
    else match ToPhpString(parts[0])
      case Raised(e) => Raised(e)
      case Parsed(s) =>
        if |parts| == 1 then Parsed(s)
        else
          assert forall k :: 0 < k < |parts| ==> parts[k] == parts[1..][k - 1];
          match Implode(sep, parts[1..])
          case Raised(e) => Raised(e)
          case Parsed(rest) => Parsed(s + sep + rest)
  }

  /** `$event['location']['address']`, each level defaulting to the empty array. */
  function AddressOf(event: Json): Json {
    LookupOr(LookupOr(event, "location", JList([])), "address", JList([]))
  }

  /** The "locality, country" of the first event, from whichever of the two
      parts is present and not PHP-empty. */
  function ExtractLatestLocation(events: Json): (r: Parse<Option<string>>)
    requires IsArray(events)
    ensures Empty(events) ==> r == Parsed(None)
    ensures r.Parsed? && r.value.Some? ==> r.value.value != ""
  {
    if Empty(events) then Parsed(None)
    else match Offset0(events)
      case Missing(w) => Raised(Warning(w))
      case Found(latest) =>
        var address := AddressOf(latest);
        var parts := NonEmptyOnly([LookupOr(address, "addressLocality", JNull), LookupOr(address, "countryCode", JNull)]);
        if |parts| == 0 then Parsed(None)
        else match Implode(", ", parts)
          case Raised(e) => Raised(e)
          case Parsed(s) => Parsed(Some(s))
  }

  /** Reads `shipments[0]` only: its status code through MapDhlStatus, the
      location of its first event, and its events as they are. */
  function ParseTrackingResponse(response: Json): (r: Parse<TrackingInfo>)
    requires IsArray(response)
    ensures Empty(LookupOr(response, "shipments", JList([]))) ==> r == Parsed(CreateEmptyTrackingResponse())
    ensures var shipments := LookupOr(response, "shipments", JList([]));
      !Empty(shipments) && Offset0(shipments).Missing? ==> r == Raised(Warning(Offset0(shipments).warning))
    ensures r.Parsed? ==> IsArray(r.value.events)
    ensures r.Parsed? && r.value.status.Some? ==> r.value.status.value in InternalStatuses
    ensures r.Parsed? && r.value.location.Some? ==> r.value.location.value != ""
  {
    var shipments := LookupOr(response, "shipments", JList([]));
    if Empty(shipments) then Parsed(CreateEmptyTrackingResponse())
    else match Offset0(shipments)
      case Missing(w) => Raised(Warning(w))
      case Found(shipment) =>
        var status := LookupOr(shipment, "status", JList([]));
        var events := LookupOr(shipment, "events", JList([]));
        var code := LookupOr(status, "statusCode", JNull);
        if !(code.JNull? || code.JStr?) then
          Raised(TypeError("mapDhlStatus(): Argument #1 ($dhlStatus) must be of type ?string"))
        else
          var mapped := MapDhlStatus(if code.JStr? then Some(code.s) else None);
          if !IsArray(events) then
            Raised(TypeError("extractLatestLocation(): Argument #1 ($events) must be of type array"))
          else match ExtractLatestLocation(events)
            case Raised(e) => Raised(e)
            case Parsed(location) => Parsed(TrackingInfo(mapped, location, events))
  }

  /** For every response whose first shipment can be read: a status code
      that is neither null nor a string, or events that are not an array,
      raise a TypeError; otherwise the result is the first shipment's code
      through MapDhlStatus, the location of its events and the events
      themselves, and it fails only when reading the location fails. */
  lemma ParseReadsFirstShipment(response: Json, shipment: Json)
    requires IsArray(response)
    requires var shipments := LookupOr(response, "shipments", JList([]));
      !Empty(shipments) && Offset0(shipments) == Found(shipment)
    ensures var code := LookupOr(LookupOr(shipment, "status", JList([])), "statusCode", JNull);
      var events := LookupOr(shipment, "events", JList([]));
      var r := ParseTrackingResponse(response);
      && (!(code.JNull? || code.JStr?) ==> r.Raised? && r.error.TypeError?)
      && ((code.JNull? || code.JStr?) && !IsArray(events) ==> r.Raised? && r.error.TypeError?)
      && ((code.JNull? || code.JStr?) && IsArray(events) ==>
            && (r.Parsed? <==> ExtractLatestLocation(events).Parsed?)
            && (r.Parsed? ==>
                  && r.value.status == MapDhlStatus(if code.JStr? then Some(code.s) else None)
                  && r.value.location == ExtractLatestLocation(events).value
                  && r.value.events == events))
  {
  }

  // ---------------------------------------------------------------------
  // The client

  /** The one GET request: endpoint, `DHL-API-Key` header, `trackingNumber` query. */
  datatype ApiRequest = ApiRequest(url: string, apiKey: Option<string>, trackingNumber: string)

  /** What the HTTP client gives back: a response (its status, raw body and
      `json()` decoding, null when the body is not JSON), or an exception. */
  datatype Transport =
    | Responded(status: int, body: string, json: Json)
    | Failed(cause: PreviousException)

  /** `Response::successful()`. */
  predicate Successful(status: int) {
    200 <= status < 300
  }

  datatype Effect =
    | Request(request: ApiRequest)
    | LogWarning(trackingNumber: string, status: int, body: string)
    | LogError(trackingNumber: string, error: string)

  /** The caller sees tracking data, a DhlTrackingException, or a PHP error
      that no handler in the client catches. */
  datatype Outcome = Info(info: TrackingInfo) | Threw(exception: DhlTrackingException) | Escaped(error: PhpError)

  datatype Run = Run(outcome: Outcome, effects: seq<Effect>)

  function RequestCount(effects: seq<Effect>): nat {
    if effects == [] then 0 else (if effects[0].Request? then 1 else 0) + RequestCount(effects[1..])
  }

  function WarningCount(effects: seq<Effect>): nat {
    if effects == [] then 0 else (if effects[0].LogWarning? then 1 else 0) + WarningCount(effects[1..])
  }

  lemma CountsOfShortTraces(a: Effect, b: Effect)
    ensures RequestCount([a]) == (if a.Request? then 1 else 0)
    ensures WarningCount([a]) == (if a.LogWarning? then 1 else 0)
    ensures RequestCount([a, b]) == RequestCount([a]) + RequestCount([b])
    ensures WarningCount([a, b]) == WarningCount([a]) + WarningCount([b])
  {
    assert [a, b][1..] == [b];
  }

  /** The try block once the request is built: send it, then classify what
      came back. A DhlTrackingException leaves unchanged; any other Exception
      (the HTTP client's, or a warning turned into one) is logged and wrapped
      as networkError; PHP Errors are not caught. */
  function SendAndClassify(trackingNumber: string, request: ApiRequest, t: Transport): (r: Run)
    ensures |r.effects| >= 1 && r.effects[0] == Request(request) && RequestCount(r.effects) == 1
    ensures t.Responded? && !Successful(t.status) ==>
      r == Run(Threw(ApiRequestFailed(trackingNumber, t.status, t.body)),
               [Request(request), LogWarning(trackingNumber, t.status, t.body)])
    ensures t.Failed? ==>
      r == Run(Threw(NetworkError(trackingNumber, t.cause)), [Request(request), LogError(trackingNumber, t.cause.message)])
    ensures t.Responded? && Successful(t.status) && IsArray(t.json) && ParseTrackingResponse(t.json).Parsed? ==>
      r == Run(Info(ParseTrackingResponse(t.json).value), [Request(request)])
    ensures t.Responded? && Successful(t.status) && !IsArray(t.json) ==> r.outcome.Escaped? && r.outcome.error.TypeError?
    ensures t.Responded? && Successful(t.status) && IsArray(t.json) && ParseTrackingResponse(t.json).Raised? ==>
      var e := ParseTrackingResponse(t.json).error;
      && (e.Warning? ==>
            r == Run(Threw(NetworkError(trackingNumber, PreviousException("ErrorException", e.message))),
                     [Request(request), LogError(trackingNumber, e.message)]))
      && (!e.Warning? ==> r == Run(Escaped(e), [Request(request)]))
    ensures WarningCount(r.effects) == 1 <==> r.outcome.Threw? && r.outcome.exception.GetErrorCode() == ErrorApiRequestFailed
    ensures r.outcome.Threw? ==> r.outcome.exception.GetErrorCode() != ErrorInvalidResponse
  {
    ErrorCodesDistinct();
    var sent := [Request(request)];
    match t
    case Failed(cause) =>
      CountsOfShortTraces(Request(request), LogError(trackingNumber, cause.message));
      Run(Threw(NetworkError(trackingNumber, cause)), sent + [LogError(trackingNumber, cause.message)])
    case Responded(status, body, json) =>
      CountsOfShortTraces(Request(request), LogWarning(trackingNumber, status, body));
      if !Successful(status) then
        Run(Threw(ApiRequestFailed(trackingNumber, status, body)), sent + [LogWarning(trackingNumber, status, body)])
      else if !IsArray(json) then
        Run(Escaped(TypeError("parseTrackingResponse(): Argument #1 ($response) must be of type array")), sent)
      else ClassifyBody(trackingNumber, request, ParseTrackingResponse(json))
  }

  /** A 2xx answer with an array body, given its parse: the tracking data,
      or a parser warning (an ErrorException) logged and wrapped as
      networkError, or a parser TypeError that no catch clause sees. */
  function ClassifyBody(trackingNumber: string, request: ApiRequest, parsed: Parse<TrackingInfo>): (r: Run)
    ensures parsed.Parsed? ==> r == Run(Info(parsed.value), [Request(request)])
    ensures parsed.Raised? && parsed.error.Warning? ==>
      r == Run(Threw(NetworkError(trackingNumber, PreviousException("ErrorException", parsed.error.message))),
               [Request(request), LogError(trackingNumber, parsed.error.message)])
    ensures parsed.Raised? && !parsed.error.Warning? ==> r == Run(Escaped(parsed.error), [Request(request)])
    ensures |r.effects| >= 1 && r.effects[0] == Request(request) && RequestCount(r.effects) == 1
    ensures WarningCount(r.effects) == 0
    ensures r.outcome.Threw? ==> r.outcome.exception.GetErrorCode() == ErrorNetworkError
  {
    var sent := [Request(request)];
    if parsed.Parsed? then Run(Info(parsed.value), sent)
    else if parsed.error.Warning? then
      CountsOfShortTraces(Request(request), LogError(trackingNumber, parsed.error.message));
      Run(Threw(NetworkError(trackingNumber, PreviousException("ErrorException", parsed.error.message))),
          sent + [LogError(trackingNumber, parsed.error.message)])
    else Run(Escaped(parsed.error), sent)
  }

  /** The client with its API key initialised (see the as-written variant
      below): an empty number is refused before any request; otherwise one
      request is sent and its result classified. */
  function GetTrackingInfo(trackingNumber: string, apiKey: Option<string>, send: ApiRequest -> Transport): (r: Run)
    ensures EmptyString(trackingNumber) ==> r == Run(Threw(InvalidTrackingNumber(trackingNumber)), [])
    ensures !EmptyString(trackingNumber) ==>
      var request := ApiRequest(BaseUrl, apiKey, trackingNumber);
      r == SendAndClassify(trackingNumber, request, send(request))
    ensures RequestCount(r.effects) == (if EmptyString(trackingNumber) then 0 else 1)
    ensures r.outcome.Threw? ==> r.outcome.exception.GetErrorCode() != ErrorInvalidResponse
  {
    if EmptyString(trackingNumber) then
      Run(Threw(InvalidTrackingNumber(trackingNumber)), [])
    else
      var request := ApiRequest(BaseUrl, apiKey, trackingNumber);
      SendAndClassify(trackingNumber, request, send(request))
  }

  /** The client as written: the key is a typed readonly property that nothing
      initialises, so reading it to build the request header throws an Error,
      which neither catch clause handles. */
  function GetTrackingInfoAsWritten(trackingNumber: string, send: ApiRequest -> Transport): (r: Run)
    ensures EmptyString(trackingNumber) ==> r == Run(Threw(InvalidTrackingNumber(trackingNumber)), [])
  {
    if EmptyString(trackingNumber) then
      Run(Threw(InvalidTrackingNumber(trackingNumber)), [])
    else
      Run(Escaped(Error("Typed property App\\Services\\DhlTrackingService::$apiKey must not be accessed before initialization")), [])
  }

  // ---------------------------------------------------------------------
  // Properties

  /** As written, no tracking number ever reaches the carrier, while the
      client with an initialised key sends exactly one request for it. */
  lemma UninitialisedKeyBlocksEveryRequest(trackingNumber: string, apiKey: Option<string>, send: ApiRequest -> Transport)
    requires !EmptyString(trackingNumber)
    ensures GetTrackingInfoAsWritten(trackingNumber, send).outcome.Escaped?
    ensures RequestCount(GetTrackingInfoAsWritten(trackingNumber, send).effects) == 0
    ensures RequestCount(GetTrackingInfo(trackingNumber, apiKey, send).effects) == 1
  {
  }

  /** "0" is PHP-empty: it is refused like "" and never sent to the carrier. */
  lemma ZeroTrackingNumberRefused(apiKey: Option<string>, send: ApiRequest -> Transport)
    ensures GetTrackingInfo("0", apiKey, send).outcome.Threw?
    ensures GetTrackingInfo("0", apiKey, send).outcome.exception.GetErrorCode() == "invalid_tracking_number"
    ensures GetTrackingInfo("0", apiKey, send).outcome.exception.GetStatusCode() == 400
    ensures GetTrackingInfo("0", apiKey, send).effects == []
  {
  }

  /** Only the first shipment is read: whatever follows it does not change the result. */
  lemma OnlyFirstShipmentRead(fields: map<string, Json>, first: Json, rest: seq<Json>)
    ensures var one := JObj(fields["shipments" := JList([first])]);
            var many := JObj(fields["shipments" := JList([first] + rest)]);
            ParseTrackingResponse(many) == ParseTrackingResponse(one)
  {
    var one := JObj(fields["shipments" := JList([first])]);
    var many := JObj(fields["shipments" := JList([first] + rest)]);
    assert LookupOr(one, "shipments", JList([])) == JList([first]);
    assert LookupOr(many, "shipments", JList([])) == JList([first] + rest);
    assert Offset0(JList([first] + rest)) == Found(first);
  }

  /** A first shipment that parses hands back its `events` unchanged, or the
      empty array when it has none. */
  lemma EventsPassedThrough(response: Json, first: Json)
    requires IsArray(response)
    requires var s := LookupOr(response, "shipments", JList([])); !Empty(s) && Offset0(s) == Found(first)
    requires ParseTrackingResponse(response).Parsed?
    ensures ParseTrackingResponse(response).value.events == LookupOr(first, "events", JList([]))
  {
  }

  /** The location of the first event: the parts that are not PHP-empty
      survive (an absent part reads as null), in locality-then-country
      order; none gives null, one gives its string, two are joined with
      ", "; a surviving array part makes `implode` raise. */
  lemma LocationJoinsParts(events: seq<Json>)
    requires |events| > 0
    ensures var a := LookupOr(AddressOf(events[0]), "addressLocality", JNull);
      var b := LookupOr(AddressOf(events[0]), "countryCode", JNull);
      var r := ExtractLatestLocation(JList(events));
      && (Empty(a) && Empty(b) ==> r == Parsed(None))
      && (!Empty(a) && Empty(b) ==> if IsArray(a) then r.Raised? else r == Parsed(Some(ToPhpString(a).value)))
      && (Empty(a) && !Empty(b) ==> if IsArray(b) then r.Raised? else r == Parsed(Some(ToPhpString(b).value)))
      && (!Empty(a) && !Empty(b) ==>
            if IsArray(a) || IsArray(b) then r.Raised?
            else r == Parsed(Some(ToPhpString(a).value + ", " + ToPhpString(b).value)))
  {
    var a := LookupOr(AddressOf(events[0]), "addressLocality", JNull);
    var b := LookupOr(AddressOf(events[0]), "countryCode", JNull);
    NonEmptyOnlyPair(a, b);
    assert Offset0(JList(events)) == Found(events[0]);
  }

  /** The tracking test's payload: a delivered shipment in Berlin. */
  lemma DeliveredInBerlin(shipment: Json, status: Json, event: Json, address: Json)
    requires address == JObj(map["addressLocality" := JStr("Berlin"), "countryCode" := JStr("DE")])
    requires event == JObj(map["location" := JObj(map["address" := address]), "description" := JStr("Delivered")])
    requires status == JObj(map["statusCode" := JStr("delivered"), "description" := JStr("Delivered")])
    requires shipment == JObj(map["status" := status, "events" := JList([event])])
    ensures ParseTrackingResponse(JObj(map["shipments" := JList([shipment])]))
            == Parsed(TrackingInfo(Some("delivered"), Some("Berlin, DE"), JList([event])))
  {
    var json := JObj(map["shipments" := JList([shipment])]);
    assert LookupOr(json, "shipments", JList([])) == JList([shipment]);
    assert LookupOr(shipment, "status", JList([])) == status;
    assert LookupOr(shipment, "events", JList([])) == JList([event]);
    assert LookupOr(status, "statusCode", JNull) == JStr("delivered");
    assert MapDhlStatus(Some("delivered")) == Some("delivered");
    assert LookupOr(event, "location", JList([])) == JObj(map["address" := address]);
    assert AddressOf(event) == address;
    assert LookupOr(address, "addressLocality", JNull) == JStr("Berlin");
    assert LookupOr(address, "countryCode", JNull) == JStr("DE");
    assert !EmptyString("Berlin") && !EmptyString("DE");
    LocationJoinsParts([event]);
    assert "Berlin" + ", " + "DE" == "Berlin, DE";
    assert ExtractLatestLocation(JList([event])) == Parsed(Some("Berlin, DE"));
    assert Offset0(JList([shipment])) == Found(shipment);
  }

  /** A shipment with a status code and no events: the code goes through the
      status table and there is no location. The tracking tests' payloads
      are instances: `transit` is `in_transit`, and the table's `unknown`
      code, `failure` and an unlisted code are all `shipped`. */
  lemma UnknownAndTransitPayloads(code: string)
    ensures var json := JObj(map["shipments" := JList([JObj(map[
                 "status" := JObj(map["statusCode" := JStr(code)]), "events" := JList([])])])]);
            && ParseTrackingResponse(json) == Parsed(TrackingInfo(MapDhlStatus(Some(code)), None, JList([])))
            && (code == "transit" ==> ParseTrackingResponse(json).value.status == Some("in_transit"))
            && (code == "unknown" || code == "failure" || code == "unknown_status" ==>
                  ParseTrackingResponse(json).value.status == Some("shipped"))
  {
    var status := JObj(map["statusCode" := JStr(code)]);
    var shipment := JObj(map["status" := status, "events" := JList([])]);
    var json := JObj(map["shipments" := JList([shipment])]);
    assert LookupOr(json, "shipments", JList([])) == JList([shipment]);
    assert LookupOr(shipment, "status", JList([])) == status;
    assert LookupOr(shipment, "events", JList([])) == JList([]);
    assert LookupOr(status, "statusCode", JNull) == JStr(code);
    assert "unknown_status" !in StatusMap;
  }
}
