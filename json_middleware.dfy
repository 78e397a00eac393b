/**
 * The middleware that turns a response into a JSON response when the
 * request asks for JSON, targets the `api/` prefix, or accepts
 * `application/json`. A forced response carries the decoded body (or the
 * raw body wrapped under `content`), the original status and the original
 * headers.
 *
 * Laravel's own content negotiation (`expectsJson`, `wantsJson`) is taken as
 * two booleans of the request, and `json_decode` is a function parameter.
 */
module JsonMiddleware {
  import opened PhpValues

  /** What the middleware reads of the request. `accept` is the first
      `Accept` header, when present. */
  datatype Request = Request(expectsJson: bool, wantsJson: bool, path: string, accept: Option<string>)

  /** What the middleware reads of the response. `content` is `None` when
      `getContent()` gives false (a streamed body). Header names are
      lower-case, each with its list of values. */
  datatype Response = Response(content: Option<string>, status: int, headers: map<string, seq<string>>, isJson: bool)

  /** The result of `handle`: the response it was given, unchanged, or a new
      JSON response with this data, status and headers. */
  datatype Handled =
    | Passed(response: Response)
    | Forced(data: Json, status: int, headers: map<string, seq<string>>)

  /** `json_decode($text, true)`: `None` when the text is not JSON. */
  type Decoder = string -> Option<Json>

  /** The header a fresh `response()->json(...)` starts with. */
  const JsonDefaultHeaders: map<string, seq<string>> := map["content-type" := ["application/json"]]

  /** `str_contains(haystack, needle)`. */
  predicate Contains(haystack: string, needle: string)
    decreases |haystack|
  {
    if |haystack| < |needle| then false
    else haystack[..|needle|] == needle || Contains(haystack[1..], needle)
  }

  /** `needle` occurs in `haystack` starting at offset `i`. */
  predicate OccursAt(haystack: string, needle: string, i: int) {
    0 <= i && i + |needle| <= |haystack| && haystack[i..i + |needle|] == needle
  }

  /** The substring test holds exactly when the needle occurs at some offset. */
  lemma {:induction false} ContainsAtOffset(haystack: string, needle: string)
    ensures Contains(haystack, needle) <==> exists i :: OccursAt(haystack, needle, i)
    decreases |haystack|
  {
    if |haystack| < |needle| {
      // Neither side holds: there is no room for the needle.
    } else if haystack[..|needle|] == needle {
      assert OccursAt(haystack, needle, 0);
    } else {
      ContainsAtOffset(haystack[1..], needle);
      if Contains(haystack, needle) {
        var i :| OccursAt(haystack[1..], needle, i);
        assert haystack[i + 1..i + 1 + |needle|] == haystack[1..][i..i + |needle|];
        assert OccursAt(haystack, needle, i + 1);
      }
      if exists i :: OccursAt(haystack, needle, i) {
        var i :| OccursAt(haystack, needle, i);
        assert i != 0;
        assert haystack[1..][i - 1..i - 1 + |needle|] == haystack[i..i + |needle|];
        assert OccursAt(haystack[1..], needle, i - 1);
      }
    }
  }

  /** `$request->is(...)` with the `api/` wildcard pattern: the path starts with `api/`. */
  predicate IsApiPath(path: string) {
    |path| >= 4 && path[..4] == "api/"
  }

  /** `shouldForceJson`: a request asking for JSON or under `api/` always;
      otherwise a response that is not already JSON, when the `Accept`
      header holds `application/json` somewhere (the emptiness check never
      decides, since an empty header cannot hold it). */
  predicate ShouldForceJson(request: Request, response: Response)
    ensures ShouldForceJson(request, response) <==>
      || request.expectsJson || request.wantsJson || IsApiPath(request.path)
      || (!response.isJson && request.accept.Some? && exists i :: OccursAt(request.accept.value, "application/json", i))
  {
    if request.expectsJson || request.wantsJson then true
    else if IsApiPath(request.path) then true
    else if response.isJson then false
    else if request.accept.None? then false
    else
      ContainsAtOffset(request.accept.value, "application/json");
      !EmptyString(request.accept.value) && Contains(request.accept.value, "application/json")
  }

  /** The data of the forced response: `[]` for PHP-empty content, else the
      decoded body, else the body wrapped under `content` (`??` treats a body
      that decodes to null like one that does not decode). */
  function ForcedData(content: Option<string>, decode: Decoder): (r: Json)
    ensures content.None? || EmptyString(content.value) ==> r == JList([])
    ensures content.Some? && !EmptyString(content.value) ==>
      (match decode(content.value)
       case Some(v) => r == (if v != JNull then v else JObj(map["content" := JStr(content.value)]))
       case None => r == JObj(map["content" := JStr(content.value)]))
    ensures r != JNull
  {
    if content.None? || EmptyString(content.value) then JList([])
    else
      match decode(content.value)
      case Some(v) => if v != JNull then v else JObj(map["content" := JStr(content.value)])
      case None => JObj(map["content" := JStr(content.value)])
  }

  /** `forceJsonResponse`: the JSON defaults, overridden by every original header. */
  function ForceJsonResponse(response: Response, decode: Decoder): (r: Handled)
    ensures r.Forced? && r.status == response.status
    ensures r.headers.Keys == JsonDefaultHeaders.Keys + response.headers.Keys
    ensures forall h :: h in response.headers ==> r.headers[h] == response.headers[h]
    ensures "content-type" !in response.headers ==> r.headers["content-type"] == ["application/json"]
    ensures r.data == ForcedData(response.content, decode)
  {
    Forced(ForcedData(response.content, decode), response.status, JsonDefaultHeaders + response.headers)
  }

  /** `handle`, given the response the rest of the pipeline produced. */
  function Handle(request: Request, response: Response, decode: Decoder): (r: Handled)
    ensures !ShouldForceJson(request, response) <==> r == Passed(response)
    ensures ShouldForceJson(request, response) ==> r == ForceJsonResponse(response, decode)
  {
    if !ShouldForceJson(request, response) then Passed(response) else ForceJsonResponse(response, decode)
  }

  /** A request that expects or wants JSON, or targets `api/`, is always
      forced, whatever the response (a JSON response included). */
  lemma JsonRequestsAlwaysForced(request: Request, response: Response, decode: Decoder)
    requires request.expectsJson || request.wantsJson || IsApiPath(request.path)
    ensures Handle(request, response, decode).Forced?
  {
  }

  /** Otherwise a JSON response is passed through as it is. */
  lemma JsonResponsePassedThrough(request: Request, response: Response, decode: Decoder)
    requires !request.expectsJson && !request.wantsJson && !IsApiPath(request.path)
    requires response.isJson
    ensures Handle(request, response, decode) == Passed(response)
  {
  }

  /** Otherwise the response is forced exactly when the `Accept` header
      holds `application/json` at some offset: a plain substring test, so
      `application/json;q=0` and `application/jsonx` count too. */
  lemma AcceptHeaderDecides(request: Request, response: Response, decode: Decoder)
    requires !request.expectsJson && !request.wantsJson && !IsApiPath(request.path)
    requires !response.isJson
    ensures Handle(request, response, decode).Forced? <==>
      request.accept.Some? && exists i :: OccursAt(request.accept.value, "application/json", i)
  {
  }

  /** A JSON body that decodes to a non-null value is carried over as that
      value; a body that does not decode is wrapped; content "0" is PHP-empty
      and gives `[]`, never the number 0. */
  lemma ForcedBodies(response: Response, decode: Decoder)
    ensures var c := response.content;
      && (c.Some? && !EmptyString(c.value) && decode(c.value).Some? && decode(c.value).value != JNull ==>
            ForcedData(c, decode) == decode(c.value).value)
      && (c.Some? && !EmptyString(c.value) && decode(c.value).None? ==>
            ForcedData(c, decode) == JObj(map["content" := JStr(c.value)]))
      && (c == Some("0") ==> ForcedData(c, decode) == JList([]))
  {
  }

  /** An original `content-type` survives forcing, so a forced HTML response
      keeps announcing HTML. */
  lemma OriginalContentTypeWins(response: Response, decode: Decoder)
    requires "content-type" in response.headers
    ensures ForceJsonResponse(response, decode).headers["content-type"] == response.headers["content-type"]
  {
  }
}
