/** The HTTP client of the web application: the cached bearer token mirrored
    in browser storage, the request headers, the error a failed response
    raises, and the facilities query string. The network is a parameter
    (`send`), as is the URL encoding of query values. */
module ApiClient {
  import opened Wrappers
  import opened Strings
  import opened JsonValue

  /** What `localStorage` holds under the token key after `setAuthToken`:
      a truthy token is stored, anything else removes the entry; outside a
      browser storage is not touched. */
  function StoredAfterSet(token: Option<string>, stored: Option<string>, hasWindow: bool): (r: Option<string>)
    ensures !hasWindow ==> r == stored
    ensures hasWindow ==> (r.Some? <==> Truthy(token)) && (r.Some? ==> r == token)
  {
    if !hasWindow then stored else if Truthy(token) then token else None
  }

  /** What `getAuthToken` returns: a truthy cached token; otherwise, in a
      browser, the stored one; otherwise the cached value as it is. */
  function ReadToken(cache: Option<string>, stored: Option<string>, hasWindow: bool): (r: Option<string>)
    ensures Truthy(cache) ==> r == cache
    ensures !Truthy(cache) && hasWindow ==> r == stored
    ensures !Truthy(cache) && !hasWindow ==> r == cache
  {
    if Truthy(cache) then cache else if hasWindow then stored else cache
  }

  /** After `setAuthToken(t)`, `getAuthToken()` returns `t` when `t` is
      truthy, and no token for `null`; an empty string is read back only
      outside a browser, where there is no storage to consult. */
  lemma SetThenGet(t: Option<string>, stored: Option<string>, hasWindow: bool)
    ensures var r := ReadToken(t, StoredAfterSet(t, stored, hasWindow), hasWindow);
            (Truthy(t) ==> r == t)
            && (t.None? ==> r.None?)
            && (t == Some("") ==> r == (if hasWindow then None else t))
  {
  }

  /** A truthy cached token is returned whatever storage holds. */
  lemma CacheFirst(cache: Option<string>, stored1: Option<string>, stored2: Option<string>, hasWindow: bool)
    requires Truthy(cache)
    ensures ReadToken(cache, stored1, hasWindow) == ReadToken(cache, stored2, hasWindow) == cache
  {
  }

  /** The headers `apiRequest` sends: JSON content type, then the caller's
      headers, then the bearer token when there is a truthy one. */
  function RequestHeaders(token: Option<string>, extra: map<string, string>): (r: map<string, string>)
    ensures Truthy(token) ==> "Authorization" in r && r["Authorization"] == "Bearer " + token.value
    ensures !Truthy(token) ==> r == map["Content-Type" := "application/json"] + extra
    ensures "Content-Type" in r
    ensures "Content-Type" !in extra ==> r["Content-Type"] == "application/json"
    ensures forall k :: k in extra && k != "Authorization" ==> k in r && r[k] == extra[k]
  {
    var base := map["Content-Type" := "application/json"] + extra;
    if Truthy(token) then base["Authorization" := "Bearer " + token.value] else base
  }

  /** Without a token or caller headers, exactly the content type is sent. */
  lemma NoTokenNoAuthorization(token: Option<string>)
    requires !Truthy(token)
    ensures "Authorization" !in RequestHeaders(token, map[])
  {
  }

  /** A response as `fetch` reports it: its `ok` flag and its body, `None`
      when the body is not valid JSON. */
  datatype Response = Response(ok: bool, body: Option<Json>)

  /** What `apiRequest` throws: an `Error` with a message, the `TypeError` of
      reading a property of a `null` error body, or the `SyntaxError` of an
      unreadable successful body. */
  datatype ApiError = Thrown(message: Json) | TypeError | SyntaxError

  const REQUEST_FAILED := JStr("Request failed")

  /** The error `apiRequest` throws for a response that is not ok: its
      `detail`, else its `error`, else "Request failed"; an unreadable body
      counts as `{ detail: 'Request failed' }`. */
  function ErrorOf(body: Option<Json>): (r: ApiError)
    ensures r == TypeError <==> body == Some(JNull)
    ensures !r.SyntaxError?
    ensures body.Some? && JsTruthy(Prop(body.value, "detail")) ==> r == Thrown(Prop(body.value, "detail"))
    ensures body.Some? && body.value != JNull && !JsTruthy(Prop(body.value, "detail"))
            ==> r == Thrown(if JsTruthy(Prop(body.value, "error")) then Prop(body.value, "error") else REQUEST_FAILED)
    ensures r.Thrown? ==> JsTruthy(r.message)
  {
    var error := if body.Some? then body.value else JObj(map["detail" := REQUEST_FAILED]);
    if error == JNull then TypeError
    else if JsTruthy(Prop(error, "detail")) then Thrown(Prop(error, "detail"))
    else if JsTruthy(Prop(error, "error")) then Thrown(Prop(error, "error"))
    else Thrown(REQUEST_FAILED)
  }

  /** An unreadable error body and one without `detail` or `error` give
      the same message. */
  lemma UnreadableLikeEmpty()
    ensures ErrorOf(None) == ErrorOf(Some(JObj(map[]))) == Thrown(REQUEST_FAILED)
  {
    assert Prop(JObj(map["detail" := REQUEST_FAILED]), "detail") == REQUEST_FAILED;
  }

  /** The outcome of `apiRequest` once the response has arrived. */
  function Outcome(response: Response): (r: Result<Json, ApiError>)
    ensures r.Success? <==> response.ok && response.body.Some?
    ensures r.Success? ==> r.value == response.body.value
    ensures !response.ok ==> r == Failure(ErrorOf(response.body))
  {
    if !response.ok then Failure(ErrorOf(response.body))
    else match response.body
      case None => Failure(SyntaxError)
      case Some(j) => Success(j)
  }

  /** `URLSearchParams` with the facility filters that are truthy, in order. */
  function FacilityParams(facilityType: Option<string>, district: Option<string>): (r: seq<(string, string)>)
    ensures |r| == (if Truthy(facilityType) then 1 else 0) + (if Truthy(district) then 1 else 0)
  {
    (if Truthy(facilityType) then [("type", facilityType.value)] else [])
    + (if Truthy(district) then [("district", district.value)] else [])
  }

  /** `params.toString()`: `name=value` pairs joined by `&`. */
  function ParamsText(params: seq<(string, string)>, encode: string -> string): (r: string)
    ensures |params| > 0 ==> r != ""
    ensures |params| == 0 ==> r == ""
  {
    if |params| == 0 then ""
    else if |params| == 1 then params[0].0 + ("=" + encode(params[0].1))
    else params[0].0 + ("=" + encode(params[0].1)) + "&" + ParamsText(params[1..], encode)
  }

  /** The query `facilitiesApi.getAll` appends to `/facilities`: empty
      without filters, otherwise `?` and the parameters, type first. */
  function FacilitiesQuery(facilityType: Option<string>, district: Option<string>, encode: string -> string)
    : (r: string)
    ensures r == "" <==> !Truthy(facilityType) && !Truthy(district)
    ensures r != "" ==> r[0] == '?'
    ensures Truthy(facilityType) ==>
              r == "?" + ("type=" + encode(facilityType.value)
                          + (if Truthy(district) then "&" + ("district=" + encode(district.value)) else ""))
    ensures !Truthy(facilityType) && Truthy(district) ==> r == "?" + ("district=" + encode(district.value))
  {
    var text := ParamsText(FacilityParams(facilityType, district), encode);
    FacilityParamsText(facilityType, district, encode);
    if text != "" then "?" + text else ""
  }

  lemma FacilityParamsText(facilityType: Option<string>, district: Option<string>, encode: string -> string)
    ensures var text := ParamsText(FacilityParams(facilityType, district), encode);
            (Truthy(facilityType) ==>
               text == "type=" + encode(facilityType.value)
                       + (if Truthy(district) then "&" + ("district=" + encode(district.value)) else ""))
            && (!Truthy(facilityType) && Truthy(district) ==> text == "district=" + encode(district.value))
  {
    var params := FacilityParams(facilityType, district);
    if Truthy(facilityType) {
      var t := encode(facilityType.value);
      assert "type" + ("=" + t) == "type=" + t;
      if Truthy(district) {
        var d := encode(district.value);
        assert params[1..] == [("district", district.value)];
        assert "district" + ("=" + d) == "district=" + d;
        assert ParamsText(params, encode) == "type=" + t + "&" + ("district=" + d);
      }
    } else if Truthy(district) {
      var d := encode(district.value);
      assert "district" + ("=" + d) == "district=" + d;
    }
  }

  /** The client's module state: the cached token and, in a browser, the
      `localStorage` entry mirroring it. */
  class Client {
    const baseUrl: string
    const hasWindow: bool
    var authToken: Option<string>
    var stored: Option<string>

    /** The module as loaded: nothing cached yet. */
    constructor(baseUrl: string, hasWindow: bool, stored: Option<string>)
      ensures this.baseUrl == baseUrl && this.hasWindow == hasWindow
      ensures authToken.None? && this.stored == stored
    {
      this.baseUrl := baseUrl;
      this.hasWindow := hasWindow;
      authToken := None;
      this.stored := stored;
    }

    /** `setAuthToken`. */
    method SetAuthToken(token: Option<string>)
      modifies this
      ensures authToken == token
      ensures stored == StoredAfterSet(token, old(stored), hasWindow)
    {
      authToken := token;
      if hasWindow {
        if Truthy(token) {
          stored := token;
        } else {
          stored := None;
        }
      }
    }

    /** `getAuthToken`: storage is read, into the cache, only when the cache
      holds no truthy token. */
    method GetAuthToken() returns (r: Option<string>)
      modifies this
      ensures r == ReadToken(old(authToken), old(stored), hasWindow)
      ensures authToken == r && stored == old(stored)
    {
      if Truthy(authToken) {
        return authToken;
      }
      if hasWindow {
        authToken := stored;
      }
      r := authToken;
    }

    /** `apiRequest`: the token read, the headers built, the request sent
      to the base URL plus the endpoint, and the response turned into a
      value or an error. */
    method ApiRequest(endpoint: string, extra: map<string, string>,
                      send: (string, map<string, string>) -> Response)
      returns (r: Result<Json, ApiError>)
      modifies this
      ensures var token := ReadToken(old(authToken), old(stored), hasWindow);
              r == Outcome(send(baseUrl + endpoint, RequestHeaders(token, extra)))
              && authToken == token && stored == old(stored)
    {
      var token := GetAuthToken();
      var headers := RequestHeaders(token, extra);
      var response := send(baseUrl + endpoint, headers);
      r := Outcome(response);
    }
  }
}
