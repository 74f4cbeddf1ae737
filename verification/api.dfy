/** The REST client: how a request is prepared (URL and headers), how a
    response becomes a value or an error message, which endpoints carry the
    session token, and how the scan-history query string is spelled. The
    network itself is left out; a response is an input. */
module Api {
  import opened Wrappers
  import opened Text

  const DefaultApiUrl: string := "http://localhost:5000"

  /** A JavaScript string is truthy when it is present and non-empty. */
  predicate Truthy(s: Option<string>) {
    s.Some? && s.value != ""
  }

  /** `process.env.NEXT_PUBLIC_API_URL || 'http://localhost:5000'`. */
  function ApiUrl(env: Option<string>): (url: string)
    ensures url != ""
    ensures Truthy(env) ==> url == env.value
    ensures !Truthy(env) ==> url == DefaultApiUrl
  {
    if Truthy(env) then env.value else DefaultApiUrl
  }

  // ---------------------------------------------------------------------
  // Records exchanged with the server.
  // ---------------------------------------------------------------------

  datatype User = User(id: string, email: string, name: Option<string>, phone: Option<string>, role: string)

  /** An emergency contact; the form always fills `relation`, if only with "". */
  datatype Contact = Contact(name: string, phone: string, relation: string)

  datatype Child = Child(
    id: string, parentId: string, name: string, age: int,
    photoUrl: Option<string>, contacts: seq<Contact>, secureId: string)

  /** One scan record. Coordinates are kept as reals and never computed with;
      the timestamp is the capture time as an abstract instant. */
  datatype ScanLog = ScanLog(
    id: string, childId: string, latitude: real, longitude: real,
    accuracy: Option<int>, timestamp: int, message: Option<string>)

  // ---------------------------------------------------------------------
  // Preparing a request.
  // ---------------------------------------------------------------------

  type Headers = map<string, string>

  datatype Method = GET | POST | PATCH | DELETE

  datatype Call = Call(verb: Method, url: string, headers: Headers)

  /** The headers `request` sends: JSON content type by default, the caller's
      own headers spread over it, then the bearer token when it is truthy. */
  function BuildHeaders(caller: Headers, token: Option<string>): (h: Headers)
    ensures h.Keys == caller.Keys + {"Content-Type"} + (if Truthy(token) then {"Authorization"} else {})
    ensures h["Content-Type"] == (if "Content-Type" in caller then caller["Content-Type"] else "application/json")
    ensures Truthy(token) ==> h["Authorization"] == "Bearer " + token.value
    ensures forall k :: k in caller && !(k == "Authorization" && Truthy(token)) ==> h[k] == caller[k]
  {
    var base := map["Content-Type" := "application/json"] + caller;
    if Truthy(token) then base["Authorization" := "Bearer " + token.value] else base
  }

  /** `request(path, { method, token, headers })` up to the call to `fetch`. */
  function Prepare(apiUrl: string, verb: Method, path: string, token: Option<string>, caller: Headers): Call {
    Call(verb, apiUrl + path, BuildHeaders(caller, token))
  }

  // ---------------------------------------------------------------------
  // Interpreting a response.
  // ---------------------------------------------------------------------

  /** The parsed JSON body: its `message` field, and the rest abstractly. */
  datatype Data = Data(message: Option<string>, fields: map<string, string>)

  const EmptyObject: Data := Data(None, map[])

  datatype Body = Json(data: Data) | NotJson

  datatype Response = Response(ok: bool, statusText: string, body: Body)

  /** `await res.json().catch(() => ({}))`: a body that is not JSON reads as `{}`. */
  function Parsed(body: Body): (d: Data)
    ensures body.Json? ==> d == body.data
    ensures body.NotJson? ==> d == EmptyObject && d.message.None?
  {
    match body
    case Json(d) => d
    case NotJson => EmptyObject
  }

  /** `data.message || res.statusText || 'Request failed'`. */
  function ErrorMessage(data: Data, statusText: string): (m: string)
    ensures m != ""
    ensures m == data.message.GetOr("") || m == statusText || m == "Request failed"
    ensures Truthy(data.message) ==> m == data.message.value
    ensures statusText != "" ==> m == data.message.GetOr("") || m == statusText
  {
    if Truthy(data.message) then data.message.value
    else if statusText != "" then statusText
    else "Request failed"
  }

  /** What `request` resolves to or rejects with, given the response. */
  function Outcome(res: Response): (r: Result<Data, string>)
    ensures r.Success? <==> res.ok
    ensures r.Success? ==> r.value == Parsed(res.body)
    ensures r.Failure? ==> r.error == ErrorMessage(Parsed(res.body), res.statusText) && r.error != ""
    ensures !res.ok && res.body.NotJson? ==> r.error == (if res.statusText != "" then res.statusText else "Request failed")
    ensures !res.ok && res.body.Json? && Truthy(res.body.data.message) ==> r.error == res.body.data.message.value
  {
    var data := Parsed(res.body);
    if !res.ok then Failure(ErrorMessage(data, res.statusText)) else Success(data)
  }

  // ---------------------------------------------------------------------
  // The endpoints.
  // ---------------------------------------------------------------------

  datatype Endpoint =
    | Register
    | Login
    | Me(token: string)
    | UpdateProfile(token: string)
    | ListChildren(token: string)
    | GetChild(token: string, childId: string)
    | CreateChild(token: string)
    | UpdateChild(token: string, childId: string)
    | DeleteChild(token: string, childId: string)
    | SubmitScan(secureId: string)
    | History(token: string, childId: string, limit: Option<int>, skip: Option<int>)
    | LastLocation(token: string, childId: string)

  datatype Route = Route(verb: Method, path: string, token: Option<string>)

  /** The method, path and token each `api.*` helper hands to `request`. */
  function RouteOf(e: Endpoint): (r: Route)
    ensures StartsWith(r.path, "/api/")
    ensures r.token.None? <==> e.Register? || e.Login? || e.SubmitScan?
    ensures r.token.Some? ==> r.token.value == e.token
    ensures r.verb == DELETE <==> e.DeleteChild?
    ensures r.verb == PATCH <==> e.UpdateProfile? || e.UpdateChild?
    ensures r.verb == POST <==> e.Register? || e.Login? || e.CreateChild? || e.SubmitScan?
  {
    match e
    case Register => Route(POST, "/api/auth/register", None)
    case Login => Route(POST, "/api/auth/login", None)
    case Me(t) => Route(GET, "/api/auth/me", Some(t))
    case UpdateProfile(t) => Route(PATCH, "/api/auth/profile", Some(t))
    case ListChildren(t) => Route(GET, "/api/children", Some(t))
    case GetChild(t, id) => Route(GET, "/api/children/" + id, Some(t))
    case CreateChild(t) => Route(POST, "/api/children", Some(t))
    case UpdateChild(t, id) => Route(PATCH, "/api/children/" + id, Some(t))
    case DeleteChild(t, id) => Route(DELETE, "/api/children/" + id, Some(t))
    case SubmitScan(sid) => Route(POST, "/api/scan/" + sid, None)
    case History(t, id, l, s) => Route(GET, HistoryPath(id, l, s), Some(t))
    case LastLocation(t, id) => Route(GET, "/api/scan/child/" + id + "/last", Some(t))
  }

  /** The full call `request` makes for an endpoint (no caller headers). */
  function CallOf(apiUrl: string, e: Endpoint): Call {
    var r := RouteOf(e);
    Prepare(apiUrl, r.verb, r.path, r.token, map[])
  }

  /** Exactly registration, login and scan submission go out without a
      token; a scan submission therefore never carries an Authorization
      header, while every parent-side endpoint does when its token is truthy. */
  lemma {:induction false} PublicEndpoints(apiUrl: string, e: Endpoint)
    ensures RouteOf(e).token.None? <==> e.Register? || e.Login? || e.SubmitScan?
    ensures e.SubmitScan? ==> "Authorization" !in CallOf(apiUrl, e).headers
    ensures Truthy(RouteOf(e).token) ==> CallOf(apiUrl, e).headers["Authorization"] == "Bearer " + RouteOf(e).token.value
    ensures CallOf(apiUrl, e).headers["Content-Type"] == "application/json"
  {
    match e
    case SubmitScan(_) =>
      assert CallOf(apiUrl, e).headers.Keys == {"Content-Type"};
    case _ =>
  }

  /** `uploadPhoto` bypasses `request`: it always sends `Bearer <token>`,
      even for an empty token, and sends no JSON content type. */
  function UploadCall(apiUrl: string, token: string, childId: string): (c: Call)
    ensures c.headers.Keys == {"Authorization"}
    ensures c.headers["Authorization"] == "Bearer " + token
  {
    Call(POST, apiUrl + "/api/children/" + childId + "/photo", map["Authorization" := "Bearer " + token])
  }

  /** What `uploadPhoto` resolves to: its `res.json()` has no fallback, so a
      body that is not JSON rejects with the parser's own message even when
      the response is ok; otherwise `data.message || 'Upload failed'`. */
  function UploadOutcome(res: Response, parseError: string): (r: Result<Data, string>)
    ensures r.Success? <==> res.ok && res.body.Json?
    ensures r.Success? ==> r.value == res.body.data
    ensures res.body.NotJson? ==> r == Failure(parseError)
    ensures res.body.Json? && !res.ok ==>
      r.error == (if Truthy(res.body.data.message) then res.body.data.message.value else "Upload failed")
  {
    match res.body
    case NotJson => Failure(parseError)
    case Json(data) =>
      if !res.ok then Failure(if Truthy(data.message) then data.message.value else "Upload failed")
      else Success(data)
  }

  /** The two clients disagree on a successful response whose body is not
      JSON: `request` resolves with `{}`, `uploadPhoto` rejects. */
  lemma UploadStricterThanRequest(statusText: string, parseError: string)
    ensures Outcome(Response(true, statusText, NotJson)) == Success(EmptyObject)
    ensures UploadOutcome(Response(true, statusText, NotJson), parseError).Failure?
  {
  }

  // ---------------------------------------------------------------------
  // The scan-history query string.
  // ---------------------------------------------------------------------

  function Param(key: string, n: int): string {
    key + "=" + IntToString(n)
  }

  /** `URLSearchParams` with `limit` set first, then `skip`, each only when
      it is not null or undefined (so 0 is kept). */
  function HistoryQuery(limit: Option<int>, skip: Option<int>): (q: string)
    ensures q == "" <==> limit.None? && skip.None?
    ensures limit.Some? ==> StartsWith(q, "limit=")
    ensures limit.None? && skip.Some? ==> StartsWith(q, "skip=")
  {
    match (limit, skip)
    case (None, None) => ""
    case (Some(l), None) => Param("limit", l)
    case (None, Some(s)) => Param("skip", s)
    case (Some(l), Some(s)) => Param("limit", l) + "&" + Param("skip", s)
  }

  function HistoryBase(childId: string): string {
    "/api/scan/child/" + childId + "/history"
  }

  /** The history path: the query is appended after `?` only when non-empty. */
  function HistoryPath(childId: string, limit: Option<int>, skip: Option<int>): (p: string)
    ensures StartsWith(p, HistoryBase(childId))
    ensures |p| == |HistoryBase(childId)| <==> limit.None? && skip.None?
    ensures |p| > |HistoryBase(childId)| ==>
      p[|HistoryBase(childId)|] == '?' && p[|HistoryBase(childId)| + 1..] == HistoryQuery(limit, skip)
  {
    var q := HistoryQuery(limit, skip);
    HistoryBase(childId) + (if q == "" then "" else "?" + q)
  }

  /** The first position of `c` in `s`, if any. */
  function IndexOf(s: string, c: char): (r: Option<nat>)
    ensures r.Some? ==> r.value < |s| && s[r.value] == c && c !in s[..r.value]
    ensures r.None? ==> c !in s
  {
    if s == [] then None
    else if s[0] == c then Some(0)
    else match IndexOf(s[1..], c)
      case None => None
      case Some(i) => Some(i + 1)
  }

  /** Reads `key=<integer>`, the way a server would read one parameter. */
  function DecodeParam(key: string, f: string): Option<int> {
    if StartsWith(f, key + "=") then ParseInt(f[|key| + 1..]) else None
  }

  /** Reads a history query back into its `limit` and `skip`. */
  function DecodeHistoryQuery(q: string): Option<(Option<int>, Option<int>)> {
    if q == "" then Some((None, None))
    else match IndexOf(q, '&')
      case None =>
        var l := DecodeParam("limit", q);
        var s := DecodeParam("skip", q);
        if l.Some? then Some((l, None)) else if s.Some? then Some((None, s)) else None
      case Some(i) =>
        var l := DecodeParam("limit", q[..i]);
        var s := DecodeParam("skip", q[i + 1..]);
        if l.Some? && s.Some? then Some((l, s)) else None
  }

  /** A printed integer has no `&` in it. */
  lemma NoAmpersand(n: int)
    ensures '&' !in IntToString(n)
  {
    var s := IntToString(n);
    assert forall k :: 0 <= k < |s| ==> s[k] != '&';
  }

  lemma DecodeParamOfParam(key: string, n: int)
    ensures DecodeParam(key, Param(key, n)) == Some(n)
  {
    assert Param(key, n)[|key| + 1..] == IntToString(n);
    ParseIntOfIntToString(n);
  }

  lemma LimitOnlyRoundTrip(l: int)
    ensures DecodeHistoryQuery(HistoryQuery(Some(l), None)) == Some((Some(l), None))
  {
    var q := HistoryQuery(Some(l), None);
    NoAmpersand(l);
    assert '&' !in q;
    DecodeParamOfParam("limit", l);
  }

  lemma SkipOnlyRoundTrip(n: int)
    ensures DecodeHistoryQuery(HistoryQuery(None, Some(n))) == Some((None, Some(n)))
  {
    var q := HistoryQuery(None, Some(n));
    NoAmpersand(n);
    assert '&' !in q;
    assert q[0] == 's';
    assert !StartsWith(q, "limit=");
    DecodeParamOfParam("skip", n);
  }

  lemma BothRoundTrip(l: int, n: int)
    ensures DecodeHistoryQuery(HistoryQuery(Some(l), Some(n))) == Some((Some(l), Some(n)))
  {
    var q := HistoryQuery(Some(l), Some(n));
    var a := Param("limit", l);
    NoAmpersand(l);
    assert '&' !in a;
    assert q[..|a|] == a && q[|a|] == '&';
    assert IndexOf(q, '&') == Some(|a|);
    assert q[|a| + 1..] == Param("skip", n);
    DecodeParamOfParam("limit", l);
    DecodeParamOfParam("skip", n);
  }

  /** The history query loses nothing: `limit` and `skip`, present or not,
      are read back exactly as they were set. */
  lemma HistoryQueryRoundTrip(limit: Option<int>, skip: Option<int>)
    ensures DecodeHistoryQuery(HistoryQuery(limit, skip)) == Some((limit, skip))
  {
    match (limit, skip)
    case (None, None) =>
    case (Some(l), None) => LimitOnlyRoundTrip(l);
    case (None, Some(n)) => SkipOnlyRoundTrip(n);
    case (Some(l), Some(n)) => BothRoundTrip(l, n);
  }
}
