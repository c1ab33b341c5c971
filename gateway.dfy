/** The client's request gateway (`frontend/src/api.ts`): how each call of the
    `api` object becomes an HTTP request (URL, method, headers, body), and how
    a response becomes a result or an error. The stored token, the backend
    base URL and the response are parameters; `fetch` itself is not modelled. */
module Gateway {

  import opened Common
  import opened FormEncoding

  datatype Verb = GET | POST | PUT | DELETE

  type Headers = map<string, string>

  /** A JSON body is the object `JSON.stringify` is given, as its string
      members in order; a form body is the entries appended to a `FormData`. */
  datatype Body = NoBody | JsonBody(members: seq<(string, string)>) | FormBody(fields: seq<(string, string)>)

  /** The `RequestInit` a call passes to `request`. */
  datatype Options = Options(verb: Option<Verb>, headers: Headers, body: Body)

  const NO_OPTIONS := Options(None, map[], NoBody)

  datatype HttpRequest = HttpRequest(verb: Verb, url: string, headers: Headers, body: Body)

  /** Every request goes to the backend base, then `/api`, then the path. */
  function Url(base: string, path: string): string {
    base + "/api" + path
  }

  function Bearer(token: string): string {
    "Bearer " + token
  }

  /** `authHeaders()`: JSON content type, and the bearer token when one is
      stored and non-empty. */
  function AuthHeaders(token: Option<string>): (h: Headers)
    ensures h.Keys == if Truthy(token) then {"Content-Type", "Authorization"} else {"Content-Type"}
    ensures h["Content-Type"] == "application/json"
    ensures Truthy(token) ==> h["Authorization"] == "Bearer " + token.value
  {
    var h := map["Content-Type" := "application/json"];
    if Truthy(token) then h["Authorization" := Bearer(token.value)] else h
  }

  /** The header map `formRequest` and `formPut` build: only the bearer token. */
  function FormHeaders(token: Option<string>): (h: Headers)
    ensures "Content-Type" !in h
    ensures h.Keys == if Truthy(token) then {"Authorization"} else {}
    ensures Truthy(token) ==> h["Authorization"] == "Bearer " + token.value
  {
    if Truthy(token) then map["Authorization" := Bearer(token.value)] else map[]
  }

  /** `request(path, opts)`: the defaults of `authHeaders` overlaid with the
      caller's headers; `fetch` uses GET when no method is given. */
  function JsonRequest(base: string, token: Option<string>, path: string, opts: Options): (r: HttpRequest)
    ensures r.url == Url(base, path) && r.body == opts.body
    ensures r.verb == if opts.verb.Some? then opts.verb.value else GET
    ensures "Content-Type" in r.headers
    ensures r.headers.Keys == AuthHeaders(token).Keys + opts.headers.Keys
    ensures forall k :: k in opts.headers ==> k in r.headers && r.headers[k] == opts.headers[k]
    ensures forall k :: k in r.headers && k !in opts.headers ==> k in AuthHeaders(token) && r.headers[k] == AuthHeaders(token)[k]
  {
    var verb := if opts.verb.Some? then opts.verb.value else GET;
    HttpRequest(verb, Url(base, path), AuthHeaders(token) + opts.headers, opts.body)
  }

  /** `formRequest(path, body)`. */
  function FormPost(base: string, token: Option<string>, path: string, fields: seq<(string, string)>): HttpRequest {
    HttpRequest(POST, Url(base, path), FormHeaders(token), FormBody(fields))
  }

  /** `formPut(path, body)`. */
  function FormPut(base: string, token: Option<string>, path: string, fields: seq<(string, string)>): HttpRequest {
    HttpRequest(PUT, Url(base, path), FormHeaders(token), FormBody(fields))
  }

  /** `qs ? '?' + qs : ''` with `qs = new URLSearchParams(params).toString()`. */
  function WithQuery(params: seq<(string, string)>): (r: string)
    ensures r == "" <==> |params| == 0
    ensures r != "" ==> r[0] == '?' && '?' !in r[1..] && r[1..] == QueryString(params)
  {
    var qs := QueryString(params);
    if qs != "" then "?" + qs else ""
  }

  /** `expoId ? '?expo_id=' + expoId : ''` (the id is not percent-encoded). */
  function ExpoIdQuery(expoId: Option<string>): string {
    if Truthy(expoId) then "?expo_id=" + expoId.value else ""
  }

  /** The calls of the `api` object with their arguments. A `params` record
      and a `data` record are their entries in order. */
  datatype Call =
    | Register(email: string, password: string, name: string)
    | Login(email: string, password: string)
    | GetMe
    | GetExpos(params: seq<(string, string)>)
    | GetExpo(id: string)
    | GetExpoFilters
    | GetCompanies(params: seq<(string, string)>)
    | GetCompany(id: string)
    | UpdateStage(cid: string, stage: string)
    | GetCompanyFilters(expoFilter: Option<string>)
    | GetShortlists(params: seq<(string, string)>)
    | AddToShortlist(companyId: string, expoId: string, notes: Option<string>)
    | UpdateShortlist(sid: string, newNotes: string)
    | DeleteShortlist(sid: string)
    | GetNetworks(params: seq<(string, string)>)
    | CreateNetwork(data: seq<(string, string)>)
    | UpdateNetwork(nid: string, data: seq<(string, string)>)
    | DeleteNetwork(nid: string)
    | GetExpoDays(params: seq<(string, string)>)
    | CreateExpoDay(data: seq<(string, string)>)
    | UpdateExpoDay(eid: string, data: seq<(string, string)>)
    | DeleteExpoDay(eid: string)
    | UploadCsv(content: string, expoId: string)
    | GetUsers
    | ExportCsv(collection: string, expoFilter: Option<string>)
    | Seed

  /** How a call reaches the network: through `request`, `formRequest` or `formPut`. */
  datatype Route =
    | ViaRequest(path: string, opts: Options)
    | ViaFormRequest(path: string, fields: seq<(string, string)>)
    | ViaFormPut(path: string, fields: seq<(string, string)>)

  /** The five list calls, each `request(<collection> + query)`. */
  predicate IsListCall(call: Call) {
    call.GetExpos? || call.GetCompanies? || call.GetShortlists? || call.GetNetworks? || call.GetExpoDays?
  }

  /** The calls that go through `formRequest` or `formPut`. */
  predicate IsFormCall(call: Call) {
    call.UpdateStage? || call.UpdateShortlist? || call.UpdateNetwork? || call.UpdateExpoDay? || call.UploadCsv?
  }

  /** The collection path of a list call, before its query. */
  function ListPath(call: Call): (path: string)
    requires IsListCall(call)
    ensures '?' !in path
  {
    match call
    case GetExpos(_) => "/expos"
    case GetCompanies(_) => "/companies"
    case GetShortlists(_) => "/shortlists"
    case GetNetworks(_) => "/networks"
    case GetExpoDays(_) => "/expo-days"
  }

  function FormRoute(call: Call): (route: Route)
    requires IsFormCall(call)
    ensures route.ViaFormRequest? <==> call.UploadCsv?
  {
    match call
    case UpdateStage(cid, stage) => ViaFormPut("/companies/" + cid + "/stage", [("stage", stage)])
    case UpdateShortlist(sid, notes) => ViaFormPut("/shortlists/" + sid, [("notes", notes)])
    case UpdateNetwork(nid, data) => ViaFormPut("/networks/" + nid, data)
    case UpdateExpoDay(eid, data) => ViaFormPut("/expo-days/" + eid, data)
    case UploadCsv(content, expoId) => ViaFormRequest("/admin/upload-csv", [("file_content", content), ("expo_id", expoId)])
  }

  function Posting(body: Body): Options {
    Options(Some(POST), map[], body)
  }

  const DELETING := Options(Some(DELETE), map[], NoBody)

  /** The remaining calls, all through `request`. */
  function RequestRoute(call: Call): (route: Route)
    requires !IsListCall(call) && !IsFormCall(call)
    ensures route.ViaRequest?
  {
    match call
    case Register(email, password, name) =>
      ViaRequest("/auth/register", Posting(JsonBody([("email", email), ("password", password), ("name", name)])))
    case Login(email, password) =>
      ViaRequest("/auth/login", Posting(JsonBody([("email", email), ("password", password)])))
    case GetMe => ViaRequest("/auth/me", NO_OPTIONS)
    case GetExpo(id) => ViaRequest("/expos/" + id, NO_OPTIONS)
    case GetExpoFilters => ViaRequest("/expos/meta/filters", NO_OPTIONS)
    case GetCompany(id) => ViaRequest("/companies/" + id, NO_OPTIONS)
    case GetCompanyFilters(expoId) => ViaRequest("/companies/filters/options" + ExpoIdQuery(expoId), NO_OPTIONS)
    case AddToShortlist(companyId, expoId, notes) =>
      ViaRequest("/shortlists", Posting(JsonBody([("company_id", companyId), ("expo_id", expoId), ("notes", OrElse(notes, ""))])))
    case DeleteShortlist(sid) => ViaRequest("/shortlists/" + sid, DELETING)
    case CreateNetwork(data) => ViaRequest("/networks", Posting(JsonBody(data)))
    case DeleteNetwork(nid) => ViaRequest("/networks/" + nid, DELETING)
    case CreateExpoDay(data) => ViaRequest("/expo-days", Posting(JsonBody(data)))
    case DeleteExpoDay(eid) => ViaRequest("/expo-days/" + eid, DELETING)
    case GetUsers => ViaRequest("/admin/users", NO_OPTIONS)
    case ExportCsv(collection, expoId) => ViaRequest("/export/" + collection + ExpoIdQuery(expoId), NO_OPTIONS)
    case Seed => ViaRequest("/seed", Posting(NoBody))
  }

  /** Which of `request`, `formRequest` and `formPut` a call uses, and with what. */
  function RouteOf(call: Call): Route {
    if IsListCall(call) then ViaRequest(ListPath(call) + WithQuery(call.params), NO_OPTIONS)
    else if IsFormCall(call) then FormRoute(call)
    else RequestRoute(call)
  }

  /** The request a call sends, given the backend base URL and the token in
      storage when the call is made. */
  function Send(base: string, token: Option<string>, call: Call): (r: HttpRequest)
    ensures r.url == Url(base, RouteOf(call).path)
    ensures "Authorization" in r.headers <==> Truthy(token)
    ensures Truthy(token) ==> r.headers["Authorization"] == "Bearer " + token.value
    ensures "Content-Type" in r.headers <==> RouteOf(call).ViaRequest?
    ensures "Content-Type" in r.headers ==> r.headers["Content-Type"] == "application/json"
    ensures RouteOf(call).ViaFormRequest? ==> r.verb == POST && r.body == FormBody(RouteOf(call).fields)
    ensures RouteOf(call).ViaFormPut? ==> r.verb == PUT && r.body == FormBody(RouteOf(call).fields)
  {
    match RouteOf(call)
    case ViaRequest(path, opts) => JsonRequest(base, token, path, opts)
    case ViaFormRequest(path, fields) => FormPost(base, token, path, fields)
    case ViaFormPut(path, fields) => FormPut(base, token, path, fields)
  }

  /** A path followed by `WithQuery(params)` holds a `?` exactly when there
      are parameters, and what follows the `?` parses back to them. */
  lemma {:induction false} QueryMark(prefix: string, params: seq<(string, string)>)
    requires '?' !in prefix
    ensures var url := prefix + WithQuery(params);
      && ('?' in url <==> |params| > 0)
      && (|params| > 0 ==> ParseQuery(url[|prefix| + 1..]) == Utf8Pairs(params))
  {
    var url := prefix + WithQuery(params);
    if |params| > 0 {
      assert url[|prefix|] == '?';
      assert url[|prefix| + 1..] == QueryString(params);
      QueryRoundTrip(params);
    } else {
      assert url == prefix;
    }
  }

  /** The list calls put a `?` in the URL exactly when they have parameters;
      by QueryMark, the text after it parses back to those parameters. */
  lemma ListQuery(base: string, token: Option<string>, call: Call)
    requires IsListCall(call) && '?' !in base
    ensures var url := Send(base, token, call).url;
      && url == base + "/api" + ListPath(call) + WithQuery(call.params)
      && ('?' in url <==> |call.params| > 0)
  {
    var prefix := base + "/api" + ListPath(call);
    var route := RouteOf(call);
    assert route.path == ListPath(call) + WithQuery(call.params);
    var url := Send(base, token, call).url;
    assert url == Url(base, route.path);
    assert url == prefix + WithQuery(call.params);
    QueryMark(prefix, call.params);
  }

  /** The form calls: the partial updates put exactly the caller's entries
      as form fields, and the upload posts exactly its two fields. */
  lemma FormBodies(base: string, token: Option<string>, call: Call)
    ensures var r := Send(base, token, call);
      && (call.UpdateNetwork? ==> r.verb == PUT && r.body == FormBody(call.data))
      && (call.UpdateExpoDay? ==> r.verb == PUT && r.body == FormBody(call.data))
      && (call.UpdateStage? ==> r.verb == PUT && r.body == FormBody([("stage", call.stage)]))
      && (call.UpdateShortlist? ==> r.verb == PUT && r.body == FormBody([("notes", call.newNotes)]))
      && (call.UploadCsv? ==> r.verb == POST && r.body == FormBody([("file_content", call.content), ("expo_id", call.expoId)]))
  {
  }

  /** The JSON calls: a shortlist entry is sent with empty notes when none
      are given, deletions send no body, and reads use GET without a body. */
  lemma RequestBodies(base: string, token: Option<string>, call: Call)
    ensures var r := Send(base, token, call);
      && (call.AddToShortlist? ==> r.verb == POST && r.body == JsonBody([("company_id", call.companyId), ("expo_id", call.expoId), ("notes", OrElse(call.notes, ""))]))
      && (call.DeleteShortlist? || call.DeleteNetwork? || call.DeleteExpoDay? ==> r.verb == DELETE && r.body == NoBody)
      && (call.GetMe? || IsListCall(call) ==> r.verb == GET && r.body == NoBody)
  {
    if IsListCall(call) {
      assert RouteOf(call).opts == NO_OPTIONS;
    } else if call.AddToShortlist? {
      assert RouteOf(call) == RequestRoute(call);
    } else if call.DeleteShortlist? || call.DeleteNetwork? || call.DeleteExpoDay? {
      assert RouteOf(call).opts == DELETING;
    } else if call.GetMe? {
      assert RouteOf(call).opts == NO_OPTIONS;
    }
  }

  /** `getCompanyFilters` and `exportCSV` add `?expo_id=` exactly when an
      expo id is given. */
  lemma ExpoIdParameter(base: string, token: Option<string>, call: Call)
    requires call.GetCompanyFilters? || call.ExportCsv?
    ensures var path := if call.GetCompanyFilters? then "/companies/filters/options" else "/export/" + call.collection;
      Send(base, token, call).url == base + "/api" + path + (if Truthy(call.expoFilter) then "?expo_id=" + call.expoFilter.value else "")
  {
    assert RouteOf(call) == RequestRoute(call);
  }

  // ----- Authorization header format (RFC 6750, section 2.1) -----

  /** The characters of `b64token`: ALPHA / DIGIT / "-" / "." / "_" / "~" / "+" / "/". */
  predicate TokenChar(c: char) {
    ('A' <= c <= 'Z') || ('a' <= c <= 'z') || ('0' <= c <= '9')
    || c == '-' || c == '.' || c == '_' || c == '~' || c == '+' || c == '/'
  }

  /** `b64token = 1*( ALPHA / DIGIT / "-" / "." / "_" / "~" / "+" / "/" ) *"="`. */
  predicate B64Token(s: string) {
    exists n :: 1 <= n <= |s| && PaddedAt(s, n)
  }

  /** `s` is token characters up to `n`, then `=` padding. */
  predicate PaddedAt(s: string, n: nat)
    requires n <= |s|
  {
    (forall i :: 0 <= i < n ==> TokenChar(s[i])) && (forall i :: n <= i < |s| ==> s[i] == '=')
  }

  /** `credentials = "Bearer" 1*SP b64token`. */
  predicate BearerCredentials(v: string) {
    exists n :: 7 <= n < |v| && v[..6] == "Bearer" && (forall i :: 6 <= i < n ==> v[i] == ' ') && B64Token(v[n..])
  }

  /** A loose shape of the backend's JWTs: at least two inner dots, and
      otherwise only token characters and `=`. This admits more than three
      base64url segments, which is enough for `UnpaddedJwtIsToken`. */
  predicate Jwt(t: string) {
    exists i, j :: 0 < i < j < |t| - 1 && t[i] == '.' && t[j] == '.'
      && forall k :: 0 <= k < |t| ==> TokenChar(t[k]) || t[k] == '='
  }

  /** A JWT is a `b64token` once its padding is stripped; and an
      Authorization header built from a `b64token` is well-formed bearer
      credentials. */
  lemma {:induction false} BearerFormat(base: string, token: Option<string>, call: Call)
    requires Truthy(token) && B64Token(token.value)
    ensures BearerCredentials(Send(base, token, call).headers["Authorization"])
  {
    var v := Send(base, token, call).headers["Authorization"];
    assert v == "Bearer " + token.value;
    assert v[7..] == token.value;
    assert v[..6] == "Bearer";
    assert 7 <= 7 < |v| && (forall i :: 6 <= i < 7 ==> v[i] == ' ') && B64Token(v[7..]);
  }

  /** A JWT without `=` padding (as PyJWT writes them) is a `b64token`. */
  lemma UnpaddedJwtIsToken(t: string)
    requires Jwt(t) && '=' !in t
    ensures B64Token(t)
  {
    assert forall k :: 0 <= k < |t| ==> TokenChar(t[k]);
    assert PaddedAt(t, |t|);
  }

  // ----- Responses -----

  /** A parsed response body. */
  datatype Json =
    | JNull
    | JBool(b: bool)
    | JNum(n: real)
    | JString(s: string)
    | JArray(items: seq<Json>)
    | JObject(members: seq<(string, Json)>)

  /** JavaScript truthiness of a JSON value. */
  predicate JsTruthy(j: Json) {
    match j
    case JNull => false
    case JBool(b) => b
    case JNum(n) => n != 0.0
    case JString(s) => s != ""
    case JArray(_) => true
    case JObject(_) => true
  }

  /** The member `key` of a JSON object; `JSON.parse` keeps the last of
      repeated keys. */
  function LastMember(members: seq<(string, Json)>, key: string): (r: Option<Json>)
    ensures r.Some? ==>
      exists i :: 0 <= i < |members| && members[i] == (key, r.value) && forall j :: i < j < |members| ==> members[j].0 != key
    ensures r.None? ==> forall m :: m in members ==> m.0 != key
  {
    if |members| == 0 then None
    else
      var last := members[|members| - 1];
      if last.0 == key then Some(last.1) else LastMember(members[..|members| - 1], key)
  }

  /** `err.detail` for a non-null body (`undefined` is `None`). */
  function Detail(j: Json): Option<Json> {
    if j.JObject? then LastMember(j.members, "detail") else None
  }

  /** What `res.json()` gives: a value, or a parse failure. */
  datatype Payload = Unparseable | Parsed(json: Json)

  datatype Response = Response(status: nat, payload: Payload)

  /** `res.ok`. */
  predicate Success(status: nat) {
    200 <= status <= 299
  }

  /** The message of `new Error(x)`: a string, or the string conversion of a
      non-string detail. */
  datatype Message = Text(text: string) | Converted(detail: Json)

  /** What a failed call rejects with. */
  datatype Thrown =
    | RequestError(message: Message)
    | NullBodyTypeError   // `err.detail` read on a `null` body
    | BodySyntaxError     // a success response whose body is not JSON

  datatype Outcome = Resolved(value: Json) | Rejected(error: Thrown)

  /** The decimal digits of `n`, as a template literal writes a number. */
  function Decimal(n: nat): (r: string)
    ensures |r| >= 1 && forall i :: 0 <= i < |r| ==> '0' <= r[i] <= '9'
  {
    var d := ['0' + (n % 10) as char];
    if n < 10 then d else Decimal(n / 10) + d
  }

  function DecimalValue(s: string): nat
    requires forall i :: 0 <= i < |s| ==> '0' <= s[i] <= '9'
  {
    if |s| == 0 then 0 else DecimalValue(s[..|s| - 1]) * 10 + (s[|s| - 1] - '0') as int
  }

  lemma {:induction false} DecimalRoundTrip(n: nat)
    ensures DecimalValue(Decimal(n)) == n
  {
    var r := Decimal(n);
    if n >= 10 {
      DecimalRoundTrip(n / 10);
      assert r[..|r| - 1] == Decimal(n / 10);
    }
  }

  /** How `request`, `formRequest` and `formPut` settle once the response
      has arrived. */
  function Settle(res: Response): (o: Outcome)
    ensures Success(res.status) ==> (o.Resolved? <==> res.payload.Parsed?)
    ensures o.Resolved? ==> Success(res.status) && o.value == res.payload.json
  {
    if Success(res.status) then
      match res.payload
      case Parsed(j) => Resolved(j)
      case Unparseable => Rejected(BodySyntaxError)
    else
      match res.payload
      case Unparseable => Rejected(RequestError(Text("Request failed")))
      case Parsed(j) =>
        if j == JNull then Rejected(NullBodyTypeError)
        else
          var d := Detail(j);
          if d.Some? && JsTruthy(d.value) then
            Rejected(RequestError(if d.value.JString? then Text(d.value.s) else Converted(d.value)))
          else
            Rejected(RequestError(Text("HTTP " + Decimal(res.status))))
  }

  /** The three-way error rule: a body that does not parse gives
      "Request failed" whatever the status; a parsed body with a truthy
      `detail` gives that detail; any other parsed body (except `null`) gives
      `HTTP <status>`, from which the status can be read back. */
  lemma ErrorRule(res: Response)
    requires !Success(res.status)
    ensures res.payload.Unparseable? ==> Settle(res) == Rejected(RequestError(Text("Request failed")))
    ensures res.payload == Parsed(JNull) ==> Settle(res) == Rejected(NullBodyTypeError)
    ensures res.payload.Parsed? && Detail(res.payload.json).Some? && JsTruthy(Detail(res.payload.json).value)
      ==> var d := Detail(res.payload.json).value;
          Settle(res) == Rejected(RequestError(if d.JString? then Text(d.s) else Converted(d)))
    ensures res.payload.Parsed? && res.payload.json != JNull && (Detail(res.payload.json).None? || !JsTruthy(Detail(res.payload.json).value))
      ==> (Settle(res).Rejected? && Settle(res).error.RequestError? && Settle(res).error.message.Text?
        && var m := Settle(res).error.message.text;
           |m| > 5 && m[..5] == "HTTP " && (forall i :: 5 <= i < |m| ==> '0' <= m[i] <= '9') && DecimalValue(m[5..]) == res.status)
  {
    if res.payload.Parsed? && res.payload.json != JNull && (Detail(res.payload.json).None? || !JsTruthy(Detail(res.payload.json).value)) {
      var m := "HTTP " + Decimal(res.status);
      assert m[5..] == Decimal(res.status);
      DecimalRoundTrip(res.status);
    }
  }
}
