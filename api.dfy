/** The HTTP client of the dashboard (project/src/services/api.ts): the base
    URL, the headers and options of every request, how a reply becomes a
    result or an error, the history query string, and token verification.
    `fetch` itself is not modelled: a reply is an input. */
module Api {
  import opened Common
  import opened Domain

  // ---------------------------------------------------------------------------
  // Base URL

  const RemoteApi := "https://enterprise-churn-prediction-platform.onrender.com/api"
  const LocalApi := "/api"

  /** `.replace(/\/$/, '')`: removes one '/' at the very end, if there is one. */
  function StripTrailingSlash(s: string): (r: string)
    ensures r == s || r + "/" == s
    ensures |s| > 0 && s[|s| - 1] == '/' ==> r + "/" == s
  {
    if |s| > 0 && s[|s| - 1] == '/' then s[..|s| - 1] else s
  }

  /** Only one slash goes: a URL ending in "//" keeps one. */
  lemma StripRemovesOneSlash(u: string)
    ensures StripTrailingSlash(u + "/") == u
    ensures StripTrailingSlash(u + "//") == u + "/"
  {
    assert (u + "//")[..|u| + 1] == u + "/";
  }

  /** baseUrl: the configured URL without its trailing slash, or, when that
      is missing or empty, the remote backend in development and "/api"
      otherwise. */
  function BaseUrl(viteApiUrl: Option<string>, dev: bool): (r: string)
    ensures viteApiUrl.Some? && StripTrailingSlash(viteApiUrl.value) != "" ==> r == StripTrailingSlash(viteApiUrl.value)
    ensures viteApiUrl.None? || StripTrailingSlash(viteApiUrl.value) == "" ==> r == (if dev then RemoteApi else LocalApi)
    ensures r != ""
  {
    var configured := if viteApiUrl.Some? then StripTrailingSlash(viteApiUrl.value) else "";
    if configured != "" then configured else if dev then RemoteApi else LocalApi
  }

  // ---------------------------------------------------------------------------
  // Request options

  type Headers = map<string, string>

  const TokenKey := "authToken"

  /** defaultHeaders: JSON content, and a bearer token when one is stored. */
  function DefaultHeaders(token: Option<string>): (h: Headers)
    ensures "Content-Type" in h && h["Content-Type"] == "application/json"
    ensures "Authorization" in h <==> Truthy(token)
    ensures Truthy(token) ==> h["Authorization"] == "Bearer " + token.value
    ensures h.Keys <= {"Content-Type", "Authorization"}
  {
    map["Content-Type" := "application/json"]
      + (if Truthy(token) then map["Authorization" := "Bearer " + token.value] else map[])
  }

  /** `{...defaults, ...(options.headers || {})}` */
  function MergeHeaders(defaults: Headers, caller: Headers): (h: Headers)
    ensures h.Keys == defaults.Keys + caller.Keys
    ensures forall k :: k in caller ==> h[k] == caller[k]
    ensures forall k :: k in defaults && k !in caller ==> h[k] == defaults[k]
  {
    defaults + caller
  }

  datatype RequestOptions = RequestOptions(httpMethod: Option<string>, headers: Headers, body: Option<string>)

  datatype RequestConfig = RequestConfig(httpMethod: string, headers: Headers, body: Option<string>, credentials: string)

  /** The configuration `request` hands to `fetch`. */
  function Config(options: RequestOptions, token: Option<string>): (c: RequestConfig)
    ensures c.httpMethod == if Truthy(options.httpMethod) then options.httpMethod.value else "GET"
    ensures c.headers == MergeHeaders(DefaultHeaders(token), options.headers)
    ensures c.body == options.body && c.credentials == "include"
  {
    RequestConfig(if Truthy(options.httpMethod) then options.httpMethod.value else "GET",
                  MergeHeaders(DefaultHeaders(token), options.headers),
                  options.body,
                  "include")
  }

  // ---------------------------------------------------------------------------
  // Replies

  /** The parsed body of a reply: the fields the client looks at. A body that
      was not parsed reads as `{}`, all fields absent. */
  datatype Doc<T> = Doc(success: bool, data: Option<T>, error: Option<string>, message: Option<string>)

  function EmptyDoc<T>(): Doc<T> {
    Doc(false, None, None, None)
  }

  /** A reply as `fetch` delivers it; `body` is None when the text is not JSON. */
  datatype Reply<T> = Reply(ok: bool, contentType: Option<string>, body: Option<Doc<T>>)

  /** What `request` resolves to, or the error it throws. */
  datatype Outcome<T> = Returned(doc: Doc<T>) | Thrown(error: string) | ParseError

  predicate IsJson(contentType: Option<string>) {
    contentType.Some? && Contains(contentType.value, "application/json")
  }

  /** `data?.error || data?.message || 'API request failed'` */
  function ErrorMessage<T>(d: Doc<T>): (m: string)
    ensures Truthy(d.error) ==> m == d.error.value
    ensures !Truthy(d.error) && Truthy(d.message) ==> m == d.message.value
    ensures !Truthy(d.error) && !Truthy(d.message) ==> m == "API request failed"
    ensures m != ""
  {
    if Truthy(d.error) then d.error.value
    else if Truthy(d.message) then d.message.value
    else "API request failed"
  }

  /** The body is read only for a JSON content type; a failed reply throws its
      error message, a successful one returns the body (or `{}`). */
  function Handle<T>(r: Reply<T>): (o: Outcome<T>)
    ensures !IsJson(r.contentType) ==>
      o == if r.ok then Returned(EmptyDoc()) else Thrown("API request failed")
    ensures IsJson(r.contentType) && r.body.None? ==> o == ParseError
    ensures IsJson(r.contentType) && r.body.Some? ==>
      o == if r.ok then Returned(r.body.value) else Thrown(ErrorMessage(r.body.value))
  {
    if !IsJson(r.contentType) then
      if r.ok then Returned(EmptyDoc()) else Thrown(ErrorMessage(EmptyDoc<T>()))
    else if r.body.None? then ParseError
    else if r.ok then Returned(r.body.value) else Thrown(ErrorMessage(r.body.value))
  }

  /** verifyToken: the user when the reply succeeded with data; any other
      outcome is a rejection. */
  function VerifyToken(o: Outcome<User>): (r: Option<User>)
    ensures r.Some? <==> o.Returned? && o.doc.success && o.doc.data.Some?
    ensures r.Some? ==> r == o.doc.data
  {
    if o.Returned? && o.doc.success && o.doc.data.Some? then o.doc.data else None
  }

  /** The headers of the verification request: its own bearer token wins over
      any stored one. */
  function VerifyHeaders(token: string): Headers {
    map["Authorization" := "Bearer " + token, "Content-Type" := "application/json"]
  }

  lemma VerifyUsesGivenToken(token: string, stored: Option<string>)
    ensures var c := Config(RequestOptions(Some("GET"), VerifyHeaders(token), None), stored);
      c.headers["Authorization"] == "Bearer " + token && c.httpMethod == "GET"
  {
  }

  // ---------------------------------------------------------------------------
  // History query

  /** A filter value as `Object.entries` yields it, already passed through
      `toString` when present. */
  datatype FieldValue = Undefined | Null | Text(text: string)

  predicate Present(v: FieldValue) {
    v.Text?
  }

  /** The entries that are neither undefined nor null, in order. */
  function PresentEntries(entries: seq<(string, FieldValue)>): (r: seq<(string, string)>)
    ensures |r| <= |entries|
  {
    if entries == [] then []
    else
      var last := entries[|entries| - 1];
      PresentEntries(entries[..|entries| - 1]) + (if Present(last.1) then [(last.0, last.1.text)] else [])
  }

  /** An entry is kept exactly when its value is present. */
  lemma {:induction false} PresentEntriesExact(entries: seq<(string, FieldValue)>)
    ensures forall k, t :: (k, t) in PresentEntries(entries) <==> (k, Text(t)) in entries
  {
    if entries != [] {
      var init := entries[..|entries| - 1];
      PresentEntriesExact(init);
      assert entries == init + [entries[|entries| - 1]];
    }
  }

  /** The `forEach` that appends to `URLSearchParams`. */
  method HistoryParams(entries: seq<(string, FieldValue)>) returns (params: seq<(string, string)>)
    ensures params == PresentEntries(entries)
  {
    params := [];
    var i := 0;
    while i < |entries|
      invariant 0 <= i <= |entries|
      invariant params == PresentEntries(entries[..i])
    {
      var (key, value) := entries[i];
      assert entries[..i + 1][..i] == entries[..i];
      if value != Undefined && value != Null {
        params := params + [(key, value.text)];
      }
      i := i + 1;
    }
    assert entries[..|entries|] == entries;
  }
}
