/** The generated `build_*_request` functions and the request half of every operation:
    api-version precedence, conditional headers and query parameters, the
    `Accept`/`Content-Type` defaults, and the choice of request body. */
module Requests {

  import opened Wrappers
  import opened Http
  import CI = CaseInsensitive

  /** What distinguishes one builder from another: its verb, its URL template, its
      literal api-version default, and which headers it manages. A builder that does not
      manage headers (`build_delete_request` of the proximity placement groups) hands
      the caller's headers to `HttpRequest` untouched. */
  datatype BuilderSpec = BuilderSpec(
    verb: Verb,
    template: string,
    defaultApiVersion: string,
    managesHeaders: bool,
    takesContentType: bool)

  /** The keyword arguments a builder reads. `contentType` is the `content_type` keyword:
      absent, or present with a value that may itself be `None`. The three conditional
      arguments are `None` for builders that do not declare them. */
  datatype BuilderArgs = BuilderArgs(
    apiVersion: Option<string>,
    contentType: Option<Option<string>>,
    templateUrl: Option<string>,
    headers: CI.CIDict<string>,
    params: CI.CIDict<string>,
    ifMatch: Option<string>,
    ifNoneMatch: Option<string>,
    includeColocationStatus: Option<string>,
    body: Body)

  /** `kwargs.pop("api_version", _params.pop("api-version", fallback))`. Python evaluates
      the default first, so the caller's `api-version` query entry is removed even when
      the keyword wins. */
  function ResolveApiVersion(kw: Option<string>, params: CI.CIDict<string>, fallback: string)
    : (r: (string, CI.CIDict<string>))
    ensures kw.Some? ==> r.0 == kw.value
    ensures kw.None? && CI.Get(params, ApiVersionParam).Some? ==> r.0 == CI.Get(params, ApiVersionParam).value
    ensures kw.None? && CI.Get(params, ApiVersionParam).None? ==> r.0 == fallback
    ensures CI.Get(r.1, ApiVersionParam).None?
    ensures forall k :: CI.Key(k) != CI.Key(ApiVersionParam) ==> CI.Get(r.1, k) == CI.Get(params, k)
  {
    var (fromParams, rest) := CI.Pop(params, ApiVersionParam, fallback);
    (kw.GetOr(fromParams), rest)
  }

  /** `kwargs.pop("content_type", _headers.pop("Content-Type", None))`. */
  function ResolveContentType(kw: Option<Option<string>>, headers: CI.CIDict<string>)
    : (r: (Option<string>, CI.CIDict<string>))
    ensures kw.Some? ==> r.0 == kw.value
    ensures kw.None? ==> r.0 == CI.Get(headers, ContentTypeHeader)
    ensures CI.Get(r.1, ContentTypeHeader).None?
    ensures forall k :: CI.Key(k) != CI.Key(ContentTypeHeader) ==> CI.Get(r.1, k) == CI.Get(headers, k)
  {
    var fromHeaders := CI.Get(headers, ContentTypeHeader);
    var (_, rest) := CI.Pop(headers, ContentTypeHeader, "");
    (kw.GetOr(fromHeaders), rest)
  }

  /** String query parameters as `HttpRequest` query values. */
  function Lift(params: CI.CIDict<string>): (r: CI.CIDict<QueryValue>)
    ensures forall k :: CI.Get(r, k) == LiftValue(CI.Get(params, k))
  {
    map k | k in params :: One(params[k])
  }

  function LiftValue(v: Option<string>): Option<QueryValue> {
    match v
    case None => None
    case Some(s) => Some(One(s))
  }

  const AcceptHeader: string := "Accept"
  const ContentTypeHeader: string := "Content-Type"
  const IfMatchHeader: string := "If-Match"
  const IfNoneMatchHeader: string := "If-None-Match"
  const ApiVersionParam: string := "api-version"
  const ColocationParam: string := "includeColocationStatus"

  /** A header the builders never write. */
  predicate OtherHeader(k: string) {
    CI.Key(k) != CI.Key(AcceptHeader) && CI.Key(k) != CI.Key(ContentTypeHeader) &&
    CI.Key(k) != CI.Key(IfMatchHeader) && CI.Key(k) != CI.Key(IfNoneMatchHeader)
  }

  /** A query parameter the builders never write. */
  predicate OtherParam(k: string) {
    CI.Key(k) != CI.Key(ApiVersionParam) && CI.Key(k) != CI.Key(ColocationParam)
  }

  /** The header and query names the builders write are different keys. */
  lemma KeysDistinct()
    ensures CI.Key(AcceptHeader) != CI.Key(ContentTypeHeader)
    ensures CI.Key(AcceptHeader) != CI.Key(IfMatchHeader)
    ensures CI.Key(AcceptHeader) != CI.Key(IfNoneMatchHeader)
    ensures CI.Key(ContentTypeHeader) != CI.Key(IfMatchHeader)
    ensures CI.Key(ContentTypeHeader) != CI.Key(IfNoneMatchHeader)
    ensures CI.Key(IfMatchHeader) != CI.Key(IfNoneMatchHeader)
    ensures CI.Key(ApiVersionParam) != CI.Key(ColocationParam)
  {
    assert |CI.Key(AcceptHeader)| == 6;
    assert |CI.Key(ContentTypeHeader)| == 12;
    assert |CI.Key(IfMatchHeader)| == 8;
    assert |CI.Key(IfNoneMatchHeader)| == 13;
    assert |CI.Key(ApiVersionParam)| == 11;
    assert |CI.Key(ColocationParam)| == 23;
  }

  /** A header set only when its argument is not `None`. */
  function SetIfPresent(h: CI.CIDict<string>, name: string, v: Option<string>): (r: CI.CIDict<string>)
    ensures v.Some? ==> CI.Get(r, name) == v
    ensures v.None? ==> CI.Get(r, name) == CI.Get(h, name)
    ensures forall k :: CI.Key(k) != CI.Key(name) ==> CI.Get(r, k) == CI.Get(h, k)
  {
    if v.Some? then CI.Set(h, name, v.value) else h
  }

  /** The first half of a header-managing builder: the content type and `Accept` value
      it will write, popped from the caller's headers. */
  function PopManaged(spec: BuilderSpec, args: BuilderArgs): (r: (Option<string>, string, CI.CIDict<string>))
    ensures spec.takesContentType && args.contentType.Some? ==> r.0 == args.contentType.value
    ensures spec.takesContentType && args.contentType.None? ==> r.0 == CI.Get(args.headers, ContentTypeHeader)
    ensures !spec.takesContentType ==> r.0.None? && CI.Get(r.2, ContentTypeHeader) == CI.Get(args.headers, ContentTypeHeader)
    ensures r.1 == CI.Get(args.headers, AcceptHeader).GetOr("application/json")
    ensures forall k :: OtherHeader(k) ==> CI.Get(r.2, k) == CI.Get(args.headers, k)
    ensures CI.Get(r.2, IfMatchHeader) == CI.Get(args.headers, IfMatchHeader)
    ensures CI.Get(r.2, IfNoneMatchHeader) == CI.Get(args.headers, IfNoneMatchHeader)
  {
    KeysDistinct();
    var ct := if spec.takesContentType then ResolveContentType(args.contentType, args.headers)
              else (None, args.headers);
    var accept := CI.Pop(ct.1, AcceptHeader, "application/json");
    (ct.0, accept.0, accept.1)
  }

  /** The second half: the conditional headers, then `Accept`. */
  function SetManaged(base: CI.CIDict<string>, contentType: Option<string>, accept: string,
                      ifMatch: Option<string>, ifNoneMatch: Option<string>): (h: CI.CIDict<string>)
    ensures CI.Get(h, AcceptHeader) == Some(accept)
    ensures contentType.Some? ==> CI.Get(h, ContentTypeHeader) == contentType
    ensures contentType.None? ==> CI.Get(h, ContentTypeHeader) == CI.Get(base, ContentTypeHeader)
    ensures ifMatch.Some? ==> CI.Get(h, IfMatchHeader) == ifMatch
    ensures ifMatch.None? ==> CI.Get(h, IfMatchHeader) == CI.Get(base, IfMatchHeader)
    ensures ifNoneMatch.Some? ==> CI.Get(h, IfNoneMatchHeader) == ifNoneMatch
    ensures ifNoneMatch.None? ==> CI.Get(h, IfNoneMatchHeader) == CI.Get(base, IfNoneMatchHeader)
    ensures forall k :: OtherHeader(k) ==> CI.Get(h, k) == CI.Get(base, k)
  {
    KeysDistinct();
    var h3 := SetIfPresent(base, IfMatchHeader, ifMatch);
    var h4 := SetIfPresent(h3, IfNoneMatchHeader, ifNoneMatch);
    var h5 := SetIfPresent(h4, ContentTypeHeader, contentType);
    CI.Set(h5, AcceptHeader, accept)
  }

  /** The headers of a builder that manages them: `Accept` always set (the caller's
      value, else "application/json"), `Content-Type`, `If-Match` and `If-None-Match`
      only when not `None`, every other caller header kept. */
  function BuildHeaders(spec: BuilderSpec, args: BuilderArgs): (h: CI.CIDict<string>)
    ensures CI.Get(h, AcceptHeader) == Some(CI.Get(args.headers, AcceptHeader).GetOr("application/json"))
    ensures spec.takesContentType && args.contentType.Some? ==> CI.Get(h, ContentTypeHeader) == args.contentType.value
    ensures spec.takesContentType && args.contentType.None? ==> CI.Get(h, ContentTypeHeader) == CI.Get(args.headers, ContentTypeHeader)
    ensures !spec.takesContentType ==> CI.Get(h, ContentTypeHeader) == CI.Get(args.headers, ContentTypeHeader)
    ensures args.ifMatch.Some? ==> CI.Get(h, IfMatchHeader) == args.ifMatch
    ensures args.ifMatch.None? ==> CI.Get(h, IfMatchHeader) == CI.Get(args.headers, IfMatchHeader)
    ensures args.ifNoneMatch.Some? ==> CI.Get(h, IfNoneMatchHeader) == args.ifNoneMatch
    ensures args.ifNoneMatch.None? ==> CI.Get(h, IfNoneMatchHeader) == CI.Get(args.headers, IfNoneMatchHeader)
    ensures forall k :: OtherHeader(k) ==> CI.Get(h, k) == CI.Get(args.headers, k)
  {
    var (contentType, accept, base) := PopManaged(spec, args);
    SetManaged(base, contentType, accept, args.ifMatch, args.ifNoneMatch)
  }

  /** A `build_*_request` function. */
  function Build(spec: BuilderSpec, args: BuilderArgs): (r: Request)
    ensures r.verb == spec.verb
    ensures r.url == args.templateUrl.GetOr(spec.template)
    ensures r.body == args.body
    ensures args.apiVersion.Some? ==> CI.Get(r.params, ApiVersionParam) == Some(One(args.apiVersion.value))
    ensures args.apiVersion.None? ==>
      CI.Get(r.params, ApiVersionParam) == Some(One(CI.Get(args.params, ApiVersionParam).GetOr(spec.defaultApiVersion)))
    ensures args.includeColocationStatus.Some? ==>
      CI.Get(r.params, ColocationParam) == Some(One(args.includeColocationStatus.value))
    ensures args.includeColocationStatus.None? ==>
      CI.Get(r.params, ColocationParam) == LiftValue(CI.Get(args.params, ColocationParam))
    ensures forall k :: OtherParam(k) ==> CI.Get(r.params, k) == LiftValue(CI.Get(args.params, k))
    ensures spec.managesHeaders ==> r.headers == BuildHeaders(spec, args)
    ensures !spec.managesHeaders ==> r.headers == args.headers
  {
    KeysDistinct();
    var (apiVersion, p1) := ResolveApiVersion(args.apiVersion, args.params, spec.defaultApiVersion);
    var p2 := Lift(p1);
    var p3 :=
      if args.includeColocationStatus.Some?
      then CI.Set(p2, ColocationParam, One(args.includeColocationStatus.value))
      else p2;
    var p4 := CI.Set(p3, ApiVersionParam, One(apiVersion));
    var headers := if spec.managesHeaders then BuildHeaders(spec, args) else args.headers;
    Request(spec.verb, args.templateUrl.GetOr(spec.template), p4, headers, args.body)
  }

  /** A required body parameter: `IO`/`bytes` goes out as raw content, a model is serialised. */
  function SelectBody(p: BodyParam, typeName: string): (b: Body)
    ensures b.Content? <==> !p.ModelValue?
    ensures b.Content? ==> b.raw == p
    ensures p.ModelValue? ==> b == Json(typeName, p.fields)
  {
    match p
    case ModelValue(fields) => Json(typeName, fields)
    case _ => Content(p)
  }

  /** An optional body parameter (`parameters=None` is allowed): no body at all for `None`. */
  function SelectOptionalBody(p: Option<BodyParam>, typeName: string): (b: Body)
    ensures b.NoBody? <==> p.None?
    ensures p.Some? ==> b == SelectBody(p.value, typeName)
  {
    match p
    case None => NoBody
    case Some(v) => SelectBody(v, typeName)
  }

  /** `content_type or "application/json"`: an absent or empty content type becomes JSON. */
  function ContentTypeOrJson(ct: Option<string>): (r: string)
    ensures r != ""
    ensures ct.Some? && ct.value != "" ==> r == ct.value
  {
    match ct
    case Some(s) => if s == "" then "application/json" else s
    case None => "application/json"
  }

  /** The caller-facing keyword arguments of a generated operation. */
  datatype CallArgs = CallArgs(
    apiVersion: Option<string>,
    contentType: Option<Option<string>>,
    headers: CI.CIDict<string>,
    params: CI.CIDict<string>)

  /** The request half of a write operation (`create_or_update`, `update`, `_walk_initial`, ...):
      the operation resolves api-version (defaulting to `apiDefault`, a literal or the
      client's configured version) and content type itself, then calls the builder with
      both, the selected body, the operation's URL template and what is left of the
      caller's headers and params. On the wire the Content-Type is always present: the
      caller's keyword or header, or "application/json" when that is missing or empty. */
  function PrepareWrite(spec: BuilderSpec, apiDefault: string, call: CallArgs, ifMatch: Option<string>, body: Body)
    : (r: Request)
    requires spec.managesHeaders && spec.takesContentType
    ensures r.verb == spec.verb && r.url == spec.template && r.body == body
    ensures CI.Get(r.params, ApiVersionParam)
         == Some(One(call.apiVersion.GetOr(CI.Get(call.params, ApiVersionParam).GetOr(apiDefault))))
    ensures CI.Get(r.headers, ContentTypeHeader)
         == Some(ContentTypeOrJson(if call.contentType.Some? then call.contentType.value else CI.Get(call.headers, ContentTypeHeader)))
    ensures CI.Get(r.headers, AcceptHeader) == Some(CI.Get(call.headers, AcceptHeader).GetOr("application/json"))
    ensures ifMatch.Some? ==> CI.Get(r.headers, IfMatchHeader) == ifMatch
    ensures ifMatch.None? ==> CI.Get(r.headers, IfMatchHeader) == CI.Get(call.headers, IfMatchHeader)
    ensures CI.Get(r.headers, IfNoneMatchHeader) == CI.Get(call.headers, IfNoneMatchHeader)
    ensures forall k :: OtherHeader(k) ==> CI.Get(r.headers, k) == CI.Get(call.headers, k)
    ensures forall k :: OtherParam(k) ==> CI.Get(r.params, k) == LiftValue(CI.Get(call.params, k))
    ensures CI.Get(r.params, ColocationParam) == LiftValue(CI.Get(call.params, ColocationParam))
  {
    KeysDistinct();
    var (apiVersion, params) := ResolveApiVersion(call.apiVersion, call.params, apiDefault);
    var (contentType, headers) := ResolveContentType(call.contentType, call.headers);
    var args := BuilderArgs(Some(apiVersion), Some(Some(ContentTypeOrJson(contentType))), Some(spec.template),
                            headers, params, ifMatch, None, None, body);
    Build(spec, args)
  }

  /** The request half of a read operation (`get`, `delete`, `list`): api-version resolved
      by the operation, everything else left to the builder. */
  function PrepareRead(spec: BuilderSpec, apiDefault: string, call: CallArgs,
                       ifNoneMatch: Option<string>, includeColocationStatus: Option<string>)
    : (r: Request)
    ensures r.verb == spec.verb && r.url == spec.template && r.body == NoBody
    ensures CI.Get(r.params, ApiVersionParam)
         == Some(One(call.apiVersion.GetOr(CI.Get(call.params, ApiVersionParam).GetOr(apiDefault))))
    ensures includeColocationStatus.Some? ==>
      CI.Get(r.params, ColocationParam) == Some(One(includeColocationStatus.value))
    ensures includeColocationStatus.None? ==>
      CI.Get(r.params, ColocationParam) == LiftValue(CI.Get(call.params, ColocationParam))
    ensures forall k :: OtherParam(k) ==> CI.Get(r.params, k) == LiftValue(CI.Get(call.params, k))
    ensures !spec.managesHeaders ==> r.headers == call.headers
    ensures spec.managesHeaders && ifNoneMatch.Some? ==> CI.Get(r.headers, IfNoneMatchHeader) == ifNoneMatch
    ensures spec.managesHeaders && ifNoneMatch.None? ==>
      CI.Get(r.headers, IfNoneMatchHeader) == CI.Get(call.headers, IfNoneMatchHeader)
    ensures spec.managesHeaders ==>
      CI.Get(r.headers, AcceptHeader) == Some(CI.Get(call.headers, AcceptHeader).GetOr("application/json"))
    ensures spec.managesHeaders ==> CI.Get(r.headers, ContentTypeHeader) == CI.Get(call.headers, ContentTypeHeader)
    ensures spec.managesHeaders ==> CI.Get(r.headers, IfMatchHeader) == CI.Get(call.headers, IfMatchHeader)
    ensures spec.managesHeaders ==> forall k :: OtherHeader(k) ==> CI.Get(r.headers, k) == CI.Get(call.headers, k)
  {
    KeysDistinct();
    var (apiVersion, params) := ResolveApiVersion(call.apiVersion, call.params, apiDefault);
    var args := BuilderArgs(Some(apiVersion), None, Some(spec.template),
                            call.headers, params, None, ifNoneMatch, includeColocationStatus, NoBody);
    Build(spec, args)
  }
}
