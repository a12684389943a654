/** The `TableClient` of `azure-data-tables`: its construction from an endpoint or a full
    table URL, and how `delete_table`, `delete_entity`, `update_entity`, `upsert_entity`
    and the entity listings turn their arguments into a service call. The generated
    service client is a parameter: a function from the call issued to the reply. Line
    numbers below refer to `azure/data/tables/_table_client.py`. */
module TableClient {

  import opened Wrappers
  import Text

  /** The state a client keeps: the account endpoint and the table it talks to. */
  datatype Client = Client(endpoint: string, tableName: string)

  /** What the client raises. `TypeError` is Python's refusal of a keyword argument
      passed twice; `ServiceError` is the `HttpResponseError` re-raised by
      `_process_table_error` for a service status. */
  datatype TableError =
    | ValueError(message: string)
    | IndexError
    | KeyError(key: string)
    | TypeError(keyword: string)
    | ServiceError(status: int)

  /** Python truthiness of an optional string. */
  predicate Truthy(s: Option<string>) {
    s.Some? && s.value != ""
  }

  /** `TableClient(endpoint, table_name)`: a missing or empty table name is refused. */
  function NewTableClient(endpoint: string, tableName: Option<string>): (r: Result<Client, TableError>)
    ensures r.Ok? <==> Truthy(tableName)
    ensures r.Ok? ==> r.value.endpoint == endpoint && r.value.tableName == tableName.value
    ensures r.Err? ==> r.error.ValueError?
  {
    if !Truthy(tableName) then Err(ValueError("Please specify a table name."))
    else Ok(Client(endpoint, tableName.value))
  }

  // ---------------------------------------------------------------------------
  // from_table_url

  /** The fields of `urllib.parse.urlparse` the client reads. */
  datatype UrlParts = UrlParts(scheme: string, netloc: string, path: string, query: string)

  /** `urlparse` and `unquote` are library code and enter as parameters. */
  type UrlParser = string -> UrlParts
  type Unquote = string -> string

  const HttpPrefix := "http"
  const ODataPrefix := "tables('"

  /** A prefix of `s` free of `c` survives `s.rstrip(c)`. */
  lemma RStripKeepsPrefix(s: string, c: char, n: nat)
    requires n <= |s|
    requires forall i :: 0 <= i < n ==> s[i] != c
    ensures n <= |Text.RStrip(s, c)| && Text.RStrip(s, c)[..n] == s[..n]
  {
  }

  /** Lower-casing commutes with taking a prefix. */
  lemma LowerPrefix(s: string, t: string, n: nat)
    requires n <= |s| && n <= |t| && s[..n] == t[..n]
    ensures Text.Lower(s)[..n] == Text.Lower(t)[..n]
  {
    assert forall i :: 0 <= i < n ==> s[i] == s[..n][i] == t[..n][i] == t[i];
  }

  /** A string that starts with "http" in any case starts with a letter in each of its
      first four places, so none of them is a '/'. */
  lemma HttpPrefixHasNoSlash(s: string)
    requires Text.StartsWithIgnoringCase(s, HttpPrefix)
    ensures forall i :: 0 <= i < 4 ==> s[i] != '/'
  {
    forall i | 0 <= i < 4
      ensures s[i] != '/'
    {
      assert Text.Lower(s)[i] == Text.Lower(s)[..4][i] == HttpPrefix[i];
    }
  }

  /** `rstrip("/")` keeps a case-insensitive "http" prefix. */
  lemma RStripKeepsHttp(s: string)
    requires Text.StartsWithIgnoringCase(s, HttpPrefix)
    ensures Text.StartsWithIgnoringCase(Text.RStrip(s, '/'), HttpPrefix)
  {
    HttpPrefixHasNoSlash(s);
    RStripKeepsPrefix(s, '/', 4);
    LowerPrefix(Text.RStrip(s, '/'), s, 4);
  }

  /** The URL before stripping starts with "http", and with "https:" when it was added. */
  lemma NormalisedShape(url: string, full: string)
    requires full == if Text.StartsWithIgnoringCase(url, HttpPrefix) then url else "https://" + url
    ensures Text.StartsWithIgnoringCase(Text.RStrip(full, '/'), HttpPrefix)
    ensures !Text.StartsWithIgnoringCase(url, HttpPrefix) ==> |Text.RStrip(full, '/')| >= 6
  {
    if !Text.StartsWithIgnoringCase(url, HttpPrefix) {
      assert full[..4] == "http";
      assert Text.Lower(full)[..4] == "http";
      RStripKeepsPrefix(full, '/', 6);
    }
    RStripKeepsHttp(full);
  }

  /** Lines 137-138: "https://" is prepended unless the URL already starts with "http"
      in any case. */
  function WithScheme(url: string): string {
    if Text.StartsWithIgnoringCase(url, HttpPrefix) then url else "https://" + url
  }

  /** Lines 137-141: the URL with its scheme, trailing slashes dropped before parsing.
      The result is the URL with "https://" prepended when needed, less a run of
      trailing slashes and nothing else. */
  function NormaliseTableUrl(url: string): (r: string)
    ensures r <= WithScheme(url)
    ensures forall i :: |r| <= i < |WithScheme(url)| ==> WithScheme(url)[i] == '/'
    ensures |r| > 0 ==> r[|r| - 1] != '/'
    ensures Text.StartsWithIgnoringCase(r, HttpPrefix)
    ensures Text.StartsWithIgnoringCase(url, HttpPrefix) ==> r <= url
    ensures !Text.StartsWithIgnoringCase(url, HttpPrefix) ==> r <= "https://" + url && |r| >= |"https:"|
  {
    var full := WithScheme(url);
    NormalisedShape(url, full);
    Text.RStrip(full, '/')
  }

  /** A normalised URL is left alone by a second normalisation. */
  lemma NormaliseIdempotent(url: string)
    ensures NormaliseTableUrl(NormaliseTableUrl(url)) == NormaliseTableUrl(url)
  {
  }

  /** Lines 146-149: the path without its leading slashes is split on "/"; every segment
      but the last forms the account path ("/" + the segments joined, or "" for a
      single segment) and the last is the raw table name. */
  function SplitTablePath(path: string): (r: (string, string))
    ensures '/' !in r.1
    ensures r.0 == "" || r.0[0] == '/'
    ensures Text.LStrip(path, '/') == if r.0 == "" then r.1 else r.0[1..] + "/" + r.1
  {
    var segments := Text.Split(Text.LStrip(path, '/'), '/');
    AccountAndNameShape(segments);
    AccountAndName(segments)
  }

  /** The leading segments as an account path, and the last segment. */
  function AccountAndName(segments: seq<string>): (string, string)
    requires |segments| >= 1
  {
    if |segments| == 1 then ("", segments[0])
    else ("/" + Text.Join(segments[..|segments| - 1], '/'), segments[|segments| - 1])
  }

  lemma AccountAndNameShape(segments: seq<string>)
    requires |segments| >= 1
    requires forall i :: 0 <= i < |segments| ==> '/' !in segments[i]
    ensures '/' !in AccountAndName(segments).1
    ensures AccountAndName(segments).0 == "" || AccountAndName(segments).0[0] == '/'
    ensures Text.Join(segments, '/')
         == if AccountAndName(segments).0 == "" then AccountAndName(segments).1
            else AccountAndName(segments).0[1..] + "/" + AccountAndName(segments).1
  {
    if |segments| > 1 {
      var init := segments[..|segments| - 1];
      var last := segments[|segments| - 1];
      assert '/' !in last;
      SplitLast(segments);
      AccountPathShape(init, last);
      assert AccountAndName(segments) == ("/" + Text.Join(init, '/'), last);
    }
  }

  lemma SplitLast(segments: seq<string>)
    requires |segments| >= 1
    ensures segments == segments[..|segments| - 1] + [segments[|segments| - 1]]
  {
  }

  /** The account path built from the leading segments starts with "/" and, without it,
      rejoins with the last segment into the whole joined path. */
  lemma AccountPathShape(init: seq<string>, last: string)
    requires |init| >= 1
    ensures ("/" + Text.Join(init, '/'))[0] == '/'
    ensures ("/" + Text.Join(init, '/'))[1..] + "/" + last == Text.Join(init + [last], '/')
  {
    assert ("/" + Text.Join(init, '/'))[1..] == Text.Join(init, '/');
    Text.JoinSnoc(init, last, '/');
  }

  /** Lines 152-153: a name starting with "tables('" in any case loses its first 8 and
      last 2 characters (Python's `name[8:-2]`, empty when they overlap). */
  function StripODataWrapper(name: string): (r: string)
    ensures !Text.StartsWithIgnoringCase(name, ODataPrefix) ==> r == name
    ensures Text.StartsWithIgnoringCase(name, ODataPrefix) && |name| >= 10 ==> r == name[8..|name| - 2]
    ensures Text.StartsWithIgnoringCase(name, ODataPrefix) && |name| < 10 ==> r == ""
  {
    if Text.StartsWithIgnoringCase(name, ODataPrefix) then Text.SliceFromTo(name, 8, 2) else name
  }

  /** `Tables('name')`, in any case of "Tables", unwraps to `name`. */
  lemma ODataWrapperRoundTrip(prefix: string, name: string)
    requires |prefix| == 8 && Text.Lower(prefix) == ODataPrefix
    ensures StripODataWrapper(prefix + name + "')") == name
  {
    var wrapped := prefix + name + "')";
    assert wrapped[..8] == prefix;
    LowerPrefix(wrapped, prefix, 8);
    assert wrapped[8..|wrapped| - 2] == name;
  }

  /** The table name a URL path names: the last segment, percent-decoded, unwrapped. */
  function TableNameOf(path: string, unquote: Unquote): string {
    StripODataWrapper(unquote(SplitTablePath(path).1))
  }

  /** Lines 136-156 (`from_table_url`). The URL must have a network location and must
      name a table; the endpoint is scheme, host without trailing slashes, account path
      and query; the name is the decoded, unwrapped last path segment. */
  function FromTableUrl(tableUrl: string, parse: UrlParser, unquote: Unquote): (r: Result<Client, TableError>)
    ensures var parts := parse(NormaliseTableUrl(tableUrl));
      r.Ok? <==> parts.netloc != "" && TableNameOf(parts.path, unquote) != ""
    ensures r.Err? ==> r.error.ValueError?
    ensures parse(NormaliseTableUrl(tableUrl)).netloc == "" ==> r == Err(ValueError("Invalid URL: " + WithScheme(tableUrl)))
    ensures parse(NormaliseTableUrl(tableUrl)).netloc != "" && r.Err? ==>
      r == Err(ValueError("Invalid URL. Please provide a URL with a valid table name"))
    ensures var parts := parse(NormaliseTableUrl(tableUrl));
      r.Ok? ==> (r.value.tableName == TableNameOf(parts.path, unquote)
                 && r.value.endpoint
                    == parts.scheme + "://" + Text.RStrip(parts.netloc, '/') + SplitTablePath(parts.path).0 + "?" + parts.query)
  {
    var parts := parse(NormaliseTableUrl(tableUrl));
    if parts.netloc == "" then Err(ValueError("Invalid URL: " + WithScheme(tableUrl)))
    else
      var (accountPath, rawName) := SplitTablePath(parts.path);
      var endpoint := parts.scheme + "://" + Text.RStrip(parts.netloc, '/') + accountPath + "?" + parts.query;
      var name := StripODataWrapper(unquote(rawName));
      if name == "" then Err(ValueError("Invalid URL. Please provide a URL with a valid table name"))
      else NewTableClient(endpoint, Some(name))
  }

  /** The URL of a table under an account, as a client would print it: the host, the
      account path segments, then the table name (bare or as `Tables('name')`). */
  lemma {:induction false} FromTableUrlRecoversTable(
    tableUrl: string, parse: UrlParser, unquote: Unquote,
    scheme: string, host: string, account: seq<string>, name: string, query: string)
    requires host != "" && host[|host| - 1] != '/'
    requires forall i :: 0 <= i < |account| ==> account[i] != "" && '/' !in account[i]
    requires name != "" && '/' !in name && unquote(name) == name
    requires !Text.StartsWithIgnoringCase(name, ODataPrefix)
    requires parse(NormaliseTableUrl(tableUrl)) == UrlParts(scheme, host, "/" + Text.Join(account + [name], '/'), query)
    ensures FromTableUrl(tableUrl, parse, unquote)
         == Ok(Client(scheme + "://" + host + AccountPath(account) + "?" + query, name))
  {
    SplitTablePathOfSegments(account, name);
    assert Text.RStrip(host, '/') == host;
  }

  /** The account path a client prints for its account segments. */
  function AccountPath(account: seq<string>): string {
    if account == [] then "" else "/" + Text.Join(account, '/')
  }

  /** Splitting "/" + the joined segments gives back the account path and the name. */
  lemma SplitTablePathOfSegments(account: seq<string>, name: string)
    requires forall i :: 0 <= i < |account| ==> account[i] != "" && '/' !in account[i]
    requires name != "" && '/' !in name
    ensures SplitTablePath("/" + Text.Join(account + [name], '/')) == (AccountPath(account), name)
  {
    var parts := account + [name];
    var joined := Text.Join(parts, '/');
    SegmentsWithoutSlash(account, name);
    Text.SplitJoin(parts, '/');
    JoinHead(parts, '/');
    LStripOneSlash(joined);
    assert parts[..|parts| - 1] == account;
  }

  lemma SegmentsWithoutSlash(account: seq<string>, name: string)
    requires forall i :: 0 <= i < |account| ==> '/' !in account[i]
    requires '/' !in name
    ensures forall i :: 0 <= i < |account + [name]| ==> '/' !in (account + [name])[i]
  {
    forall i | 0 <= i < |account + [name]|
      ensures '/' !in (account + [name])[i]
    {
      if i < |account| {
        assert (account + [name])[i] == account[i];
      }
    }
  }

  /** `("/" + t).lstrip("/")` is `t` when `t` does not itself start with a slash. */
  lemma LStripOneSlash(t: string)
    requires |t| > 0 && t[0] != '/'
    ensures Text.LStrip("/" + t, '/') == t
  {
    assert ("/" + t)[1..] == t;
  }

  /** A join of segments free of the separator, the first of them non-empty, starts with
      that first segment's first character. */
  lemma JoinHead(parts: seq<string>, sep: char)
    requires |parts| >= 1 && |parts[0]| > 0 && sep !in parts[0]
    ensures |Text.Join(parts, sep)| > 0 && Text.Join(parts, sep)[0] == parts[0][0] != sep
  {
  }

  // ---------------------------------------------------------------------------
  // Entities and their keys

  /** A `TableEntity` or plain mapping: its properties and, for a `TableEntity`, the
      `metadata` the service returned (a plain mapping has no `metadata` attribute). */
  datatype Entity = Entity(properties: map<string, string>, metadata: Option<map<string, string>>)

  const PartitionKey := "PartitionKey"
  const RowKey := "RowKey"

  /** Python truthiness of a mapping: it has at least one property. */
  predicate NonEmpty(e: Entity) {
    |e.properties| > 0
  }

  /** A positional argument of `delete_entity`: a key string or an entity mapping. */
  datatype Arg = StrArg(s: string) | MapArg(entity: Entity)

  /** The keys `delete_entity` sends, and the entity they were read from, if any. */
  datatype EntityKeys = EntityKeys(partitionKey: Arg, rowKey: Arg, source: Option<Entity>)

  /** The keyword and positional arguments `delete_entity` accepts. */
  datatype DeleteArgs = DeleteArgs(
    entity: Option<Entity>,
    partitionKey: Option<string>,
    rowKey: Option<string>,
    positional: seq<Arg>,
    matchCondition: Option<MatchCondition>,
    etag: Option<string>)

  /** The entity `delete_entity` tries first: the `entity` keyword when it is a non-empty
      mapping, otherwise the first positional argument. */
  function FirstCandidate(entity: Option<Entity>, positional: seq<Arg>): Option<Arg> {
    if entity.Some? && NonEmpty(entity.value) then Some(MapArg(entity.value))
    else if |positional| > 0 then Some(positional[0])
    else None
  }

  /** Lines 307-319. Keys come from the candidate entity when it is a mapping (a missing
      key is a `KeyError`, which is not caught); when it is a string (`TypeError`) or
      missing (`IndexError`), from the `partition_key`/`row_key` keywords, each falling
      back to its positional argument. */
  function ResolveDeleteKeys(args: DeleteArgs): (r: Result<EntityKeys, TableError>)
    ensures r.Err? ==> r.error.KeyError? || r.error.IndexError?
    ensures r.Ok? && r.value.source.Some? ==>
      var e := r.value.source.value;
      && FirstCandidate(args.entity, args.positional) == Some(MapArg(e))
      && PartitionKey in e.properties && RowKey in e.properties
      && r.value.partitionKey == StrArg(e.properties[PartitionKey])
      && r.value.rowKey == StrArg(e.properties[RowKey])
    ensures (var c := FirstCandidate(args.entity, args.positional); c.Some? && c.value.MapArg?) ==>
      var e := FirstCandidate(args.entity, args.positional).value.entity;
      && (r.Ok? <==> PartitionKey in e.properties && RowKey in e.properties)
      && (r.Ok? ==> r.value.source == Some(e))
      && (r.Err? ==> r.error == KeyError(if PartitionKey !in e.properties then PartitionKey else RowKey))
    ensures (var c := FirstCandidate(args.entity, args.positional); !(c.Some? && c.value.MapArg?)) ==>
      && (r.Ok? ==> r.value.source.None?)
      && (r.Ok? && args.partitionKey.Some? ==> r.value.partitionKey == StrArg(args.partitionKey.value))
      && (r.Ok? && args.rowKey.Some? ==> r.value.rowKey == StrArg(args.rowKey.value))
      && (r.Ok? && args.partitionKey.None? ==> |args.positional| > 0 && r.value.partitionKey == args.positional[0])
      && (r.Ok? && args.rowKey.None? ==> |args.positional| > 1 && r.value.rowKey == args.positional[1])
      && (r.Err? <==> (args.partitionKey.None? && |args.positional| == 0)
                      || (args.rowKey.None? && |args.positional| < 2))
  {
    match FirstCandidate(args.entity, args.positional)
    case Some(MapArg(e)) =>
      if PartitionKey !in e.properties then Err(KeyError(PartitionKey))
      else if RowKey !in e.properties then Err(KeyError(RowKey))
      else Ok(EntityKeys(StrArg(e.properties[PartitionKey]), StrArg(e.properties[RowKey]), Some(e)))
    case _ =>
      var pk :- if args.partitionKey.Some? then Ok(StrArg(args.partitionKey.value))
                else if |args.positional| > 0 then Ok(args.positional[0])
                else Err(IndexError);
      var rk :- if args.rowKey.Some? then Ok(StrArg(args.rowKey.value))
                else if |args.positional| > 1 then Ok(args.positional[1])
                else Err(IndexError);
      Ok(EntityKeys(pk, rk, None))
  }

  /** The overloads of `delete_entity` agree: an entity (as keyword or positional), the
      two keys positionally and the two keys as keywords all name the same row. */
  lemma DeleteOverloadsAgree(e: Entity, cond: Option<MatchCondition>, etag: Option<string>)
    requires PartitionKey in e.properties && RowKey in e.properties
    ensures var pk := StrArg(e.properties[PartitionKey]);
      var rk := StrArg(e.properties[RowKey]);
      && ResolveDeleteKeys(DeleteArgs(Some(e), None, None, [], cond, etag)) == Ok(EntityKeys(pk, rk, Some(e)))
      && ResolveDeleteKeys(DeleteArgs(None, None, None, [MapArg(e)], cond, etag)) == Ok(EntityKeys(pk, rk, Some(e)))
      && ResolveDeleteKeys(DeleteArgs(None, None, None, [pk, rk], cond, etag)) == Ok(EntityKeys(pk, rk, None))
      && ResolveDeleteKeys(DeleteArgs(None, Some(pk.s), Some(rk.s), [], cond, etag)) == Ok(EntityKeys(pk, rk, None))
  {
    assert PartitionKey in e.properties;
  }

  // ---------------------------------------------------------------------------
  // Conditional requests

  /** `azure.core.MatchConditions`; every member is truthy. */
  datatype MatchCondition = Unconditionally | IfNotModified | IfModified | IfPresent | IfMissing

  /** The arguments handed to `_get_match_headers`, which is not part of this model. */
  datatype IfMatchInput = IfMatchInput(etag: Option<string>, condition: MatchCondition)

  /** Lines 321-331 and 407-417. With a match condition and no truthy `etag` keyword,
      the etag is read from the entity's `metadata` (None when it has no "etag"); a
      plain mapping has no `metadata`, and the etag is kept. The condition defaults to
      `Unconditionally`. */
  function ConditionalEtag(condition: Option<MatchCondition>, entity: Option<Entity>, etag: Option<string>)
    : (r: IfMatchInput)
    ensures r.condition == condition.GetOr(Unconditionally)
    ensures Truthy(etag) || condition.None? || entity.None? || entity.value.metadata.None? ==> r.etag == etag
    ensures !Truthy(etag) && condition.Some? && entity.Some? && entity.value.metadata.Some? ==>
      var md := entity.value.metadata.value;
      r.etag == if "etag" in md then Some(md["etag"]) else None
  {
    var resolved :=
      if condition.Some? && entity.Some? && !Truthy(etag) then
        match entity.value.metadata
        case None => etag
        case Some(md) => if "etag" in md then Some(md["etag"]) else None
      else etag;
    IfMatchInput(resolved, condition.GetOr(Unconditionally))
  }

  /** An explicit etag always wins, and without a match condition the entity's metadata
      is never consulted. */
  lemma ExplicitEtagWins(condition: Option<MatchCondition>, e: Entity, f: Entity, etag: Option<string>)
    requires Truthy(etag) || condition.None?
    ensures ConditionalEtag(condition, Some(e), etag) == ConditionalEtag(condition, Some(f), etag)
    ensures ConditionalEtag(condition, Some(e), etag).etag == etag
  {
  }

  // ---------------------------------------------------------------------------
  // Service calls

  /** The calls into the generated service client. `ReplaceEntityCall` is its
      `update_entity` (which replaces the row), `MergeEntityCall` its `merge_entity`. */
  datatype ServiceCall =
    | DeleteTableCall(table: string)
    | DeleteEntityCall(table: string, partitionKey: Arg, rowKey: Arg, condition: IfMatchInput)
    | ReplaceEntityCall(table: string, partitionKey: Arg, rowKey: Arg, entity: Entity, ifMatch: Option<IfMatchInput>)
    | MergeEntityCall(table: string, partitionKey: Arg, rowKey: Arg, entity: Entity, ifMatch: Option<IfMatchInput>)

  /** What the service answers: success with the response headers, or an HTTP error. */
  datatype Reply = Succeeded(headers: map<string, string>) | HttpError(status: int)

  type Service = ServiceCall -> Reply

  /** A completed operation: the call issued and the reply it got. */
  datatype Sent = Sent(call: ServiceCall, reply: Reply)

  /** Issue a call; an HTTP error is raised unless it is a 404 the operation swallows. */
  function Send(call: ServiceCall, service: Service, swallowNotFound: bool): (r: Result<Sent, TableError>)
    ensures r.Ok? ==> r.value == Sent(call, service(call))
    ensures r.Ok? <==> service(call).Succeeded? || (swallowNotFound && service(call).status == 404)
    ensures r.Err? ==> r.error == ServiceError(service(call).status)
  {
    var reply := service(call);
    if reply.Succeeded? || (swallowNotFound && reply.status == 404) then Ok(Sent(call, reply))
    else Err(ServiceError(reply.status))
  }

  /** The replies a delete accepts: success, or "not found". */
  predicate DeleteTolerates(reply: Reply) {
    reply.Succeeded? || reply.status == 404
  }

  /** Lines 262-271: the table is deleted; a missing table (404) is not an error. */
  function DeleteTable(client: Client, service: Service): (r: Result<Sent, TableError>)
    ensures r.Ok? ==> r.value.call == DeleteTableCall(client.tableName)
    ensures r.Ok? <==> DeleteTolerates(service(DeleteTableCall(client.tableName)))
    ensures r.Err? ==> r.error.ServiceError? && r.error.status != 404
  {
    Send(DeleteTableCall(client.tableName), service, true)
  }

  /** The keyword names under which `delete_entity` passes the keys on. */
  const PartitionKeyKeyword := "partition_key"
  const RowKeyKeyword := "row_key"

  /** Whether keys read from an entity clash with a `partition_key` or `row_key` keyword:
      only the fallback branch pops those keywords, so with an entity they are still in
      `**kwargs` when the service client is called with its own `partition_key=` and
      `row_key=` (lines 334-340). */
  predicate KeywordClash(args: DeleteArgs, keys: EntityKeys) {
    keys.source.Some? && (args.partitionKey.Some? || args.rowKey.Some?)
  }

  /** Lines 307-344 (`delete_entity`): resolve the keys, then the conditional etag, then
      delete; a missing entity (404) is not an error. A key keyword left over next to an
      entity is passed twice, which Python refuses with a `TypeError` before any request. */
  function DeleteEntity(client: Client, args: DeleteArgs, service: Service): (r: Result<Sent, TableError>)
    ensures ResolveDeleteKeys(args).Err? ==> r == Err(ResolveDeleteKeys(args).error)
    ensures ResolveDeleteKeys(args).Ok? && KeywordClash(args, ResolveDeleteKeys(args).value) ==>
      && r.Err? && r.error.TypeError?
      && ((r.error.keyword == PartitionKeyKeyword && args.partitionKey.Some?)
          || (r.error.keyword == RowKeyKeyword && args.rowKey.Some?))
    ensures ResolveDeleteKeys(args).Ok? && !KeywordClash(args, ResolveDeleteKeys(args).value) ==>
      var keys := ResolveDeleteKeys(args).value;
      var call := DeleteEntityCall(client.tableName, keys.partitionKey, keys.rowKey,
                                   ConditionalEtag(args.matchCondition, keys.source, args.etag));
      && (r.Ok? <==> DeleteTolerates(service(call)))
      && (r.Ok? ==> r.value == Sent(call, service(call)))
      && (r.Err? ==> r.error == ServiceError(service(call).status))
    ensures r.Err? && r.error.ServiceError? ==> r.error.status != 404
  {
    var keys :- ResolveDeleteKeys(args);
    var ifMatch := ConditionalEtag(args.matchCondition, keys.source, args.etag);
    if keys.source.Some? && args.partitionKey.Some? then Err(TypeError(PartitionKeyKeyword))
    else if keys.source.Some? && args.rowKey.Some? then Err(TypeError(RowKeyKeyword))
    else Send(DeleteEntityCall(client.tableName, keys.partitionKey, keys.rowKey, ifMatch), service, true)
  }

  /** `delete_entity(entity=e, partition_key=...)`: the entity's keys are used, the keyword
      stays in `**kwargs` and reaches the service client a second time. */
  lemma EntityWithKeyKeywordIsTypeError(client: Client, e: Entity, pk: string, service: Service)
    requires PartitionKey in e.properties && RowKey in e.properties
    ensures DeleteEntity(client, DeleteArgs(Some(e), Some(pk), None, [], None, None), service)
         == Err(TypeError(PartitionKeyKeyword))
  {
  }

  /** Deleting twice is harmless: whatever a first delete did, a second one against a
      service that no longer has the row (404) succeeds. */
  lemma DeleteAfterDeleteSucceeds(client: Client, args: DeleteArgs, service: Service)
    requires ResolveDeleteKeys(args).Ok? && !KeywordClash(args, ResolveDeleteKeys(args).value)
    requires forall c: ServiceCall :: c.DeleteEntityCall? ==> service(c) == HttpError(404)
    ensures DeleteEntity(client, args, service).Ok?
  {
  }

  /** `azure.data.tables.UpdateMode`; any other value is refused. */
  datatype UpdateMode = Replace | Merge | OtherMode(name: string)

  /** The calls that write an entity. */
  predicate IsWrite(call: ServiceCall) {
    call.ReplaceEntityCall? || call.MergeEntityCall?
  }

  /** Both `update_entity` and `upsert_entity` default to merging. */
  const DefaultUpdateMode: UpdateMode := Merge

  /** The two operations that write an entity; each words its refusal of a mode its own way. */
  datatype WriteOp = UpdateOp | UpsertOp

  /** The `ValueError` message for an unsupported mode: lines 444-445 for `update_entity`,
      lines 610-612 for `upsert_entity`. */
  function UnsupportedMode(op: WriteOp, name: string): string {
    match op
    case UpdateOp => "Mode type '" + name + "' is not supported."
    case UpsertOp => "Update mode " + name + " is not supported. For a list of supported modes see the UpdateMode enum."
  }

  /** The write shared by `update_entity` and `upsert_entity`: the keys are read from the
      entity (a missing one is a `KeyError`), then the mode picks replace or merge, and
      any other mode is a `ValueError`. */
  function WriteCall(op: WriteOp, table: string, entity: Entity, mode: UpdateMode, ifMatch: Option<IfMatchInput>)
    : (r: Result<ServiceCall, TableError>)
    ensures r.Ok? <==> PartitionKey in entity.properties && RowKey in entity.properties && !mode.OtherMode?
    ensures r.Err? && (PartitionKey !in entity.properties || RowKey !in entity.properties) ==>
      r.error == KeyError(if PartitionKey !in entity.properties then PartitionKey else RowKey)
    ensures r.Err? && PartitionKey in entity.properties && RowKey in entity.properties ==>
      r.error == ValueError(UnsupportedMode(op, mode.name))
    ensures r.Ok? ==> (r.value.ReplaceEntityCall? <==> mode == Replace)
    ensures r.Ok? ==> (r.value.MergeEntityCall? <==> mode == Merge)
    ensures r.Ok? ==> IsWrite(r.value)
    ensures r.Ok? ==>
      && r.value.table == table && r.value.entity == entity && r.value.ifMatch == ifMatch
      && r.value.partitionKey == StrArg(entity.properties[PartitionKey])
      && r.value.rowKey == StrArg(entity.properties[RowKey])
  {
    if PartitionKey !in entity.properties then Err(KeyError(PartitionKey))
    else if RowKey !in entity.properties then Err(KeyError(RowKey))
    else
      var pk := StrArg(entity.properties[PartitionKey]);
      var rk := StrArg(entity.properties[RowKey]);
      match mode
      case Replace => Ok(ReplaceEntityCall(table, pk, rk, entity, ifMatch))
      case Merge => Ok(MergeEntityCall(table, pk, rk, entity, ifMatch))
      case OtherMode(name) => Err(ValueError(UnsupportedMode(op, name)))
  }

  /** Lines 407-448 (`update_entity`): the conditional write of the entity, whose outcome
      is the service's reply to it; a refused entity or mode never reaches the service. */
  function UpdateEntity(client: Client, entity: Entity, mode: UpdateMode, matchCondition: Option<MatchCondition>,
                        etag: Option<string>, service: Service): (r: Result<Sent, TableError>)
    ensures var w := WriteCall(UpdateOp, client.tableName, entity, mode, Some(ConditionalEtag(matchCondition, Some(entity), etag)));
      && (w.Err? ==> r == Err(w.error))
      && (w.Ok? ==> (r.Ok? <==> service(w.value).Succeeded?))
      && (w.Ok? && r.Ok? ==> r.value == Sent(w.value, service(w.value)))
      && (w.Ok? && r.Err? ==> r.error == ServiceError(service(w.value).status))
    ensures r.Ok? ==> IsWrite(r.value.call) && r.value.call.ifMatch == Some(ConditionalEtag(matchCondition, Some(entity), etag))
  {
    var call :- WriteCall(UpdateOp, client.tableName, entity, mode, Some(ConditionalEtag(matchCondition, Some(entity), etag)));
    Send(call, service, false)
  }

  /** Lines 585-615 (`upsert_entity`): the same write with no condition attached, whose
      outcome is the service's reply to it. */
  function UpsertEntity(client: Client, entity: Entity, mode: UpdateMode, service: Service)
    : (r: Result<Sent, TableError>)
    ensures var w := WriteCall(UpsertOp, client.tableName, entity, mode, None);
      && (w.Err? ==> r == Err(w.error))
      && (w.Ok? ==> (r.Ok? <==> service(w.value).Succeeded?))
      && (w.Ok? && r.Ok? ==> r.value == Sent(w.value, service(w.value)))
      && (w.Ok? && r.Err? ==> r.error == ServiceError(service(w.value).status))
    ensures r.Ok? ==> IsWrite(r.value.call) && r.value.call.ifMatch.None?
  {
    var call :- WriteCall(UpsertOp, client.tableName, entity, mode, None);
    Send(call, service, false)
  }

  /** Called without `mode` (lines 382 and 565), both operations merge the entity into
      its row: for an entity with both keys the write sent is `merge_entity`. */
  lemma DefaultModeMerges(client: Client, entity: Entity, matchCondition: Option<MatchCondition>,
                          etag: Option<string>, service: Service)
    requires PartitionKey in entity.properties && RowKey in entity.properties
    ensures var pk := StrArg(entity.properties[PartitionKey]);
      var rk := StrArg(entity.properties[RowKey]);
      var cond := Some(ConditionalEtag(matchCondition, Some(entity), etag));
      && WriteCall(UpdateOp, client.tableName, entity, DefaultUpdateMode, cond)
         == Ok(MergeEntityCall(client.tableName, pk, rk, entity, cond))
      && WriteCall(UpsertOp, client.tableName, entity, DefaultUpdateMode, None)
         == Ok(MergeEntityCall(client.tableName, pk, rk, entity, None))
    ensures UpdateEntity(client, entity, DefaultUpdateMode, matchCondition, etag, service).Ok? ==>
      UpdateEntity(client, entity, DefaultUpdateMode, matchCondition, etag, service).value.call.MergeEntityCall?
    ensures UpsertEntity(client, entity, DefaultUpdateMode, service).Ok? ==>
      UpsertEntity(client, entity, DefaultUpdateMode, service).value.call.MergeEntityCall?
  {
  }

  /** The call a write issues with its condition removed. */
  function Unconditional(call: ServiceCall): ServiceCall {
    if IsWrite(call) then call.(ifMatch := None) else call
  }

  /** An upsert is an update stripped of its condition. Both refuse the same entities
      (with the same `KeyError`) and the same modes (each with its own message) before
      any request; otherwise the upsert issues the update's write without its condition,
      and against a service that ignores conditions the two get the same reply. */
  lemma UpsertIsUnconditionalUpdate(client: Client, entity: Entity, mode: UpdateMode,
                                    matchCondition: Option<MatchCondition>, etag: Option<string>, service: Service)
    requires forall c: ServiceCall :: service(c) == service(Unconditional(c))
    ensures var up := UpsertEntity(client, entity, mode, service);
      var upd := UpdateEntity(client, entity, mode, matchCondition, etag, service);
      && (up.Ok? <==> upd.Ok?)
      && (up.Ok? ==> up.value.call == Unconditional(upd.value.call) && up.value.reply == upd.value.reply)
      && (up.Err? && up.error.KeyError? <==> upd.Err? && upd.error.KeyError?)
      && (up.Err? && up.error.KeyError? ==> up.error == upd.error)
      && (up.Err? && up.error.ValueError? <==> upd.Err? && upd.error.ValueError?)
      && (up.Err? && up.error.ServiceError? ==> upd == Err(up.error))
  {
    var cond := Some(ConditionalEtag(matchCondition, Some(entity), etag));
    var wUp := WriteCall(UpsertOp, client.tableName, entity, mode, None);
    var wUpd := WriteCall(UpdateOp, client.tableName, entity, mode, cond);
    if wUp.Ok? {
      assert wUp.value == Unconditional(wUpd.value);
      assert service(wUp.value) == service(wUpd.value);
    }
  }

  // ---------------------------------------------------------------------------
  // Entity listings

  /** The `select` keyword: absent, a string, or a list of property names. */
  datatype SelectArg = NoSelect | SelectText(s: string) | SelectNames(names: seq<string>)

  /** Lines 470-472 (and 512-514): a non-empty list of names is joined with ","; a
      string, an empty list or no selection is passed on unchanged. */
  function JoinSelect(select: SelectArg): (r: SelectArg)
    ensures !(r.SelectNames? && |r.names| > 0)
    ensures !(select.SelectNames? && |select.names| > 0) ==> r == select
    ensures select.SelectNames? && |select.names| > 0 ==> r.SelectText?
  {
    match select
    case SelectNames(names) => if |names| > 0 then SelectText(Text.Join(names, ',')) else select
    case _ => select
  }

  /** The joined selection names the same properties in the same order, provided no
      property name contains a comma. */
  lemma {:induction false} JoinSelectRoundTrip(names: seq<string>)
    requires |names| > 0
    requires forall i :: 0 <= i < |names| ==> ',' !in names[i]
    ensures JoinSelect(SelectNames(names)) == SelectText(Text.Join(names, ','))
    ensures Text.Split(JoinSelect(SelectNames(names)).s, ',') == names
  {
    Text.SplitJoin(names, ',');
  }
}
