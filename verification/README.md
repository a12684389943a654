# Azure SDK for Python: generated operations and the Tables client, in Dafny

This project models the decision logic that recurs across the generated management-plane
operation classes of the Azure SDK for Python, plus the argument handling of the
`azure-data-tables` `TableClient`. Network I/O and the `azure.core` machinery are left
abstract.

The generated operation classes covered are:
- proximity placement groups;
- availability sets;
- activity log alerts;
- scale-set VM extensions;
- agent pools;
- data factories;
- cloud-service update domains;
- managed private endpoints.

The modules follow the shape of a generated operation:

- `Requests` and `Builders`: the `build_*_request` functions and the request half of each operation.
  - api-version precedence: keyword, then the `api-version` query entry (always popped), then the literal or configured default.
  - Conditional `Content-Type`, `If-Match`, `If-None-Match` and `includeColocationStatus`.
  - The `Accept` default and the `content_type or "application/json"` fallback.
  - The body choice between raw bytes/stream, serialised model and no body.
- `ErrorMaps` and `Responses`: the response half.
  - The default error maps, merged with the caller's `error_map`. The older generator's form raises `TypeError` on `error_map=None`.
  - The accepted status set of each operation.
  - `map_error`'s typed errors versus the generic `HttpResponseError`, which carries the failsafe error model only for activity log alerts.
  - The status-dependent result: a model, `None`, or a model plus the `Azure-AsyncOperation` header.
- `Paging`: `prepare_request` and `extract_data` of the list operations, and an abstract `ItemPaged` driver.
  - `prepare_request` either rebuilds the first request or GETs the cursor with the client's api-version; older generators instead reuse the builder with the cursor as template.
  - `extract_data` applies `next_link or None`, or ends after one page.
  - The driver is proved to collect exactly the service's chain of pages, to stop exactly at a `None` cursor, and to yield the in-order concatenation of the pages' items.
- `LongRunning`: the set-up of every `begin_*` operation.
  - The initial call is skipped when a continuation token is given.
  - The polling method is chosen as `True` → ARM polling, `False` → no polling, or the caller's object.
  - The polling interval defaults to the client's configured interval.
  - The `error_map` is popped before polling sees the keyword arguments.
- `TableClient`: the `TableClient` constructor and `from_table_url`, then `delete_table`, `delete_entity`, `update_entity`, `upsert_entity` and the `select` joining of the listings.
  - `from_table_url` prepends the scheme, strips slashes, splits the path into account path and table name, and unwraps `Tables('…')`.
  - `delete_entity` resolves keys from an entity, from keywords or from positional arguments.
  - The entity operations take the etag from entity metadata, dispatch on the update mode, and swallow a 404 on delete.
- `Text`, `CaseInsensitive`, `Http` and `Wrappers` hold the shared vocabulary:
  - the Python string operations used;
  - `case_insensitive_dict`;
  - requests and responses;
  - `Option` and `Result`.

Every operation is a pure function. The service, `urlparse`, `unquote`, `parse_qs` and the initial call of a long-running operation are function parameters.

## Model

| member | source | states |
|---|---|---|
| Text.Split | sdk/tables/azure-data-tables/azure/data/tables/_table_client.py:146 | `str.split` on one separator yields at least one part, no part contains the separator, and joining the parts gives back the string |
| Text.SplitJoin | sdk/tables/azure-data-tables/azure/data/tables/_table_client.py:146-149 | splitting a join of separator-free parts returns exactly those parts (split and join are inverse) |
| Text.RStrip | sdk/tables/azure-data-tables/azure/data/tables/_table_client.py:141 | `rstrip("/")` returns a prefix that does not end in "/", and everything removed was "/" |
| Text.LStrip | sdk/tables/azure-data-tables/azure/data/tables/_table_client.py:146 | `lstrip("/")` returns a suffix that does not start with "/", and everything removed was "/" |
| Text.Lower | sdk/tables/azure-data-tables/azure/data/tables/_table_client.py:137 | `lower()` keeps the length and lowers each ASCII letter in place |
| Text.IndexOfAfterPrefix | sdk/tables/azure-data-tables/azure/data/tables/_table_client.py:146 | the first separator in `a + sep + b` is the one right after a separator-free `a` |
| CaseInsensitive.Set | sdk/compute/azure-mgmt-compute/azure/mgmt/compute/v2019_07_01/operations/_proximity_placement_groups_operations.py:65-70 | after `d[k] = v` a lookup under any spelling of `k` gives `v`, and keys of other spellings are untouched |
| CaseInsensitive.Pop | sdk/compute/azure-mgmt-compute/azure/mgmt/compute/v2019_07_01/operations/_proximity_placement_groups_operations.py:45-47 | `d.pop(k, default)` returns the stored value or the default, removes `k` under every spelling and keeps every other key |
| ErrorMaps.MergeErrorMap | sdk/compute/azure-mgmt-compute/azure/mgmt/compute/v2019_07_01/operations/_proximity_placement_groups_operations.py:334-340 | the merged map has the union of the keys; a caller entry wins for its status and every other default survives |
| ErrorMaps.CallerErrors | sdk/containerservice/azure-mgmt-containerservice/azure/mgmt/containerservice/v2022_01_01/aio/operations/_agent_pools_operations.py:74-77 | `error_map=None` is a `TypeError` exactly when the merge lacks `or {}`; otherwise the result is the defaults, or the defaults merged with the caller's map |
| ErrorMaps.CheckStatus | sdk/compute/azure-mgmt-compute/azure/mgmt/compute/v2019_07_01/operations/_proximity_placement_groups_operations.py:378-380 | success exactly for an accepted status; otherwise a typed error exactly when the status is in the map (of the mapped kind), else a generic error carrying the given error model |
| ErrorMaps.CallerMapKeepsAcceptance | sdk/compute/azure-mgmt-compute/azure/mgmt/compute/v2019_07_01/operations/_proximity_placement_groups_operations.py:378-380 | a caller's error map changes which error is raised, never whether a response is accepted |
| ErrorMaps.CallerEntryWins | sdk/compute/azure-mgmt-compute/azure/mgmt/compute/v2019_07_01/operations/_proximity_placement_groups_operations.py:334-340 | for an unaccepted status the caller maps, the caller's error kind is raised; an empty caller map leaves the defaults |
| ErrorMaps.NotModifiedOnlyWith304Defaults | sdk/datafactory/azure-mgmt-datafactory/azure/mgmt/datafactory/operations/_managed_private_endpoints_operations.py:324-325 | an unaccepted 304 is `ResourceNotModifiedError` under the defaults with 304, and a generic error under the 401/404/409 defaults |
| Requests.ResolveApiVersion | sdk/monitor/azure-mgmt-monitor/azure/mgmt/monitor/v2017_04_01/operations/_activity_log_alerts_operations.py:45 | the keyword wins, then the query entry, then the default; the `api-version` entry is removed in every case and the other query entries are kept |
| Requests.ResolveContentType | sdk/compute/azure-mgmt-compute/azure/mgmt/compute/v2019_07_01/operations/_proximity_placement_groups_operations.py:46 | the `content_type` keyword wins (even when `None`), else the caller's `Content-Type` header; that header is removed and the others are kept |
| Requests.SetIfPresent | sdk/datafactory/azure-mgmt-datafactory/azure/mgmt/datafactory/operations/_managed_private_endpoints_operations.py:145-146 | a header is written only when its argument is not `None`, and nothing else changes |
| Requests.PopManaged | sdk/compute/azure-mgmt-compute/azure/mgmt/compute/v2019_07_01/operations/_proximity_placement_groups_operations.py:46-47 | the content type and `Accept` value (caller's, else "application/json") a builder will write, with every unmanaged header kept |
| Requests.SetManaged | sdk/datafactory/azure-mgmt-datafactory/azure/mgmt/datafactory/operations/_managed_private_endpoints_operations.py:144-149 | `Accept` is always set; `Content-Type`, `If-Match` and `If-None-Match` are set exactly when given, else left as they were; other headers unchanged |
| Requests.BuildHeaders | sdk/datafactory/azure-mgmt-datafactory/azure/mgmt/datafactory/operations/_managed_private_endpoints_operations.py:99-149 | the headers of a header-managing builder, stated per header in terms of the caller's arguments and headers |
| Requests.Build | sdk/compute/azure-mgmt-compute/azure/mgmt/compute/v2019_07_01/operations/_proximity_placement_groups_operations.py:138-177 | verb, URL (template keyword or default), body, api-version precedence, `includeColocationStatus` only when not `None`, other query entries kept, and headers managed or passed through |
| Requests.SelectBody | sdk/compute/azure-mgmt-compute/azure/mgmt/compute/v2019_07_01/operations/_proximity_placement_groups_operations.py:349-355 | raw content exactly for IO/bytes, a serialised model of the operation's type otherwise |
| Requests.SelectOptionalBody | sdk/compute/azure-mgmt-compute/azure/mgmt/compute/v2021_03_01/operations/_cloud_services_update_domain_operations.py:181-190 | no body exactly when the parameter is `None`, otherwise the same choice as a required body |
| Requests.ContentTypeOrJson | sdk/compute/azure-mgmt-compute/azure/mgmt/compute/v2019_07_01/operations/_proximity_placement_groups_operations.py:349 | the content type is never empty, and a non-empty caller value is kept |
| Requests.PrepareWrite | sdk/compute/azure-mgmt-compute/azure/mgmt/compute/v2019_07_01/operations/_proximity_placement_groups_operations.py:342-368 | a write request always carries `Content-Type` (caller's, else JSON), the resolved api-version, `Accept`, `If-Match` when given (else the caller's) and the caller's `If-None-Match`; every other caller header and query entry, `includeColocationStatus` included, goes out unchanged |
| Requests.PrepareRead | sdk/compute/azure-mgmt-compute/azure/mgmt/compute/v2019_07_01/operations/_proximity_placement_groups_operations.py:619-634 | a read request has no body and the resolved api-version; `includeColocationStatus` is the argument when given, else the caller's entry; every other query entry is kept; a header-managing builder sets `Accept` and `If-None-Match` when given and keeps every other caller header, `Content-Type` and `If-Match` included, and any other builder sends the caller's headers unchanged |
| Builders.ActivityLogAlertBuilders | sdk/monitor/azure-mgmt-monitor/azure/mgmt/monitor/v2017_04_01/operations/_activity_log_alerts_operations.py:39-174 | create, get, delete and update use PUT, GET, DELETE and PATCH, and each sends keyword → query entry → "2017-04-01" as api-version |
| Builders.ProximityPlacementGroupGetQuery | sdk/compute/azure-mgmt-compute/azure/mgmt/compute/v2019_07_01/operations/_proximity_placement_groups_operations.py:167-172 | `includeColocationStatus` is in the query exactly when the argument is not `None`; api-version is always there |
| Builders.ProximityPlacementGroupDeleteHeaders | sdk/compute/azure-mgmt-compute/azure/mgmt/compute/v2019_07_01/operations/_proximity_placement_groups_operations.py:111-135 | the delete builder passes no headers of its own: the caller's headers go out unchanged |
| Builders.AvailabilitySetCreateHeaders | sdk/compute/azure-mgmt-compute/azure/mgmt/compute/v2015_06_15/operations/_availability_sets_operations.py:39-70 | `Content-Type` is sent exactly when the content type is not `None`, and `Accept` always, defaulting to JSON |
| Builders.ManagedPrivateEndpointConditionalHeaders | sdk/datafactory/azure-mgmt-datafactory/azure/mgmt/datafactory/operations/_managed_private_endpoints_operations.py:145-213 | `If-Match` on create and `If-None-Match` on get are sent exactly when given, with the given value |
| Builders.OperationApiVersion | sdk/datafactory/azure-mgmt-datafactory/azure/mgmt/datafactory/operations/_managed_private_endpoints_operations.py:321 | the keyword wins; without it a factories operation sends its literal and a managed private endpoint operation sends the query entry, else the client's configured version |
| Builders.FactoriesIgnoreQueryAndClient | sdk/datafactory/azure-mgmt-datafactory/azure/mgmt/datafactory/aio/operations/_factories_operations.py:61 | a factories operation sends "2018-06-01" unless given the keyword, whatever the query parameters or the client's configured version |
| Builders.ManagedPrivateEndpointsUseClientApiVersion | sdk/datafactory/azure-mgmt-datafactory/azure/mgmt/datafactory/operations/_managed_private_endpoints_operations.py:321-498 | without keyword or query entry, the list, create, get and delete requests carry the client's configured api-version, never the builders' literal |
| Responses.Handle | sdk/compute/azure-mgmt-compute/azure/mgmt/compute/v2019_07_01/operations/_proximity_placement_groups_operations.py:376-391 | total over every status: success exactly for accepted statuses; the error kind comes from the merged map; the error model is attached only where the operation does so; the result is the model, `None` or model plus header, by shape and status |
| Responses.ProximityPlacementGroupStatuses | sdk/compute/azure-mgmt-compute/azure/mgmt/compute/v2019_07_01/operations/_proximity_placement_groups_operations.py:378-644 | create or update accepts exactly 200/201; update, delete and get accept exactly 200 |
| Responses.AvailabilitySetStatuses | sdk/compute/azure-mgmt-compute/azure/mgmt/compute/v2015_06_15/operations/_availability_sets_operations.py:332-392 | create or update accepts exactly 200; delete exactly 200/204 |
| Responses.ActivityLogAlertStatuses | sdk/monitor/azure-mgmt-monitor/azure/mgmt/monitor/v2017_04_01/operations/_activity_log_alerts_operations.py:377-646 | create 200/201, get 200, delete 200/204, update 200, exactly |
| Responses.ScaleSetExtensionStatuses | sdk/compute/azure-mgmt-compute/azure/mgmt/compute/v2019_12_01/aio/operations/_virtual_machine_scale_set_vm_extensions_operations.py:116-589 | the initial calls accept create 200/201, update 200, delete 200/202/204, exactly |
| Responses.AgentPoolStatuses | sdk/containerservice/azure-mgmt-containerservice/azure/mgmt/containerservice/v2022_01_01/aio/operations/_agent_pools_operations.py:237-606 | the initial calls accept create 200/201, delete 202/204, node-image upgrade 200/202, exactly |
| Responses.FactoryStatuses | sdk/datafactory/azure-mgmt-datafactory/azure/mgmt/datafactory/aio/operations/_factories_operations.py:314-503 | create or update and update 200, get 200/304, delete 200/204, exactly |
| Responses.UpdateDomainStatuses | sdk/compute/azure-mgmt-compute/azure/mgmt/compute/v2021_03_01/operations/_cloud_services_update_domain_operations.py:214-437 | the walk initial call accepts exactly 200/202, get exactly 200 |
| Responses.ManagedPrivateEndpointStatuses | sdk/datafactory/azure-mgmt-datafactory/azure/mgmt/datafactory/operations/_managed_private_endpoints_operations.py:534-672 | create or update and get accept exactly 200, delete exactly 200/204 |
| Responses.AvailabilitySetDeleteResult | sdk/compute/azure-mgmt-compute/azure/mgmt/compute/v2015_06_15/operations/_availability_sets_operations.py:392-403 | delete returns the operation status on 200 and `None` on 204 |
| Responses.FactoryGetResult | sdk/datafactory/azure-mgmt-datafactory/azure/mgmt/datafactory/aio/operations/_factories_operations.py:443-454 | get returns the factory on 200 and `None` on 304 (not modified) |
| Responses.AgentPoolUpgradeResult | sdk/containerservice/azure-mgmt-containerservice/azure/mgmt/containerservice/v2022_01_01/aio/operations/_agent_pools_operations.py:606-620 | the upgrade initial call returns `None` on 200; on 202 the agent pool and the `Azure-AsyncOperation` header |
| Responses.ErrorModelOnlyOnAlerts | sdk/monitor/azure-mgmt-monitor/azure/mgmt/monitor/v2017_04_01/operations/_activity_log_alerts_operations.py:377-380 | an unmapped failure carries the failsafe error model for activity log alerts, and none for proximity placement groups |
| Responses.NotModifiedMapping | sdk/compute/azure-mgmt-compute/azure/mgmt/compute/v2019_07_01/operations/_proximity_placement_groups_operations.py:611-617 | an unaccepted 304 raises `ResourceNotModifiedError` for proximity placement groups but a generic error for managed private endpoints |
| Responses.CallerErrorMapEffects | sdk/containerservice/azure-mgmt-containerservice/azure/mgmt/containerservice/v2022_01_01/aio/operations/_agent_pools_operations.py:342-345 | a caller entry overrides the default error; `error_map=None` is ignored by the newer generator and a `TypeError` in the agent pools |
| Paging.QueryOf | sdk/datafactory/azure-mgmt-datafactory/azure/mgmt/datafactory/operations/_managed_private_endpoints_operations.py:345-346 | every query parameter of the next link is kept, under every spelling, with its list of values |
| Paging.PrepareRequest | sdk/compute/azure-mgmt-compute/azure/mgmt/compute/v2019_07_01/operations/_proximity_placement_groups_operations.py:682-704 | a falsy cursor gives the first request; otherwise a GET with no body to the cursor's origin and path, carrying its query with api-version replaced by the client's (or the builder with the cursor as template) |
| Paging.NormaliseCursor | sdk/compute/azure-mgmt-compute/azure/mgmt/compute/v2019_07_01/operations/_proximity_placement_groups_operations.py:711 | `next_link or None` is `None` exactly for a missing or empty link, and the link itself otherwise |
| Paging.ExtractData | sdk/compute/azure-mgmt-compute/azure/mgmt/compute/v2019_07_01/operations/_proximity_placement_groups_operations.py:706-711 | a page keeps the items; its cursor is the normalised link, or `None` for single-page operations, and is never "" |
| Paging.Crawl | sdk/compute/azure-mgmt-compute/azure/mgmt/compute/v2019_07_01/operations/_proximity_placement_groups_operations.py:713-727 | a completed crawl is the service's chain of pages from the cursor, within the fuel bound, and every page but the last has a cursor |
| Paging.CrawlFailure | sdk/compute/azure-mgmt-compute/azure/mgmt/compute/v2019_07_01/operations/_proximity_placement_groups_operations.py:713-727 | a crawl that fails has collected a path of pages, and the request from the cursor after the last of them failed with the reported error |
| Paging.CrawlOutOfFuel | sdk/compute/azure-mgmt-compute/azure/mgmt/compute/v2019_07_01/operations/_proximity_placement_groups_operations.py:713-727 | a crawl that runs out of fuel has collected a path of exactly `fuel` pages, each with a cursor to the next |
| Paging.CrawlFailsAt | sdk/compute/azure-mgmt-compute/azure/mgmt/compute/v2019_07_01/operations/_proximity_placement_groups_operations.py:713-727 | after a path of pages, a failing request makes the crawl fail with exactly those pages and that error (the converse of `CrawlFailure`) |
| Paging.GetNext | sdk/compute/azure-mgmt-compute/azure/mgmt/compute/v2019_07_01/operations/_proximity_placement_groups_operations.py:713-725 | `get_next` succeeds exactly on status 200, with the deserialised page; any other status raises the mapped error when the status is in the error map, else the generic error with the error model |
| Paging.NonOkPageRaises | sdk/compute/azure-mgmt-compute/azure/mgmt/compute/v2019_07_01/operations/_proximity_placement_groups_operations.py:713-727 | when the service answers a page request with a status other than 200, iteration raises that page's error after yielding exactly the pages before it |
| Paging.CrawlComplete | sdk/compute/azure-mgmt-compute/azure/mgmt/compute/v2019_07_01/operations/_proximity_placement_groups_operations.py:713-727 | given enough fuel, the driver returns exactly the service's chain: it stops at the first `None` cursor and not before |
| Paging.SinglePageCrawl | sdk/compute/azure-mgmt-compute/azure/mgmt/compute/v2015_06_15/operations/_availability_sets_operations.py:596-601 | a single-page operation makes one request: one page without cursor, or that request's failure |
| Paging.EmptyNextLinkEndsIteration | sdk/compute/azure-mgmt-compute/azure/mgmt/compute/v2019_07_01/operations/_proximity_placement_groups_operations.py:711 | a service that answers `next_link: ""` yields exactly one page |
| Paging.RawEmptyNextLinkNeverEnds | sdk/compute/azure-mgmt-compute/azure/mgmt/compute/v2019_07_01/operations/_proximity_placement_groups_operations.py:682-711 | without the `or None`, the same service would be asked for pages until any bound runs out |
| Paging.CollectItems | sdk/compute/azure-mgmt-compute/azure/mgmt/compute/v2019_07_01/operations/_proximity_placement_groups_operations.py:713-727 | the paging loop agrees with the driver and yields the in-order concatenation of the pages' items |
| Paging.NextPageUsesClientApiVersion | sdk/compute/azure-mgmt-compute/azure/mgmt/compute/v2019_07_01/operations/_proximity_placement_groups_operations.py:695-704 | a next-page request sends the client's api-version whatever the link carried; `None` and "" both rebuild the first request |
| LongRunning.SelectPolling | sdk/compute/azure-mgmt-compute/azure/mgmt/compute/v2019_12_01/aio/operations/_virtual_machine_scale_set_vm_extensions_operations.py:291-296 | `True` → ARM polling (with the delay and every keyword but `error_map`), `False` → no polling, anything else → the caller's object |
| LongRunning.BeginAsWritten | sdk/compute/azure-mgmt-compute/azure/mgmt/compute/v2019_12_01/aio/operations/_virtual_machine_scale_set_vm_extensions_operations.py:266-304 | the generated set-up; with `continuation_token=""` it ends in an unbound `raw_result` |
| LongRunning.Begin | sdk/compute/azure-mgmt-compute/azure/mgmt/compute/v2019_12_01/aio/operations/_virtual_machine_scale_set_vm_extensions_operations.py:266-304 | a truthy token rebuilds the poller from the token; otherwise the initial call's error is raised or a poller starts on its response; no unbound result |
| LongRunning.TokenSkipsInitialCall | sdk/compute/azure-mgmt-compute/azure/mgmt/compute/v2019_12_01/aio/operations/_virtual_machine_scale_set_vm_extensions_operations.py:268-270 | with a token the result does not depend on the initial call at all |
| LongRunning.DefaultPolling | sdk/compute/azure-mgmt-compute/azure/mgmt/compute/v2019_12_01/aio/operations/_virtual_machine_scale_set_vm_extensions_operations.py:266-267 | without `polling` and `polling_interval`, ARM polling at the client's configured interval |
| LongRunning.AsWrittenAgreesExceptEmptyToken | sdk/compute/azure-mgmt-compute/azure/mgmt/compute/v2019_12_01/aio/operations/_virtual_machine_scale_set_vm_extensions_operations.py:297-304 | the generated and the corrected set-up agree on every token but "" |
| LongRunning.EmptyTokenCounterexample | sdk/compute/azure-mgmt-compute/azure/mgmt/compute/v2019_12_01/aio/operations/_virtual_machine_scale_set_vm_extensions_operations.py:268-304 | for `continuation_token=""` the generated code fails with an unbound result, and the corrected one starts a poller |
| TableClient.NewTableClient | sdk/tables/azure-data-tables/azure/data/tables/_table_client.py:79-81 | a missing or empty table name is a `ValueError`; otherwise the client keeps endpoint and name |
| TableClient.NormaliseTableUrl | sdk/tables/azure-data-tables/azure/data/tables/_table_client.py:137-141 | the result starts with "http" in any case; it is the URL, with "https://" prepended when it lacks an "http" prefix, minus only trailing "/" characters, and has no trailing "/" |
| TableClient.NormaliseIdempotent | sdk/tables/azure-data-tables/azure/data/tables/_table_client.py:137-141 | normalising a normalised URL changes nothing |
| TableClient.SplitTablePath | sdk/tables/azure-data-tables/azure/data/tables/_table_client.py:146-149 | the raw name has no "/", the account path is "" or starts with "/", and account path plus "/" plus name rebuild the stripped path |
| TableClient.StripODataWrapper | sdk/tables/azure-data-tables/azure/data/tables/_table_client.py:152-153 | a name starting with "tables('" in any case loses 8 leading and 2 trailing characters (empty when they overlap); other names are unchanged |
| TableClient.ODataWrapperRoundTrip | sdk/tables/azure-data-tables/azure/data/tables/_table_client.py:152-153 | `Tables('name')`, in any case of the prefix, unwraps to `name` |
| TableClient.FromTableUrl | sdk/tables/azure-data-tables/azure/data/tables/_table_client.py:136-156 | a URL without host is `ValueError("Invalid URL: " + URL)`, naming the URL after the scheme was added and before the slashes were stripped; a host with no table name is the "valid table name" `ValueError`; otherwise the endpoint is scheme, host, account path and query, and the name is the decoded, unwrapped last segment |
| TableClient.FromTableUrlRecoversTable | sdk/tables/azure-data-tables/azure/data/tables/_table_client.py:141-156 | a URL parsed into host, account segments and table name gives back exactly that account endpoint and table name |
| TableClient.SplitTablePathOfSegments | sdk/tables/azure-data-tables/azure/data/tables/_table_client.py:146-149 | splitting "/" + joined non-empty segments returns the account path and the table name they were built from |
| TableClient.ResolveDeleteKeys | sdk/tables/azure-data-tables/azure/data/tables/_table_client.py:307-319 | an entity mapping (by keyword, else first positional) resolves exactly when it holds both keys, to those keys with the entity as source; a missing key is a `KeyError` naming `PartitionKey` first; without a mapping each key comes from its keyword or else its positional argument, with `IndexError` exactly when one is missing |
| TableClient.DeleteOverloadsAgree | sdk/tables/azure-data-tables/azure/data/tables/_table_client.py:273-319 | an entity by keyword, an entity positionally, the two keys positionally and the two keys as keywords all delete the same row |
| TableClient.ConditionalEtag | sdk/tables/azure-data-tables/azure/data/tables/_table_client.py:321-331 | the condition defaults to `Unconditionally`; with a condition and no truthy etag, the etag comes from the entity's metadata; otherwise it is kept |
| TableClient.ExplicitEtagWins | sdk/tables/azure-data-tables/azure/data/tables/_table_client.py:407-417 | an explicit etag, or the absence of a condition, makes the entity's metadata irrelevant |
| TableClient.Send | sdk/tables/azure-data-tables/azure/data/tables/_table_client.py:333-344 | a call succeeds on success, or on 404 where that is swallowed; otherwise the service status is raised |
| TableClient.DeleteTable | sdk/tables/azure-data-tables/azure/data/tables/_table_client.py:262-271 | deleting the table succeeds exactly on success or 404; any raised error is another status |
| TableClient.DeleteEntity | sdk/tables/azure-data-tables/azure/data/tables/_table_client.py:307-344 | key errors come first; keys taken from an entity next to a `partition_key` or `row_key` keyword are a `TypeError` naming that keyword; otherwise the delete call carries the resolved keys and conditional etag, returns the service reply on success or 404, and raises the service status otherwise |
| TableClient.EntityWithKeyKeywordIsTypeError | sdk/tables/azure-data-tables/azure/data/tables/_table_client.py:307-340 | an entity with both keys passed with a `partition_key` keyword fails with a `TypeError` for that keyword and sends nothing |
| TableClient.DeleteAfterDeleteSucceeds | sdk/tables/azure-data-tables/azure/data/tables/_table_client.py:341-343 | against a service that no longer has the row, deleting succeeds |
| TableClient.WriteCall | sdk/tables/azure-data-tables/azure/data/tables/_table_client.py:418-445 | a write needs both keys (else a `KeyError` naming `PartitionKey` first) and a REPLACE or MERGE mode (else `ValueError` with the operation's own message: "Mode type '…' is not supported." for update, "Update mode … is not supported. For a list of supported modes see the UpdateMode enum." for upsert); REPLACE calls update and MERGE calls merge, on the entity's row with its properties |
| TableClient.UpdateEntity | sdk/tables/azure-data-tables/azure/data/tables/_table_client.py:407-448 | a key or mode error is raised and nothing is sent; otherwise the write of the entity's mode is sent with the conditional etag, and the service reply decides: the reply on success, else its status raised |
| TableClient.UpsertEntity | sdk/tables/azure-data-tables/azure/data/tables/_table_client.py:585-615 | a key or mode error is raised and nothing is sent; otherwise the write of the entity's mode is sent without condition, and the service reply decides: the reply on success, else its status raised |
| TableClient.UpsertIsUnconditionalUpdate | sdk/tables/azure-data-tables/azure/data/tables/_table_client.py:585-612 | against a service that ignores the condition, upsert and update of the same entity and mode raise the same key and mode errors, send the same write up to the condition, get the same reply, and succeed or fail together |
| TableClient.DefaultModeMerges | sdk/tables/azure-data-tables/azure/data/tables/_table_client.py:382-445 | without a `mode` argument (line 382, and line 565 for upsert), update and upsert of an entity with both keys send a `merge_entity` call on that entity's row (its partition and row keys) with the entity's properties, conditional for update and unconditional for upsert |
| TableClient.JoinSelect | sdk/tables/azure-data-tables/azure/data/tables/_table_client.py:470-472 | a non-empty list of names becomes one string; a string, empty list or no selection is passed on unchanged |
| TableClient.JoinSelectRoundTrip | sdk/tables/azure-data-tables/azure/data/tables/_table_client.py:470-472 | splitting the joined selection on "," gives back the names, for names without commas |

## Left out

- I/O, the HTTP pipeline, `_convert_request`, `format_url`, tracing, `async`/`await` and credentials are left out. They carry no decision logic. Responses come in as values, and services come in as functions.
- Path-argument serialisation (`_SERIALIZER.url` with its length and pattern checks) and `_format_url_section` are `azure.core` code, and client-side validation is off. A request's `url` is therefore the template, unsubstituted.
- Body serialisation and deserialisation are left out. A model is its type name plus the body it was read from, and `failsafe_deserialize` is a parameter.
- The `cls` callback of every operation is left out. The model returns what the operation returns without `cls`, plus the response headers it would hand to `cls`.
- `ItemPaged`, `LROPoller`, `ARMPolling` and `NoPolling` are `azure.core` classes. The pager is modelled by its documented contract: one request without a cursor, then one per cursor. The pollers appear only as the values the operation constructs.
- `urlparse`, `parse_qs`, `urljoin` and `unquote` are library code and are function parameters. `urljoin(next_link, path)` is modelled as origin plus path.
- The agent-pool and factory request builders live in synchronous files that are not part of this model. Their next-page request is modelled through the same builder model, with the cursor as template and the operation's api-version.
- `_get_match_headers`, `_prepare_key`, `_add_entity_properties`, `_process_table_error` and `_trim_service_metadata` are not part of this model:
  - the match-header inputs are passed on as a record;
  - keys go out as given;
  - entity properties are taken as the mapping;
  - every non-404 service error is raised with its status;
  - the response headers are returned untrimmed.
- `from_connection_string`, `TablesBaseClient` endpoint parsing, the access-policy operations, `create_table`, `create_entity`, `get_entity`, `submit_transaction`, filter-parameter substitution and `results_per_page` are not modelled. They are outside the client's argument-resolution core, or delegate to code that is not part of this model.
- `from_table_url` with a non-string URL raises `ValueError("Table URL must be a string.")`. That case is not modelled, because URLs are strings here.
- `UpdateMode` is compared by member. A plain string equal to a member's value also matches in Python; the model does not cover that.
- Text.Lower: lower-cases ASCII letters only. The two prefixes compared case-insensitively, "http" and "tables('", are ASCII.
- CaseInsensitive.Set: keys are stored lower-cased, so the original spelling of a key, which `case_insensitive_dict` preserves for iteration, is not modelled.
- Paging.Crawl: bounded by `fuel` page requests. A service whose chain never ends shows up as `OutOfFuel`, not as non-termination.
- The plain-dict headers that some operations hand on (`kwargs.pop("headers", {}) or {}`, as in the proximity-placement-group get, delete and list) are modelled as case-insensitive from the start. The header-managing builders wrap them in `case_insensitive_dict` before use. `build_delete_request` does not: it forwards the caller's headers unchanged through `**kwargs`, so a caller's duplicate spellings of one header reach `HttpRequest` as they were, which the model does not distinguish.
- TableClient.DeleteEntity: a `partition_key` or `row_key` keyword passed as `None` next to an entity also clashes in Python; the model reads `None` as absent. When both keywords clash, the model names `partition_key`, while Python names whichever keyword the caller wrote first.
- An unsupported update mode is represented by the text Python's f-string renders for it, and the error messages embed that text.

## Findings

| source | as written | input that shows it | evidently intended | confidence | as-written member | corrected member |
|---|---|---|---|---|---|---|
| sdk/compute/azure-mgmt-compute/azure/mgmt/compute/v2019_12_01/aio/operations/_virtual_machine_scale_set_vm_extensions_operations.py:269-304 | the initial call runs only when the token `is None`, but the poller is rebuilt from the token only when the token is truthy | `continuation_token=""`: the initial call is skipped, the token branch is not taken, and `raw_result` is unbound (`UnboundLocalError`) | a falsy token is treated as no token: the initial call runs and a poller starts on its response | not executed | LongRunning.BeginAsWritten | LongRunning.Begin |
