/** The concrete `build_*_request` functions of the modelled operation groups, each an
    instance of `Requests.Build`, and what the per-file properties of those builders are. */
module Builders {

  import opened Wrappers
  import opened Http
  import CI = CaseInsensitive
  import opened Requests

  // Proximity placement groups, api-version 2019-07-01.
  const PpgPath: string :=
    "/subscriptions/{subscriptionId}/resourceGroups/{resourceGroupName}/providers/Microsoft.Compute/proximityPlacementGroups/{proximityPlacementGroupName}"
  const PpgCreateOrUpdate: BuilderSpec := BuilderSpec(PUT, PpgPath, "2019-07-01", true, true)
  const PpgUpdate: BuilderSpec := BuilderSpec(PATCH, PpgPath, "2019-07-01", true, true)
  /** The only modelled builder that does not manage headers at all. */
  const PpgDelete: BuilderSpec := BuilderSpec(DELETE, PpgPath, "2019-07-01", false, false)
  const PpgGet: BuilderSpec := BuilderSpec(GET, PpgPath, "2019-07-01", true, false)
  const PpgListBySubscription: BuilderSpec :=
    BuilderSpec(GET, "/subscriptions/{subscriptionId}/providers/Microsoft.Compute/proximityPlacementGroups", "2019-07-01", true, false)

  // Availability sets, api-version 2015-06-15.
  const AvSetPath: string :=
    "/subscriptions/{subscriptionId}/resourceGroups/{resourceGroupName}/providers/Microsoft.Compute/availabilitySets/{availabilitySetName}"
  const AvSetCreateOrUpdate: BuilderSpec := BuilderSpec(PUT, AvSetPath, "2015-06-15", true, true)
  const AvSetDelete: BuilderSpec := BuilderSpec(DELETE, AvSetPath, "2015-06-15", true, false)
  const AvSetList: BuilderSpec :=
    BuilderSpec(GET, "/subscriptions/{subscriptionId}/resourceGroups/{resourceGroupName}/providers/Microsoft.Compute/availabilitySets", "2015-06-15", true, false)
  const AvSetListAvailableSizes: BuilderSpec := BuilderSpec(GET, AvSetPath + "/vmSizes", "2015-06-15", true, false)

  // Activity log alerts, api-version 2017-04-01.
  const AlertPath: string :=
    "/subscriptions/{subscriptionId}/resourceGroups/{resourceGroupName}/providers/microsoft.insights/activityLogAlerts/{activityLogAlertName}"
  const AlertCreateOrUpdate: BuilderSpec := BuilderSpec(PUT, AlertPath, "2017-04-01", true, true)
  const AlertGet: BuilderSpec := BuilderSpec(GET, AlertPath, "2017-04-01", true, false)
  const AlertDelete: BuilderSpec := BuilderSpec(DELETE, AlertPath, "2017-04-01", true, false)
  const AlertUpdate: BuilderSpec := BuilderSpec(PATCH, AlertPath, "2017-04-01", true, true)
  const AlertListBySubscriptionId: BuilderSpec :=
    BuilderSpec(GET, "/subscriptions/{subscriptionId}/providers/microsoft.insights/activityLogAlerts", "2017-04-01", true, false)
  const AlertListByResourceGroup: BuilderSpec :=
    BuilderSpec(GET, "/subscriptions/{subscriptionId}/resourceGroups/{resourceGroupName}/providers/microsoft.insights/activityLogAlerts", "2017-04-01", true, false)

  // Data factory managed private endpoints, api-version 2018-06-01.
  const MpePath: string :=
    "/subscriptions/{subscriptionId}/resourceGroups/{resourceGroupName}/providers/Microsoft.DataFactory/factories/{factoryName}/managedVirtualNetworks/{managedVirtualNetworkName}/managedPrivateEndpoints"
  const MpeListByFactory: BuilderSpec := BuilderSpec(GET, MpePath, "2018-06-01", true, false)
  const MpeCreateOrUpdate: BuilderSpec :=
    BuilderSpec(PUT, MpePath + "/{managedPrivateEndpointName}", "2018-06-01", true, true)
  const MpeGet: BuilderSpec := BuilderSpec(GET, MpePath + "/{managedPrivateEndpointName}", "2018-06-01", true, false)
  const MpeDelete: BuilderSpec := BuilderSpec(DELETE, MpePath + "/{managedPrivateEndpointName}", "2018-06-01", true, false)

  // Cloud service update domains, api-version 2021-03-01.
  const UpdateDomainsPath: string :=
    "/subscriptions/{subscriptionId}/resourceGroups/{resourceGroupName}/providers/Microsoft.Compute/cloudServices/{cloudServiceName}/updateDomains"
  const WalkUpdateDomain: BuilderSpec :=
    BuilderSpec(PUT, UpdateDomainsPath + "/{updateDomain}", "2021-03-01", true, true)
  const GetUpdateDomain: BuilderSpec := BuilderSpec(GET, UpdateDomainsPath + "/{updateDomain}", "2021-03-01", true, false)
  const ListUpdateDomains: BuilderSpec := BuilderSpec(GET, UpdateDomainsPath, "2021-03-01", true, false)

  /** The api-version a builder sends: the keyword, else the caller's query entry, else its default. */
  function ExpectedApiVersion(spec: BuilderSpec, args: BuilderArgs): string {
    args.apiVersion.GetOr(CI.Get(args.params, ApiVersionParam).GetOr(spec.defaultApiVersion))
  }

  /** The four activity-log-alert builders use PUT, GET, DELETE and PATCH, and each sends
      the api-version chosen by keyword, then query entry, then "2017-04-01". */
  lemma ActivityLogAlertBuilders(args: BuilderArgs)
    ensures Build(AlertCreateOrUpdate, args).verb == PUT
    ensures Build(AlertGet, args).verb == GET
    ensures Build(AlertDelete, args).verb == DELETE
    ensures Build(AlertUpdate, args).verb == PATCH
    ensures args.apiVersion.None? && CI.Get(args.params, ApiVersionParam).None? ==>
      CI.Get(Build(AlertCreateOrUpdate, args).params, ApiVersionParam) == Some(One("2017-04-01"))
    ensures forall spec | spec in {AlertCreateOrUpdate, AlertGet, AlertDelete, AlertUpdate} ::
      CI.Get(Build(spec, args).params, ApiVersionParam) == Some(One(ExpectedApiVersion(spec, args)))
  {
  }

  /** `includeColocationStatus` appears in the query exactly when the argument is not `None`
      (for a caller that did not put it in `params` itself); api-version is always there. */
  lemma ProximityPlacementGroupGetQuery(args: BuilderArgs)
    requires CI.Get(args.params, ColocationParam).None?
    ensures CI.Get(Build(PpgGet, args).params, ColocationParam).Some? <==> args.includeColocationStatus.Some?
    ensures CI.Get(Build(PpgGet, args).params, ApiVersionParam) == Some(One(ExpectedApiVersion(PpgGet, args)))
  {
  }

  /** The proximity-placement-group delete builder leaves headers to the caller. */
  lemma ProximityPlacementGroupDeleteHeaders(args: BuilderArgs)
    ensures Build(PpgDelete, args).headers == args.headers
    ensures CI.Get(Build(PpgDelete, args).headers, AcceptHeader) == CI.Get(args.headers, AcceptHeader)
  {
  }

  /** The availability-set create builder sends `Content-Type` exactly when the resolved
      content type is not `None`, and `Accept` always, defaulting to JSON. */
  lemma AvailabilitySetCreateHeaders(args: BuilderArgs)
    requires args.contentType.Some?
    ensures CI.Get(Build(AvSetCreateOrUpdate, args).headers, ContentTypeHeader).Some? <==> args.contentType.value.Some?
    ensures CI.Get(Build(AvSetCreateOrUpdate, args).headers, AcceptHeader)
         == Some(CI.Get(args.headers, AcceptHeader).GetOr("application/json"))
  {
  }

  /** `If-Match` on create and `If-None-Match` on get are sent exactly when given (for a
      caller that did not put them in `headers` itself). */
  lemma ManagedPrivateEndpointConditionalHeaders(args: BuilderArgs)
    requires CI.Get(args.headers, IfMatchHeader).None? && CI.Get(args.headers, IfNoneMatchHeader).None?
    ensures CI.Get(Build(MpeCreateOrUpdate, args).headers, IfMatchHeader).Some? <==> args.ifMatch.Some?
    ensures args.ifMatch.Some? ==> CI.Get(Build(MpeCreateOrUpdate, args).headers, IfMatchHeader) == args.ifMatch
    ensures CI.Get(Build(MpeGet, args).headers, IfNoneMatchHeader).Some? <==> args.ifNoneMatch.Some?
    ensures args.ifNoneMatch.Some? ==> CI.Get(Build(MpeGet, args).headers, IfNoneMatchHeader) == args.ifNoneMatch
  {
  }

  /** Where an operation takes the api-version it hands its builder when the caller gives
      no `api_version` keyword. The factories operations, from an older generator, read
      the keyword alone and fall back to their literal; the managed private endpoint
      operations try the caller's `api-version` query entry and then the version the
      client was configured with. */
  datatype ApiVersionDefault =
    | KeywordOrLiteral(literal: string)
    | KeywordQueryOrClient

  const FactoriesApiVersion: ApiVersionDefault := KeywordOrLiteral("2018-06-01")
  const ManagedPrivateEndpointsApiVersion: ApiVersionDefault := KeywordQueryOrClient

  /** The api-version an operation passes to its builder; `configured` is the client's. */
  function OperationApiVersion(source: ApiVersionDefault, call: CallArgs, configured: string): (r: string)
    ensures call.apiVersion.Some? ==> r == call.apiVersion.value
    ensures source.KeywordOrLiteral? && call.apiVersion.None? ==> r == source.literal
    ensures source.KeywordQueryOrClient? && call.apiVersion.None? ==>
      r == CI.Get(call.params, ApiVersionParam).GetOr(configured)
  {
    match source
    case KeywordOrLiteral(literal) => call.apiVersion.GetOr(literal)
    case KeywordQueryOrClient => ResolveApiVersion(call.apiVersion, call.params, configured).0
  }

  /** A factories operation sends "2018-06-01" unless given the keyword; neither the
      caller's query parameters nor the client's configured version change that. */
  lemma FactoriesIgnoreQueryAndClient(call: CallArgs, params: CI.CIDict<string>, configured: string, other: string)
    ensures OperationApiVersion(FactoriesApiVersion, call, configured)
         == OperationApiVersion(FactoriesApiVersion, call.(params := params), other)
    ensures call.apiVersion.None? ==> OperationApiVersion(FactoriesApiVersion, call, configured) == "2018-06-01"
  {
  }

  /** Without the keyword or a query entry, every managed private endpoint request carries
      the client's configured api-version, never the builders' own "2018-06-01". */
  lemma ManagedPrivateEndpointsUseClientApiVersion(call: CallArgs, configured: string, ifMatch: Option<string>,
                                                   ifNoneMatch: Option<string>, body: Body)
    requires call.apiVersion.None? && CI.Get(call.params, ApiVersionParam).None?
    ensures OperationApiVersion(ManagedPrivateEndpointsApiVersion, call, configured) == configured
    ensures CI.Get(PrepareRead(MpeListByFactory, configured, call, None, None).params, ApiVersionParam)
         == Some(One(configured))
    ensures CI.Get(PrepareWrite(MpeCreateOrUpdate, configured, call, ifMatch, body).params, ApiVersionParam)
         == Some(One(configured))
    ensures CI.Get(PrepareRead(MpeGet, configured, call, ifNoneMatch, None).params, ApiVersionParam)
         == Some(One(configured))
    ensures CI.Get(PrepareRead(MpeDelete, configured, call, None, None).params, ApiVersionParam)
         == Some(One(configured))
  {
  }
}
