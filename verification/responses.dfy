/** The response half of every generated operation: the status check against the
    operation's accepted set and merged error map, then the status-dependent result —
    a model, `None`, or (for the agent-pool upgrade) a model plus the
    `Azure-AsyncOperation` response header. */
module Responses {

  import opened Wrappers
  import opened Http
  import CI = CaseInsensitive
  import opened ErrorMaps

  /** How an accepted response becomes the operation's result. */
  datatype Shape =
    | Always(typeName: string)                                   // every accepted status deserialises the model
    | Nothing                                                    // the operation returns `None`
    | OnlyOn(status: int, typeName: string)                      // the model on one status, `None` on the others
    | AsyncOn(status: int, typeName: string, header: string)     // as `OnlyOn`, plus one response header

  /** An operation's response contract as its generated code spells it out. */
  datatype OpSpec = OpSpec(
    accepted: set<int>,
    shape: Shape,
    defaults: ErrorMap,
    tolerateNoneErrorMap: bool,
    attachesErrorModel: bool)

  /** The `(deserialized, response_headers)` pair handed to `cls`; `value` is what the
      operation returns when no `cls` is given. */
  datatype Outcome = Outcome(value: Option<Model>, responseHeaders: map<string, Option<string>>)

  function Deserialised(shape: Shape, resp: Response): Outcome {
    match shape
    case Always(t) => Outcome(Some(Model(t, resp.body)), map[])
    case Nothing => Outcome(None, map[])
    case OnlyOn(s, t) => if resp.status == s then Outcome(Some(Model(t, resp.body)), map[]) else Outcome(None, map[])
    case AsyncOn(s, t, h) =>
      if resp.status == s then Outcome(Some(Model(t, resp.body)), map[h := CI.Get(resp.headers, h)])
      else Outcome(None, map[])
  }

  /** The error map in force once the caller's entries are merged in. */
  function Merged(spec: OpSpec, caller: ErrorMapArg): ErrorMap {
    if caller.Given? then MergeErrorMap(spec.defaults, caller.entries) else spec.defaults
  }

  /** One operation from the response on: total over every status code, caller error map
      and error body. `errorModel` is what `failsafe_deserialize` reads from the body. */
  function Handle(spec: OpSpec, caller: ErrorMapArg, resp: Response, errorModel: Option<Model>)
    : (r: Result<Outcome, Failure>)
    ensures caller.GivenNone? && !spec.tolerateNoneErrorMap ==> r.Err? && r.error.Argument?
    ensures (caller.GivenNone? ==> spec.tolerateNoneErrorMap) ==> (r.Ok? <==> resp.status in spec.accepted)
    ensures r.Err? && !r.error.Argument? ==>
      r.error.status == resp.status && (r.error.Typed? <==> resp.status in Merged(spec, caller))
    ensures r.Err? && r.error.Typed? ==> r.error.kind == Merged(spec, caller)[resp.status]
    ensures r.Err? && r.error.Generic? ==>
      r.error.model == (if spec.attachesErrorModel then errorModel else None)
    ensures r.Ok? && spec.shape.Always? ==> r.value.value == Some(Model(spec.shape.typeName, resp.body))
    ensures r.Ok? && spec.shape.Nothing? ==> r.value.value.None?
    ensures r.Ok? && (spec.shape.OnlyOn? || spec.shape.AsyncOn?) ==>
      (r.value.value.Some? <==> resp.status == spec.shape.status) &&
      (r.value.value.Some? ==> r.value.value.value == Model(spec.shape.typeName, resp.body))
    ensures r.Ok? && spec.shape.AsyncOn? && resp.status == spec.shape.status ==>
      r.value.responseHeaders == map[spec.shape.header := CI.Get(resp.headers, spec.shape.header)]
    ensures r.Ok? && !(spec.shape.AsyncOn? && resp.status == spec.shape.status) ==> r.value.responseHeaders == map[]
  {
    var errors :- CallerErrors(spec.defaults, caller, spec.tolerateNoneErrorMap);
    var ok :- CheckStatus(resp, spec.accepted, errors, if spec.attachesErrorModel then errorModel else None);
    Ok(Deserialised(spec.shape, ok))
  }

  // Proximity placement groups (2019-07-01).
  const PpgCreateOrUpdate := OpSpec({200, 201}, Always("ProximityPlacementGroup"), ArmErrorsWith304, true, false)
  const PpgUpdate := OpSpec({200}, Always("ProximityPlacementGroup"), ArmErrorsWith304, true, false)
  const PpgDelete := OpSpec({200}, Nothing, ArmErrorsWith304, true, false)
  const PpgGet := OpSpec({200}, Always("ProximityPlacementGroup"), ArmErrorsWith304, true, false)

  // Availability sets (2015-06-15).
  const AvSetCreateOrUpdate := OpSpec({200}, Always("AvailabilitySet"), ArmErrorsWith304, true, false)
  const AvSetDelete := OpSpec({200, 204}, OnlyOn(200, "OperationStatusResponse"), ArmErrorsWith304, true, false)

  // Activity log alerts (2017-04-01): failures carry the failsafe-deserialised ErrorResponse.
  const AlertCreateOrUpdate := OpSpec({200, 201}, Always("ActivityLogAlertResource"), ArmErrorsWith304, true, true)
  const AlertGet := OpSpec({200}, Always("ActivityLogAlertResource"), ArmErrorsWith304, true, true)
  const AlertDelete := OpSpec({200, 204}, Nothing, ArmErrorsWith304, true, true)
  const AlertUpdate := OpSpec({200}, Always("ActivityLogAlertResource"), ArmErrorsWith304, true, true)

  // Scale-set VM extensions (2019-12-01), the initial calls of the long-running operations.
  const ExtCreateOrUpdateInitial := OpSpec({200, 201}, Always("VirtualMachineExtension"), ArmErrorsWith304, true, false)
  const ExtUpdateInitial := OpSpec({200}, Always("VirtualMachineExtension"), ArmErrorsWith304, true, false)
  const ExtDeleteInitial := OpSpec({200, 202, 204}, Nothing, ArmErrorsWith304, true, false)

  // Agent pools (2022-01-01): no 304 default, and `error_map=None` is not tolerated.
  const PoolCreateOrUpdateInitial := OpSpec({200, 201}, Always("AgentPool"), ArmErrors, false, false)
  const PoolDeleteInitial := OpSpec({202, 204}, Nothing, ArmErrors, false, false)
  const PoolUpgradeInitial := OpSpec({200, 202}, AsyncOn(202, "AgentPool", "Azure-AsyncOperation"), ArmErrors, false, false)

  // Data factories (2018-06-01).
  const FactoryCreateOrUpdate := OpSpec({200}, Always("Factory"), ArmErrors, false, false)
  const FactoryUpdate := OpSpec({200}, Always("Factory"), ArmErrors, false, false)
  const FactoryGet := OpSpec({200, 304}, OnlyOn(200, "Factory"), ArmErrors, false, false)
  const FactoryDelete := OpSpec({200, 204}, Nothing, ArmErrors, false, false)

  // Cloud service update domains (2021-03-01).
  const WalkUpdateDomainInitial := OpSpec({200, 202}, Nothing, ArmErrorsWith304, true, false)
  const GetUpdateDomain := OpSpec({200}, Always("UpdateDomain"), ArmErrorsWith304, true, false)

  // Data factory managed private endpoints.
  const MpeCreateOrUpdate := OpSpec({200}, Always("ManagedPrivateEndpointResource"), ArmErrors, true, false)
  const MpeGet := OpSpec({200}, Always("ManagedPrivateEndpointResource"), ArmErrors, true, false)
  const MpeDelete := OpSpec({200, 204}, Nothing, ArmErrors, true, false)

  // The accepted statuses, file by file: a response is a success exactly when its status
  // is one of these (for any caller error map the operation admits).

  /** Proximity placement groups: create or update 200/201, update, delete and get 200. */
  lemma ProximityPlacementGroupStatuses(caller: ErrorMapArg, resp: Response, em: Option<Model>)
    requires !caller.GivenNone?
    ensures Handle(PpgCreateOrUpdate, caller, resp, em).Ok? <==> resp.status == 200 || resp.status == 201
    ensures Handle(PpgUpdate, caller, resp, em).Ok? <==> resp.status == 200
    ensures Handle(PpgDelete, caller, resp, em).Ok? <==> resp.status == 200
    ensures Handle(PpgGet, caller, resp, em).Ok? <==> resp.status == 200
  {
  }

  /** Availability sets: create or update 200, delete 200/204. */
  lemma AvailabilitySetStatuses(caller: ErrorMapArg, resp: Response, em: Option<Model>)
    requires !caller.GivenNone?
    ensures Handle(AvSetCreateOrUpdate, caller, resp, em).Ok? <==> resp.status == 200
    ensures Handle(AvSetDelete, caller, resp, em).Ok? <==> resp.status == 200 || resp.status == 204
  {
  }

  /** Activity log alerts: create 200/201, get 200, delete 200/204, update 200. */
  lemma ActivityLogAlertStatuses(caller: ErrorMapArg, resp: Response, em: Option<Model>)
    requires !caller.GivenNone?
    ensures Handle(AlertCreateOrUpdate, caller, resp, em).Ok? <==> resp.status == 200 || resp.status == 201
    ensures Handle(AlertGet, caller, resp, em).Ok? <==> resp.status == 200
    ensures Handle(AlertDelete, caller, resp, em).Ok? <==> resp.status == 200 || resp.status == 204
    ensures Handle(AlertUpdate, caller, resp, em).Ok? <==> resp.status == 200
  {
  }

  /** Scale-set VM extensions, initial calls: create 200/201, update 200, delete 200/202/204. */
  lemma ScaleSetExtensionStatuses(caller: ErrorMapArg, resp: Response, em: Option<Model>)
    requires !caller.GivenNone?
    ensures Handle(ExtCreateOrUpdateInitial, caller, resp, em).Ok? <==> resp.status == 200 || resp.status == 201
    ensures Handle(ExtUpdateInitial, caller, resp, em).Ok? <==> resp.status == 200
    ensures Handle(ExtDeleteInitial, caller, resp, em).Ok? <==> resp.status in {200, 202, 204}
  {
  }

  /** Agent pools, initial calls: create 200/201, delete 202/204, node-image upgrade 200/202. */
  lemma AgentPoolStatuses(caller: ErrorMapArg, resp: Response, em: Option<Model>)
    requires !caller.GivenNone?
    ensures Handle(PoolCreateOrUpdateInitial, caller, resp, em).Ok? <==> resp.status == 200 || resp.status == 201
    ensures Handle(PoolDeleteInitial, caller, resp, em).Ok? <==> resp.status == 202 || resp.status == 204
    ensures Handle(PoolUpgradeInitial, caller, resp, em).Ok? <==> resp.status == 200 || resp.status == 202
  {
  }

  /** Factories: create or update and update 200, get 200/304, delete 200/204. */
  lemma FactoryStatuses(caller: ErrorMapArg, resp: Response, em: Option<Model>)
    requires !caller.GivenNone?
    ensures Handle(FactoryCreateOrUpdate, caller, resp, em).Ok? <==> resp.status == 200
    ensures Handle(FactoryUpdate, caller, resp, em).Ok? <==> resp.status == 200
    ensures Handle(FactoryGet, caller, resp, em).Ok? <==> resp.status == 200 || resp.status == 304
    ensures Handle(FactoryDelete, caller, resp, em).Ok? <==> resp.status == 200 || resp.status == 204
  {
  }

  /** Cloud-service update domains: walk (initial) 200/202, get 200. */
  lemma UpdateDomainStatuses(caller: ErrorMapArg, resp: Response, em: Option<Model>)
    requires !caller.GivenNone?
    ensures Handle(WalkUpdateDomainInitial, caller, resp, em).Ok? <==> resp.status == 200 || resp.status == 202
    ensures Handle(GetUpdateDomain, caller, resp, em).Ok? <==> resp.status == 200
  {
  }

  /** Managed private endpoints: create or update and get 200, delete 200/204. */
  lemma ManagedPrivateEndpointStatuses(caller: ErrorMapArg, resp: Response, em: Option<Model>)
    requires !caller.GivenNone?
    ensures Handle(MpeCreateOrUpdate, caller, resp, em).Ok? <==> resp.status == 200
    ensures Handle(MpeGet, caller, resp, em).Ok? <==> resp.status == 200
    ensures Handle(MpeDelete, caller, resp, em).Ok? <==> resp.status == 200 || resp.status == 204
  {
  }

  /** Availability-set delete: the operation status on 200, `None` on 204. */
  lemma AvailabilitySetDeleteResult(caller: ErrorMapArg, resp: Response, em: Option<Model>)
    requires !caller.GivenNone?
    ensures resp.status == 200 ==>
      Handle(AvSetDelete, caller, resp, em) == Ok(Outcome(Some(Model("OperationStatusResponse", resp.body)), map[]))
    ensures resp.status == 204 ==> Handle(AvSetDelete, caller, resp, em) == Ok(Outcome(None, map[]))
  {
  }

  /** Factory get: the factory on 200, `None` on 304 (not modified). */
  lemma FactoryGetResult(caller: ErrorMap, resp: Response, em: Option<Model>)
    ensures resp.status == 200 ==>
      Handle(FactoryGet, Given(caller), resp, em) == Ok(Outcome(Some(Model("Factory", resp.body)), map[]))
    ensures resp.status == 304 ==> Handle(FactoryGet, Given(caller), resp, em) == Ok(Outcome(None, map[]))
  {
  }

  /** Agent-pool node-image upgrade: `None` on 200; on 202 the agent pool and the
      `Azure-AsyncOperation` header (`None` when the service did not send it). */
  lemma AgentPoolUpgradeResult(caller: ErrorMap, resp: Response, em: Option<Model>)
    ensures resp.status == 200 ==> Handle(PoolUpgradeInitial, Given(caller), resp, em) == Ok(Outcome(None, map[]))
    ensures resp.status == 202 ==>
      Handle(PoolUpgradeInitial, Given(caller), resp, em)
      == Ok(Outcome(Some(Model("AgentPool", resp.body)),
                    map["Azure-AsyncOperation" := CI.Get(resp.headers, "Azure-AsyncOperation")]))
  {
  }

  /** Activity-log-alert failures outside the error map carry the failsafe error model;
      the same failure elsewhere carries none. */
  lemma ErrorModelOnlyOnAlerts(resp: Response, em: Option<Model>)
    requires resp.status == 500
    ensures Handle(AlertCreateOrUpdate, NotGiven, resp, em) == Err(Generic(500, em))
    ensures Handle(PpgCreateOrUpdate, NotGiven, resp, em) == Err(Generic(500, None))
  {
  }

  /** An unaccepted 304 is `ResourceNotModifiedError` for a 2019-07-01 proximity placement
      group, but a generic error for a managed private endpoint, whose defaults lack 304. */
  lemma NotModifiedMapping(resp: Response, em: Option<Model>)
    requires resp.status == 304
    ensures Handle(PpgGet, NotGiven, resp, em) == Err(Typed(ResourceNotModified, 304))
    ensures Handle(MpeGet, NotGiven, resp, em) == Err(Generic(304, None))
  {
  }

  /** A caller entry for a status overrides the default error type (proximity placement
      groups, create), and `error_map=None` is a `TypeError` for the agent pools only. */
  lemma CallerErrorMapEffects(resp: Response, em: Option<Model>, kind: ErrorKind)
    requires resp.status == 409
    ensures Handle(PpgCreateOrUpdate, Given(map[409 := kind]), resp, em) == Err(Typed(kind, 409))
    ensures Handle(PpgCreateOrUpdate, NotGiven, resp, em) == Err(Typed(ResourceExists, 409))
    ensures Handle(PpgCreateOrUpdate, GivenNone, resp, em) == Err(Typed(ResourceExists, 409))
    ensures Handle(PoolDeleteInitial, GivenNone, resp, em).Err?
    ensures Handle(PoolDeleteInitial, GivenNone, resp, em).error.Argument?
  {
  }
}
