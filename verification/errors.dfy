/** The status check every generated operation performs on its response: a status outside
    the operation's accepted set is first looked up in the merged error map (`map_error`
    raises the mapped error type) and otherwise becomes a generic `HttpResponseError`. */
module ErrorMaps {

  import opened Wrappers
  import opened Http

  /** The typed errors of `azure.core.exceptions` an error map can name, plus any
      error type a caller supplies in its own `error_map`. */
  datatype ErrorKind =
    | ClientAuthentication
    | ResourceNotFound
    | ResourceExists
    | ResourceNotModified
    | CallerError(name: string)

  type ErrorMap = map<int, ErrorKind>

  /** The defaults of the compute, monitor and cloud-services operations. */
  const ArmErrorsWith304: ErrorMap :=
    map[401 := ClientAuthentication, 404 := ResourceNotFound, 409 := ResourceExists, 304 := ResourceNotModified]

  /** The defaults of the agent-pool, factory and managed-private-endpoint operations. */
  const ArmErrors: ErrorMap :=
    map[401 := ClientAuthentication, 404 := ResourceNotFound, 409 := ResourceExists]

  /** `error_map.update(kwargs.pop("error_map", {}) or {})`: a caller entry overrides the
      default for its status, a caller status the defaults lack is added, and every other
      default survives. */
  function MergeErrorMap(defaults: ErrorMap, caller: ErrorMap): (m: ErrorMap)
    ensures m.Keys == defaults.Keys + caller.Keys
    ensures forall s :: s in caller ==> m[s] == caller[s]
    ensures forall s :: s in defaults && s !in caller ==> m[s] == defaults[s]
  {
    defaults + caller
  }

  /** The `error_map` keyword: not passed, passed as `None`, or passed as a dict. */
  datatype ErrorMapArg = NotGiven | GivenNone | Given(entries: ErrorMap)

  /** What a failed operation raises. A typed error carries no model; the generic
      `HttpResponseError` carries the failsafe-deserialised error model where the
      operation attaches one; `Argument` is the `TypeError` of a bad keyword argument. */
  datatype Failure =
    | Typed(kind: ErrorKind, status: int)
    | Generic(status: int, model: Option<Model>)
    | Argument(message: string)

  /** The merge as an operation performs it. The `or {}` form tolerates `error_map=None`;
      the older `error_map.update(kwargs.pop('error_map', {}))` form hands `None` to
      `dict.update`, which raises `TypeError`. */
  function CallerErrors(defaults: ErrorMap, arg: ErrorMapArg, tolerateNone: bool): (r: Result<ErrorMap, Failure>)
    ensures r.Err? <==> arg.GivenNone? && !tolerateNone
    ensures r.Err? ==> r.error.Argument?
    ensures r.Ok? && arg.Given? ==> r.value == MergeErrorMap(defaults, arg.entries)
    ensures r.Ok? && !arg.Given? ==> r.value == defaults
  {
    match arg
    case NotGiven => Ok(defaults)
    case GivenNone => if tolerateNone then Ok(defaults) else Err(Argument("'NoneType' object is not iterable"))
    case Given(m) => Ok(MergeErrorMap(defaults, m))
  }

  /** The guard `if response.status_code not in accepted: map_error(...); raise ...`. */
  function CheckStatus(resp: Response, accepted: set<int>, errors: ErrorMap, errorModel: Option<Model>)
    : (r: Result<Response, Failure>)
    ensures r.Ok? <==> resp.status in accepted
    ensures r.Ok? ==> r.value == resp
    ensures r.Err? ==> !r.error.Argument? && r.error.status == resp.status
    ensures r.Err? ==> (r.error.Typed? <==> resp.status in errors)
    ensures r.Err? && r.error.Typed? ==> r.error.kind == errors[resp.status]
    ensures r.Err? && r.error.Generic? ==> r.error.model == errorModel
  {
    if resp.status in accepted then Ok(resp)
    else if resp.status in errors then Err(Typed(errors[resp.status], resp.status))
    else Err(Generic(resp.status, errorModel))
  }

  /** A caller's `error_map` only changes which error is raised, never whether one is. */
  lemma CallerMapKeepsAcceptance(resp: Response, accepted: set<int>, defaults: ErrorMap, caller: ErrorMap, errorModel: Option<Model>)
    ensures CheckStatus(resp, accepted, MergeErrorMap(defaults, caller), errorModel).Ok?
        <==> CheckStatus(resp, accepted, defaults, errorModel).Ok?
  {
  }

  /** Without a caller map the defaults decide, and a caller entry always wins over them. */
  lemma CallerEntryWins(resp: Response, accepted: set<int>, defaults: ErrorMap, caller: ErrorMap, errorModel: Option<Model>)
    requires resp.status !in accepted && resp.status in caller
    ensures CheckStatus(resp, accepted, MergeErrorMap(defaults, caller), errorModel)
         == Err(Typed(caller[resp.status], resp.status))
    ensures MergeErrorMap(defaults, map[]) == defaults
  {
  }

  /** An unaccepted 304 is `ResourceNotModifiedError` under the compute defaults but a
      generic `HttpResponseError` under the defaults that lack 304. */
  lemma NotModifiedOnlyWith304Defaults(resp: Response, accepted: set<int>, errorModel: Option<Model>)
    requires resp.status == 304 && 304 !in accepted
    ensures CheckStatus(resp, accepted, ArmErrorsWith304, errorModel) == Err(Typed(ResourceNotModified, 304))
    ensures CheckStatus(resp, accepted, ArmErrors, errorModel) == Err(Generic(304, errorModel))
  {
  }
}
