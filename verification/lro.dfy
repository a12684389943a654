/** The set-up of a long-running operation (`begin_create_or_update`, `begin_update`,
    `begin_delete`, `begin_upgrade_node_image_version`, `begin_walk_update_domain`): the
    initial call unless a continuation token is given, the choice of polling method, and
    the poller handed back. The poller classes and `ARMPolling` are `azure.core` /
    `azure.mgmt.core` code and appear here only as the values the operation builds. */
module LongRunning {

  import opened Wrappers
  import opened Http
  import opened ErrorMaps

  /** The `polling` keyword: `True` (the default), `False`, or any other object, which
      is used as the polling method itself (`polling is True` is an identity test). */
  datatype PollingArg = PollTrue | PollFalse | PollOther(obj: string)

  /** The polling method the operation builds. `ArmPolling` receives the delay and the
      keyword arguments still left at that point. */
  datatype PollingMethod =
    | ArmPolling(delay: int, kwargs: map<string, string>)
    | NoPolling
    | CallerMethod(obj: string)

  /** The keyword arguments `begin_*` reads; `kwargs` is everything else the caller passed
      (including an `error_map`, if any), which goes on to the initial call. */
  datatype BeginArgs = BeginArgs(
    polling: Option<PollingArg>,
    pollingInterval: Option<int>,
    continuationToken: Option<string>,
    kwargs: map<string, string>)

  /** What `begin_*` returns. */
  datatype Poller =
    | FromToken(polling: PollingMethod, token: string)       // `LROPoller.from_continuation_token`
    | Started(polling: PollingMethod, initial: Response)     // `LROPoller(client, raw_result, ...)`

  /** How `begin_*` can fail: the initial call raised, or (as written) Python's
      `UnboundLocalError` for `raw_result`. */
  datatype BeginFailure = Raised(failure: Failure) | UnboundRawResult

  /** The initial call (`_create_or_update_initial` and the like, returning the raw
      pipeline response) as a function of the keyword arguments it receives. */
  type InitialCall = map<string, string> -> Result<Response, Failure>

  /** Python truthiness of the token. */
  predicate Truthy(token: Option<string>) {
    token.Some? && token.value != ""
  }

  /** `polling is True` → ARM polling with `lro_delay` and the remaining keyword
      arguments, `polling is False` → no polling, otherwise the caller's object. The
      caller's `error_map` has been popped by then, so polling never sees it. */
  function SelectPolling(polling: PollingArg, delay: int, kwargs: map<string, string>): (m: PollingMethod)
    ensures polling.PollTrue? <==> m.ArmPolling?
    ensures polling.PollFalse? <==> m.NoPolling?
    ensures polling.PollOther? ==> m == CallerMethod(polling.obj)
    ensures m.ArmPolling? ==> m.delay == delay && "error_map" !in m.kwargs
    ensures m.ArmPolling? ==> forall k :: k in kwargs && k != "error_map" ==> k in m.kwargs && m.kwargs[k] == kwargs[k]
  {
    match polling
    case PollTrue => ArmPolling(delay, kwargs - {"error_map"})
    case PollFalse => NoPolling
    case PollOther(m) => CallerMethod(m)
  }

  /** The polling method of a call: `polling` defaults to `True` and `polling_interval`
      to the client configuration's `polling_interval`. */
  function MethodFor(args: BeginArgs, configInterval: int): PollingMethod {
    SelectPolling(args.polling.GetOr(PollTrue), args.pollingInterval.GetOr(configInterval), args.kwargs)
  }

  /** `begin_*` as generated: the initial call runs when the token `is None`, but the
      token branch is taken only when the token is truthy. */
  function BeginAsWritten(args: BeginArgs, configInterval: int, initial: InitialCall): (r: Result<Poller, BeginFailure>)
    ensures args.continuationToken == Some("") ==> r == Err(UnboundRawResult)
  {
    var token := args.continuationToken;
    var raw := if token.None? then Some(initial(args.kwargs)) else None;
    if raw.Some? && raw.value.Err? then Err(Raised(raw.value.error))
    else
      var chosen := MethodFor(args, configInterval);
      if Truthy(token) then Ok(FromToken(chosen, token.value))
      else if raw.None? then Err(UnboundRawResult)
      else Ok(Started(chosen, raw.value.value))
  }

  /** `begin_*` with the token test made consistent: a falsy token counts as no token. */
  function Begin(args: BeginArgs, configInterval: int, initial: InitialCall): (r: Result<Poller, BeginFailure>)
    ensures Truthy(args.continuationToken) ==>
      r == Ok(FromToken(MethodFor(args, configInterval), args.continuationToken.value))
    ensures !Truthy(args.continuationToken) && initial(args.kwargs).Err? ==>
      r == Err(Raised(initial(args.kwargs).error))
    ensures !Truthy(args.continuationToken) && initial(args.kwargs).Ok? ==>
      r == Ok(Started(MethodFor(args, configInterval), initial(args.kwargs).value))
    ensures r.Err? ==> r.error.Raised?
  {
    var token := args.continuationToken;
    if Truthy(token) then Ok(FromToken(MethodFor(args, configInterval), token.value))
    else match initial(args.kwargs)
      case Err(e) => Err(Raised(e))
      case Ok(resp) => Ok(Started(MethodFor(args, configInterval), resp))
  }

  /** With a token the initial request is never issued: the result does not depend on
      what the initial call would do. */
  lemma TokenSkipsInitialCall(args: BeginArgs, configInterval: int, f: InitialCall, g: InitialCall)
    requires Truthy(args.continuationToken)
    ensures Begin(args, configInterval, f) == Begin(args, configInterval, g)
    ensures BeginAsWritten(args, configInterval, f) == BeginAsWritten(args, configInterval, g)
  {
  }

  /** Without any `polling` or `polling_interval` keyword the poller uses ARM polling at
      the client's configured interval, forwarding every keyword but `error_map`. */
  lemma DefaultPolling(args: BeginArgs, configInterval: int)
    requires args.polling.None? && args.pollingInterval.None?
    ensures MethodFor(args, configInterval) == ArmPolling(configInterval, args.kwargs - {"error_map"})
  {
  }

  /** The generated code and the corrected one agree on every token except `""`. */
  lemma AsWrittenAgreesExceptEmptyToken(args: BeginArgs, configInterval: int, initial: InitialCall)
    requires args.continuationToken != Some("")
    ensures BeginAsWritten(args, configInterval, initial) == Begin(args, configInterval, initial)
  {
  }

  /** The discrepancy: `continuation_token=""` skips the initial call (it is not `None`)
      and then skips the token branch (it is falsy), so `raw_result` is unbound. The
      corrected set-up issues the initial call instead. */
  lemma EmptyTokenCounterexample(initial: InitialCall, resp: Response)
    requires initial(map[]) == Ok(resp)
    ensures BeginAsWritten(BeginArgs(None, None, Some(""), map[]), 30, initial) == Err(UnboundRawResult)
    ensures Begin(BeginArgs(None, None, Some(""), map[]), 30, initial) == Ok(Started(ArmPolling(30, map[]), resp))
  {
  }
}
