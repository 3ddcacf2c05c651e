/** What one inbound packet makes the router do (Router.route, invokeRoute,
    execute, triggerValidationError, triggerInternalError), as the sequence
    of handler, hook and log events it causes. */
module Pipeline {
  import opened Values
  import opened Routes
  import opened Registry
  import opened Validation

  /** The callback collections the router registers (RouterCallbackType). */
  datatype CallbackType = BeforeEvent | AfterEvent | ValidationErrorHook

  /** A registered callback, identified by name. */
  datatype Callback = Callback(name: string)

  /** The router's callback collections, one list per callback type, in registration order. */
  datatype CallbackCollection = CallbackCollection(beforeEvent: seq<Callback>, afterEvent: seq<Callback>, validationError: seq<Callback>) {
    function For(t: CallbackType): seq<Callback> {
      match t
      case BeforeEvent => beforeEvent
      case AfterEvent => afterEvent
      case ValidationErrorHook => validationError
    }

    /** addCallback: the callback joins the end of its own list; the other lists are untouched. */
    function Add(t: CallbackType, cb: Callback): (c: CallbackCollection)
      ensures c.For(t) == For(t) + [cb]
      ensures forall u :: u != t ==> c.For(u) == For(u)
    {
      match t
      case BeforeEvent => this.(beforeEvent := beforeEvent + [cb])
      case AfterEvent => this.(afterEvent := afterEvent + [cb])
      case ValidationErrorHook => this.(validationError := validationError + [cb])
    }
  }

  /** The three collections the router's constructor registers, all empty. */
  const NoCallbacks := CallbackCollection([], [], [])

  datatype StageName = Before | On | After

  /** The order in which `execute` awaits the stages. */
  const STAGES: seq<StageName> := [Before, On, After]

  /** What the router does that an observer could see. */
  datatype Event =
    | Warned(path: Value)                          // logger.warning: no route for the path
    | Hook(kind: CallbackType, callback: Callback) // a callback run by callbacks.executeFor
    | Stage(stage: StageName, target: Value)       // instance.before/on/after on the request's target
    | ValidationErrorHandled(invalid: ValidationError) // instance.onValidationError
    | ErrorHandled(error: Value)                   // instance.onError
    | Unhandled(error: Value)                      // onError threw: the error escapes the router

  function StageOutcome(h: Handler, s: StageName): Outcome {
    match s
    case Before => h.before
    case On => h.on
    case After => h.after
  }

  /** callbacks.executeFor(t): every callback of type t, in registration order. */
  function Fired(hooks: CallbackCollection, t: CallbackType): seq<Event> {
    seq(|hooks.For(t)|, k requires 0 <= k < |hooks.For(t)| => Hook(t, hooks.For(t)[k]))
  }

  /** The stages from position k on, stopping at the first that throws:
      the stage events and the error thrown, if any. */
  function RunStages(h: Handler, target: Value, k: nat): (seq<Event>, Option<Value>)
    requires k <= |STAGES|
    decreases |STAGES| - k
  {
    if k == |STAGES| then ([], None)
    else
      var event := Stage(STAGES[k], target);
      match StageOutcome(h, STAGES[k])
      case Throws(e) => ([event], Some(e))
      case Returns =>
        var rest := RunStages(h, target, k + 1);
        ([event] + rest.0, rest.1)
  }

  /** triggerInternalError: onError runs; if it throws, nothing catches it. */
  function InternalError(h: Handler, e: Value): (r: seq<Event>)
    ensures |r| >= 1 && r[0] == ErrorHandled(e)
    ensures (exists ev :: ev in r && ev.Unhandled?) <==> h.onError.Throws?
    ensures forall ev :: ev in r && ev.Unhandled? ==> h.onError.Throws? && ev.error == h.onError.error
    ensures forall ev :: ev in r ==> !ev.Stage? && !ev.Hook? && !ev.Warned? && !ev.ValidationErrorHandled?
  {
    var r := [ErrorHandled(e)] + match h.onError
      case Returns => []
      case Throws(e2) => [Unhandled(e2)];
    assert h.onError.Throws? ==> r[1] in r;
    r
  }

  /** triggerValidationError: onValidationError runs; if it throws, onError takes over. */
  function ValidationFailure(h: Handler, error: ValidationError): (r: seq<Event>)
    ensures |r| >= 1 && r[0] == ValidationErrorHandled(error)
    ensures (exists ev :: ev in r && ev.ErrorHandled?) <==> h.onValidationError.Throws?
    ensures forall ev :: ev in r && ev.ErrorHandled? ==> h.onValidationError.Throws? && ev.error == h.onValidationError.error
    ensures forall ev :: ev in r ==> !ev.Stage? && !ev.Hook? && !ev.Warned?
  {
    var r := [ValidationErrorHandled(error)] + match h.onValidationError
      case Returns => []
      case Throws(e) => InternalError(h, e);
    assert h.onValidationError.Throws? ==> r[1] in r;
    r
  }

  /** `execute(validationResult)` for a matched route. */
  function Execute(route: InternalRoute, hooks: CallbackCollection, result: ValidationResult): (r: seq<Event>)
    ensures result.DidFail() ==> |r| >= 1 && r[0] == ValidationErrorHandled(result.errors[0])
    ensures !result.DidFail() ==> |Fired(hooks, BeforeEvent)| <= |r| && r[..|Fired(hooks, BeforeEvent)|] == Fired(hooks, BeforeEvent)
    ensures forall ev :: ev in r && ev.Stage? ==> !result.DidFail() && ev.target == result.target
    ensures forall ev :: ev in r && ev.Hook? ==> !result.DidFail()
    ensures forall ev :: ev in r ==> !ev.Warned?
  {
    if result.DidFail() then ValidationFailure(route.instance, result.errors[0])
    else
      RunStagesShape(route.instance, result.target, 0);
      var run := RunStages(route.instance, result.target, 0);
      var r := Fired(hooks, BeforeEvent) + run.0 +
        match run.1
        case None => Fired(hooks, AfterEvent)
        case Some(e) => InternalError(route.instance, e);
      assert r[..|Fired(hooks, BeforeEvent)|] == Fired(hooks, BeforeEvent);
      r
  }

  /** `route(packet)`: look the path `data[0]` up, validate, execute. */
  function Dispatch(routes: seq<InternalRoute>, hooks: CallbackCollection, v: Validators, data: seq<Value>): (r: seq<Event>)
    ensures (exists ev :: ev in r && ev.Warned?) <==> forall j :: 0 <= j < |routes| ==> !Matches(routes[j], At(data, 0))
    ensures forall ev :: ev in r && ev.Warned? ==> r == [Warned(At(data, 0))]
  {
    match FirstMatch(routes, At(data, 0))
    case None => assert Warned(At(data, 0)) in [Warned(At(data, 0))]; [Warned(At(data, 0))]
    case Some(i) => Execute(routes[i], hooks, Validate(v, routes[i].config.validation, data))
  }

  // ---- Counting handler calls

  /** How many times onError is called in a trace. */
  function ErrorHandlerCalls(trace: seq<Event>): nat {
    if trace == [] then 0
    else (if trace[0].ErrorHandled? then 1 else 0) + ErrorHandlerCalls(trace[1..])
  }

  lemma {:induction false} ErrorHandlerCallsAppend(a: seq<Event>, b: seq<Event>)
    ensures ErrorHandlerCalls(a + b) == ErrorHandlerCalls(a) + ErrorHandlerCalls(b)
  {
    if a != [] {
      assert (a + b)[0] == a[0];
      assert (a + b)[1..] == a[1..] + b;
      ErrorHandlerCallsAppend(a[1..], b);
    } else {
      assert a + b == b;
    }
  }

  lemma {:induction false} NoErrorHandlerCalls(trace: seq<Event>)
    requires forall k :: 0 <= k < |trace| ==> !trace[k].ErrorHandled?
    ensures ErrorHandlerCalls(trace) == 0
  {
    if trace != [] {
      NoErrorHandlerCalls(trace[1..]);
    }
  }

  /** triggerInternalError calls onError exactly once. */
  lemma InternalErrorCallsOnce(h: Handler, e: Value)
    ensures ErrorHandlerCalls(InternalError(h, e)) == 1
  {
    var trace := InternalError(h, e);
    assert trace[0] == ErrorHandled(e);
    var rest := trace[1..];
    if rest != [] {
      assert rest == [Unhandled(h.onError.error)];
      assert ErrorHandlerCalls(rest) == ErrorHandlerCalls(rest[1..]);
    }
  }

  /** The stage part of a run only holds stage events, one per stage run, in STAGES order. */
  lemma {:induction false} RunStagesShape(h: Handler, target: Value, k: nat)
    requires k <= |STAGES|
    ensures |RunStages(h, target, k).0| <= |STAGES| - k
    ensures forall j :: 0 <= j < |RunStages(h, target, k).0| ==>
              RunStages(h, target, k).0[j] == Stage(STAGES[k + j], target)
    ensures RunStages(h, target, k).1.None? <==>
              forall j :: k <= j < |STAGES| ==> StageOutcome(h, STAGES[j]).Returns?
    ensures RunStages(h, target, k).1.None? ==> |RunStages(h, target, k).0| == |STAGES| - k
    ensures RunStages(h, target, k).1.Some? ==>
              |RunStages(h, target, k).0| >= 1 &&
              StageOutcome(h, STAGES[k + |RunStages(h, target, k).0| - 1]) == Throws(RunStages(h, target, k).1.value) &&
              forall j :: k <= j < k + |RunStages(h, target, k).0| - 1 ==> StageOutcome(h, STAGES[j]).Returns?
    decreases |STAGES| - k
  {
    if k < |STAGES| && StageOutcome(h, STAGES[k]).Returns? {
      RunStagesShape(h, target, k + 1);
    }
  }

  /** The stage events of a run of the first n stages on target. */
  function StageEvents(target: Value, n: nat): (r: seq<Event>)
    requires n <= |STAGES|
  {
    seq(n, j requires 0 <= j < n => Stage(STAGES[j], target))
  }

  /** If stage k is the first to throw, the run is stages 0..k and that stage's error. */
  lemma FirstThrowingStageRun(h: Handler, target: Value, k: nat, e: Value)
    requires k < |STAGES|
    requires forall j :: 0 <= j < k ==> StageOutcome(h, STAGES[j]).Returns?
    requires StageOutcome(h, STAGES[k]) == Throws(e)
    ensures RunStages(h, target, 0) == (StageEvents(target, k + 1), Some(e))
  {
    RunStagesShape(h, target, 0);
    var run := RunStages(h, target, 0);
    assert run.1.Some?;
    var n := |run.0|;
    assert n - 1 == k;
    assert run.0 == StageEvents(target, k + 1);
  }

  // ---- Properties of one dispatch

  /** A packet whose path matches no route only causes a log warning. */
  lemma UnmatchedPacketOnlyWarns(routes: seq<InternalRoute>, hooks: CallbackCollection, v: Validators, data: seq<Value>)
    requires forall j :: 0 <= j < |routes| ==> !Matches(routes[j], At(data, 0))
    ensures Dispatch(routes, hooks, v, data) == [Warned(At(data, 0))]
  {
  }

  /** When every stage returns: beforeEvent callbacks, before, on, after, afterEvent callbacks. */
  lemma SuccessfulExecutionOrder(route: InternalRoute, hooks: CallbackCollection, result: ValidationResult)
    requires !result.DidFail()
    requires route.instance.before.Returns? && route.instance.on.Returns? && route.instance.after.Returns?
    ensures Execute(route, hooks, result) ==
      Fired(hooks, BeforeEvent)
      + [Stage(Before, result.target), Stage(On, result.target), Stage(After, result.target)]
      + Fired(hooks, AfterEvent)
    ensures ErrorHandlerCalls(Execute(route, hooks, result)) == 0
  {
    var h := route.instance;
    var t := result.target;
    RunStagesShape(h, t, 0);
    assert RunStages(h, t, 0).0 == [Stage(Before, t), Stage(On, t), Stage(After, t)];
    var trace := Execute(route, hooks, result);
    assert forall k :: 0 <= k < |trace| ==> !trace[k].ErrorHandled?;
    NoErrorHandlerCalls(trace);
  }

  /** The first stage that throws ends the chain: no later stage and no
      afterEvent callback runs, and onError is called exactly once, with its error. */
  lemma FirstThrowStopsChain(route: InternalRoute, hooks: CallbackCollection, result: ValidationResult, k: nat, e: Value)
    requires !result.DidFail()
    requires k < |STAGES|
    requires forall j :: 0 <= j < k ==> StageOutcome(route.instance, STAGES[j]).Returns?
    requires StageOutcome(route.instance, STAGES[k]) == Throws(e)
    ensures Execute(route, hooks, result) ==
      Fired(hooks, BeforeEvent) + StageEvents(result.target, k + 1) + InternalError(route.instance, e)
    ensures ErrorHandlerCalls(Execute(route, hooks, result)) == 1
  {
    FirstThrowingStageRun(route.instance, result.target, k, e);
    var pre := Fired(hooks, BeforeEvent) + StageEvents(result.target, k + 1);
    assert forall j :: 0 <= j < |pre| ==> !pre[j].ErrorHandled?;
    NoErrorHandlerCalls(pre);
    var post := InternalError(route.instance, e);
    InternalErrorCallsOnce(route.instance, e);
    ErrorHandlerCallsAppend(pre, post);
  }

  /** A failed validation only reaches onValidationError, with the first
      error; no callback and no stage runs; onError is called iff
      onValidationError throws, and then with what it threw. */
  lemma ValidationFailureRouting(route: InternalRoute, hooks: CallbackCollection, result: ValidationResult)
    requires result.DidFail()
    ensures Execute(route, hooks, result)[0] == ValidationErrorHandled(result.errors[0])
    ensures forall ev :: ev in Execute(route, hooks, result) ==> !ev.Stage? && !ev.Hook?
    ensures route.instance.onValidationError.Returns? ==>
      Execute(route, hooks, result) == [ValidationErrorHandled(result.errors[0])]
    ensures route.instance.onValidationError.Throws? ==>
      Execute(route, hooks, result) ==
        [ValidationErrorHandled(result.errors[0])] + InternalError(route.instance, route.instance.onValidationError.error)
  {
  }

  /** onError is called at most once per dispatched packet. */
  lemma ErrorHandlerAtMostOnce(routes: seq<InternalRoute>, hooks: CallbackCollection, v: Validators, data: seq<Value>)
    ensures ErrorHandlerCalls(Dispatch(routes, hooks, v, data)) <= 1
  {
    var trace := Dispatch(routes, hooks, v, data);
    match FirstMatch(routes, At(data, 0))
    case None =>
      NoErrorHandlerCalls(trace);
    case Some(i) =>
      var route := routes[i];
      var h := route.instance;
      var result := Validate(v, route.config.validation, data);
      if result.DidFail() {
        var head := [ValidationErrorHandled(result.errors[0])];
        NoErrorHandlerCalls(head);
        match h.onValidationError
        case Returns =>
          assert trace == head;
        case Throws(e) =>
          var tail := InternalError(h, e);
          InternalErrorCallsOnce(h, e);
          ErrorHandlerCallsAppend(head, tail);
      } else if h.before.Throws? {
        FirstThrowStopsChain(route, hooks, result, 0, h.before.error);
      } else if h.on.Throws? {
        FirstThrowStopsChain(route, hooks, result, 1, h.on.error);
      } else if h.after.Throws? {
        FirstThrowStopsChain(route, hooks, result, 2, h.after.error);
      } else {
        SuccessfulExecutionOrder(route, hooks, result);
      }
  }

  /** A model-validated route given no user data: the single "all
      properties missing" error goes to onValidationError, and before, on
      and after never run. */
  lemma AbsentPayloadNeverRunsStages(routes: seq<InternalRoute>, hooks: CallbackCollection, v: Validators, data: seq<Value>, i: nat)
    requires FirstMatch(routes, At(data, 0)) == Some(i)
    requires routes[i].config.validation.ByModel?
    requires !Truthy(At(data, 1))
    ensures Dispatch(routes, hooks, v, data)[0] == ValidationErrorHandled(ABSENT_DATA_ERROR)
    ensures forall ev :: ev in Dispatch(routes, hooks, v, data) ==> !ev.Stage?
  {
  }

  /** A route without a validation strategy runs its before stage on `{}`, not on the payload. */
  lemma NoValidationRunsOnEmptyObject(routes: seq<InternalRoute>, hooks: CallbackCollection, v: Validators, data: seq<Value>, i: nat)
    requires FirstMatch(routes, At(data, 0)) == Some(i)
    requires routes[i].config.validation.NoValidation?
    ensures Dispatch(routes, hooks, v, data)[..|Fired(hooks, BeforeEvent)| + 1]
         == Fired(hooks, BeforeEvent) + [Stage(Before, EmptyObject)]
  {
  }

  /** Every stage a route without a validation strategy reaches (before, on and after) sees `{}`. */
  lemma NoValidationStagesSeeEmptyObject(routes: seq<InternalRoute>, hooks: CallbackCollection, v: Validators, data: seq<Value>, i: nat)
    requires FirstMatch(routes, At(data, 0)) == Some(i)
    requires routes[i].config.validation.NoValidation?
    ensures forall ev :: ev in Dispatch(routes, hooks, v, data) ==> ev.Stage? ==> ev.target == EmptyObject
  {
  }

  /** Callbacks registered for validation errors are never run by the router. */
  lemma ValidationErrorHooksNeverRun(routes: seq<InternalRoute>, hooks: CallbackCollection, v: Validators, data: seq<Value>)
    ensures forall ev :: ev in Dispatch(routes, hooks, v, data) ==> ev.Hook? ==> ev.kind != ValidationErrorHook
  {
  }

  /** The nested route "/profile" of a route registered as "users" is pushed as one entry, "users/profile". */
  lemma NestedProfileEntries(usersType: RouteType, nested: NestedRoute, profileEntry: InternalRoute)
    requires usersType.nested == [nested]
    requires nested.config == RouteConfig("/profile", NoValidation) && nested.route.nested == []
    requires profileEntry == InternalRoute(RouteConfig("users/profile", NoValidation), nested.route.handler)
    ensures NestedEntries(usersType, "users", 1) == [profileEntry]
  {
    assert Nest(nested, "users") == RouteConfig("users/profile", NoValidation);
    assert Expand(nested.route, Nest(nested, "users")) == [profileEntry];
  }

  /** A route "users" with a nested route declared as "/profile": the nested
      route is registered first, under the joined path "users/profile". */
  lemma NestedRouteRegistration(users: Handler, profile: Handler)
    ensures
      var usersConfig := RouteConfig("users", NoValidation);
      var profileType := RouteType(None, [], profile);
      var usersType := RouteType(Some(usersConfig), [NestedRoute("profile", RouteConfig("/profile", NoValidation), profileType)], users);
      BulkEntries([usersType])
        == [InternalRoute(RouteConfig("users/profile", NoValidation), profile), InternalRoute(usersConfig, users)]
  {
    var usersConfig := RouteConfig("users", NoValidation);
    var profileType := RouteType(None, [], profile);
    var nested := NestedRoute("profile", RouteConfig("/profile", NoValidation), profileType);
    var usersType := RouteType(Some(usersConfig), [nested], users);
    var profileEntry := InternalRoute(RouteConfig("users/profile", NoValidation), profile);
    NestedProfileEntries(usersType, nested, profileEntry);
    var routes := [profileEntry, InternalRoute(usersConfig, users)];
    assert Expand(usersType, usersConfig) == routes;
    assert [usersType][1..] == [];
    assert BulkEntries([usersType]) == routes + BulkEntries([]);
  }

  /** In that registration, a packet for "users/profile" reaches the nested
      route's instance, and (without a validation strategy) its stages see `{}`. */
  lemma NestedRouteScenario(users: Handler, profile: Handler, hooks: CallbackCollection, v: Validators, payload: Value)
    ensures
      var routes := [InternalRoute(RouteConfig("users/profile", NoValidation), profile), InternalRoute(RouteConfig("users", NoValidation), users)];
      Resolve(routes, Str("users/profile")) == Some(InternalRoute(RouteConfig("users/profile", NoValidation), profile))
      && Dispatch(routes, hooks, v, [Str("users/profile"), payload])
         == Execute(InternalRoute(RouteConfig("users/profile", NoValidation), profile), hooks, ValidationResult(EmptyObject, []))
  {
    var routes := [InternalRoute(RouteConfig("users/profile", NoValidation), profile), InternalRoute(RouteConfig("users", NoValidation), users)];
    assert FirstMatch(routes, Str("users/profile")) == Some(0);
    var data := [Str("users/profile"), payload];
    assert At(data, 0) == Str("users/profile");
    assert Validate(v, NoValidation, data) == ValidationResult(EmptyObject, []);
  }
}
