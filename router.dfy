/** The router object (class Router): the registered routes and the
    callback collections it updates, and the operations that read them
    to dispatch a packet. */
module Routing {
  import opened Values
  import opened Routes
  import opened Registry
  import opened Validation
  import opened Pipeline

  class Router {
    /** The registered routes, in push order. */
    var routes: seq<InternalRoute>
    var callbacks: CallbackCollection
    /** The validation library the router calls. */
    const validators: Validators

    constructor (validators: Validators)
      ensures routes == [] && callbacks == NoCallbacks
      ensures this.validators == validators
    {
      routes := [];
      callbacks := NoCallbacks;
      this.validators := validators;
    }

    /** register(route, routeConfig?): registers the nested routes, each
        under the route's path, then pushes the route itself. Without a
        configuration to register it with, registration fails and nothing
        is pushed. */
    method Register(route: RouteType, routeConfig: Option<RouteConfig>) returns (ok: bool)
      modifies this
      ensures ok == ChosenConfig(routeConfig, route).Some?
      ensures ok ==> routes == old(routes) + Expand(route, ChosenConfig(routeConfig, route).value)
      ensures routeConfig.Some? ==> routes[|routes| - 1] == InternalRoute(routeConfig.value, route.handler)
      ensures !ok ==> routes == old(routes)
      ensures callbacks == old(callbacks)
      decreases route
    {
      if routeConfig.None? && route.declared.None? {
        return false;
      }
      var config := if routeConfig.Some? then routeConfig.value else route.declared.value;
      var internalRoute := InternalRoute(config, route.handler);
      var i := 0;
      while i < |route.nested|
        invariant 0 <= i <= |route.nested|
        invariant routes == old(routes) + NestedEntries(route, config.path, i)
        invariant callbacks == old(callbacks)
      {
        var nestedRoute := route.nested[i];
        var key := nestedRoute.config.(path := internalRoute.config.path + nestedRoute.config.path);
        var nestedOk := Register(nestedRoute.route, Some(key));
        i := i + 1;
      }
      routes := routes + [internalRoute];
      ok := true;
    }

    /** registerBulk(...routes): registers each route class in argument
        order, stopping at the first whose registration fails. */
    method RegisterBulk(rts: seq<RouteType>) returns (ok: bool)
      modifies this
      ensures ok <==> forall k :: 0 <= k < |rts| ==> rts[k].declared.Some?
      ensures routes == old(routes) + BulkEntries(rts)
      ensures callbacks == old(callbacks)
    {
      var i := 0;
      while i < |rts|
        invariant 0 <= i <= |rts|
        invariant forall k :: 0 <= k < i ==> rts[k].declared.Some?
        invariant routes + BulkEntries(rts[i..]) == old(routes) + BulkEntries(rts)
        invariant callbacks == old(callbacks)
      {
        assert rts[i..][0] == rts[i] && rts[i..][1..] == rts[i + 1..];
        var registered := Register(rts[i], None);
        if !registered {
          return false;
        }
        i := i + 1;
      }
      assert rts[i..] == [];
      ok := true;
    }

    /** registerCallback(type, callback). */
    method RegisterCallback(t: CallbackType, callback: Callback)
      modifies this
      ensures callbacks == old(callbacks).Add(t, callback)
      ensures routes == old(routes)
    {
      callbacks := callbacks.Add(t, callback);
    }

    /** findRoute(packet): the earliest registered route whose path is `data[0]`. */
    method FindRoute(data: seq<Value>) returns (r: Option<InternalRoute>)
      ensures r.None? <==> forall j :: 0 <= j < |routes| ==> !Matches(routes[j], At(data, 0))
      ensures r == Resolve(routes, At(data, 0))
    {
      var key := At(data, 0);
      var i := 0;
      while i < |routes|
        invariant 0 <= i <= |routes|
        invariant forall j :: 0 <= j < i ==> !Matches(routes[j], key)
      {
        if Str(routes[i].config.path) == key {
          return Some(routes[i]);
        }
        i := i + 1;
      }
      return None;
    }

    /** callbacks.executeFor(t): runs the callbacks of type t in registration order. */
    method ExecuteFor(t: CallbackType) returns (trace: seq<Event>)
      ensures trace == Fired(callbacks, t)
    {
      var list := callbacks.For(t);
      trace := [];
      for i := 0 to |list|
        invariant |trace| == i
        invariant forall k :: 0 <= k < i ==> trace[k] == Hook(t, list[k])
      {
        trace := trace + [Hook(t, list[i])];
      }
    }

    /** triggerInternalError: onError runs on a fresh response; what it throws escapes. */
    method TriggerInternalError(route: InternalRoute, error: Value) returns (trace: seq<Event>)
      ensures trace == InternalError(route.instance, error)
      ensures ErrorHandlerCalls(trace) == 1
    {
      trace := [ErrorHandled(error)];
      if route.instance.onError.Throws? {
        trace := trace + [Unhandled(route.instance.onError.error)];
      }
      InternalErrorCallsOnce(route.instance, error);
    }

    /** triggerValidationError: onValidationError runs; if it throws, onError runs with that error. */
    method TriggerValidationError(route: InternalRoute, error: ValidationError) returns (trace: seq<Event>)
      ensures trace == ValidationFailure(route.instance, error)
    {
      trace := [ValidationErrorHandled(error)];
      match route.instance.onValidationError
      case Returns =>
      case Throws(thrown) =>
        var handled := TriggerInternalError(route, thrown);
        trace := trace + handled;
    }

    /** `execute(validationResult)`: a failure goes to onValidationError;
        a success runs the beforeEvent callbacks, before, on, after and the
        afterEvent callbacks, and the first stage that throws hands its
        error to onError instead of running the rest. */
    method ExecuteRoute(route: InternalRoute, result: ValidationResult) returns (trace: seq<Event>)
      ensures trace == Execute(route, callbacks, result)
    {
      if result.DidFail() {
        trace := TriggerValidationError(route, result.errors[0]);
        return;
      }
      var h := route.instance;
      var target := result.target;
      RunStagesShape(h, target, 0);
      trace := ExecuteFor(BeforeEvent);
      ghost var preStages := trace;
      // try {
      trace := trace + [Stage(Before, target)];
      var outcome := h.before;
      if outcome.Returns? {
        trace := trace + [Stage(On, target)];
        outcome := h.on;
      }
      if outcome.Returns? {
        trace := trace + [Stage(After, target)];
        outcome := h.after;
      }
      assert trace == preStages + RunStages(h, target, 0).0;
      if outcome.Returns? {
        var after := ExecuteFor(AfterEvent);
        trace := trace + after;
      } else {
        // } catch (error) {
        var handled := TriggerInternalError(route, outcome.error);
        trace := trace + handled;
      }
    }

    /** invokeRoute: validates `data` by the route's strategy, then executes. */
    method InvokeRoute(route: InternalRoute, data: seq<Value>) returns (trace: seq<Event>)
      ensures trace == Execute(route, callbacks, Validate(validators, route.config.validation, data))
    {
      var result: ValidationResult;
      match route.config.validation {
        case NoValidation =>
          result := ValidationResult(EmptyObject, []);
        case ByModel(model) =>
          result := ValidateWithModel(validators, model, data);
        case ByRules(schema) =>
          result := ValidateWithRules(validators, schema, data);
      }
      trace := ExecuteRoute(route, result);
    }

    /** route(packet): an unknown path only logs a warning; a known one is invoked. */
    method Route(data: seq<Value>) returns (trace: seq<Event>)
      ensures trace == Dispatch(routes, callbacks, validators, data)
    {
      var route := FindRoute(data);
      if route.None? {
        return [Warned(At(data, 0))];
      }
      trace := InvokeRoute(route.value, data);
    }
  }
}
