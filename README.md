# SRocket dispatch core, modelled in Dafny

SRocket is a request-dispatch layer over socket.io. A `Router` holds an
ordered array of registered routes. A route class may declare nested routes,
and their paths are prefixed with the parent's path. For each inbound packet
`[path, userData, ack]` the router finds the first route whose path is
`data[0]`, validates the user data (no strategy, a model class or a rule
schema) and runs the route instance's stages. A validation failure goes to
`onValidationError(errors[0])`. A success runs the beforeEvent callbacks,
`before`, `on`, `after` and the afterEvent callbacks, and the first stage that
throws hands its error to `onError`. Handlers answer through a `Response`
builder: a status, a message and a payload, sent as one envelope
`{message, status, payload}` on the route's event name. `SocketPacket` is an
indexed view of a packet's data array.

Files and modules:

- `values.dfy` (`Values`): JavaScript values, truthiness, and reading and writing array indices (an array written past its end grows).
- `routes.dfy` (`Routes`): route configuration, route classes with their nested-route declarations, handler outcomes, registered routes.
- `router_registry.dfy` (`Registry`): what registration pushes (`Expand`, `BulkEntries`) and first-match lookup (`FirstMatch`), with lemmas.
- `router_validation.dfy` (`Validation`): `validateWithModel`, `validateWithRules` and the choice between them.
- `router_pipeline.dfy` (`Pipeline`): callback collections, the events a dispatch causes, and a specification of `execute` and `route` as functions, with lemmas.
- `router.dfy` (`Routing`): class `Router`, whose methods update `routes` and `callbacks` and are proved against the `Registry` and `Pipeline` functions.
- `response.dfy` (`Responses`): class `Response` and an `Outbox` that stands for the transport.
- `socket_packet.dfy` (`Packets`): class `SocketPacket` over a shared `DataArray`.

Modelling choices:

- Decorator metadata and the scan of instance properties are replaced by
  explicit data. A `RouteType` carries the configuration its class
  decorator declares (if any), the list of its nested-route properties in
  enumeration order, and the handler.
- A route instance is a `Handler`. For each of `before`, `on`, `after`,
  `onError` and `onValidationError` it records whether the call returns or
  throws (and with what).
- The validation library (`getModelProps`, `populateObject`,
  `Validator.validateClass`, `Validator.validateSchema`) is a record of
  arbitrary functions held by the router. Every property is proved for all
  of them.
- A dispatch is the sequence of events it causes: a log warning, callback
  runs, stage calls with the request's target, `onValidationError` calls,
  `onError` calls, and an error escaping from `onError`.
- The transport is an `Outbox` whose list of emissions the send methods
  extend. An emission records the channel, the event name and the
  envelope. The channel is the socket.io call used.

Behaviour of the code that the model keeps, and assumptions about files outside the model:

- No strategy: the stages get the target `{}`, not the payload.
- `toIndividualSocket(id)` emits through `socket.to(id)`. That is the same call `toAllInRoom_ExceptSender` makes, so both produce a `SocketTo` emission.
- Callbacks registered under `onValidationError` are stored but never run by `Router.ts` (`Pipeline.ValidationErrorHooksNeverRun`).
- `Response.getEventRoute` reads `route.config.route`, while the router stores the path in `config.path`. `RouteConfig` is not part of this model. The event name is taken to be the route's configured path.
- `STATUS_CODES.INTERNAL_SERVER_ERROR` is taken to be 500 (section 15.6.1 of RFC 9110). `StatusCode` is not part of this model.
- A top-level `register` with neither a given nor a declared configuration is modelled as failing before anything is pushed. `InternalRoute.getRoutePath()` at `Router.ts:63` reads the missing configuration; `InternalRoute` is not part of this model. `registerBulk` stops at such a route, as the exception would stop it.

## Model

| member | source | states |
|---|---|---|
| `Values.StoreAt` | lib/src/structures/SocketPacket.ts:33-41 | after `a[i] = v`, index i reads v and every other index reads what it read before, including past the old end |
| `Values.Store` | lib/src/structures/SocketPacket.ts:34 | writing index i leaves the array's length unchanged when i is inside it, and makes it i + 1 otherwise |
| `Registry.FirstMatch` | lib/src/router/Router.ts:97-105 | the index found matches the key and no earlier route matches; None exactly when no route matches |
| `Registry.FirstMatchAppend` | lib/src/router/Router.ts:97-105 | appending routes never changes a successful lookup (an earlier duplicate path always wins); this holds for the model's entries, which each own a copy of their configuration (see the aliasing line under "Left out") |
| `Registry.FirstMatchAppendMiss` | lib/src/router/Router.ts:97-105 | a lookup that fails on the old routes finds the first match among the appended routes, offset by the old length |
| `Registry.ExpandSize` | lib/src/router/Router.ts:59-83 | register pushes exactly one entry per route of the nested tree |
| `Registry.Expand` | lib/src/router/Router.ts:59-83 | the entries register pushes end with the route itself under the chosen configuration, and every pushed path starts with that configuration's path |
| `Registry.NestedEntries` | lib/src/router/Router.ts:75-80 | every entry pushed for the nested routes has a path that starts with the parent's path |
| `Registry.ParentPushedLast` | lib/src/router/Router.ts:75-82 | the route's own entry, with the chosen configuration, is pushed last, after all entries of its nested routes |
| `Registry.EntryPathIsConcatenation` | lib/src/router/Router.ts:77-78 | the stored path of a route at any depth is the root's path followed by every declared path on the way down |
| `Registry.ChainEntryRegistered` | lib/src/router/Router.ts:75-82 | every route of the nested tree, at any depth, is registered; a nested one ahead of its root |
| `Registry.RegisteredEntryHasChain` | lib/src/router/Router.ts:59-83 | every entry register pushes belongs to one route of the nested tree |
| `Registry.NestedShadowsParent` | lib/src/router/Router.ts:75-82 | a nested route whose resolved path equals its root's path is found first, so the root's entry is never returned for that path |
| `Registry.BulkEntries` | lib/src/router/Router.ts:53-57 | an entry is registered exactly when it belongs to the expansion of a route class in the batch such that neither it nor any class before it lacks a declared configuration (registration stops at the first class whose lookup throws) |
| `Registry.BulkEntriesAppend` | lib/src/router/Router.ts:53-57 | registering two lists of routes one after the other gives the same routes as registering their concatenation |
| `Validation.ValidateWithModel` | lib/src/router/Router.ts:157-175 | validation succeeds exactly when the payload is truthy, population gives no errors and class validation passes; a failure has target null; when class validation fails its errors are the result's errors |
| `Validation.ValidateWithRules` | lib/src/router/Router.ts:177-180 | the result is the schema validator's verdict on `data[1]`, and on `undefined` when the packet has no second element |
| `Validation.Validate` | lib/src/router/Router.ts:143-153 | with no strategy it succeeds on `{}`; with a model and a falsy payload it fails with the "all properties missing" error; a failed model validation has target null; with rules it is the schema validator's verdict on `data[1]` |
| `Validation.AbsentPayloadFails` | lib/src/router/Router.ts:158-161 | a missing or falsy payload fails with the single AbsentPropertyError on field "*" |
| `Validation.PopulationErrorsShortCircuit` | lib/src/router/Router.ts:163-166 | population errors are the result, and class validation is not consulted |
| `Validation.ModelSuccessTarget` | lib/src/router/Router.ts:168-174 | a successful model validation passes on class validation's target |
| `Validation.RulesSeeRawPayload` | lib/src/router/Router.ts:177-180 | rule validation checks the raw payload, even an absent one, and its result is kept unchanged |
| `Validation.NoValidationSucceedsEmpty` | lib/src/router/Router.ts:143-145 | with no strategy, validation succeeds with the empty object as target |
| `Pipeline.CallbackCollection.Add` | lib/src/router/Router.ts:85-87 | a callback joins the end of its own type's list and the other lists are unchanged |
| `Pipeline.InternalError` | lib/src/router/Router.ts:115-117 | onError is called first, with the error; an unhandled error appears exactly when onError throws, and it is what onError threw; no stage, callback or validation handler runs |
| `Pipeline.ValidationFailure` | lib/src/router/Router.ts:107-113 | onValidationError is called first, with the error; onError is called exactly when onValidationError throws, with what it threw; no stage or callback runs |
| `Pipeline.Execute` | lib/src/router/Router.ts:124-141 | a failed validation starts with onValidationError on errors[0]; a successful one starts with the beforeEvent callbacks; stages and callbacks run only after a successful validation, and stages see its target; nothing is logged as unknown |
| `Pipeline.Dispatch` | lib/src/router/Router.ts:44-51 | the unknown-path warning is logged exactly when no route matches `data[0]`, and then it is the whole trace |
| `Pipeline.InternalErrorCallsOnce` | lib/src/router/Router.ts:115-117 | triggerInternalError calls onError exactly once |
| `Pipeline.RunStagesShape` | lib/src/router/Router.ts:131-134 | the stages run in the order before, on, after on the request's target; the run stops at the first that throws, and it ends without error exactly when every stage returns |
| `Pipeline.FirstThrowingStageRun` | lib/src/router/Router.ts:131-134 | when stage k is the first to throw, stages 0..k run and the reported error is stage k's |
| `Pipeline.UnmatchedPacketOnlyWarns` | lib/src/router/Router.ts:44-48 | a packet whose path matches no route only logs a warning: no validation, no callback, no handler |
| `Pipeline.SuccessfulExecutionOrder` | lib/src/router/Router.ts:128-136 | a successful run is: beforeEvent callbacks, before, on, after, afterEvent callbacks, with no onError call |
| `Pipeline.FirstThrowStopsChain` | lib/src/router/Router.ts:128-139 | the first throwing stage skips the later stages and the afterEvent callbacks, and onError runs exactly once with its error |
| `Pipeline.ValidationFailureRouting` | lib/src/router/Router.ts:107-113 | a failed validation only reaches onValidationError with errors[0]; onError runs exactly when that handler throws, with what it threw |
| `Pipeline.ErrorHandlerAtMostOnce` | lib/src/router/Router.ts:44-139 | onError is called at most once per dispatched packet |
| `Pipeline.AbsentPayloadNeverRunsStages` | lib/src/router/Router.ts:147-161 | a model-validated route given no user data sends the "all properties missing" error to onValidationError and never runs before, on or after |
| `Pipeline.NoValidationRunsOnEmptyObject` | lib/src/router/Router.ts:143-145 | a route without a strategy runs its before stage on `{}`, right after the beforeEvent callbacks |
| `Pipeline.NoValidationStagesSeeEmptyObject` | lib/src/router/Router.ts:128-145 | every stage (before, on and after) of a route without a strategy sees `{}`, not the payload |
| `Pipeline.ValidationErrorHooksNeverRun` | lib/src/router/Router.ts:41 | no dispatch runs a callback registered under onValidationError |
| `Pipeline.NestedRouteRegistration` | lib/src/router/Router.ts:53-83 | registering "users" with a nested "/profile" pushes "users/profile" first and then "users" |
| `Pipeline.NestedRouteScenario` | lib/src/router/Router.ts:44-51 | with those two entries, a packet for "users/profile" reaches the nested route's instance, whose stages see `{}` |
| `Routing.Router.constructor` | lib/src/router/Router.ts:35-42 | a new router has no routes and three empty callback collections |
| `Routing.Router.Register` | lib/src/router/Router.ts:59-83 | pushes exactly the entries of `Expand` for the chosen configuration (a given configuration overrides the declared one); without one nothing changes |
| `Routing.Router.RegisterBulk` | lib/src/router/Router.ts:53-57 | leaves routes as successive registrations of the arguments would, stopping at the first that fails |
| `Routing.Router.RegisterCallback` | lib/src/router/Router.ts:85-87 | appends the callback to its type's collection and leaves the routes unchanged |
| `Routing.Router.FindRoute` | lib/src/router/Router.ts:97-105 | returns the earliest route whose path equals data[0], and None exactly when there is none |
| `Routing.Router.ExecuteFor` | lib/src/router/Router.ts:130 | runs the callbacks of one type, all of them, in registration order |
| `Routing.Router.TriggerInternalError` | lib/src/router/Router.ts:115-117 | calls onError once; an error it throws escapes |
| `Routing.Router.TriggerValidationError` | lib/src/router/Router.ts:107-113 | calls onValidationError, and onError with the error it throws |
| `Routing.Router.ExecuteRoute` | lib/src/router/Router.ts:124-141 | produces the events that `Pipeline.Execute` specifies |
| `Routing.Router.InvokeRoute` | lib/src/router/Router.ts:119-155 | validates by the route's strategy and executes with that outcome |
| `Routing.Router.Route` | lib/src/router/Router.ts:44-51 | produces the events that `Pipeline.Dispatch` specifies for the current routes and callbacks |
| `Responses.Escalated` | lib/src/io/Response.ts:50-58 | the status after error is at least 499, a status of 499 or more is kept, and anything else becomes 500 |
| `Responses.EscalatedIdempotent` | lib/src/io/Response.ts:50-58 | escalation is idempotent, so error applied twice leaves the same state as once |
| `Responses.Outbox.constructor` | lib/src/io/Response.ts:62-85 | the transport starts with nothing sent |
| `Responses.Response.constructor` | lib/src/io/Response.ts:12-19 | a new response has status 200, message "" and no data |
| `Responses.Response.Status` | lib/src/io/Response.ts:23-26 | sets only the status and returns the same response |
| `Responses.Response.WithData` | lib/src/io/Response.ts:32-35 | sets only the data and returns the same response |
| `Responses.Response.Message` | lib/src/io/Response.ts:41-44 | sets only the message and returns the same response |
| `Responses.Response.Error` | lib/src/io/Response.ts:50-58 | sets the message, escalates the status as `Escalated` says, keeps the data |
| `Responses.Response.Relay` | lib/src/io/Response.ts:62-64 | emits the current envelope on the route's event to the sender and leaves the response unchanged |
| `Responses.Response.ToAllExceptSender` | lib/src/io/Response.ts:66-68 | emits the current envelope through the sender's broadcast and leaves the response unchanged |
| `Responses.Response.ToAllInRoomExceptSender` | lib/src/io/Response.ts:70-73 | emits the current envelope through socket.to(room) and leaves the response unchanged |
| `Responses.Response.ToAllInRoom` | lib/src/io/Response.ts:75-77 | emits the current envelope through server.in(room) and leaves the response unchanged |
| `Responses.Response.ToAllInNamespace` | lib/src/io/Response.ts:79-81 | emits the current envelope through server.of(namespace), namespace "/" by default |
| `Responses.Response.ToIndividualSocket` | lib/src/io/Response.ts:83-85 | emits the current envelope through socket.to(id) and leaves the response unchanged |
| `Responses.Response.FormatPayload` | lib/src/io/Response.ts:100-106 | the envelope is exactly the current message, status and data |
| `Responses.ResponseClient` | lib/src/io/Response.ts:12-85 | in the outbox, after what was already sent: a fresh response's send carries 200, "" and no data on the route's event; after `error` twice, a namespace send carries the message with status 500 (not escalated further); the next send repeats that envelope on the same event |
| `Packets.DataArray.constructor` | lib/src/structures/SocketPacket.ts:5 | an array holds exactly the given items |
| `Packets.SocketPacket.constructor` | lib/src/structures/SocketPacket.ts:7-9 | a fresh packet has a new, empty data array |
| `Packets.SocketPacket.FromSocketIOPacket` | lib/src/structures/SocketPacket.ts:11-19 | copies type, nsp and id unchanged, and shares the same data array |
| `Packets.SocketPacket.SetRoutePath` | lib/src/structures/SocketPacket.ts:33-36 | afterwards the path reads back as given, every other index is unchanged, and the same packet is returned |
| `Packets.SocketPacket.SetUserData` | lib/src/structures/SocketPacket.ts:38-41 | afterwards the user data reads back as given, the path, the ack and every other index are unchanged, and the same packet is returned |
| `Packets.SharedDataClient` | lib/src/structures/SocketPacket.ts:11-36 | setting the path through a packet made by fromSocketIOPacket also changes the transport packet's array |

The getters (`GetStatus`, `GetData`, `GetMessage`, `GetEventRoute`,
`GetRoutePath`, `GetUserData`, `GetAck`) are plain reads. The contracts of
`FormatPayload`, `SetRoutePath` and `SetUserData` state what they return.

## Left out

- The socket.io transport (`socket.emit`, `broadcast`, `to`, `server.in`, `server.of`) is not modelled. Each send is a record in an `Outbox`; rooms, namespaces and delivery are not modelled.
- Decorator metadata and property enumeration (`Router.ts:66-73`, `89-95`) are replaced by the explicit `declared` and `nested` fields of `RouteType`.
- `nestedRoute.key.path = …` (`Router.ts:77`) rewrites the nested-route metadata object itself, and `Router.ts:61` and `78` store that same object in the pushed `InternalRoute`. So all entries made from one nested declaration share one configuration object. The model gives each entry its own copy (`Nest`), so it does not capture this aliasing. Example: register class A (`{path: "a"}`, with a nested B declared as `"/b"`) twice. The second registration rewrites the shared object to `"aa/b"`, so both B entries then read `"aa/b"`, and `findRoute("a/b")` returns `null`. In the model the first B entry keeps `"a/b"`. `FirstMatchAppend` and the `Register` contract therefore hold for the model's copies, not for the source when a class is registered more than once.
- `new route()` is not modelled as an allocation. An instance is represented by its `Handler`, and instance identity and per-instance state are not modelled.
- Handler stages have a fixed outcome per route. They do not depend on the request, and their own sends through the response are not part of the trace.
- The model does not say which `Response` object each handler sees. `invokeRoute` shares one `Response` between `before`, `on` and `after`, and `triggerValidationError` and `triggerInternalError` each build a new one.
- `Request` objects are reduced to the target the stages receive. The socket and packet they also carry are not modelled.
- Asynchrony (`Promise`, `await`, the never-resolved promise of `invokeRoute`) is not modelled: each dispatch runs sequentially to completion.
- `Throws` means two things. For `before`, `on` and `after` it means the call throws or returns a rejected promise, since they are awaited inside the `try` (`Router.ts:132-134`). For `onValidationError` (`Router.ts:109`) and `onError` (`Router.ts:116`) it means only a synchronous throw: their results are not awaited, so a rejected promise from them is neither caught nor reported as `Unhandled`, and the model does not represent it.
- A route configuration with both `model` and `data` makes `invokeRoute` run `execute` twice (`Router.ts:147-153`). `ValidationSpec` allows only one strategy, so the model cannot express this case.
- `CallbackCollection` internals are not modelled. Callbacks are taken to run in registration order and never throw. In the source a throwing beforeEvent/afterEvent callback sits inside the `try` and would reach `onError`; the model does not capture this.
- `ConsoleLogger` output is not modelled, except for the warning on an unknown path, which is the `Warned` event. The info line at registration is not modelled.
- JavaScript numbers are modelled as unbounded integers: NaN, fractions and floating point are not modelled.
- `Response.getSocket` and the `server` field only hand back collaborators, so they are not modelled.
- samples/Base/Server.ts (process bootstrap and listen) and lib/src/config/ExecutionContext.ts (a configuration holder with defaults and no logic) are not part of this model.
