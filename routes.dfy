/** The data a route is made of: its configuration, the outcomes of its
    handler stages, and its nested-route declarations. */
module Routes {
  import opened Values

  /** A model class named in a route's `model` configuration. */
  datatype ModelType = ModelType(name: string)

  /** A rule map named in a route's `data` configuration. */
  datatype RuleSchema = RuleSchema(rules: map<string, string>)

  /** The validation strategy of a route: at most one of `model` and `data`. */
  datatype ValidationSpec =
    | NoValidation
    | ByModel(model: ModelType)
    | ByRules(schema: RuleSchema)

  /** A route configuration (RouteConfig): the path and the validation strategy. */
  datatype RouteConfig = RouteConfig(path: string, validation: ValidationSpec)

  /** What one call of a handler operation does: return or throw. */
  datatype Outcome = Returns | Throws(error: Value)

  /** A route instance, seen through what each of its operations does. */
  datatype Handler = Handler(
    before: Outcome,
    on: Outcome,
    after: Outcome,
    onError: Outcome,
    onValidationError: Outcome)

  /** A route class: the configuration its class decorator declares (if any),
      the properties of its instances that carry a nested-route declaration
      (in property-enumeration order), and what its instances do. */
  datatype RouteType = RouteType(declared: Option<RouteConfig>, nested: seq<NestedRoute>, handler: Handler)

  /** A property declared as a nested route: its metadata and its route class. */
  datatype NestedRoute = NestedRoute(property: string, config: RouteConfig, route: RouteType)

  /** A registered route (InternalRoute): its configuration and its instance. */
  datatype InternalRoute = InternalRoute(config: RouteConfig, instance: Handler)
}
