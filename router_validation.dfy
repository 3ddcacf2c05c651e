/** The two validation strategies of the router (Router.validateWithModel
    and Router.validateWithRules) and the choice between them. */
module Validation {
  import opened Values
  import opened Routes

  /** A validation error: the field it concerns and a message. */
  datatype ValidationError =
    | AbsentPropertyError(message: string, property: string)
    | FieldError(message: string, property: string)

  /** A validation outcome (ValidationResult): a target and the errors; it failed iff there are errors. */
  datatype ValidationResult = ValidationResult(target: Value, errors: seq<ValidationError>) {
    predicate DidFail() {
      |errors| > 0
    }
  }

  /** The result of populateObject: the populated object and the population errors. */
  datatype Population = Population(populated: Value, errors: seq<ValidationError>)

  /** The validation library the router calls; its internals are not part of this model. */
  datatype Validators = Validators(
    modelProps: ModelType -> seq<string>,                      // getModelProps
    populate: (ModelType, Value, seq<string>) -> Population,   // populateObject
    validateClass: Value -> ValidationResult,                  // Validator.validateClass
    validateSchema: (RuleSchema, Value) -> ValidationResult)   // Validator.validateSchema

  const ABSENT_DATA_MESSAGE := "Got no data from the socket! All Properties are missing!"

  /** The error reported when a packet carries no user data; "*" stands for every property. */
  const ABSENT_DATA_ERROR := AbsentPropertyError(ABSENT_DATA_MESSAGE, "*")

  /** Model validation of the user data `data[1]`: a falsy payload fails
      outright; otherwise the model is populated from it, population errors
      fail; otherwise the populated object is validated as a class. */
  function ValidateWithModel(v: Validators, model: ModelType, data: seq<Value>): (r: ValidationResult)
    ensures r.DidFail() ==> r.target == Null
    ensures !r.DidFail() <==>
      Truthy(At(data, 1))
      && |v.populate(model, At(data, 1), v.modelProps(model)).errors| == 0
      && !v.validateClass(v.populate(model, At(data, 1), v.modelProps(model)).populated).DidFail()
    ensures Truthy(At(data, 1))
      && |v.populate(model, At(data, 1), v.modelProps(model)).errors| == 0
      && v.validateClass(v.populate(model, At(data, 1), v.modelProps(model)).populated).DidFail()
      ==> r.errors == v.validateClass(v.populate(model, At(data, 1), v.modelProps(model)).populated).errors
  {
    var args := At(data, 1);
    if !Truthy(args) then ValidationResult(Null, [ABSENT_DATA_ERROR])
    else
      var population := v.populate(model, args, v.modelProps(model));
      if |population.errors| > 0 then ValidationResult(Null, population.errors)
      else
        var checked := v.validateClass(population.populated);
        if checked.DidFail() then ValidationResult(Null, checked.errors)
        else ValidationResult(checked.target, [])
  }

  /** Rule validation: the raw user data `data[1]` checked against the schema. */
  function ValidateWithRules(v: Validators, schema: RuleSchema, data: seq<Value>): (r: ValidationResult)
    ensures r == v.validateSchema(schema, At(data, 1))
    ensures |data| < 2 ==> r == v.validateSchema(schema, Undefined)
  {
    v.validateSchema(schema, At(data, 1))
  }

  /** The outcome `execute` receives for a route with the given strategy. */
  function Validate(v: Validators, spec: ValidationSpec, data: seq<Value>): (r: ValidationResult)
    ensures spec.NoValidation? ==> !r.DidFail() && r.target == EmptyObject
    ensures spec.ByModel? && !Truthy(At(data, 1)) ==> r.errors == [ABSENT_DATA_ERROR]
    ensures spec.ByModel? && r.DidFail() ==> r.target == Null
    ensures spec.ByRules? ==> r == v.validateSchema(spec.schema, At(data, 1))
  {
    match spec
    case NoValidation => ValidationResult(EmptyObject, [])
    case ByModel(model) => ValidateWithModel(v, model, data)
    case ByRules(schema) => ValidateWithRules(v, schema, data)
  }

  /** A missing or falsy payload fails model validation with the single
      "all properties missing" error, whatever the validators do. */
  lemma AbsentPayloadFails(v: Validators, model: ModelType, data: seq<Value>)
    requires !Truthy(At(data, 1))
    ensures ValidateWithModel(v, model, data).errors == [ABSENT_DATA_ERROR]
  {
  }

  /** Population errors short-circuit: they are the result, and class
      validation is never consulted (any other validateClass gives the same result). */
  lemma PopulationErrorsShortCircuit(v: Validators, model: ModelType, data: seq<Value>, otherClassCheck: Value -> ValidationResult)
    requires Truthy(At(data, 1))
    requires |v.populate(model, At(data, 1), v.modelProps(model)).errors| > 0
    ensures ValidateWithModel(v, model, data).errors == v.populate(model, At(data, 1), v.modelProps(model)).errors
    ensures ValidateWithModel(v.(validateClass := otherClassCheck), model, data) == ValidateWithModel(v, model, data)
  {
  }

  /** Success of model validation hands on class validation's target. */
  lemma ModelSuccessTarget(v: Validators, model: ModelType, data: seq<Value>)
    requires !ValidateWithModel(v, model, data).DidFail()
    ensures ValidateWithModel(v, model, data).target
         == v.validateClass(v.populate(model, At(data, 1), v.modelProps(model)).populated).target
  {
  }

  /** Rule validation sees the raw payload, even an absent one: there is no
      truthiness check before it, and its result is passed on unchanged. */
  lemma RulesSeeRawPayload(v: Validators, schema: RuleSchema, data: seq<Value>)
    ensures Validate(v, ByRules(schema), data) == v.validateSchema(schema, At(data, 1))
    ensures |data| < 2 ==> Validate(v, ByRules(schema), data) == v.validateSchema(schema, Undefined)
  {
  }

  /** Without a strategy validation always succeeds with `{}` as target, not the payload. */
  lemma NoValidationSucceedsEmpty(v: Validators, data: seq<Value>)
    ensures !Validate(v, NoValidation, data).DidFail()
    ensures Validate(v, NoValidation, data).target == EmptyObject
  {
  }
}
