/** `classValidate` of src/validator.ts: option merging and the assembly of a
    `ValidatorResult`. The transformation engine (`plainToInstance`) and the
    validation engine (`validate`) are foreign code and enter as parameters. */
module Validator {
  import opened Wrappers
  import opened ErrorTree
  import opened Format
  import FormatSpec

  /** An option value as JavaScript sees it. `Other` stands for any value the
      model does not interpret (a number, an array of groups, ...). */
  datatype Value = Undefined | Bool(b: bool) | Other(description: string)

  /** An options object: its own enumerable properties by name. */
  type Options = map<string, Value>

  /** Validation defaults: always run, strip undeclared properties, accept
      unknown values. */
  const ValidatorDefaults: Options :=
    map["always" := Bool(true), "whitelist" := Bool(true), "forbidUnknownValues" := Bool(false)]

  /** Transformation default: implicit primitive conversion. */
  const TransformDefaults: Options := map["enableImplicitConversion" := Bool(true)]

  /** What a caller passed for an optional options argument; an omitted
      argument (`undefined`) spreads no property. */
  function Supplied(options: Option<Options>): Options {
    options.GetOr(map[])
  }

  /** `{...defaults, ...options}`: every supplied property wins, even one whose
      value is `undefined`; every other default is kept; nothing else appears. */
  function MergeOptions(defaults: Options, options: Option<Options>): (r: Options)
    ensures r.Keys == defaults.Keys + Supplied(options).Keys
    ensures forall k :: k in Supplied(options) ==> r[k] == Supplied(options)[k]
    ensures forall k :: k in defaults && k !in Supplied(options) ==> r[k] == defaults[k]
  {
    defaults + Supplied(options)
  }

  /** The value a merged options object gives `key`: the caller's, else `default`. */
  function Chosen(options: Option<Options>, key: string, default: Value): Value {
    if key in Supplied(options) then Supplied(options)[key] else default
  }

  /** The validation options handed to the validation engine. */
  function EffectiveValidatorOptions(options: Option<Options>): (r: Options)
    ensures "always" in r && r["always"] == Chosen(options, "always", Bool(true))
    ensures "whitelist" in r && r["whitelist"] == Chosen(options, "whitelist", Bool(true))
    ensures "forbidUnknownValues" in r &&
            r["forbidUnknownValues"] == Chosen(options, "forbidUnknownValues", Bool(false))
    ensures forall k :: k in r ==> k in ValidatorDefaults || k in Supplied(options)
  {
    MergeOptions(ValidatorDefaults, options)
  }

  /** The transformation options handed to the transformation engine. */
  function EffectiveTransformOptions(options: Option<Options>): (r: Options)
    ensures "enableImplicitConversion" in r &&
            r["enableImplicitConversion"] == Chosen(options, "enableImplicitConversion", Bool(true))
    ensures forall k :: k in r ==> k in TransformDefaults || k in Supplied(options)
  {
    MergeOptions(TransformDefaults, options)
  }

  /** With no caller options the engines see exactly the defaults. */
  lemma MergeWithoutOptions(defaults: Options)
    ensures MergeOptions(defaults, None) == defaults
    ensures MergeOptions(defaults, Some(map[])) == defaults
  {
  }

  /** `ValidatorResult<T>`: `null` is `None`. */
  datatype ValidatorResult<T> = ValidatorResult(
    data: Option<T>,
    success: bool,
    errors: Option<seq<string>>)

  /** `classValidate(cls, obj, validateOptions, transformOptions)` with the two
      engines as parameters: transform under the merged transform options,
      validate under the merged validation options, then assemble the result. */
  function ClassValidate<C, R, T>(
    cls: C,
    obj: R,
    validateOptions: Option<Options>,
    transformOptions: Option<Options>,
    plainToInstance: (C, R, Options) -> T,
    validate: (T, Options) -> seq<ErrorNode>): (r: ValidatorResult<T>)
    ensures var instance := plainToInstance(cls, obj, EffectiveTransformOptions(transformOptions));
            var validationErrors := validate(instance, EffectiveValidatorOptions(validateOptions));
            && (r.success <==> validationErrors == [])
            && (r.success ==> r.data == Some(instance) && r.errors == None)
            && (!r.success ==> r.data == None && r.errors == Some(ArrayFormat(validationErrors)))
  {
    var instance := plainToInstance(cls, obj, EffectiveTransformOptions(transformOptions));
    var validationErrors := validate(instance, EffectiveValidatorOptions(validateOptions));
    var isValid := |validationErrors| == 0;
    ValidatorResult(
      if isValid then Some(instance) else None,
      isValid,
      if isValid then None else Some(ArrayFormat(validationErrors)))
  }

  /** A result carries data exactly when it succeeded, and messages (possibly
      none) exactly when it failed; a failed result has one message per
      reportable message of the error forest. */
  lemma ResultShape<C, R, T>(
    cls: C, obj: R,
    validateOptions: Option<Options>, transformOptions: Option<Options>,
    plainToInstance: (C, R, Options) -> T, validate: (T, Options) -> seq<ErrorNode>)
    ensures var r := ClassValidate(cls, obj, validateOptions, transformOptions, plainToInstance, validate);
            var validationErrors := validate(
              plainToInstance(cls, obj, EffectiveTransformOptions(transformOptions)),
              EffectiveValidatorOptions(validateOptions));
            && (r.data.Some? <==> r.success)
            && (r.errors.Some? <==> !r.success)
            && (!r.success ==> |r.errors.value| == FormatSpec.ReportableCount(validationErrors))
  {
    var validationErrors := validate(
      plainToInstance(cls, obj, EffectiveTransformOptions(transformOptions)),
      EffectiveValidatorOptions(validateOptions));
    FormatSpec.ArrayFormatLength(validationErrors);
  }

  /** A failed validation need not produce a message: a top-level container
      whose only child carries no constraints fails with an empty list. */
  lemma FailureWithoutMessages()
    ensures var r := ClassValidate(
              0, 0, None, None,
              (cls: int, obj: int, o: Options) => obj,
              (instance: int, o: Options) =>
                [ErrorNode("address", None, [ErrorNode("zip", None, [])])]);
            !r.success && r.data == None && r.errors == Some([])
  {
    var forest := [ErrorNode("address", None, [ErrorNode("zip", None, [])])];
    FormatSpec.ArrayFormatIsReported(forest);
  }
}
