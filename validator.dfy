/** The request validator middleware: `validate(schema)` checks the body,
    the query and the path parameters of a request against the schema's
    parts, `validateData` collects field errors against one part,
    `validateType` decides a type tag, and `formatErrors` turns the error
    list into a field → message map. */
module Validator {
  import opened JsValues
  import opened Patterns
  import opened ErrorHandler

  /** The rules for one property. An absent `type` is the empty name (both
      are falsy and equal to no known type). */
  datatype Rule = Rule(
    typeName: string,
    minLength: Option<int>,
    maxLength: Option<int>,
    minimum: Option<int>,
    maximum: Option<int>,
    pattern: Option<Pattern>,
    patternMessage: Option<string>,
    enumValues: seq<string>)

  /** One part of a schema: the required field names, and the property
      rules in their declaration order (the order `Object.entries` yields). */
  datatype ObjectSchema = ObjectSchema(required: seq<string>, properties: seq<(string, Rule)>)

  datatype Schema = Schema(body: Option<ObjectSchema>, query: Option<ObjectSchema>, params: Option<ObjectSchema>)

  datatype FieldError = FieldError(field: string, message: string)

  /** `{ error: errors }`, `{ value: data }`, or the exception that cut the
      checks short. */
  datatype Validation = Invalid(error: seq<FieldError>) | Valid(value: map<string, Value>) | Thrown(err: JsError)

  /** The error list built so far, or the exception that aborted the loop. */
  datatype Collected = Collected(errors: seq<FieldError>) | Aborted(err: JsError)

  /** The three parts of a request the validator reads. */
  datatype RequestParts = RequestParts(body: map<string, Value>, query: map<string, Value>, params: map<string, Value>)

  /** Express continuation: `next()` or `next(err)`. A synchronous throw in
      the middleware reaches the error handler as `next(err)` too. */
  datatype Next = Proceed | Reject(err: JsError)

  /** A rule with only a type tag. */
  function TypeRule(typeName: string): Rule {
    Rule(typeName, None, None, None, None, None, None, [])
  }

  const KnownTypes: set<string> := {"string", "number", "boolean", "object", "array"}

  /** `validateType(value, type)`. */
  function ValidateType(v: Value, typeName: string): bool
  {
    match typeName
    case "string" => v.Str?
    case "number" => v.Num?   // typeof 'number' and not NaN
    case "boolean" => v.Bool?
    case "object" => v.Obj?   // not null, not an array
    case "array" => v.Arr?
    case _ => true
  }

  /** The known type tags are mutually exclusive, and `null`, `undefined`
      and `NaN` pass none of them: a 'number' rejects `NaN`, an 'object'
      rejects `null` and arrays. */
  lemma TypeTagsExclusive(v: Value, t1: string, t2: string)
    requires t1 in KnownTypes && t2 in KnownTypes && t1 != t2
    ensures !(ValidateType(v, t1) && ValidateType(v, t2))
    ensures v.Null? || v.Undefined? || v.NaN? ==> !ValidateType(v, t1)
  {
  }

  /** A type tag the switch does not know lets every value through. */
  lemma UnknownTagAcceptsAll(v: Value, t: string)
    requires t !in KnownTypes
    ensures ValidateType(v, t)
  {
  }

  /** Every value other than `null`, `undefined` and `NaN` passes exactly
      one known type tag. */
  lemma EveryValueHasOneTag(v: Value)
    requires !v.Null? && !v.Undefined? && !v.NaN?
    ensures exists t :: t in KnownTypes && ValidateType(v, t)
  {
    var t := match v
      case Bool(_) => "boolean"
      case Num(_) => "number"
      case Str(_) => "string"
      case Arr(_) => "array"
      case Obj(_) => "object";
    assert t in KnownTypes && ValidateType(v, t);
  }

  /** The `TypeError` of reading `length` from `null`. */
  const NullLengthError := JsError("Cannot read properties of null (reading 'length')", None, None, false, "TypeError", None, [], [])

  /** A defined `null` under a 'string' rule with a truthy length bound:
      `value.length` is read, and reading it throws. */
  predicate ReadsNullLength(rules: Rule, v: Value) {
    rules.typeName == "string" && v.Null? && (TruthyInt(rules.minLength) || TruthyInt(rules.maxLength))
  }

  /** Some declared property makes the property loop throw. */
  predicate PropertiesThrow(data: map<string, Value>, properties: seq<(string, Rule)>) {
    exists i :: 0 <= i < |properties| && ReadsNullLength(properties[i].1, Get(data, properties[i].0))
  }

  /** `value.length`, when the value has one. */
  function LengthOf(v: Value): Option<int> {
    match v
    case Str(s) => Some(|s|)
    case Arr(items) => Some(|items|)
    case _ => None
  }

  /** `value.length < bound` (false when `length` is undefined). */
  predicate ShorterThan(v: Value, bound: int) { LengthOf(v).Some? && LengthOf(v).value < bound }
  predicate LongerThan(v: Value, bound: int) { LengthOf(v).Some? && LengthOf(v).value > bound }

  /** `value < bound` and `value > bound` on numbers. */
  predicate Below(v: Value, bound: int) { v.Num? && v.n < bound }
  predicate Above(v: Value, bound: int) { v.Num? && v.n > bound }

  function TypeMessage(f: string, t: string): string { f + " must be a " + t }
  function MinLengthMessage(f: string, n: int): string { f + " must be at least " + IntToString(n) + " characters" }
  function MaxLengthMessage(f: string, n: int): string { f + " must be at most " + IntToString(n) + " characters" }
  function MinimumMessage(f: string, n: int): string { f + " must be at least " + IntToString(n) }
  function MaximumMessage(f: string, n: int): string { f + " must be at most " + IntToString(n) }
  function RequiredMessage(f: string): string { f + " is required" }
  function PatternFailMessage(f: string, rules: Rule): string {
    if TruthyStr(rules.patternMessage) then rules.patternMessage.value else f + " has invalid format"
  }

  function TypeErrors(f: string, rules: Rule, v: Value): seq<FieldError> {
    if rules.typeName != "" && !ValidateType(v, rules.typeName) then [FieldError(f, TypeMessage(f, rules.typeName))] else []
  }

  /** Length bounds apply only under type 'string' and only when truthy. */
  function LengthErrors(f: string, rules: Rule, v: Value): seq<FieldError> {
    if rules.typeName != "string" then []
    else
      (if TruthyInt(rules.minLength) && ShorterThan(v, rules.minLength.value)
       then [FieldError(f, MinLengthMessage(f, rules.minLength.value))] else [])
      + (if TruthyInt(rules.maxLength) && LongerThan(v, rules.maxLength.value)
         then [FieldError(f, MaxLengthMessage(f, rules.maxLength.value))] else [])
  }

  /** Numeric bounds apply only under type 'number', whenever defined. */
  function RangeErrors(f: string, rules: Rule, v: Value): seq<FieldError> {
    if rules.typeName != "number" then []
    else
      (if rules.minimum.Some? && Below(v, rules.minimum.value)
       then [FieldError(f, MinimumMessage(f, rules.minimum.value))] else [])
      + (if rules.maximum.Some? && Above(v, rules.maximum.value)
         then [FieldError(f, MaximumMessage(f, rules.maximum.value))] else [])
  }

  /** The pattern is tested against `String(value)`. */
  function PatternErrors(f: string, rules: Rule, v: Value): seq<FieldError> {
    if rules.pattern.Some? && !Test(rules.pattern.value, ToJsString(v))
    then [FieldError(f, PatternFailMessage(f, rules))] else []
  }

  /** All errors one defined property value draws from its rules, in order. */
  function RuleErrors(f: string, rules: Rule, v: Value): (r: seq<FieldError>)
    ensures forall e :: e in r ==> e.field == f
  {
    TypeErrors(f, rules, v) + LengthErrors(f, rules, v) + RangeErrors(f, rules, v) + PatternErrors(f, rules, v)
  }

  function MissingErrors(data: map<string, Value>, f: string): seq<FieldError> {
    if Get(data, f) == Undefined then [FieldError(f, RequiredMessage(f))] else []
  }

  /** The errors of the `required` check, in list order. */
  function RequiredErrors(data: map<string, Value>, required: seq<string>): seq<FieldError>
    decreases |required|
  {
    if required == [] then []
    else RequiredErrors(data, required[..|required| - 1]) + MissingErrors(data, required[|required| - 1])
  }

  /** An undefined property skips every rule. */
  function ValueErrors(data: map<string, Value>, f: string, rules: Rule): seq<FieldError> {
    var v := Get(data, f);
    if v != Undefined then RuleErrors(f, rules, v) else []
  }

  /** The errors of the property rules, in declaration order. */
  function PropertyErrors(data: map<string, Value>, properties: seq<(string, Rule)>): seq<FieldError>
    decreases |properties|
  {
    if properties == [] then []
    else
      var last := properties[|properties| - 1];
      PropertyErrors(data, properties[..|properties| - 1]) + ValueErrors(data, last.0, last.1)
  }

  /** Every error `validateData` reports for `data` against `schema`. */
  function DataErrors(data: map<string, Value>, schema: ObjectSchema): seq<FieldError> {
    RequiredErrors(data, schema.required) + PropertyErrors(data, schema.properties)
  }

  /** The checks `validateData` runs on one defined property value,
      pushing each failure in turn: type, length, range, pattern. Reading
      the length of `null` throws before the range and pattern checks. */
  method PushRuleErrors(errors: seq<FieldError>, field: string, rules: Rule, value: Value)
    returns (r: Collected)
    ensures r.Aborted? <==> ReadsNullLength(rules, value)
    ensures r.Aborted? ==> r.err == NullLengthError
    ensures r.Collected? ==> r.errors == errors + RuleErrors(field, rules, value)
  {
    var pushed := errors;
    if rules.typeName != "" && !ValidateType(value, rules.typeName) {
      pushed := pushed + [FieldError(field, TypeMessage(field, rules.typeName))];
    }
    assert pushed == errors + TypeErrors(field, rules, value);
    r := PushLengthErrors(pushed, field, rules, value);
    if r.Aborted? {
      return;
    }
    var ranged := PushRangeErrors(r.errors, field, rules, value);
    pushed := ranged;
    if rules.pattern.Some? && !Test(rules.pattern.value, ToJsString(value)) {
      pushed := pushed + [FieldError(field, PatternFailMessage(field, rules))];
    }
    assert pushed == ranged + PatternErrors(field, rules, value);
    SeqAssoc4(errors, TypeErrors(field, rules, value), LengthErrors(field, rules, value),
              RangeErrors(field, rules, value), PatternErrors(field, rules, value));
    return Collected(pushed);
  }

  /** The length checks of a 'string' rule; each truthy bound reads
      `value.length`, which throws on `null`. */
  method PushLengthErrors(errors: seq<FieldError>, field: string, rules: Rule, value: Value)
    returns (r: Collected)
    ensures r.Aborted? <==> ReadsNullLength(rules, value)
    ensures r.Aborted? ==> r.err == NullLengthError
    ensures r.Collected? ==> r.errors == errors + LengthErrors(field, rules, value)
  {
    var pushed := errors;
    if rules.typeName == "string" {
      if TruthyInt(rules.minLength) {
        if value.Null? {
          return Aborted(NullLengthError);
        }
        if ShorterThan(value, rules.minLength.value) {
          pushed := pushed + [FieldError(field, MinLengthMessage(field, rules.minLength.value))];
        }
      }
      if TruthyInt(rules.maxLength) {
        if value.Null? {
          return Aborted(NullLengthError);
        }
        if LongerThan(value, rules.maxLength.value) {
          pushed := pushed + [FieldError(field, MaxLengthMessage(field, rules.maxLength.value))];
        }
      }
    }
    return Collected(pushed);
  }

  method PushRangeErrors(errors: seq<FieldError>, field: string, rules: Rule, value: Value)
    returns (pushed: seq<FieldError>)
    ensures pushed == errors + RangeErrors(field, rules, value)
  {
    pushed := errors;
    if rules.typeName == "number" {
      if rules.minimum.Some? && Below(value, rules.minimum.value) {
        pushed := pushed + [FieldError(field, MinimumMessage(field, rules.minimum.value))];
      }
      if rules.maximum.Some? && Above(value, rules.maximum.value) {
        pushed := pushed + [FieldError(field, MaximumMessage(field, rules.maximum.value))];
      }
    }
  }

  lemma SeqAssoc4<T>(e: seq<T>, a: seq<T>, b: seq<T>, c: seq<T>, d: seq<T>)
    ensures e + a + b + c + d == e + (a + b + c + d)
  {
  }

  /** `validateData(data, schema)`: the required check, then the property
      rules, pushing each failure onto one error list. It throws when a
      property reads the length of `null`; otherwise the result is the
      unchanged data exactly when no error was pushed. */
  method ValidateData(data: map<string, Value>, schema: ObjectSchema) returns (result: Validation)
    ensures result.Thrown? <==> PropertiesThrow(data, schema.properties)
    ensures result.Thrown? ==> result.err == NullLengthError
    ensures result.Valid? <==> DataErrors(data, schema) == []
    ensures result.Valid? ==> result.value == data
    ensures result.Invalid? ==> result.error == DataErrors(data, schema)
  {
    var errors := CollectMissing(data, schema.required);
    var collected := CollectPropertyErrors(data, schema.properties, errors);
    if collected.Aborted? {
      ThrowingDataIsInvalid(data, schema);
      return Thrown(collected.err);
    }
    if |collected.errors| > 0 {
      return Invalid(collected.errors);
    }
    return Valid(data);
  }

  /** The loop over `schema.required`. */
  method CollectMissing(data: map<string, Value>, required: seq<string>) returns (errors: seq<FieldError>)
    ensures errors == RequiredErrors(data, required)
  {
    errors := [];
    var i := 0;
    while i < |required|
      invariant 0 <= i <= |required|
      invariant errors == RequiredErrors(data, required[..i])
    {
      var field := required[i];
      if Get(data, field) == Undefined {
        errors := errors + [FieldError(field, RequiredMessage(field))];
      }
      assert required[..i + 1][..i] == required[..i];
      i := i + 1;
    }
    assert required[..i] == required;
  }

  /** The loop over `schema.properties`, appending to the errors found so
      far; the first property that reads the length of `null` aborts it. */
  method CollectPropertyErrors(data: map<string, Value>, properties: seq<(string, Rule)>, start: seq<FieldError>)
    returns (r: Collected)
    ensures r.Aborted? <==> PropertiesThrow(data, properties)
    ensures r.Aborted? ==> r.err == NullLengthError
    ensures r.Collected? ==> r.errors == start + PropertyErrors(data, properties)
  {
    var errors := start;
    var j := 0;
    while j < |properties|
      invariant 0 <= j <= |properties|
      invariant errors == start + PropertyErrors(data, properties[..j])
      invariant !PropertiesThrow(data, properties[..j])
    {
      var step := PushValueErrors(errors, data, properties[j].0, properties[j].1);
      if step.Aborted? {
        return step;
      }
      PropertyErrorsStep(data, properties, j, start, errors, step.errors);
      NoThrowStep(data, properties, j);
      errors := step.errors;
      j := j + 1;
    }
    assert properties[..j] == properties;
    return Collected(errors);
  }

  /** One pass of the property loop: a defined value is checked against its rules. */
  method PushValueErrors(errors: seq<FieldError>, data: map<string, Value>, field: string, rules: Rule)
    returns (r: Collected)
    ensures r.Aborted? <==> ReadsNullLength(rules, Get(data, field))
    ensures r.Aborted? ==> r.err == NullLengthError
    ensures r.Collected? ==> r.errors == errors + ValueErrors(data, field, rules)
  {
    var value := Get(data, field);
    if value != Undefined {
      r := PushRuleErrors(errors, field, rules, value);
    } else {
      r := Collected(errors);
    }
  }

  lemma PropertyErrorsStep(data: map<string, Value>, properties: seq<(string, Rule)>, j: nat,
                            start: seq<FieldError>, before: seq<FieldError>, after: seq<FieldError>)
    requires j < |properties|
    requires before == start + PropertyErrors(data, properties[..j])
    requires after == before + ValueErrors(data, properties[j].0, properties[j].1)
    ensures after == start + PropertyErrors(data, properties[..j + 1])
  {
    var prefix := properties[..j + 1];
    assert prefix[..|prefix| - 1] == properties[..j];
    assert prefix[|prefix| - 1] == properties[j];
    var v := ValueErrors(data, properties[j].0, properties[j].1);
    assert PropertyErrors(data, prefix) == PropertyErrors(data, properties[..j]) + v;
    SeqAssoc3(start, PropertyErrors(data, properties[..j]), v);
  }

  /** A loop pass that did not throw extends the non-throwing prefix. */
  lemma NoThrowStep(data: map<string, Value>, properties: seq<(string, Rule)>, j: nat)
    requires j < |properties|
    requires !PropertiesThrow(data, properties[..j])
    requires !ReadsNullLength(properties[j].1, Get(data, properties[j].0))
    ensures !PropertiesThrow(data, properties[..j + 1])
  {
    var prefix := properties[..j + 1];
    assert forall i :: 0 <= i < j ==> prefix[i] == properties[..j][i];
  }

  /** A value that makes the loop throw is a `null` under a 'string' rule,
      so the error list would not have been empty either: every thrown
      validation is also an invalid one. */
  lemma ThrowingDataIsInvalid(data: map<string, Value>, schema: ObjectSchema)
    requires PropertiesThrow(data, schema.properties)
    ensures DataErrors(data, schema) != []
  {
    var p := schema.properties;
    var i :| 0 <= i < |p| && ReadsNullLength(p[i].1, Get(data, p[i].0));
    assert TypeErrors(p[i].0, p[i].1, Get(data, p[i].0)) != [];
    assert !FieldPasses(data, p[i].0, p[i].1);
    PropertyErrorsEmptyIff(data, p);
  }

  lemma SeqAssoc3<T>(a: seq<T>, b: seq<T>, c: seq<T>)
    ensures a + b + c == a + (b + c)
  {
  }

  /** `formatErrors` as a fold: each error writes its field's entry. */
  function Formatted(errors: seq<FieldError>): map<string, string>
    decreases |errors|
  {
    if errors == [] then map[]
    else
      var last := errors[|errors| - 1];
      Formatted(errors[..|errors| - 1])[last.field := last.message]
  }

  /** `formatErrors(errors)`: assigns `formatted[error.field] = error.message`
      for each error in turn. */
  method FormatErrors(errors: seq<FieldError>) returns (formatted: map<string, string>)
    ensures formatted == Formatted(errors)
  {
    formatted := map[];
    var i := 0;
    while i < |errors|
      invariant 0 <= i <= |errors|
      invariant formatted == Formatted(errors[..i])
    {
      formatted := formatted[errors[i].field := errors[i].message];
      assert errors[..i + 1][..i] == errors[..i];
      i := i + 1;
    }
    assert errors[..i] == errors;
  }

  /** The formatted map has one entry per failing field. */
  lemma {:induction false} FormattedKeys(errors: seq<FieldError>)
    ensures Formatted(errors).Keys == set e | e in errors :: e.field
    decreases |errors|
  {
    if errors != [] {
      var prefix := errors[..|errors| - 1];
      FormattedKeys(prefix);
      assert errors == prefix + [errors[|errors| - 1]];
    }
  }

  /** The entry of a field holds the message of its last error: a later
      error for the same field overwrites an earlier one. */
  lemma {:induction false} FormattedKeepsLast(errors: seq<FieldError>, i: int)
    requires 0 <= i < |errors|
    requires forall j :: i < j < |errors| ==> errors[j].field != errors[i].field
    ensures errors[i].field in Formatted(errors)
    ensures Formatted(errors)[errors[i].field] == errors[i].message
    decreases |errors|
  {
    var prefix := errors[..|errors| - 1];
    if i < |errors| - 1 {
      assert forall j :: i < j < |prefix| ==> prefix[j] == errors[j];
      FormattedKeepsLast(prefix, i);
    }
  }

  /** A required field yields a "required" error exactly when its value is
      undefined, and every error of that check is of that form. */
  lemma {:induction false} RequiredErrorIff(data: map<string, Value>, required: seq<string>, f: string)
    ensures (exists e :: e in RequiredErrors(data, required) && e.field == f)
            <==> f in required && Get(data, f) == Undefined
    ensures forall e :: e in RequiredErrors(data, required) ==> e.message == RequiredMessage(e.field)
    decreases |required|
  {
    if required != [] {
      var prefix := required[..|required| - 1];
      RequiredErrorIff(data, prefix, f);
      assert required == prefix + [required[|required| - 1]];
      var last := required[|required| - 1];
      if f in required && Get(data, f) == Undefined && f !in prefix {
        assert f == last;
        assert FieldError(f, RequiredMessage(f)) in RequiredErrors(data, required);
      }
    }
  }

  /** The required check passes exactly when every listed field is defined. */
  lemma {:induction false} RequiredErrorsEmptyIff(data: map<string, Value>, required: seq<string>)
    ensures RequiredErrors(data, required) == [] <==> forall i :: 0 <= i < |required| ==> Get(data, required[i]) != Undefined
    decreases |required|
  {
    if required != [] {
      var prefix := required[..|required| - 1];
      RequiredErrorsEmptyIff(data, prefix);
      assert forall i :: 0 <= i < |prefix| ==> prefix[i] == required[i];
    }
  }

  /** A property passes when it is undefined or its value satisfies its rules. */
  predicate FieldPasses(data: map<string, Value>, f: string, rules: Rule) {
    Get(data, f) == Undefined || RuleErrors(f, rules, Get(data, f)) == []
  }

  /** The property rules pass exactly when every property passes. */
  lemma {:induction false} PropertyErrorsEmptyIff(data: map<string, Value>, properties: seq<(string, Rule)>)
    ensures PropertyErrors(data, properties) == [] <==>
            forall i :: 0 <= i < |properties| ==> FieldPasses(data, properties[i].0, properties[i].1)
    decreases |properties|
  {
    if properties != [] {
      var n := |properties| - 1;
      PropertyErrorsEmptyIff(data, properties[..n]);
      LastPropertyEmptyIff(data, properties);
      AllFieldsPassSnoc(data, properties);
    }
  }

  /** One unfolding of `PropertyErrors`: the list is empty iff the
      prefix's is and the last property passes. */
  lemma LastPropertyEmptyIff(data: map<string, Value>, properties: seq<(string, Rule)>)
    requires properties != []
    ensures var n := |properties| - 1;
            PropertyErrors(data, properties) == [] <==>
              PropertyErrors(data, properties[..n]) == [] && FieldPasses(data, properties[n].0, properties[n].1)
  {
    var n := |properties| - 1;
    var tail := ValueErrors(data, properties[n].0, properties[n].1);
    assert PropertyErrors(data, properties) == PropertyErrors(data, properties[..n]) + tail;
  }

  /** Every property passes iff every one of the prefix does and the last does. */
  lemma AllFieldsPassSnoc(data: map<string, Value>, properties: seq<(string, Rule)>)
    requires properties != []
    ensures var n := |properties| - 1;
            (forall i :: 0 <= i < |properties| ==> FieldPasses(data, properties[i].0, properties[i].1)) <==>
              (forall i :: 0 <= i < n ==> FieldPasses(data, properties[..n][i].0, properties[..n][i].1)) &&
              FieldPasses(data, properties[n].0, properties[n].1)
  {
    var n := |properties| - 1;
    assert forall i :: 0 <= i < n ==> properties[..n][i] == properties[i];
  }

  /** Errors of the property rules only ever concern defined values of
      declared properties. */
  lemma {:induction false} UndefinedSkipsRules(data: map<string, Value>, properties: seq<(string, Rule)>)
    ensures forall e :: e in PropertyErrors(data, properties) ==>
              Get(data, e.field) != Undefined && exists i :: 0 <= i < |properties| && properties[i].0 == e.field
    decreases |properties|
  {
    if properties != [] {
      var n := |properties| - 1;
      var prefix := properties[..n];
      UndefinedSkipsRules(data, prefix);
      forall e | e in PropertyErrors(data, properties)
        ensures Get(data, e.field) != Undefined && exists i :: 0 <= i < |properties| && properties[i].0 == e.field
      {
        if e in PropertyErrors(data, prefix) {
          var i :| 0 <= i < |prefix| && prefix[i].0 == e.field;
          assert properties[i] == prefix[i];
        } else {
          assert e in ValueErrors(data, properties[n].0, properties[n].1);
          assert properties[n].0 == e.field;
        }
      }
    }
  }

  /** `validateData` accepts exactly when every required field is defined
      and every declared property passes its rules. */
  lemma DataErrorsEmptyIff(data: map<string, Value>, schema: ObjectSchema)
    ensures DataErrors(data, schema) == [] <==>
              (forall i :: 0 <= i < |schema.required| ==> Get(data, schema.required[i]) != Undefined) &&
              (forall i :: 0 <= i < |schema.properties| ==> FieldPasses(data, schema.properties[i].0, schema.properties[i].1))
  {
    RequiredErrorsEmptyIff(data, schema.required);
    PropertyErrorsEmptyIff(data, schema.properties);
  }

  /** The property check spelled out per entry, for the short literal
      property lists of the schemas. */
  lemma PropertiesPass(data: map<string, Value>, p: seq<(string, Rule)>)
    requires 1 <= |p| <= 6
    ensures (forall i :: 0 <= i < |p| ==> FieldPasses(data, p[i].0, p[i].1)) <==>
              FieldPasses(data, p[0].0, p[0].1) &&
              (|p| > 1 ==> FieldPasses(data, p[1].0, p[1].1)) &&
              (|p| > 2 ==> FieldPasses(data, p[2].0, p[2].1)) &&
              (|p| > 3 ==> FieldPasses(data, p[3].0, p[3].1)) &&
              (|p| > 4 ==> FieldPasses(data, p[4].0, p[4].1)) &&
              (|p| > 5 ==> FieldPasses(data, p[5].0, p[5].1))
  {
  }

  /** The required check spelled out per entry. */
  lemma RequiredPresent(data: map<string, Value>, r: seq<string>)
    requires |r| <= 3
    ensures (forall i :: 0 <= i < |r| ==> Get(data, r[i]) != Undefined) <==>
              (|r| > 0 ==> Get(data, r[0]) != Undefined) &&
              (|r| > 1 ==> Get(data, r[1]) != Undefined) &&
              (|r| > 2 ==> Get(data, r[2]) != Undefined)
  {
  }

  /** A string field whose length lies in `lo..hi`. */
  predicate StringWithin(data: map<string, Value>, f: string, lo: int, hi: int) {
    Get(data, f).Str? && lo <= |Get(data, f).s| <= hi
  }

  /** A string field the pattern accepts. */
  predicate StringMatching(data: map<string, Value>, f: string, p: Pattern) {
    Get(data, f).Str? && Test(p, Get(data, f).s)
  }

  predicate Absent(data: map<string, Value>, f: string) {
    Get(data, f) == Undefined
  }

  /** The verdict of a 'string' rule on a defined value: it must be a
      string, within the truthy length bounds, and match the pattern. A
      `minLength` of 0 is never enforced. */
  lemma StringRuleVerdict(f: string, rules: Rule, v: Value)
    requires rules.typeName == "string"
    ensures RuleErrors(f, rules, v) == [] <==>
              v.Str? &&
              (TruthyInt(rules.minLength) ==> |v.s| >= rules.minLength.value) &&
              (TruthyInt(rules.maxLength) ==> |v.s| <= rules.maxLength.value) &&
              (rules.pattern.Some? ==> Test(rules.pattern.value, v.s))
  {
  }

  /** The verdict of a 'boolean' rule without further constraints. */
  lemma BooleanRuleVerdict(f: string, v: Value)
    ensures RuleErrors(f, TypeRule("boolean"), v) == [] <==> v.Bool?
  {
  }

  /** The rules with their `enum` lists dropped. */
  function WithoutEnums(properties: seq<(string, Rule)>): (r: seq<(string, Rule)>)
    ensures |r| == |properties|
    ensures forall i :: 0 <= i < |r| ==> r[i].0 == properties[i].0 && r[i].1 == properties[i].1.(enumValues := [])
  {
    seq(|properties|, i requires 0 <= i < |properties| => (properties[i].0, properties[i].1.(enumValues := [])))
  }

  lemma RuleErrorsIgnoreEnum(f: string, rules: Rule, v: Value)
    ensures RuleErrors(f, rules.(enumValues := []), v) == RuleErrors(f, rules, v)
  {
    var r := rules.(enumValues := []);
    assert TypeErrors(f, r, v) == TypeErrors(f, rules, v);
    assert LengthErrors(f, r, v) == LengthErrors(f, rules, v);
    assert RangeErrors(f, r, v) == RangeErrors(f, rules, v);
    assert PatternErrors(f, r, v) == PatternErrors(f, rules, v);
  }

  /** `enum` lists are never consulted: dropping them changes no error. */
  lemma {:induction false} EnumsIgnored(data: map<string, Value>, properties: seq<(string, Rule)>)
    ensures PropertyErrors(data, WithoutEnums(properties)) == PropertyErrors(data, properties)
    decreases |properties|
  {
    if properties != [] {
      var n := |properties| - 1;
      EnumsIgnored(data, properties[..n]);
      assert WithoutEnums(properties)[..n] == WithoutEnums(properties[..n]);
      var (f, rules) := properties[n];
      RuleErrorsIgnoreEnum(f, rules, Get(data, f));
      assert WithoutEnums(properties)[n] == (f, rules.(enumValues := []));
    }
  }

  /** A part of the schema that is defined and reports errors. */
  predicate PartFails(part: Option<ObjectSchema>, data: map<string, Value>) {
    part.Some? && DataErrors(data, part.value) != []
  }

  /** A part of the schema that is defined and whose property loop throws. */
  predicate PartThrows(part: Option<ObjectSchema>, data: map<string, Value>) {
    part.Some? && PropertiesThrow(data, part.value.properties)
  }

  /** One `if (schema.part)` block of `validate`: a throwing part aborts
      the middleware, a failing part records its formatted errors under its
      own key, anything else leaves the map. */
  method ValidatePart(part: Option<ObjectSchema>, data: map<string, Value>, key: string,
                      validationErrors: map<string, map<string, string>>)
    returns (updated: map<string, map<string, string>>, threw: bool)
    ensures threw <==> PartThrows(part, data)
    ensures threw ==> updated == validationErrors
    ensures !threw && PartFails(part, data) ==> updated == validationErrors[key := Formatted(DataErrors(data, part.value))]
    ensures !threw && !PartFails(part, data) ==> updated == validationErrors
  {
    updated, threw := validationErrors, false;
    if part.Some? {
      var result := ValidateData(data, part.value);
      if result.Thrown? {
        threw := true;
      } else if result.Invalid? {
        var formatted := FormatErrors(result.error);
        updated := updated[key := formatted];
      }
    }
  }

  /** `validate(schema)(req, res, next)`: checks the body, the query and
      the path parameters in turn. A part that reads the length of `null`
      throws, and the throw reaches the error handler whatever the other
      parts report. Otherwise it fails with a 400 'Validation error'
      exactly when a defined part reports an error; the per-part error map
      is built but not passed on, since `AppError` keeps only its message
      and status code. */
  method Validate(schema: Schema, req: RequestParts) returns (next: Next)
    ensures AnyPartThrows(schema, req) ==> next == Reject(NullLengthError)
    ensures !AnyPartThrows(schema, req) ==>
              (next.Reject? <==> PartFails(schema.body, req.body) || PartFails(schema.query, req.query) || PartFails(schema.params, req.params))
    ensures !AnyPartThrows(schema, req) && next.Reject? ==> next.err == NewAppError("Validation error", 400)
  {
    var validationErrors: map<string, map<string, string>> := map[];
    var threw;
    validationErrors, threw := ValidatePart(schema.body, req.body, "body", validationErrors);
    if threw {
      return Reject(NullLengthError);
    }
    validationErrors, threw := ValidatePart(schema.query, req.query, "query", validationErrors);
    if threw {
      return Reject(NullLengthError);
    }
    validationErrors, threw := ValidatePart(schema.params, req.params, "params", validationErrors);
    if threw {
      return Reject(NullLengthError);
    }
    if |validationErrors| > 0 {
      return Reject(NewAppError("Validation error", 400));
    }
    return Proceed;
  }

  predicate AnyPartThrows(schema: Schema, req: RequestParts) {
    PartThrows(schema.body, req.body) || PartThrows(schema.query, req.query) || PartThrows(schema.params, req.params)
  }

  /** The exception of a `null` length reaches the client as a 500, with
      the generic message outside development, where a failed validation
      is a 400. */
  lemma ThrownValidationIs500(development: bool)
    ensures Respond(NullLengthError, development).httpStatus == 500
    ensures !development ==> Respond(NullLengthError, development).message == GenericMessage
    ensures Respond(NewAppError("Validation error", 400), development).httpStatus == 400
  {
    AppErrorKeepsStatus("Validation error", 400, development);
  }
}
