/**
 * The capped validator of a JSON Schema subset (engine/src/chatbot-evaluator-utils.ts).
 * Regular expressions and JSON texts come from outside, as the functions of an `Env`.
 */
module JsonSchema {
  import opened Wrappers

  const MAX_DEPTH: int := 20
  const MAX_ERRORS: int := 25

  /** A JSON value; `Huge` is an overflowing number. `Method` and `Prototype` are what objects inherit. */
  datatype Value =
    | Null
    | Bool(b: bool)
    | Num(n: real, minus: bool)
    | Huge(minus: bool)
    | Str(s: string)
    | Arr(items: seq<Value>)
    | Obj(fields: seq<Field>)
    | Method
    | Prototype

  datatype Field = Field(key: string, value: Value)

  datatype TypeName =
    | NullType | ArrayType | ObjectType | IntegerType | NumberType | BooleanType | StringType | UnknownType

  /** Keywords of the wrong type, which the validator ignores, are absent here. */
  datatype Schema =
    | NotASchema
    | Schema(const_: Option<Value>, enum: Option<seq<Value>>, types: seq<TypeName>,
             minLength: Option<real>, maxLength: Option<real>, pattern: Option<string>,
             minimum: Option<real>, maximum: Option<real>, exclusiveMinimum: Option<real>,
             exclusiveMaximum: Option<real>,
             minItems: Option<real>, maxItems: Option<real>, uniqueItems: bool, items: Option<Schema>,
             properties: seq<Property>, required: seq<string>, closed: bool,
             allOf: seq<Schema>, anyOf: Choice, oneOf: Choice)

  datatype Choice = Free | Among(choices: seq<Schema>)

  datatype Property = Property(key: string, schema: Schema)

  /**
   * `test` is `None` for a pattern that does not compile, `show` is `JSON.stringify`, and `inherited` holds the names
   * every object inherits (`constructor`, `toString`, ...), for which `key in value` holds without an own property
   * and `value[key]` is `inheritedValue`.
   */
  datatype Env = Env(test: (string, string) -> Option<bool>, show: Value -> string,
                     inherited: set<string>, inheritedValue: (Value, string) -> Value)

  datatype Step = Index(i: nat) | Name(key: string)

  datatype Fault =
    | SchemaNotObject | TooDeep | NotConst | NotInEnum | WrongType
    | TooShort | TooLong | PatternMismatch | PatternInvalid
    | BelowMinimum | AboveMaximum | NotAboveMinimum | NotBelowMaximum
    | TooFewItems | TooManyItems | RepeatedItems
    | MissingProperty(key: string) | ExtraProperty(key: string)
    | NoAlternative | NotOneAlternative

  datatype Error = Error(path: seq<Step>, fault: Fault)

  // ---------------------------------------------------------------- values

  predicate IsObject(v: Value) { v.Obj? || v.Prototype? }

  function OwnFields(v: Value): seq<Field> { if v.Obj? then v.fields else [] }

  function Own(fields: seq<Field>, key: string): Option<Value>
  {
    if fields == [] then None else if fields[0].key == key then Some(fields[0].value) else Own(fields[1..], key)
  }

  /** `value[key]` where `key in value`. */
  function Get(env: Env, v: Value, key: string): Option<Value>
  {
    if Own(OwnFields(v), key).Some? then Own(OwnFields(v), key)
    else if key in env.inherited then Some(env.inheritedValue(v, key))
    else None
  }

  /** `key in value`. */
  predicate HasKey(env: Env, v: Value, key: string) { Get(env, v, key).Some? }

  /** `Object.is`: arrays and objects of the value are never those of the schema. */
  predicate SameValue(a: Value, b: Value)
  {
    a == b && (a.Null? || a.Bool? || a.Num? || a.Huge? || a.Str?)
  }

  predicate IsType(v: Value, t: TypeName)
  {
    match t
    case NullType => v.Null?
    case ArrayType => v.Arr?
    case ObjectType => IsObject(v)
    case IntegerType => v.Num? && v.n.Floor as real == v.n
    case NumberType => v.Num?
    case BooleanType => v.Bool?
    case StringType => v.Str?
    case UnknownType => true
  }

  predicate Declares(env: Env, properties: seq<Property>, key: string)
  {
    key in env.inherited || exists i :: 0 <= i < |properties| && properties[i].key == key
  }

  predicate Distinct(env: Env, items: seq<Value>)
  {
    forall i, j :: 0 <= i < j < |items| ==> env.show(items[i]) != env.show(items[j])
  }

  predicate AtLeast(x: real, bound: Option<real>) { bound.Some? ==> x >= bound.value }
  predicate AtMost(x: real, bound: Option<real>) { bound.Some? ==> x <= bound.value }

  // ---------------------------------------------------------------- the meaning of a schema

  /** Keywords that look at the value alone. */
  predicate MeetsKeywords(env: Env, v: Value, s: Schema)
    requires s.Schema?
  {
    && (s.const_.Some? ==> SameValue(v, s.const_.value))
    && (s.enum.Some? ==> exists i :: 0 <= i < |s.enum.value| && SameValue(s.enum.value[i], v))
    && (s.types != [] ==> exists i :: 0 <= i < |s.types| && IsType(v, s.types[i]))
    && (v.Str? ==> && AtLeast(|v.s| as real, s.minLength) && AtMost(|v.s| as real, s.maxLength)
                   && (s.pattern.Some? ==> env.test(s.pattern.value, v.s) == Some(true)))
    && (v.Num? ==> && AtLeast(v.n, s.minimum) && AtMost(v.n, s.maximum)
                   && (s.exclusiveMinimum.Some? ==> v.n > s.exclusiveMinimum.value)
                   && (s.exclusiveMaximum.Some? ==> v.n < s.exclusiveMaximum.value))
    && (v.Arr? ==> && AtLeast(|v.items| as real, s.minItems) && AtMost(|v.items| as real, s.maxItems)
                   && (s.uniqueItems ==> Distinct(env, v.items)))
    && (IsObject(v) ==> HasRequired(env, v, s) && (s.closed ==> OnlyDeclared(env, v, s)))
  }

  predicate HasRequired(env: Env, v: Value, s: Schema)
    requires s.Schema?
  {
    forall i :: 0 <= i < |s.required| ==> HasKey(env, v, s.required[i])
  }

  predicate OnlyDeclared(env: Env, v: Value, s: Schema)
    requires s.Schema?
  {
    forall i :: 0 <= i < |OwnFields(v)| ==> Declares(env, s.properties, OwnFields(v)[i].key)
  }

  /** The boolean recursion, with the depth limit (`limited`) or without it. */
  predicate Accepts(env: Env, v: Value, s: Schema, limited: bool, depth: nat)
    decreases s, 1
  {
    && s.Schema? && (limited ==> depth <= MAX_DEPTH)
    && MeetsKeywords(env, v, s)
    && ItemsAccepted(env, v, s, limited, depth + 1)
    && PropertiesAccepted(env, v, s, limited, depth + 1)
    && AllAccepted(env, v, s.allOf, limited, depth + 1)
    && (s.anyOf.Among? ==> SomeTrue(Verdicts(env, v, s.anyOf.choices, limited, depth + 1)))
    && (s.oneOf.Among? ==> OneTrue(Verdicts(env, v, s.oneOf.choices, limited, depth + 1)))
  }

  predicate ItemsAccepted(env: Env, v: Value, s: Schema, limited: bool, depth: nat)
    requires s.Schema?
    decreases s, 0
  {
    v.Arr? && s.items.Some? ==>
      forall i :: 0 <= i < |v.items| ==> Accepts(env, v.items[i], s.items.value, limited, depth)
  }

  predicate PropertyAccepted(env: Env, v: Value, p: Property, limited: bool, depth: nat)
    decreases p, 2
  {
    Get(env, v, p.key).Some? ==> Accepts(env, Get(env, v, p.key).value, p.schema, limited, depth)
  }

  predicate PropertiesAccepted(env: Env, v: Value, s: Schema, limited: bool, depth: nat)
    requires s.Schema?
    decreases s, 0
  {
    IsObject(v) ==> forall i :: 0 <= i < |s.properties| ==> PropertyAccepted(env, v, s.properties[i], limited, depth)
  }

  predicate AllAccepted(env: Env, v: Value, kids: seq<Schema>, limited: bool, depth: nat)
    decreases kids, 0
  {
    forall i :: 0 <= i < |kids| ==> Accepts(env, v, kids[i], limited, depth)
  }

  /** What each alternative says. */
  function Verdicts(env: Env, v: Value, kids: seq<Schema>, limited: bool, depth: nat): (r: seq<bool>)
    ensures |r| == |kids| && forall i :: 0 <= i < |kids| ==> r[i] == Accepts(env, v, kids[i], limited, depth)
    decreases kids, 0
  {
    seq(|kids|, i requires 0 <= i < |kids| => Accepts(env, v, kids[i], limited, depth))
  }

  predicate SomeTrue(verdicts: seq<bool>) { exists i :: 0 <= i < |verdicts| && verdicts[i] }

  predicate OneTrue(verdicts: seq<bool>)
  {
    exists i :: 0 <= i < |verdicts| && verdicts[i] && forall j :: 0 <= j < |verdicts| && j != i ==> !verdicts[j]
  }

  // ---------------------------------------------------------------- every error, without a cap

  function ErrorIf(condition: bool, path: seq<Step>, fault: Fault): seq<Error>
  {
    if condition then [Error(path, fault)] else []
  }

  function TextErrors(env: Env, v: Value, s: Schema, path: seq<Step>): seq<Error>
    requires s.Schema? && v.Str?
  {
    ErrorIf(!AtLeast(|v.s| as real, s.minLength), path, TooShort)
    + ErrorIf(!AtMost(|v.s| as real, s.maxLength), path, TooLong)
    + (if s.pattern.None? then []
       else if env.test(s.pattern.value, v.s).None? then [Error(path, PatternInvalid)]
       else ErrorIf(!env.test(s.pattern.value, v.s).value, path, PatternMismatch))
  }

  function NumberErrors(v: Value, s: Schema, path: seq<Step>): seq<Error>
    requires s.Schema? && v.Num?
  {
    ErrorIf(!AtLeast(v.n, s.minimum), path, BelowMinimum)
    + ErrorIf(!AtMost(v.n, s.maximum), path, AboveMaximum)
    + ErrorIf(s.exclusiveMinimum.Some? && v.n <= s.exclusiveMinimum.value, path, NotAboveMinimum)
    + ErrorIf(s.exclusiveMaximum.Some? && v.n >= s.exclusiveMaximum.value, path, NotBelowMaximum)
  }

  function CountErrors(env: Env, v: Value, s: Schema, path: seq<Step>): seq<Error>
    requires s.Schema? && v.Arr?
  {
    ErrorIf(!AtLeast(|v.items| as real, s.minItems), path, TooFewItems)
    + ErrorIf(!AtMost(|v.items| as real, s.maxItems), path, TooManyItems)
    + ErrorIf(s.uniqueItems && !Distinct(env, v.items), path, RepeatedItems)
  }

  function OwnErrors(env: Env, v: Value, s: Schema, path: seq<Step>): seq<Error>
    requires s.Schema?
  {
    ErrorIf(s.const_.Some? && !SameValue(v, s.const_.value), path, NotConst)
    + ErrorIf(s.enum.Some? && !exists i :: 0 <= i < |s.enum.value| && SameValue(s.enum.value[i], v), path, NotInEnum)
    + ErrorIf(s.types != [] && !exists i :: 0 <= i < |s.types| && IsType(v, s.types[i]), path, WrongType)
    + (if v.Str? then TextErrors(env, v, s, path) else if v.Num? then NumberErrors(v, s, path)
       else if v.Arr? then CountErrors(env, v, s, path) else [])
  }

  function MissingErrors(env: Env, v: Value, required: seq<string>, path: seq<Step>, n: nat): seq<Error>
    requires n <= |required|
  {
    if n == 0 then []
    else MissingErrors(env, v, required, path, n - 1)
         + ErrorIf(!HasKey(env, v, required[n - 1]), path, MissingProperty(required[n - 1]))
  }

  function ExtraErrors(env: Env, fields: seq<Field>, properties: seq<Property>, path: seq<Step>, n: nat): seq<Error>
    requires n <= |fields|
  {
    if n == 0 then []
    else ExtraErrors(env, fields, properties, path, n - 1)
         + ErrorIf(!Declares(env, properties, fields[n - 1].key), path, ExtraProperty(fields[n - 1].key))
  }

  function AllErrors(env: Env, v: Value, s: Schema, path: seq<Step>, depth: nat): seq<Error>
    decreases s, 4, 0
  {
    if s.NotASchema? then [Error(path, SchemaNotObject)]
    else if depth > MAX_DEPTH then [Error(path, TooDeep)]
    else KeywordErrors(env, v, s, path, depth)
  }

  function KeywordErrors(env: Env, v: Value, s: Schema, path: seq<Step>, depth: nat): seq<Error>
    requires s.Schema?
    decreases s, 3, 0
  {
    OwnErrors(env, v, s, path) + ArrayErrors(env, v, s, path, depth) + ObjectErrors(env, v, s, path, depth)
    + AllOfErrors(env, v, s, path, depth, |s.allOf|) + AnyOfErrors(env, v, s, path, depth)
    + OneOfErrors(env, v, s, path, depth)
  }

  function ArrayErrors(env: Env, v: Value, s: Schema, path: seq<Step>, depth: nat): seq<Error>
    requires s.Schema?
    decreases s, 2, 0
  {
    if v.Arr? && s.items.Some? then ItemErrors(env, v.items, s, path, depth, |v.items|) else []
  }

  function ObjectErrors(env: Env, v: Value, s: Schema, path: seq<Step>, depth: nat): seq<Error>
    requires s.Schema?
    decreases s, 2, 0
  {
    if !IsObject(v) then []
    else
      MissingErrors(env, v, s.required, path, |s.required|)
      + PropertyErrors(env, v, s, path, depth, |s.properties|)
      + (if s.closed then ExtraErrors(env, OwnFields(v), s.properties, path, |OwnFields(v)|) else [])
  }

  function AnyOfErrors(env: Env, v: Value, s: Schema, path: seq<Step>, depth: nat): seq<Error>
    requires s.Schema?
    decreases s, 2, 0
  {
    ErrorIf(s.anyOf.Among? && CountAnyOf(env, v, s, path, depth, |s.anyOf.choices|) == 0, path, NoAlternative)
  }

  function OneOfErrors(env: Env, v: Value, s: Schema, path: seq<Step>, depth: nat): seq<Error>
    requires s.Schema?
    decreases s, 2, 0
  {
    ErrorIf(s.oneOf.Among? && CountOneOf(env, v, s, path, depth, |s.oneOf.choices|) != 1, path, NotOneAlternative)
  }

  function ItemError(env: Env, v: Value, s: Schema, path: seq<Step>, depth: nat, i: nat): seq<Error>
    requires s.Schema? && s.items.Some?
    decreases s, 0, 0
  {
    AllErrors(env, v, s.items.value, path + [Index(i)], depth + 1)
  }

  function ItemErrors(env: Env, items: seq<Value>, s: Schema, path: seq<Step>, depth: nat, n: nat): seq<Error>
    requires s.Schema? && s.items.Some? && n <= |items|
    decreases s, 1, n
  {
    if n == 0 then []
    else ItemErrors(env, items, s, path, depth, n - 1) + ItemError(env, items[n - 1], s, path, depth, n - 1)
  }

  function PropertyError(env: Env, v: Value, s: Schema, path: seq<Step>, depth: nat, i: nat): seq<Error>
    requires s.Schema? && i < |s.properties|
    decreases s, 0, 0
  {
    var p := s.properties[i];
    if Get(env, v, p.key).None? then []
    else AllErrors(env, Get(env, v, p.key).value, p.schema, path + [Name(p.key)], depth + 1)
  }

  function PropertyErrors(env: Env, v: Value, s: Schema, path: seq<Step>, depth: nat, n: nat): seq<Error>
    requires s.Schema? && n <= |s.properties|
    decreases s, 1, n
  {
    if n == 0 then [] else PropertyErrors(env, v, s, path, depth, n - 1) + PropertyError(env, v, s, path, depth, n - 1)
  }

  function AllOfError(env: Env, v: Value, s: Schema, path: seq<Step>, depth: nat, i: nat): seq<Error>
    requires s.Schema? && i < |s.allOf|
    decreases s, 0, 0
  {
    AllErrors(env, v, s.allOf[i], path, depth + 1)
  }

  function AllOfErrors(env: Env, v: Value, s: Schema, path: seq<Step>, depth: nat, n: nat): seq<Error>
    requires s.Schema? && n <= |s.allOf|
    decreases s, 1, n
  {
    if n == 0 then [] else AllOfErrors(env, v, s, path, depth, n - 1) + AllOfError(env, v, s, path, depth, n - 1)
  }

  function OneIf(condition: bool): nat { if condition then 1 else 0 }

  /** How many of the first `n` alternatives of `anyOf` report no error. */
  function CountAnyOf(env: Env, v: Value, s: Schema, path: seq<Step>, depth: nat, n: nat): nat
    requires s.Schema? && s.anyOf.Among? && n <= |s.anyOf.choices|
    decreases s, 1, n
  {
    if n == 0 then 0
    else CountAnyOf(env, v, s, path, depth, n - 1)
         + OneIf(AllErrors(env, v, s.anyOf.choices[n - 1], path, depth + 1) == [])
  }

  function CountOneOf(env: Env, v: Value, s: Schema, path: seq<Step>, depth: nat, n: nat): nat
    requires s.Schema? && s.oneOf.Among? && n <= |s.oneOf.choices|
    decreases s, 1, n
  {
    if n == 0 then 0
    else CountOneOf(env, v, s, path, depth, n - 1)
         + OneIf(AllErrors(env, v, s.oneOf.choices[n - 1], path, depth + 1) == [])
  }

  // ---------------------------------------------------------------- the cap

  function Cap(errors: seq<Error>): seq<Error>
  {
    if |errors| <= MAX_ERRORS then errors else errors[..MAX_ERRORS]
  }

  /** `errors.push(...more.slice(0, MAX_ERRORS - errors.length))`. */
  function Push(errors: seq<Error>, more: seq<Error>): seq<Error>
    requires |errors| <= MAX_ERRORS
  {
    errors + if |more| <= MAX_ERRORS - |errors| then more else more[..MAX_ERRORS - |errors|]
  }

  lemma PushCaps(before: seq<Error>, more: seq<Error>)
    ensures Push(Cap(before), more) == Cap(before + more)
    ensures Push(Cap(before), Cap(more)) == Cap(before + more)
  {
  }

  // ---------------------------------------------------------------- the validator

  /** `validateJsonSchema`: it returns the first 25 of all errors. */
  method ValidateJsonSchema(env: Env, v: Value, s: Schema, path: seq<Step>, depth: nat)
    returns (valid: bool, errors: seq<Error>)
    ensures errors == Cap(AllErrors(env, v, s, path, depth))
    ensures valid <==> errors == []
    decreases s, 4, 0
  {
    if s.NotASchema? {
      return false, [Error(path, SchemaNotObject)];
    }
    if depth > MAX_DEPTH {
      return false, [Error(path, TooDeep)];
    }
    errors := ValidateKeywords(env, v, s, path, depth);
    valid := errors == [];
  }

  method ValidateKeywords(env: Env, v: Value, s: Schema, path: seq<Step>, depth: nat) returns (errors: seq<Error>)
    requires s.Schema?
    ensures errors == Cap(KeywordErrors(env, v, s, path, depth))
    decreases s, 3, 0
  {
    var own := OwnErrors(env, v, s, path);
    errors := ValidateItems(env, v, s, path, depth, own, Cap(own));
    ghost var all := own + ArrayErrors(env, v, s, path, depth);
    errors := ValidateObject(env, v, s, path, depth, all, errors);
    all := all + ObjectErrors(env, v, s, path, depth);
    errors := ValidateAllOf(env, v, s, path, depth, all, errors);
    all := all + AllOfErrors(env, v, s, path, depth, |s.allOf|);
    errors := ValidateAnyOf(env, v, s, path, depth, all, errors);
    all := all + AnyOfErrors(env, v, s, path, depth);
    errors := ValidateOneOf(env, v, s, path, depth, all, errors);
  }

  method ValidateItems(env: Env, v: Value, s: Schema, path: seq<Step>, depth: nat, ghost all: seq<Error>,
                       before: seq<Error>)
    returns (errors: seq<Error>)
    requires s.Schema? && before == Cap(all)
    ensures errors == Cap(all + ArrayErrors(env, v, s, path, depth))
    decreases s, 2, 0
  {
    errors := before;
    assert all + [] == all;
    if v.Arr? && s.items.Some? {
      for i := 0 to |v.items|
        invariant errors == Cap(all + ItemErrors(env, v.items, s, path, depth, i))
      {
        var valid, found := ValidateJsonSchema(env, v.items[i], s.items.value, path + [Index(i)], depth + 1);
        assert found == Cap(ItemError(env, v.items[i], s, path, depth, i));
        Advance(all, ItemErrors(env, v.items, s, path, depth, i), ItemError(env, v.items[i], s, path, depth, i));
        errors := Push(errors, found);
      }
    }
  }

  /** One more child: its errors are capped, then pushed onto a capped list. */
  lemma Advance(all: seq<Error>, sofar: seq<Error>, child: seq<Error>)
    ensures Push(Cap(all + sofar), Cap(child)) == Cap(all + (sofar + child))
    ensures Push(Cap(all + sofar), child) == Cap(all + (sofar + child))
  {
    PushCaps(all + sofar, child);
    assert all + sofar + child == all + (sofar + child);
  }

  method ValidateObject(env: Env, v: Value, s: Schema, path: seq<Step>, depth: nat, ghost all: seq<Error>,
                        before: seq<Error>)
    returns (errors: seq<Error>)
    requires s.Schema? && before == Cap(all)
    ensures errors == Cap(all + ObjectErrors(env, v, s, path, depth))
    decreases s, 2, 0
  {
    errors := before;
    if !IsObject(v) {
      assert all + [] == all;
      return;
    }
    errors := ValidateRequired(env, v, s.required, path, all, errors);
    ghost var missing := MissingErrors(env, v, s.required, path, |s.required|);
    errors := ValidateProperties(env, v, s, path, depth, all + missing, errors);
    ghost var declared := PropertyErrors(env, v, s, path, depth, |s.properties|);
    ghost var extra := if s.closed then ExtraErrors(env, OwnFields(v), s.properties, path, |OwnFields(v)|) else [];
    if s.closed {
      errors := ValidateExtra(env, OwnFields(v), s.properties, path, all + missing + declared, errors);
    }
    assert all + missing + declared + extra == all + (missing + declared + extra);
  }

  method ValidateRequired(env: Env, v: Value, required: seq<string>, path: seq<Step>, ghost all: seq<Error>,
                          before: seq<Error>)
    returns (errors: seq<Error>)
    requires before == Cap(all)
    ensures errors == Cap(all + MissingErrors(env, v, required, path, |required|))
  {
    errors := before;
    assert all + [] == all;
    for i := 0 to |required|
      invariant errors == Cap(all + MissingErrors(env, v, required, path, i))
    {
      var more := ErrorIf(!HasKey(env, v, required[i]), path, MissingProperty(required[i]));
      Advance(all, MissingErrors(env, v, required, path, i), more);
      errors := Push(errors, more);
    }
  }

  method ValidateProperties(env: Env, v: Value, s: Schema, path: seq<Step>, depth: nat, ghost all: seq<Error>,
                            before: seq<Error>)
    returns (errors: seq<Error>)
    requires s.Schema? && before == Cap(all)
    ensures errors == Cap(all + PropertyErrors(env, v, s, path, depth, |s.properties|))
    decreases s, 1, 0
  {
    errors := before;
    assert all + [] == all;
    for i := 0 to |s.properties|
      invariant errors == Cap(all + PropertyErrors(env, v, s, path, depth, i))
    {
      var found := ValidateProperty(env, v, s, path, depth, i);
      Advance(all, PropertyErrors(env, v, s, path, depth, i), PropertyError(env, v, s, path, depth, i));
      errors := Push(errors, found);
    }
  }

  method ValidateProperty(env: Env, v: Value, s: Schema, path: seq<Step>, depth: nat, i: nat)
    returns (found: seq<Error>)
    requires s.Schema? && i < |s.properties|
    ensures found == Cap(PropertyError(env, v, s, path, depth, i))
    decreases s, 0, 0
  {
    var p := s.properties[i];
    var value := Get(env, v, p.key);
    if value.None? {
      return [];
    }
    var valid;
    valid, found := ValidateJsonSchema(env, value.value, p.schema, path + [Name(p.key)], depth + 1);
  }

  method ValidateExtra(env: Env, fields: seq<Field>, properties: seq<Property>, path: seq<Step>, ghost all: seq<Error>,
                       before: seq<Error>)
    returns (errors: seq<Error>)
    requires before == Cap(all)
    ensures errors == Cap(all + ExtraErrors(env, fields, properties, path, |fields|))
  {
    errors := before;
    assert all + [] == all;
    for i := 0 to |fields|
      invariant errors == Cap(all + ExtraErrors(env, fields, properties, path, i))
    {
      var more := ErrorIf(!Declares(env, properties, fields[i].key), path, ExtraProperty(fields[i].key));
      Advance(all, ExtraErrors(env, fields, properties, path, i), more);
      errors := Push(errors, more);
    }
  }

  method ValidateAllOf(env: Env, v: Value, s: Schema, path: seq<Step>, depth: nat, ghost all: seq<Error>,
                       before: seq<Error>)
    returns (errors: seq<Error>)
    requires s.Schema? && before == Cap(all)
    ensures errors == Cap(all + AllOfErrors(env, v, s, path, depth, |s.allOf|))
    decreases s, 1, 0
  {
    errors := before;
    assert all + [] == all;
    for i := 0 to |s.allOf|
      invariant errors == Cap(all + AllOfErrors(env, v, s, path, depth, i))
    {
      var valid, found := ValidateJsonSchema(env, v, s.allOf[i], path, depth + 1);
      assert found == Cap(AllOfError(env, v, s, path, depth, i));
      Advance(all, AllOfErrors(env, v, s, path, depth, i), AllOfError(env, v, s, path, depth, i));
      errors := Push(errors, found);
    }
  }

  method ValidateAnyOf(env: Env, v: Value, s: Schema, path: seq<Step>, depth: nat, ghost all: seq<Error>,
                       before: seq<Error>)
    returns (errors: seq<Error>)
    requires s.Schema? && before == Cap(all)
    ensures errors == Cap(all + AnyOfErrors(env, v, s, path, depth))
    decreases s, 2, 0
  {
    errors := before;
    PushCaps(all, AnyOfErrors(env, v, s, path, depth));
    if s.anyOf.Among? {
      var some := SomeAccepts(env, v, s, path, depth);
      errors := Push(errors, ErrorIf(!some, path, NoAlternative));
    }
  }

  method ValidateOneOf(env: Env, v: Value, s: Schema, path: seq<Step>, depth: nat, ghost all: seq<Error>,
                       before: seq<Error>)
    returns (errors: seq<Error>)
    requires s.Schema? && before == Cap(all)
    ensures errors == Cap(all + OneOfErrors(env, v, s, path, depth))
    decreases s, 2, 0
  {
    errors := before;
    PushCaps(all, OneOfErrors(env, v, s, path, depth));
    if s.oneOf.Among? {
      var count := CountAccepting(env, v, s, path, depth);
      errors := Push(errors, ErrorIf(count != 1, path, NotOneAlternative));
    }
  }

  /** `anyOf.some(...)`, which stops at the first alternative that accepts. */
  method SomeAccepts(env: Env, v: Value, s: Schema, path: seq<Step>, depth: nat) returns (some: bool)
    requires s.Schema? && s.anyOf.Among?
    ensures some <==> CountAnyOf(env, v, s, path, depth, |s.anyOf.choices|) > 0
    decreases s, 1, 0
  {
    for i := 0 to |s.anyOf.choices|
      invariant CountAnyOf(env, v, s, path, depth, i) == 0
    {
      var valid, found := ValidateJsonSchema(env, v, s.anyOf.choices[i], path, depth + 1);
      assert valid <==> AllErrors(env, v, s.anyOf.choices[i], path, depth + 1) == [];
      assert CountAnyOf(env, v, s, path, depth, i + 1) == OneIf(valid);
      if valid {
        CountAnyOfGrows(env, v, s, path, depth, i + 1, |s.anyOf.choices|);
        return true;
      }
    }
    return false;
  }

  lemma {:induction false} CountAnyOfGrows(env: Env, v: Value, s: Schema, path: seq<Step>, depth: nat, m: nat, n: nat)
    requires s.Schema? && s.anyOf.Among? && m <= n <= |s.anyOf.choices|
    ensures CountAnyOf(env, v, s, path, depth, m) <= CountAnyOf(env, v, s, path, depth, n)
    decreases n
  {
    if m < n {
      CountAnyOfGrows(env, v, s, path, depth, m, n - 1);
    }
  }

  method CountAccepting(env: Env, v: Value, s: Schema, path: seq<Step>, depth: nat) returns (count: nat)
    requires s.Schema? && s.oneOf.Among?
    ensures count == CountOneOf(env, v, s, path, depth, |s.oneOf.choices|)
    decreases s, 1, 0
  {
    count := 0;
    for i := 0 to |s.oneOf.choices|
      invariant count == CountOneOf(env, v, s, path, depth, i)
    {
      var valid, found := ValidateJsonSchema(env, v, s.oneOf.choices[i], path, depth + 1);
      if valid {
        count := count + 1;
      }
    }
  }
}
