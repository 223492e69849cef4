/**
 * Each keyword of the schema subset by itself: which values it refuses, and with which error. A schema reports what its
 * keywords report one after the other.
 */
module JsonKeywords {
  import opened Wrappers
  import opened JsonSchema
  import opened JsonSchemaMeaning

  /** No error, or one at the value itself. */
  function Unless(fine: bool, path: seq<Step>, fault: Fault): seq<Error>
  {
    if fine then [] else [Error(path, fault)]
  }

  /** Nothing but keywords about the value itself. */
  predicate IsFlat(s: Schema)
  {
    && s.Schema? && s.items.None? && s.properties == [] && s.required == [] && !s.closed
    && s.allOf == [] && s.anyOf.Free? && s.oneOf.Free?
  }

  /** The errors of a schema, section by section. */
  lemma Sections(env: Env, v: Value, s: Schema, path: seq<Step>, depth: nat)
    requires s.Schema? && depth <= MAX_DEPTH
    ensures AllErrors(env, v, s, path, depth) ==
            OwnErrors(env, v, s, path) + ArrayErrors(env, v, s, path, depth) + ObjectErrors(env, v, s, path, depth)
            + AllOfErrors(env, v, s, path, depth, |s.allOf|) + AnyOfErrors(env, v, s, path, depth)
            + OneOfErrors(env, v, s, path, depth)
  {
    assert AllErrors(env, v, s, path, depth) == KeywordErrors(env, v, s, path, depth);
  }

  lemma NoObjectErrors(env: Env, v: Value, s: Schema, path: seq<Step>, depth: nat)
    requires s.Schema? && s.properties == [] && s.required == [] && !s.closed
    ensures ObjectErrors(env, v, s, path, depth) == []
  {
    if IsObject(v) {
      assert MissingErrors(env, v, s.required, path, 0) == [] && PropertyErrors(env, v, s, path, depth, 0) == [];
    }
  }

  lemma NoAllOfErrors(env: Env, v: Value, s: Schema, path: seq<Step>, depth: nat)
    requires s.Schema? && s.allOf == []
    ensures AllOfErrors(env, v, s, path, depth, |s.allOf|) == []
  {
  }

  lemma NoOwnErrors(env: Env, v: Value, s: Schema, path: seq<Step>)
    requires s.Schema? && s == ANY.(items := s.items, properties := s.properties, required := s.required,
                                    closed := s.closed, allOf := s.allOf, anyOf := s.anyOf, oneOf := s.oneOf)
    ensures OwnErrors(env, v, s, path) == []
  {
  }

  lemma FlatErrors(env: Env, v: Value, s: Schema, path: seq<Step>, depth: nat)
    requires IsFlat(s) && depth <= MAX_DEPTH
    ensures AllErrors(env, v, s, path, depth) == OwnErrors(env, v, s, path)
  {
    Sections(env, v, s, path, depth);
    NoObjectErrors(env, v, s, path, depth);
    NoAllOfErrors(env, v, s, path, depth);
  }

  // ---------------------------------------------------------------- const, enum and type

  /** A value that `Object.is` can find equal to one of another object. */
  predicate IsScalar(v: Value) { !v.Arr? && !v.Obj? && !v.Method? && !v.Prototype? }

  lemma ConstExactly(env: Env, v: Value, c: Value, path: seq<Step>, depth: nat)
    requires depth <= MAX_DEPTH
    ensures AllErrors(env, v, ANY.(const_ := Some(c)), path, depth) == Unless(v == c && IsScalar(v), path, NotConst)
  {
    FlatErrors(env, v, ANY.(const_ := Some(c)), path, depth);
  }

  lemma EnumExactly(env: Env, v: Value, values: seq<Value>, path: seq<Step>, depth: nat)
    requires depth <= MAX_DEPTH
    ensures AllErrors(env, v, ANY.(enum := Some(values)), path, depth) ==
            Unless(v in values && IsScalar(v), path, NotInEnum)
  {
    FlatErrors(env, v, ANY.(enum := Some(values)), path, depth);
    assert v in values ==> exists i :: 0 <= i < |values| && values[i] == v;
  }

  function Whole(k: int, minus: bool): Value { Num(k as real, minus) }

  /** The values of each type; any other name takes every value. */
  ghost predicate HasType(v: Value, t: TypeName)
  {
    match t
    case NullType => v == Null
    case ArrayType => exists items :: v == Arr(items)
    case ObjectType => v == Prototype || exists fields :: v == Obj(fields)
    case IntegerType => exists k, minus :: v == Whole(k, minus)
    case NumberType => exists x: real, minus :: v == Num(x, minus)
    case BooleanType => v == Bool(true) || v == Bool(false)
    case StringType => exists text :: v == Str(text)
    case UnknownType => true
  }

  lemma TypeMeans(v: Value, t: TypeName)
    ensures IsType(v, t) <==> HasType(v, t)
  {
    match v
    case Num(n, minus) =>
      assert v == Num(n, minus);
      if n.Floor as real == n {
        assert v == Whole(n.Floor, minus);
      }
      if HasType(v, IntegerType) {
        var k, m :| v == Whole(k, m);
        assert n.Floor == k;
      }
    case Arr(items) => assert v == Arr(items);
    case Obj(fields) => assert v == Obj(fields);
    case Str(text) => assert v == Str(text);
    case Bool(b) => assert b == true || b == false;
    case Null => assert v == Null;
    case Huge(minus) => assert v == Huge(minus);
    case Method => assert v == Method;
    case Prototype => assert v == Prototype;
  }

  lemma TypesExactly(env: Env, v: Value, types: seq<TypeName>, path: seq<Step>, depth: nat)
    requires depth <= MAX_DEPTH && types != []
    ensures AllErrors(env, v, ANY.(types := types), path, depth) ==
            Unless(exists t :: t in types && HasType(v, t), path, WrongType)
  {
    FlatErrors(env, v, ANY.(types := types), path, depth);
    forall t ensures IsType(v, t) <==> HasType(v, t) {
      TypeMeans(v, t);
    }
    if t :| t in types && HasType(v, t) {
      var i :| 0 <= i < |types| && types[i] == t;
    }
  }

  // ---------------------------------------------------------------- texts, numbers and lists

  lemma LengthExactly(env: Env, v: Value, bound: real, path: seq<Step>, depth: nat)
    requires depth <= MAX_DEPTH
    ensures AllErrors(env, v, ANY.(minLength := Some(bound)), path, depth) ==
            Unless(v.Str? ==> bound <= |v.s| as real, path, TooShort)
    ensures AllErrors(env, v, ANY.(maxLength := Some(bound)), path, depth) ==
            Unless(v.Str? ==> |v.s| as real <= bound, path, TooLong)
  {
    FlatErrors(env, v, ANY.(minLength := Some(bound)), path, depth);
    FlatErrors(env, v, ANY.(maxLength := Some(bound)), path, depth);
  }

  lemma PatternExactly(env: Env, v: Value, pattern: string, path: seq<Step>, depth: nat)
    requires depth <= MAX_DEPTH
    ensures AllErrors(env, v, ANY.(pattern := Some(pattern)), path, depth) ==
            if !v.Str? then []
            else match env.test(pattern, v.s)
              case None => [Error(path, PatternInvalid)]
              case Some(matches) => Unless(matches, path, PatternMismatch)
  {
    FlatErrors(env, v, ANY.(pattern := Some(pattern)), path, depth);
  }

  lemma MinimumExactly(env: Env, v: Value, bound: real, path: seq<Step>, depth: nat)
    requires depth <= MAX_DEPTH
    ensures AllErrors(env, v, ANY.(minimum := Some(bound)), path, depth) ==
            Unless(v.Num? ==> bound <= v.n, path, BelowMinimum)
    ensures AllErrors(env, v, ANY.(exclusiveMinimum := Some(bound)), path, depth) ==
            Unless(v.Num? ==> bound < v.n, path, NotAboveMinimum)
  {
    FlatErrors(env, v, ANY.(minimum := Some(bound)), path, depth);
    FlatErrors(env, v, ANY.(exclusiveMinimum := Some(bound)), path, depth);
  }

  lemma MaximumExactly(env: Env, v: Value, bound: real, path: seq<Step>, depth: nat)
    requires depth <= MAX_DEPTH
    ensures AllErrors(env, v, ANY.(maximum := Some(bound)), path, depth) ==
            Unless(v.Num? ==> v.n <= bound, path, AboveMaximum)
    ensures AllErrors(env, v, ANY.(exclusiveMaximum := Some(bound)), path, depth) ==
            Unless(v.Num? ==> v.n < bound, path, NotBelowMaximum)
  {
    FlatErrors(env, v, ANY.(maximum := Some(bound)), path, depth);
    FlatErrors(env, v, ANY.(exclusiveMaximum := Some(bound)), path, depth);
  }

  lemma ItemCountExactly(env: Env, v: Value, bound: real, path: seq<Step>, depth: nat)
    requires depth <= MAX_DEPTH
    ensures AllErrors(env, v, ANY.(minItems := Some(bound)), path, depth) ==
            Unless(v.Arr? ==> bound <= |v.items| as real, path, TooFewItems)
    ensures AllErrors(env, v, ANY.(maxItems := Some(bound)), path, depth) ==
            Unless(v.Arr? ==> |v.items| as real <= bound, path, TooManyItems)
  {
    FlatErrors(env, v, ANY.(minItems := Some(bound)), path, depth);
    FlatErrors(env, v, ANY.(maxItems := Some(bound)), path, depth);
  }

  function Shows(env: Env, items: seq<Value>): set<string> { set i | 0 <= i < |items| :: env.show(items[i]) }

  lemma ShowsSnoc(env: Env, front: seq<Value>, last: Value)
    ensures Shows(env, front + [last]) == Shows(env, front) + {env.show(last)}
  {
    var items := front + [last];
    forall x ensures x in Shows(env, items) <==> x in Shows(env, front) + {env.show(last)} {
      if x in Shows(env, front) {
        var i :| 0 <= i < |front| && env.show(front[i]) == x;
        assert env.show(items[i]) == x;
      }
      assert env.show(items[|front|]) == env.show(last);
    }
  }

  lemma DistinctSnoc(env: Env, front: seq<Value>, last: Value)
    ensures Distinct(env, front + [last]) <==> Distinct(env, front) && env.show(last) !in Shows(env, front)
  {
    var items := front + [last];
    if Distinct(env, items) {
      forall i, j | 0 <= i < j < |front| ensures env.show(front[i]) != env.show(front[j]) {
        assert env.show(items[i]) != env.show(items[j]);
      }
      forall i | 0 <= i < |front| ensures env.show(front[i]) != env.show(last) {
        assert env.show(items[i]) != env.show(items[|front|]);
      }
    }
  }

  /** As in the code: as many different texts as items. */
  lemma {:induction false} DistinctCounts(env: Env, items: seq<Value>)
    ensures |Shows(env, items)| <= |items|
    ensures |Shows(env, items)| == |items| <==> Distinct(env, items)
  {
    if items != [] {
      var front, last := items[..|items| - 1], items[|items| - 1];
      assert items == front + [last];
      DistinctCounts(env, front);
      ShowsSnoc(env, front, last);
      DistinctSnoc(env, front, last);
    }
  }

  lemma UniqueExactly(env: Env, v: Value, path: seq<Step>, depth: nat)
    requires depth <= MAX_DEPTH
    ensures AllErrors(env, v, ANY.(uniqueItems := true), path, depth) ==
            Unless(v.Arr? ==> |Shows(env, v.items)| == |v.items|, path, RepeatedItems)
  {
    FlatErrors(env, v, ANY.(uniqueItems := true), path, depth);
    if v.Arr? {
      DistinctCounts(env, v.items);
    }
  }

  // ---------------------------------------------------------------- keywords with schemas of their own

  /** Item `i` has the error, one level down and at its own place. */
  predicate ItemReports(env: Env, items: seq<Value>, kid: Schema, path: seq<Step>, depth: nat, i: nat, e: Error)
    requires i < |items|
  {
    e in AllErrors(env, items[i], kid, path + [Index(i)], depth + 1)
  }

  lemma {:induction false} ItemErrorsMember(env: Env, items: seq<Value>, s: Schema, path: seq<Step>, depth: nat, n: nat,
                                            e: Error)
    requires s.Schema? && s.items.Some? && n <= |items|
    ensures e in ItemErrors(env, items, s, path, depth, n) <==>
            exists i :: 0 <= i < n && ItemReports(env, items, s.items.value, path, depth, i, e)
  {
    if n > 0 {
      ItemErrorsMember(env, items, s, path, depth, n - 1, e);
      var before := ItemErrors(env, items, s, path, depth, n - 1);
      var last := ItemError(env, items[n - 1], s, path, depth, n - 1);
      assert ItemErrors(env, items, s, path, depth, n) == before + last;
      assert e in last <==> ItemReports(env, items, s.items.value, path, depth, n - 1, e);
    }
  }

  /** `items` reports of every item what its schema reports. */
  lemma ItemsReport(env: Env, v: Value, kid: Schema, path: seq<Step>, depth: nat, e: Error)
    requires depth <= MAX_DEPTH
    ensures e in AllErrors(env, v, ANY.(items := Some(kid)), path, depth) <==>
            v.Arr? && exists i :: 0 <= i < |v.items| && ItemReports(env, v.items, kid, path, depth, i, e)
  {
    var s := ANY.(items := Some(kid));
    Sections(env, v, s, path, depth);
    NoOwnErrors(env, v, s, path);
    NoObjectErrors(env, v, s, path, depth);
    NoAllOfErrors(env, v, s, path, depth);
    assert AllErrors(env, v, s, path, depth) == ArrayErrors(env, v, s, path, depth);
    if v.Arr? {
      ItemErrorsMember(env, v.items, s, path, depth, |v.items|, e);
    }
  }

  lemma OnlyObjectErrors(env: Env, v: Value, s: Schema, path: seq<Step>, depth: nat)
    requires depth <= MAX_DEPTH && s.Schema?
    requires s == ANY.(properties := s.properties, required := s.required, closed := s.closed)
    ensures AllErrors(env, v, s, path, depth) == ObjectErrors(env, v, s, path, depth)
  {
    Sections(env, v, s, path, depth);
    NoOwnErrors(env, v, s, path);
    NoAllOfErrors(env, v, s, path, depth);
  }

  lemma OnePropertyError(env: Env, v: Value, s: Schema, path: seq<Step>, depth: nat)
    requires s.Schema? && |s.properties| == 1 && s.required == [] && !s.closed && IsObject(v)
    ensures ObjectErrors(env, v, s, path, depth) == PropertyError(env, v, s, path, depth, 0)
  {
    assert PropertyErrors(env, v, s, path, depth, 0) == [] && MissingErrors(env, v, s.required, path, 0) == [];
    assert PropertyErrors(env, v, s, path, depth, 1) ==
           PropertyErrors(env, v, s, path, depth, 0) + PropertyError(env, v, s, path, depth, 0);
  }

  lemma PropertyErrorIs(env: Env, v: Value, key: string, kid: Schema, path: seq<Step>, depth: nat)
    ensures PropertyError(env, v, ANY.(properties := [Property(key, kid)]), path, depth, 0) ==
            if Get(env, v, key).None? then []
            else AllErrors(env, Get(env, v, key).value, kid, path + [Name(key)], depth + 1)
  {
    assert [Property(key, kid)][0] == Property(key, kid);
  }

  /** `properties` reports of a declared name that the object has what its schema reports, under that name. */
  lemma PropertyReports(env: Env, v: Value, key: string, kid: Schema, path: seq<Step>, depth: nat)
    requires depth <= MAX_DEPTH
    ensures AllErrors(env, v, ANY.(properties := [Property(key, kid)]), path, depth) ==
            if !IsObject(v) || Get(env, v, key).None? then []
            else AllErrors(env, Get(env, v, key).value, kid, path + [Name(key)], depth + 1)
  {
    var s := ANY.(properties := [Property(key, kid)]);
    OnlyObjectErrors(env, v, s, path, depth);
    if IsObject(v) {
      OnePropertyError(env, v, s, path, depth);
      PropertyErrorIs(env, v, key, kid, path, depth);
    }
  }

  /** The value of a property: that of the first own field of the name, or else the inherited one. */
  lemma GetExactly(env: Env, v: Value, key: string)
    ensures var got := Get(env, v, key);
            && (got.Some? <==> HasName(env, v, key))
            && (got.Some? ==> || Field(key, got.value) in OwnFields(v)
                              || ((forall i :: 0 <= i < |OwnFields(v)| ==> OwnFields(v)[i].key != key)
                                  && got.value == env.inheritedValue(v, key)))
  {
    OwnFinds(OwnFields(v), key);
  }

  /** `required` reports a name that the object neither has nor inherits. */
  lemma RequiredReports(env: Env, v: Value, key: string, path: seq<Step>, depth: nat)
    requires depth <= MAX_DEPTH
    ensures AllErrors(env, v, ANY.(required := [key]), path, depth) ==
            Unless(IsObject(v) ==> HasName(env, v, key), path, MissingProperty(key))
  {
    var s := ANY.(required := [key]);
    OnlyObjectErrors(env, v, s, path, depth);
    GetExactly(env, v, key);
    if IsObject(v) {
      assert MissingErrors(env, v, s.required, path, 0) == [];
      assert MissingErrors(env, v, s.required, path, 1) ==
             MissingErrors(env, v, s.required, path, 0) + ErrorIf(!HasKey(env, v, key), path, MissingProperty(key));
    }
  }

  /** An own name of the object, or one that every object inherits. */
  predicate HasName(env: Env, v: Value, key: string)
  {
    key in env.inherited || exists i :: 0 <= i < |OwnFields(v)| && OwnFields(v)[i].key == key
  }

  lemma {:induction false} OwnFinds(fields: seq<Field>, key: string)
    ensures Own(fields, key).Some? <==> exists i :: 0 <= i < |fields| && fields[i].key == key
    ensures Own(fields, key).Some? ==> exists i :: 0 <= i < |fields| && fields[i] == Field(key, Own(fields, key).value)
  {
    if fields != [] && fields[0].key != key {
      OwnFinds(fields[1..], key);
      if i :| 0 <= i < |fields| && fields[i].key == key {
        assert fields[1..][i - 1] == fields[i];
      }
    } else if fields != [] {
      assert fields[0] == Field(key, fields[0].value);
    }
  }

  /** Schema `i` of `allOf` reports the error. */
  predicate KidReports(env: Env, v: Value, kids: seq<Schema>, path: seq<Step>, depth: nat, i: nat, e: Error)
    requires i < |kids|
  {
    e in AllErrors(env, v, kids[i], path, depth + 1)
  }

  lemma {:induction false} AllOfMember(env: Env, v: Value, s: Schema, path: seq<Step>, depth: nat, n: nat, e: Error)
    requires s.Schema? && n <= |s.allOf|
    ensures e in AllOfErrors(env, v, s, path, depth, n) <==>
            exists i :: 0 <= i < n && KidReports(env, v, s.allOf, path, depth, i, e)
  {
    if n > 0 {
      AllOfMember(env, v, s, path, depth, n - 1, e);
      var before, last := AllOfErrors(env, v, s, path, depth, n - 1), AllOfError(env, v, s, path, depth, n - 1);
      assert AllOfErrors(env, v, s, path, depth, n) == before + last;
      assert e in last <==> KidReports(env, v, s.allOf, path, depth, n - 1, e);
    }
  }

  /** `allOf` reports what any of its schemas reports, one level down. */
  lemma AllOfReports(env: Env, v: Value, kids: seq<Schema>, path: seq<Step>, depth: nat, e: Error)
    requires depth <= MAX_DEPTH
    ensures e in AllErrors(env, v, ANY.(allOf := kids), path, depth) <==>
            exists i :: 0 <= i < |kids| && KidReports(env, v, kids, path, depth, i, e)
  {
    var s := ANY.(allOf := kids);
    Sections(env, v, s, path, depth);
    NoOwnErrors(env, v, s, path);
    NoObjectErrors(env, v, s, path, depth);
    assert AllErrors(env, v, s, path, depth) == AllOfErrors(env, v, s, path, depth, |kids|);
    AllOfMember(env, v, s, path, depth, |kids|, e);
  }

  /** `anyOf` reports one error, at the value itself, exactly when no alternative accepts the value. */
  lemma AnyOfReports(env: Env, v: Value, kids: seq<Schema>, path: seq<Step>, depth: nat)
    requires depth <= MAX_DEPTH
    ensures AllErrors(env, v, ANY.(anyOf := Among(kids)), path, depth) ==
            Unless(exists i :: 0 <= i < |kids| && Accepts(env, v, kids[i], true, depth + 1), path, NoAlternative)
  {
    var s := ANY.(anyOf := Among(kids));
    Sections(env, v, s, path, depth);
    NoOwnErrors(env, v, s, path);
    NoObjectErrors(env, v, s, path, depth);
    NoAllOfErrors(env, v, s, path, depth);
    AnyOfExactly(env, v, s, path, depth);
    SomeVerdict(env, v, kids, depth + 1);
  }

  lemma SomeVerdict(env: Env, v: Value, kids: seq<Schema>, depth: nat)
    ensures SomeTrue(Verdicts(env, v, kids, true, depth)) <==>
            exists i :: 0 <= i < |kids| && Accepts(env, v, kids[i], true, depth)
  {
    var verdicts := Verdicts(env, v, kids, true, depth);
    if i :| 0 <= i < |kids| && Accepts(env, v, kids[i], true, depth) {
      assert verdicts[i];
    }
  }

  /** `oneOf` reports one error exactly unless one alternative accepts the value and no other does. */
  lemma OneOfReports(env: Env, v: Value, kids: seq<Schema>, path: seq<Step>, depth: nat)
    requires depth <= MAX_DEPTH
    ensures AllErrors(env, v, ANY.(oneOf := Among(kids)), path, depth) ==
            Unless(OneAccepts(env, v, kids, depth + 1), path, NotOneAlternative)
  {
    var s := ANY.(oneOf := Among(kids));
    Sections(env, v, s, path, depth);
    NoOwnErrors(env, v, s, path);
    NoObjectErrors(env, v, s, path, depth);
    NoAllOfErrors(env, v, s, path, depth);
    OneOfExactly(env, v, s, path, depth);
    OnlyOneVerdict(env, v, kids, depth + 1);
  }

  predicate OnlyAccepts(env: Env, v: Value, kids: seq<Schema>, i: nat, depth: nat)
    requires i < |kids|
  {
    && Accepts(env, v, kids[i], true, depth)
    && forall j :: 0 <= j < |kids| && j != i ==> !Accepts(env, v, kids[j], true, depth)
  }

  predicate OneAccepts(env: Env, v: Value, kids: seq<Schema>, depth: nat)
  {
    exists i :: 0 <= i < |kids| && OnlyAccepts(env, v, kids, i, depth)
  }

  lemma OnlyOneVerdict(env: Env, v: Value, kids: seq<Schema>, depth: nat)
    ensures OneTrue(Verdicts(env, v, kids, true, depth)) <==> OneAccepts(env, v, kids, depth)
  {
    var verdicts := Verdicts(env, v, kids, true, depth);
    if OneTrue(verdicts) {
      var i :| 0 <= i < |verdicts| && verdicts[i] && forall j :: 0 <= j < |verdicts| && j != i ==> !verdicts[j];
      assert OnlyAccepts(env, v, kids, i, depth);
    }
    if i :| 0 <= i < |kids| && OnlyAccepts(env, v, kids, i, depth) {
      assert verdicts[i] && forall j :: 0 <= j < |verdicts| && j != i ==> !verdicts[j];
    }
  }

  /** The schema itself: what is no object, and what lies deeper than level 20, is refused as a whole. */
  lemma DepthReports(env: Env, v: Value, s: Schema, path: seq<Step>, depth: nat)
    ensures AllErrors(env, v, NotASchema, path, depth) == [Error(path, SchemaNotObject)]
    ensures s.Schema? && depth > 20 ==> AllErrors(env, v, s, path, depth) == [Error(path, JsonSchema.TooDeep)]
    ensures AllErrors(env, v, ANY, path, depth) == Unless(depth <= 20, path, JsonSchema.TooDeep)
  {
    if depth <= 20 {
      FlatErrors(env, v, ANY, path, depth);
    }
  }
}
