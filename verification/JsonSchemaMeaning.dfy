/** The validator reports no error exactly when the boolean recursion accepts, and when its depth limit is invisible. */
module JsonSchemaMeaning {
  import opened Wrappers
  import opened Lists
  import opened JsonSchema

  // ---------------------------------------------------------------- no error means accepted

  lemma OwnExactly(env: Env, v: Value, s: Schema, path: seq<Step>)
    requires s.Schema? && !IsObject(v)
    ensures OwnErrors(env, v, s, path) == [] <==> MeetsKeywords(env, v, s)
  {
  }

  lemma EmptyConcat(a: seq<Error>, b: seq<Error>)
    ensures a + b == [] <==> a == [] && b == []
  {
  }

  function PresentIn(env: Env, v: Value): string -> bool { key => HasKey(env, v, key) }

  lemma {:induction false} MissingExactly(env: Env, v: Value, required: seq<string>, path: seq<Step>, n: nat)
    requires n <= |required|
    ensures MissingErrors(env, v, required, path, n) == [] <==> Every(PresentIn(env, v), required, n)
  {
    if n > 0 {
      MissingExactly(env, v, required, path, n - 1);
      EmptyConcat(MissingErrors(env, v, required, path, n - 1),
                  ErrorIf(!HasKey(env, v, required[n - 1]), path, MissingProperty(required[n - 1])));
    }
  }

  function DeclaredIn(env: Env, properties: seq<Property>): Field -> bool
  {
    (field: Field) => Declares(env, properties, field.key)
  }

  lemma {:induction false} ExtraExactly(env: Env, fields: seq<Field>, properties: seq<Property>, path: seq<Step>,
                                        n: nat)
    requires n <= |fields|
    ensures ExtraErrors(env, fields, properties, path, n) == [] <==> Every(DeclaredIn(env, properties), fields, n)
  {
    if n > 0 {
      ExtraExactly(env, fields, properties, path, n - 1);
    }
  }

  /** The keywords about the keys of an object. */
  lemma KeysExactly(env: Env, v: Value, s: Schema, path: seq<Step>)
    requires s.Schema?
    ensures MissingErrors(env, v, s.required, path, |s.required|) == [] <==> HasRequired(env, v, s)
    ensures ExtraErrors(env, OwnFields(v), s.properties, path, |OwnFields(v)|) == [] <==> OnlyDeclared(env, v, s)
  {
    MissingExactly(env, v, s.required, path, |s.required|);
    EveryMeans(PresentIn(env, v), s.required, |s.required|);
    ExtraExactly(env, OwnFields(v), s.properties, path, |OwnFields(v)|);
    EveryMeans(DeclaredIn(env, s.properties), OwnFields(v), |OwnFields(v)|);
  }

  /** The keywords of an object are checked in two places: its own, and its keys. */
  lemma ObjectKeywordsExactly(env: Env, v: Value, s: Schema, path: seq<Step>)
    requires s.Schema? && IsObject(v)
    ensures MeetsKeywords(env, v, s) <==>
            && OwnErrors(env, v, s, path) == []
            && MissingErrors(env, v, s.required, path, |s.required|) == []
            && (s.closed ==> ExtraErrors(env, OwnFields(v), s.properties, path, |OwnFields(v)|) == [])
  {
    KeysExactly(env, v, s, path);
  }

  lemma {:induction false} ItemsExactly(env: Env, items: seq<Value>, s: Schema, path: seq<Step>, depth: nat, n: nat)
    requires s.Schema? && s.items.Some? && n <= |items|
    ensures ItemErrors(env, items, s, path, depth, n) == [] <==>
            forall i :: 0 <= i < n ==> Accepts(env, items[i], s.items.value, true, depth + 1)
    decreases s, 0, n
  {
    if n > 0 {
      ItemsExactly(env, items, s, path, depth, n - 1);
      ErrorsExactly(env, items[n - 1], s.items.value, path + [Index(n - 1)], depth + 1);
    }
  }

  function AcceptedIn(env: Env, v: Value, depth: nat): Property -> bool
  {
    p => PropertyAccepted(env, v, p, true, depth)
  }

  lemma PropertyExactly(env: Env, v: Value, s: Schema, path: seq<Step>, depth: nat, i: nat)
    requires s.Schema? && i < |s.properties|
    ensures PropertyError(env, v, s, path, depth, i) == [] <==>
            PropertyAccepted(env, v, s.properties[i], true, depth + 1)
    decreases s, 0, 0
  {
    var p := s.properties[i];
    if Get(env, v, p.key).Some? {
      ErrorsExactly(env, Get(env, v, p.key).value, p.schema, path + [Name(p.key)], depth + 1);
    }
  }

  lemma {:induction false} PropertiesExactly(env: Env, v: Value, s: Schema, path: seq<Step>, depth: nat, n: nat)
    requires s.Schema? && n <= |s.properties|
    ensures PropertyErrors(env, v, s, path, depth, n) == [] <==> Every(AcceptedIn(env, v, depth + 1), s.properties, n)
    decreases s, 1, n
  {
    if n > 0 {
      PropertiesExactly(env, v, s, path, depth, n - 1);
      PropertyExactly(env, v, s, path, depth, n - 1);
      EmptyConcat(PropertyErrors(env, v, s, path, depth, n - 1), PropertyError(env, v, s, path, depth, n - 1));
    }
  }

  lemma {:induction false} AllOfExactly(env: Env, v: Value, s: Schema, path: seq<Step>, depth: nat, n: nat)
    requires s.Schema? && n <= |s.allOf|
    ensures AllOfErrors(env, v, s, path, depth, n) == [] <==>
            forall i :: 0 <= i < n ==> Accepts(env, v, s.allOf[i], true, depth + 1)
    decreases s, 0, n
  {
    if n > 0 {
      AllOfExactly(env, v, s, path, depth, n - 1);
      ErrorsExactly(env, v, s.allOf[n - 1], path, depth + 1);
    }
  }

  function CountTrue(verdicts: seq<bool>, n: nat): nat
    requires n <= |verdicts|
  {
    if n == 0 then 0 else CountTrue(verdicts, n - 1) + OneIf(verdicts[n - 1])
  }

  lemma {:induction false} CountedTrue(verdicts: seq<bool>, n: nat)
    requires n <= |verdicts|
    ensures CountTrue(verdicts, n) == 0 <==> !SomeTrue(verdicts[..n])
    ensures CountTrue(verdicts, n) == 1 <==> OneTrue(verdicts[..n])
  {
    if n > 0 {
      var before, last := verdicts[..n - 1], verdicts[n - 1];
      assert verdicts[..n] == before + [last];
      CountedTrue(verdicts, n - 1);
      OneMore(before, last);
    }
  }

  lemma OneMore(verdicts: seq<bool>, last: bool)
    ensures SomeTrue(verdicts + [last]) <==> SomeTrue(verdicts) || last
    ensures OneTrue(verdicts + [last]) <==> if last then !SomeTrue(verdicts) else OneTrue(verdicts)
  {
    var all := verdicts + [last];
    assert forall i :: 0 <= i < |verdicts| ==> all[i] == verdicts[i];
    assert all[|verdicts|] == last;
  }

  lemma {:induction false} AnyOfCounted(env: Env, v: Value, s: Schema, path: seq<Step>, depth: nat, n: nat)
    requires s.Schema? && s.anyOf.Among? && n <= |s.anyOf.choices|
    ensures CountAnyOf(env, v, s, path, depth, n) == CountTrue(Verdicts(env, v, s.anyOf.choices, true, depth + 1), n)
    decreases s, 0, n
  {
    if n > 0 {
      AnyOfCounted(env, v, s, path, depth, n - 1);
      ErrorsExactly(env, v, s.anyOf.choices[n - 1], path, depth + 1);
    }
  }

  lemma {:induction false} OneOfCounted(env: Env, v: Value, s: Schema, path: seq<Step>, depth: nat, n: nat)
    requires s.Schema? && s.oneOf.Among? && n <= |s.oneOf.choices|
    ensures CountOneOf(env, v, s, path, depth, n) == CountTrue(Verdicts(env, v, s.oneOf.choices, true, depth + 1), n)
    decreases s, 0, n
  {
    if n > 0 {
      OneOfCounted(env, v, s, path, depth, n - 1);
      ErrorsExactly(env, v, s.oneOf.choices[n - 1], path, depth + 1);
    }
  }

  lemma AnyOfExactly(env: Env, v: Value, s: Schema, path: seq<Step>, depth: nat)
    requires s.Schema?
    ensures AnyOfErrors(env, v, s, path, depth) == [] <==>
            (s.anyOf.Among? ==> SomeTrue(Verdicts(env, v, s.anyOf.choices, true, depth + 1)))
    decreases s, 1, 0
  {
    if s.anyOf.Among? {
      var verdicts := Verdicts(env, v, s.anyOf.choices, true, depth + 1);
      AnyOfCounted(env, v, s, path, depth, |verdicts|);
      CountedTrue(verdicts, |verdicts|);
      assert verdicts[..|verdicts|] == verdicts;
    }
  }

  lemma OneOfExactly(env: Env, v: Value, s: Schema, path: seq<Step>, depth: nat)
    requires s.Schema?
    ensures OneOfErrors(env, v, s, path, depth) == [] <==>
            (s.oneOf.Among? ==> OneTrue(Verdicts(env, v, s.oneOf.choices, true, depth + 1)))
    decreases s, 1, 0
  {
    if s.oneOf.Among? {
      var verdicts := Verdicts(env, v, s.oneOf.choices, true, depth + 1);
      OneOfCounted(env, v, s, path, depth, |verdicts|);
      CountedTrue(verdicts, |verdicts|);
      assert verdicts[..|verdicts|] == verdicts;
    }
  }

  lemma ContainersExactly(env: Env, v: Value, s: Schema, path: seq<Step>, depth: nat)
    requires s.Schema?
    ensures var own, inner := OwnErrors(env, v, s, path), ArrayErrors(env, v, s, path, depth);
            own + inner + ObjectErrors(env, v, s, path, depth) == [] <==>
              && MeetsKeywords(env, v, s) && ItemsAccepted(env, v, s, true, depth + 1)
              && PropertiesAccepted(env, v, s, true, depth + 1)
    decreases s, 2, 0
  {
    if IsObject(v) {
      ObjectKeywordsExactly(env, v, s, path);
      PropertiesExactly(env, v, s, path, depth, |s.properties|);
      EveryMeans(AcceptedIn(env, v, depth + 1), s.properties, |s.properties|);
    } else {
      OwnExactly(env, v, s, path);
      if v.Arr? && s.items.Some? {
        ItemsExactly(env, v.items, s, path, depth, |v.items|);
      }
    }
  }

  /** For every value and schema there is no error exactly when the boolean recursion accepts. */
  lemma ErrorsExactly(env: Env, v: Value, s: Schema, path: seq<Step>, depth: nat)
    ensures AllErrors(env, v, s, path, depth) == [] <==> Accepts(env, v, s, true, depth)
    decreases s, 3, 0
  {
    if s.Schema? && depth <= MAX_DEPTH {
      ContainersExactly(env, v, s, path, depth);
      AllOfExactly(env, v, s, path, depth, |s.allOf|);
      AnyOfExactly(env, v, s, path, depth);
      OneOfExactly(env, v, s, path, depth);
    }
  }

  /** The capped list is empty exactly when the full list is, and never longer than 25. */
  lemma CapHidesNothing(errors: seq<Error>)
    ensures (Cap(errors) == [] <==> errors == []) && |Cap(errors)| <= MAX_ERRORS && Cap(errors) <= errors
  {
  }

  /** `validateJsonSchema` at the root: valid exactly when the schema accepts the value. */
  method Validate(env: Env, v: Value, s: Schema) returns (valid: bool, errors: seq<Error>)
    ensures valid <==> Accepts(env, v, s, true, 0)
    ensures |errors| <= MAX_ERRORS && errors <= AllErrors(env, v, s, [], 0)
  {
    valid, errors := ValidateJsonSchema(env, v, s, [], 0);
    ErrorsExactly(env, v, s, [], 0);
    CapHidesNothing(AllErrors(env, v, s, [], 0));
  }

  // ---------------------------------------------------------------- the depth limit

  /** No schema lies more than `h` levels below `s`. */
  predicate HeightAtMost(s: Schema, h: int)
    decreases s, 1
  {
    h >= 0 && (s.Schema? ==>
      && (s.items.Some? ==> HeightAtMost(s.items.value, h - 1))
      && (forall i :: 0 <= i < |s.properties| ==> HeightAtMost(s.properties[i].schema, h - 1))
      && AllAtMost(s.allOf, h - 1)
      && (s.anyOf.Among? ==> AllAtMost(s.anyOf.choices, h - 1))
      && (s.oneOf.Among? ==> AllAtMost(s.oneOf.choices, h - 1)))
  }

  predicate AllAtMost(kids: seq<Schema>, h: int)
    decreases kids, 0
  {
    forall i :: 0 <= i < |kids| ==> HeightAtMost(kids[i], h)
  }

  lemma {:induction false} KidsUnlimited(env: Env, v: Value, kids: seq<Schema>, h: int, depth: nat, depth': nat)
    requires AllAtMost(kids, h) && depth + h <= MAX_DEPTH
    ensures forall i :: 0 <= i < |kids| ==>
            (Accepts(env, v, kids[i], true, depth) <==> Accepts(env, v, kids[i], false, depth'))
    decreases kids, 0
  {
    forall i | 0 <= i < |kids|
      ensures Accepts(env, v, kids[i], true, depth) <==> Accepts(env, v, kids[i], false, depth')
    {
      DepthInvisible(env, v, kids[i], h, depth, depth');
    }
  }

  lemma {:induction false} ContainersUnlimited(env: Env, v: Value, s: Schema, h: int, depth: nat, depth': nat)
    requires s.Schema? && HeightAtMost(s, h) && depth + h <= MAX_DEPTH
    ensures ItemsAccepted(env, v, s, true, depth + 1) <==> ItemsAccepted(env, v, s, false, depth' + 1)
    ensures PropertiesAccepted(env, v, s, true, depth + 1) <==> PropertiesAccepted(env, v, s, false, depth' + 1)
    decreases s, 0
  {
    if v.Arr? && s.items.Some? {
      forall i | 0 <= i < |v.items|
        ensures Accepts(env, v.items[i], s.items.value, true, depth + 1) <==>
                Accepts(env, v.items[i], s.items.value, false, depth' + 1)
      {
        DepthInvisible(env, v.items[i], s.items.value, h - 1, depth + 1, depth' + 1);
      }
    }
    forall i | 0 <= i < |s.properties|
      ensures PropertyAccepted(env, v, s.properties[i], true, depth + 1) <==>
              PropertyAccepted(env, v, s.properties[i], false, depth' + 1)
    {
      var p := s.properties[i];
      if Get(env, v, p.key).Some? {
        DepthInvisible(env, Get(env, v, p.key).value, p.schema, h - 1, depth + 1, depth' + 1);
      }
    }
  }

  lemma {:induction false} ChoicesUnlimited(env: Env, v: Value, c: Choice, h: int, depth: nat, depth': nat)
    requires c.Among? ==> AllAtMost(c.choices, h)
    requires depth + h <= MAX_DEPTH
    ensures c.Among? ==> Verdicts(env, v, c.choices, true, depth) == Verdicts(env, v, c.choices, false, depth')
    decreases c, 0
  {
    if c.Among? {
      KidsUnlimited(env, v, c.choices, h, depth, depth');
    }
  }

  /** The depth limit never fires when the schemas below reach no deeper than level 20. */
  lemma {:induction false} DepthInvisible(env: Env, v: Value, s: Schema, h: int, depth: nat, depth': nat)
    requires HeightAtMost(s, h) && depth + h <= MAX_DEPTH
    ensures Accepts(env, v, s, true, depth) <==> Accepts(env, v, s, false, depth')
    decreases s, 1
  {
    if s.Schema? {
      ContainersUnlimited(env, v, s, h, depth, depth');
      KidsUnlimited(env, v, s.allOf, h - 1, depth + 1, depth' + 1);
      ChoicesUnlimited(env, v, s.anyOf, h - 1, depth + 1, depth' + 1);
      ChoicesUnlimited(env, v, s.oneOf, h - 1, depth + 1, depth' + 1);
    }
  }

  // ---------------------------------------------------------------- the limit is tight

  const ANY: Schema :=
    Schema(None, None, [], None, None, None, None, None, None, None, None, None, false, None, [], [], false, [], Free,
           Free)

  /** `height` nested `allOf`s around a schema that accepts everything. */
  function Tower(height: nat): (s: Schema)
    ensures s.Schema?
  {
    if height == 0 then ANY else ANY.(allOf := [Tower(height - 1)])
  }

  lemma {:induction false} TowerHeight(height: nat)
    ensures HeightAtMost(Tower(height), height)
  {
    if height > 0 {
      TowerHeight(height - 1);
      assert Tower(height).allOf == [Tower(height - 1)];
    }
  }

  lemma TowerStep(env: Env, v: Value, height: nat, limited: bool, depth: nat)
    requires height > 0
    ensures Accepts(env, v, Tower(height), limited, depth) <==>
            (limited ==> depth <= MAX_DEPTH) && Accepts(env, v, Tower(height - 1), limited, depth + 1)
  {
    var s := Tower(height);
    var kid := Tower(height - 1);
    assert s.allOf == [kid] && s.allOf[0] == kid && MeetsKeywords(env, v, s);
    assert AllAccepted(env, v, [kid], limited, depth + 1) <==> Accepts(env, v, kid, limited, depth + 1) by {
      assert [kid][0] == kid;
    }
  }

  /** A tower means nothing but "anything", yet the validator accepts it only up to level 20. */
  lemma {:induction false} TowerAccepted(env: Env, v: Value, height: nat, depth: nat)
    ensures Accepts(env, v, Tower(height), false, depth)
    ensures Accepts(env, v, Tower(height), true, depth) <==> depth + height <= MAX_DEPTH
  {
    if height > 0 {
      TowerAccepted(env, v, height - 1, depth + 1);
      TowerStep(env, v, height, true, depth);
      TowerStep(env, v, height, false, depth);
    } else {
      assert MeetsKeywords(env, v, ANY);
    }
  }

  // ---------------------------------------------------------------- where the subset departs from the standard

  /** A `const` that is an array or an object is never met, not even by an equal value. */
  lemma CompoundConstNeverMet(env: Env, v: Value, s: Schema, limited: bool, depth: nat)
    requires s.Schema? && s.const_.Some? && (s.const_.value.Arr? || s.const_.value.Obj?)
    ensures !Accepts(env, v, s, limited, depth)
  {
  }

  /** Requiring a property is met without it exactly when objects inherit the name. */
  lemma RequiredExactly(env: Env, fields: seq<Field>, key: string, limited: bool)
    ensures Accepts(env, Obj(fields), ANY.(required := [key]), limited, 0) <==>
            Own(fields, key).Some? || key in env.inherited
  {
    var s := ANY.(required := [key]);
    assert s.required[0] == key;
  }

  /** Properties that may hold anything. */
  function Open(names: seq<string>): (r: seq<Property>)
    ensures |r| == |names| && forall i :: 0 <= i < |names| ==> r[i] == Property(names[i], ANY)
  {
    if names == [] then [] else Open(names[..|names| - 1]) + [Property(names[|names| - 1], ANY)]
  }

  lemma AnyAccepts(env: Env, v: Value, limited: bool)
    ensures Accepts(env, v, ANY, limited, 1)
  {
    assert MeetsKeywords(env, v, ANY);
  }

  lemma OpenAccepted(env: Env, v: Value, names: seq<string>, limited: bool)
    ensures PropertiesAccepted(env, v, ANY.(closed := true, properties := Open(names)), limited, 1)
  {
    forall i | 0 <= i < |names| ensures PropertyAccepted(env, v, Open(names)[i], limited, 1) {
      if Get(env, v, names[i]).Some? {
        AnyAccepts(env, Get(env, v, names[i]).value, limited);
      }
    }
  }

  lemma DeclaredExactly(env: Env, names: seq<string>, key: string)
    ensures Declares(env, Open(names), key) <==> key in names || key in env.inherited
  {
    if key in names {
      var i :| 0 <= i < |names| && names[i] == key;
      assert Open(names)[i].key == key;
    }
    if exists i :: 0 <= i < |Open(names)| && Open(names)[i].key == key {
      var i :| 0 <= i < |Open(names)| && Open(names)[i].key == key;
      assert names[i] == key;
    }
  }

  /** A closed object takes an undeclared property exactly when objects inherit its name. */
  lemma ClosedExactly(env: Env, fields: seq<Field>, names: seq<string>, limited: bool)
    ensures Accepts(env, Obj(fields), ANY.(closed := true, properties := Open(names)), limited, 0) <==>
            forall i :: 0 <= i < |fields| ==> fields[i].key in names || fields[i].key in env.inherited
  {
    var v, s := Obj(fields), ANY.(closed := true, properties := Open(names));
    OpenAccepted(env, v, names, limited);
    assert OwnFields(v) == fields && s.allOf == [];
    assert MeetsKeywords(env, v, s) <==> OnlyDeclared(env, v, s);
    assert Accepts(env, v, s, limited, 0) <==> OnlyDeclared(env, v, s);
    forall i | 0 <= i < |fields|
      ensures Declares(env, s.properties, fields[i].key) <==> fields[i].key in names || fields[i].key in env.inherited
    {
      DeclaredExactly(env, names, fields[i].key);
    }
  }
}
