/** When the registry's verdict can be believed, exactly. */
module ContractTheorems {
  import opened Common
  import opened ContractModel

  /** Every value the output may be is a value the input accepts. */
  ghost predicate Sound(output: Schema, input: Schema) {
    forall v :: Accepts(output, v) ==> Accepts(input, v)
  }

  lemma HasCovered(v: Json, t: JsonType, types: set<JsonType>)
    requires HasType(v, t) && Covered(t, types)
    ensures exists u :: u in types && HasType(v, u)
  {
    if t !in types { assert HasType(v, NumberType); }
  }

  /** A compatible field passes on every value. */
  lemma FieldPasses(output: Schema, input: Schema, v: Json)
    requires FieldCompatible(output, input) && Accepts(output, v)
    ensures Accepts(input, v)
  {
    var t :| t in output.types.value && HasType(v, t);
    HasCovered(v, t, input.types.value);
  }

  lemma EmptyAccepts(v: Json)
    ensures Accepts(EMPTY, v)
  {
  }

  /** The schema a key's value must satisfy. */
  function At(s: Schema, k: string): Schema
    requires s.Keywords?
  {
    if k in PropertiesOf(s) then PropertiesOf(s)[k] else AdditionalOf(s)
  }

  /** What a compatible verdict has checked of one key: everything but what only an open output can add. */
  lemma KeyPasses(output: Schema, input: Schema, k: string, v: Json)
    requires ValidateCompatibility(output, input) == Compatible && output != input
    requires k in PropertiesOf(output) && Accepts(At(output, k), v)
    ensures Accepts(At(input, k), v)
  {
    var op, ip, ie := PropertiesOf(output), PropertiesOf(input), AdditionalOf(input);
    if k in ip {
      assert FieldCompatible(op[k], ip[k]);
      FieldPasses(op[k], ip[k], v);
    } else if Constrained(ie) {
      assert FieldCompatible(op[k], ie);
      FieldPasses(op[k], ie, v);
    } else {
      EmptyAccepts(v);
    }
  }

  /** What an open output may add under undeclared keys is accepted by the input under the same keys. */
  ghost predicate AdditionsPass(output: Schema, input: Schema)
    requires output.Keywords? && input.Keywords?
  {
    forall k, v :: k !in PropertiesOf(output) && Accepts(AdditionalOf(output), v) ==> Accepts(At(input, k), v)
  }

  lemma CompatibleShape(output: Schema, input: Schema)
    requires ValidateCompatibility(output, input) == Compatible && output != input
    ensures IsObject(output) && IsObject(input) && RequiredOf(input) <= RequiredOf(output)
  {
  }

  lemma AdditionsMakeSound(output: Schema, input: Schema)
    requires ValidateCompatibility(output, input) == Compatible && output != input
    requires output.Keywords? && input.Keywords? && AdditionsPass(output, input)
    ensures Sound(output, input)
  {
    CompatibleShape(output, input);
    hide ValidateCompatibility;
    forall v | Accepts(output, v) ensures Accepts(input, v) {
      if v.Obj? {
        forall k | k in v.fields ensures Accepts(At(input, k), v.fields[k]) {
          assert Accepts(At(output, k), v.fields[k]);
          if k in PropertiesOf(output) { KeyPasses(output, input, k, v.fields[k]); }
        }
        assert HasType(v, ObjectType);
      }
    }
  }

  /**
   * A compatible verdict is true when the output is closed, or when it declares every property of the input and
   * does not meet a constrained input with the unconstrained `{}`.
   */
  lemma VerdictIsSound(output: Schema, input: Schema)
    requires ValidateCompatibility(output, input) == Compatible
    requires output.Keywords? && input.Keywords?
    requires || AdditionalOf(output) == Constant(false)
             || (PropertiesOf(input).Keys <= PropertiesOf(output).Keys
                 && !(AdditionalOf(output) == EMPTY && Constrained(AdditionalOf(input))))
    ensures Sound(output, input)
  {
    if output != input {
      var oe, ie := AdditionalOf(output), AdditionalOf(input);
      forall k, v | k !in PropertiesOf(output) && Accepts(oe, v) ensures Accepts(At(input, k), v) {
        if oe != Constant(false) {
          assert At(input, k) == ie;
          if Constrained(ie) {
            if Constrained(oe) { FieldPasses(oe, ie, v); }
          } else {
            EmptyAccepts(v);
          }
        }
      }
      AdditionsMakeSound(output, input);
    }
  }

  // ---------- exactly, for flat schemas ----------

  /** A schema that constrains at most the type of a value, and not to nothing. */
  predicate Plain(s: Schema) { s == Constant(true) || (OnlyTyped(s) && s.types != Some({})) }

  /** An object schema whose properties are plain and whose additional properties are plain or forbidden. */
  predicate Flat(s: Schema) {
    && IsObject(s) && (forall k :: k in PropertiesOf(s) ==> Plain(PropertiesOf(s)[k]))
    && (AdditionalOf(s) == Constant(false) || Plain(AdditionalOf(s)))
  }

  const ALL := {NullType, BooleanType, ObjectType, ArrayType, NumberType, StringType, IntegerType}

  function TypesOf(s: Schema): set<JsonType> { if s.Keywords? && s.types.Some? then s.types.value else ALL }

  /** Whether every type of one plain schema is covered by the other. */
  predicate Covers(input: Schema, output: Schema) {
    forall t :: t in TypesOf(output) ==> Covered(t, TypesOf(input))
  }

  /** A value of the type, and of as few others as possible. */
  function Witness(t: JsonType): (v: Json)
    ensures HasType(v, t)
    ensures forall u :: HasType(v, u) ==> u == t || (t.IntegerType? && u.NumberType?)
  {
    match t
    case NullType => Null
    case BooleanType => Bool(true)
    case ObjectType => Obj(map[])
    case ArrayType => Arr([])
    case NumberType => Half()
    case StringType => Str("")
    case IntegerType => Num(0.0)
  }

  function Half(): (v: Json)
    ensures v.Num? && !HasType(v, IntegerType)
  {
    assert (0.5).Floor == 0;
    Num(0.5)
  }

  lemma TypeOf(v: Json)
    ensures exists t :: t in ALL && HasType(v, t)
  {
    match v
    case Null => assert HasType(v, NullType);
    case Bool(_) => assert HasType(v, BooleanType);
    case Num(_) => assert HasType(v, NumberType);
    case Str(_) => assert HasType(v, StringType);
    case Arr(_) => assert HasType(v, ArrayType);
    case Obj(_) => assert HasType(v, ObjectType);
  }

  lemma PlainAccepts(s: Schema, v: Json)
    requires Plain(s)
    ensures Accepts(s, v) <==> exists t :: t in TypesOf(s) && HasType(v, t)
  {
    TypeOf(v);
    if s.Keywords? && v.Obj? {
      forall k | k in v.fields ensures Accepts(AdditionalOf(s), v.fields[k]) {}
    }
  }

  lemma CoversPasses(input: Schema, output: Schema, v: Json)
    requires Plain(input) && Plain(output) && Covers(input, output) && Accepts(output, v)
    ensures Accepts(input, v)
  {
    PlainAccepts(output, v);
    PlainAccepts(input, v);
    var t :| t in TypesOf(output) && HasType(v, t);
    HasCovered(v, t, TypesOf(input));
  }

  /** A plain schema that is not covered has a value that the other refuses. */
  lemma Uncovered(input: Schema, output: Schema) returns (v: Json)
    requires Plain(input) && Plain(output) && !Covers(input, output)
    ensures Accepts(output, v) && !Accepts(input, v)
  {
    var t :| t in TypesOf(output) && !Covered(t, TypesOf(input));
    v := Witness(t);
    PlainAccepts(output, v);
    PlainAccepts(input, v);
  }

  lemma PlainInhabited(s: Schema) returns (v: Json)
    requires Plain(s)
    ensures Accepts(s, v)
  {
    assert StringType in ALL;
    assert TypesOf(s) != {} by { if s.Keywords? && s.types.Some? { assert s.types == Some(s.types.value); } }
    var t :| t in TypesOf(s);
    v := Witness(t);
    PlainAccepts(s, v);
  }

  /** Some value for a key of a flat output. */
  ghost function Filler(s: Schema): Json
    requires Plain(s)
  {
    PlainSome(s);
    var v :| Accepts(s, v);
    v
  }

  lemma PlainSome(s: Schema)
    requires Plain(s)
    ensures exists v :: Accepts(s, v)
  {
    var v := PlainInhabited(s);
  }

  lemma FlatAt(s: Schema, k: string)
    requires Flat(s) && AdditionalOf(s) != Constant(false)
    ensures Plain(At(s, k))
  {
  }

  /** An open flat output has, for every undeclared key and every value it allows there, an object holding both. */
  lemma OpenOutputHolds(output: Schema, k: string, v: Json) returns (o: Json)
    requires Flat(output) && AdditionalOf(output) != Constant(false)
    requires k !in PropertiesOf(output) && Accepts(AdditionalOf(output), v)
    ensures o.Obj? && k in o.fields && o.fields[k] == v && Accepts(output, o)
  {
    forall j ensures Plain(At(output, j)) { FlatAt(output, j); }
    var filled := map j | j in RequiredOf(output) :: Filler(At(output, j));
    o := Obj(filled[k := v]);
    assert HasType(o, ObjectType);
    forall j | j in o.fields ensures Accepts(At(output, j), o.fields[j]) {}
  }

  /** A key that neither schema declares. */
  lemma {:induction false} FreshKey(keys: set<string>) returns (k: string)
    ensures k !in keys
  {
    k := Longest(keys) + "x";
    LongestIs(keys, k);
  }

  ghost function Longest(keys: set<string>): string
    decreases |keys|
  {
    if keys == {} then ""
    else
      var k :| k in keys;
      var rest := Longest(keys - {k});
      if |k| >= |rest| then k else rest
  }

  lemma {:induction false} LongestIs(keys: set<string>, x: string)
    requires |x| > |Longest(keys)|
    ensures x !in keys
    decreases |keys|
  {
    if keys != {} {
      var k :| k in keys && Longest(keys) == (if |k| >= |Longest(keys - {k})| then k else Longest(keys - {k}));
      LongestIs(keys - {k}, x);
    }
  }

  /** The additions of an open output that the verdict does not look at are harmless. */
  predicate Harmless(output: Schema, input: Schema)
    requires output.Keywords? && input.Keywords?
  {
    var oe, ie := AdditionalOf(output), AdditionalOf(input);
    || oe == Constant(false)
    || ((forall k :: k in PropertiesOf(input) && k !in PropertiesOf(output) ==> Covers(PropertiesOf(input)[k], oe))
        && ie != Constant(false) && Covers(ie, oe))
  }

  /**
   * For flat schemas a compatible verdict is true if and only if the two are the same, or the output is closed, or
   * whatever it may add is covered by the input's undeclared properties and additional properties.
   */
  lemma VerdictIsSoundExactly(output: Schema, input: Schema)
    requires Flat(output) && Flat(input) && ValidateCompatibility(output, input) == Compatible
    ensures Sound(output, input) <==> output == input || Harmless(output, input)
  {
    if output != input {
      if Harmless(output, input) { HarmlessIsSound(output, input); }
      else { HarmfulIsUnsound(output, input); }
    }
  }

  lemma HarmlessIsSound(output: Schema, input: Schema)
    requires Flat(output) && Flat(input) && ValidateCompatibility(output, input) == Compatible && output != input
    requires Harmless(output, input)
    ensures Sound(output, input)
  {
    hide ValidateCompatibility, Covers;
    var oe, ie := AdditionalOf(output), AdditionalOf(input);
    forall k, v | k !in PropertiesOf(output) && Accepts(oe, v) ensures Accepts(At(input, k), v) {
      if oe != Constant(false) {
        if k in PropertiesOf(input) { CoversPasses(PropertiesOf(input)[k], oe, v); } else { CoversPasses(ie, oe, v); }
      }
    }
    AdditionsMakeSound(output, input);
  }

  lemma HarmfulIsUnsound(output: Schema, input: Schema)
    requires Flat(output) && Flat(input) && ValidateCompatibility(output, input) == Compatible && output != input
    requires !Harmless(output, input)
    ensures !Sound(output, input)
  {
    var oe, ie := AdditionalOf(output), AdditionalOf(input);
    assert ie != Constant(false);
    hide ValidateCompatibility, Covers;
    if k :| k in PropertiesOf(input) && k !in PropertiesOf(output) && !Covers(PropertiesOf(input)[k], oe) {
      var v := Uncovered(PropertiesOf(input)[k], oe);
      var o := OpenOutputHolds(output, k, v);
      assert !Accepts(At(input, k), o.fields[k]);
    } else {
      var k := FreshKey(PropertiesOf(input).Keys + PropertiesOf(output).Keys);
      var v := Uncovered(ie, oe);
      var o := OpenOutputHolds(output, k, v);
      assert !Accepts(At(input, k), o.fields[k]);
    }
  }

  // ---------- refusals ----------

  /** A schema that declares types, and nothing else. */
  predicate Typed(s: Schema) { OnlyTyped(s) && s.types.Some? && s.types.value != {} }

  /** An object schema that types every property, requires only declared ones, and types, allows or forbids others. */
  predicate Declared(s: Schema) {
    && IsObject(s) && (forall k :: k in PropertiesOf(s) ==> Typed(PropertiesOf(s)[k]))
    && RequiredOf(s) <= PropertiesOf(s).Keys
    && (AdditionalOf(s).Constant? || Typed(AdditionalOf(s)))
  }

  /** An object of the output that holds what is required, and one more value. */
  lemma OutputHolds(output: Schema, k: string, v: Json) returns (o: Json)
    requires Declared(output) && Accepts(At(output, k), v)
    ensures o.Obj? && k in o.fields && o.fields[k] == v && Accepts(output, o)
  {
    var filled := map j | j in RequiredOf(output) :: Filler(PropertiesOf(output)[j]);
    o := Obj(filled[k := v]);
    assert HasType(o, ObjectType);
    forall j | j in o.fields ensures Accepts(At(output, j), o.fields[j]) {}
  }

  /** An object of the output that holds nothing else. */
  lemma OutputWithout(output: Schema, k: string) returns (o: Json)
    requires Declared(output) && k !in RequiredOf(output)
    ensures o.Obj? && k !in o.fields && Accepts(output, o)
  {
    o := Obj(map j | j in RequiredOf(output) :: Filler(PropertiesOf(output)[j]));
    assert HasType(o, ObjectType);
    forall j | j in o.fields ensures Accepts(At(output, j), o.fields[j]) {}
  }

  lemma KeyMustPass(output: Schema, input: Schema, k: string, v: Json)
    requires Declared(output) && Declared(input) && Sound(output, input) && Accepts(At(output, k), v)
    ensures Accepts(At(input, k), v)
  {
    var o := OutputHolds(output, k, v);
    assert Accepts(input, o);
  }

  lemma OptionalStaysOptional(output: Schema, input: Schema, k: string)
    requires Declared(output) && Declared(input) && Sound(output, input) && k !in RequiredOf(output)
    ensures k !in RequiredOf(input)
  {
    var o := OutputWithout(output, k);
    assert Accepts(input, o);
  }

  lemma FieldsMustFit(output: Schema, input: Schema, k: string)
    requires Declared(output) && Declared(input) && Sound(output, input)
    requires Typed(At(output, k)) && Typed(At(input, k))
    ensures FieldCompatible(At(output, k), At(input, k))
  {
    var o, i := At(output, k), At(input, k);
    assert TypesOf(o) == JsonTypes(o).value && TypesOf(i) == JsonTypes(i).value;
    if !Covers(i, o) {
      var v := Uncovered(i, o);
      KeyMustPass(output, input, k, v);
    }
  }

  /** What the two must be like for every output to be an input. */
  lemma SoundShape(output: Schema, input: Schema)
    requires Declared(output) && Declared(input) && Sound(output, input)
    ensures RequiredOf(input) <= RequiredOf(output)
    ensures forall k :: k in PropertiesOf(output) && k in PropertiesOf(input) ==>
                          FieldCompatible(PropertiesOf(output)[k], PropertiesOf(input)[k])
    ensures AdditionalOf(input) == Constant(false) ==>
              PropertiesOf(output).Keys <= PropertiesOf(input).Keys && AdditionalOf(output) == Constant(false)
    ensures Typed(AdditionalOf(input)) ==>
              && (forall k :: k in PropertiesOf(output) && k !in PropertiesOf(input) ==>
                    FieldCompatible(PropertiesOf(output)[k], AdditionalOf(input)))
              && (Typed(AdditionalOf(output)) ==> FieldCompatible(AdditionalOf(output), AdditionalOf(input)))
  {
    hide FieldCompatible, Typed;
    forall k | k !in RequiredOf(output) ensures k !in RequiredOf(input) { OptionalStaysOptional(output, input, k); }
    forall k | k in PropertiesOf(output) && k in PropertiesOf(input)
      ensures FieldCompatible(PropertiesOf(output)[k], PropertiesOf(input)[k])
    {
      FieldsMustFit(output, input, k);
    }
    SoundAdditions(output, input);
  }

  lemma SoundAdditions(output: Schema, input: Schema)
    requires Declared(output) && Declared(input) && Sound(output, input)
    ensures AdditionalOf(input) == Constant(false) ==>
              PropertiesOf(output).Keys <= PropertiesOf(input).Keys && AdditionalOf(output) == Constant(false)
    ensures Typed(AdditionalOf(input)) ==>
              && (forall k :: k in PropertiesOf(output) && k !in PropertiesOf(input) ==>
                    FieldCompatible(PropertiesOf(output)[k], AdditionalOf(input)))
              && (Typed(AdditionalOf(output)) ==> FieldCompatible(AdditionalOf(output), AdditionalOf(input)))
  {
    hide FieldCompatible, Sound;
    var other := FreshKey(PropertiesOf(input).Keys + PropertiesOf(output).Keys);
    if AdditionalOf(input) == Constant(false) {
      forall k | k in PropertiesOf(output) ensures k in PropertiesOf(input) {
        KeyMustPass(output, input, k, Filler(PropertiesOf(output)[k]));
      }
      if AdditionalOf(output) != Constant(false) {
        KeyMustPass(output, input, other, Filler(AdditionalOf(output)));
      }
    }
    if Typed(AdditionalOf(input)) {
      forall k | k in PropertiesOf(output) && k !in PropertiesOf(input)
        ensures FieldCompatible(PropertiesOf(output)[k], AdditionalOf(input))
      {
        FieldsMustFit(output, input, k);
      }
      if Typed(AdditionalOf(output)) { FieldsMustFit(output, input, other); }
    }
  }

  /**
   * Between schemas whose fields are all typed, a true relationship is refused only where an open output meets
   * constrained additional properties.
   */
  lemma TrueIsCompatible(output: Schema, input: Schema)
    requires Declared(output) && Declared(input) && Sound(output, input)
    requires !(AdditionalOf(output) == Constant(true) && Typed(AdditionalOf(input)))
    ensures ValidateCompatibility(output, input) == Compatible
  {
    hide FieldCompatible, Sound;
    SoundShape(output, input);
  }

  /** A contract is compatible with itself, whatever it is. */
  lemma SameIsCompatible(s: Schema)
    ensures ValidateCompatibility(s, s) == Compatible && Sound(s, s)
  {
  }

  // ---------- two unsound verdicts ----------

  function ObjectOf(properties: map<string, Schema>, additional: Schema): Schema {
    Keywords(Some({ObjectType}), Some(properties), None, Some(additional), false)
  }

  const TEXT := Keywords(Some({StringType}), None, None, None, false)

  /** An open output may carry, under a property it does not declare, a value the input forbids there. */
  lemma UndeclaredPropertyIsUnsound()
    ensures var output, input := ObjectOf(map[], Constant(true)), ObjectOf(map["name" := TEXT], Constant(true));
            ValidateCompatibility(output, input) == Compatible && !Sound(output, input)
  {
    var output, input := ObjectOf(map[], Constant(true)), ObjectOf(map["name" := TEXT], Constant(true));
    var o := Obj(map["name" := Null]);
    assert HasType(o, ObjectType) && Accepts(output, o);
    assert o.fields["name"] == Null && !Accepts(TEXT, Null);
    assert !Accepts(input, o);
  }

  /** So may an output whose additional properties are `{}`, against constrained additional properties. */
  lemma EmptyAdditionalIsUnsound()
    ensures var output, input := ObjectOf(map[], EMPTY), ObjectOf(map[], TEXT);
            ValidateCompatibility(output, input) == Compatible && !Sound(output, input)
  {
    var output, input := ObjectOf(map[], EMPTY), ObjectOf(map[], TEXT);
    var o := Obj(map["extra" := Null]);
    EmptyAccepts(Null);
    assert HasType(o, ObjectType) && Accepts(output, o);
    assert o.fields["extra"] == Null && !Accepts(TEXT, Null);
    assert !Accepts(input, o);
  }
}
