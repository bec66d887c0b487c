/**
 * Contracts between nodes, as JSON schemas that use only `type`, `properties`, `required` and
 * `additionalProperties`, and the registry's proof that every output of one is an input of the other.
 */
module ContractModel {
  import opened Common

  datatype JsonType = NullType | BooleanType | ObjectType | ArrayType | NumberType | StringType | IntegerType

  datatype Json = Null | Bool(b: bool) | Num(n: real) | Str(s: string) | Arr(items: seq<Json>)
    | Obj(fields: map<string, Json>)

  /**
   * A schema: the constants true and false, or an object of keywords.  `annotated` says that it carries
   * a title, a description or another keyword without effect on validation.
   */
  datatype Schema =
    | Constant(accepts: bool)
    | Keywords(types: Option<set<JsonType>>, properties: Option<map<string, Schema>>, required: Option<set<string>>,
               additional: Option<Schema>, annotated: bool)

  const EMPTY := Keywords(None, None, None, None, false)

  // ---------- what a schema accepts (JSON Schema 2020-12, Validation 6.1.1 and 6.5.3, Core 10.3.2) ----------

  predicate HasType(v: Json, t: JsonType) {
    match t
    case NullType => v.Null?
    case BooleanType => v.Bool?
    case ObjectType => v.Obj?
    case ArrayType => v.Arr?
    case NumberType => v.Num?
    case StringType => v.Str?
    case IntegerType => v.Num? && v.n == v.n.Floor as real
  }

  function PropertiesOf(s: Schema): map<string, Schema>
    requires s.Keywords?
  {
    if s.properties.Some? then s.properties.value else map[]
  }

  function RequiredOf(s: Schema): set<string>
    requires s.Keywords?
  {
    if s.required.Some? then s.required.value else {}
  }

  function AdditionalOf(s: Schema): Schema
    requires s.Keywords?
  {
    if s.additional.Some? then s.additional.value else Constant(true)
  }

  predicate Accepts(s: Schema, v: Json)
    decreases v
  {
    match s
    case Constant(b) => b
    case Keywords(types, _, _, _, _) =>
      && (types.Some? ==> exists t :: t in types.value && HasType(v, t))
      && (v.Obj? ==>
            && (forall k :: k in RequiredOf(s) ==> k in v.fields)
            && (forall k :: k in v.fields ==>
                  Accepts(if k in PropertiesOf(s) then PropertiesOf(s)[k] else AdditionalOf(s), v.fields[k])))
  }

  // ---------- the registry's proof ----------

  datatype Verdict = Compatible | NotAnObject | MissingRequired | UnprovenField | ClosedInput | OpenOutput

  /** The types a field declares, if it declares any that can be compared. */
  function JsonTypes(s: Schema): Option<set<JsonType>> {
    if s.Keywords? && s.types.Some? && s.types.value != {} then s.types else None
  }

  /** A field schema with no keyword but `type` and annotations. */
  predicate OnlyTyped(s: Schema) {
    s.Keywords? && s.properties.None? && s.required.None? && s.additional.None?
  }

  predicate Covered(t: JsonType, types: set<JsonType>) {
    t in types || (t.IntegerType? && NumberType in types)
  }

  predicate FieldCompatible(output: Schema, input: Schema) {
    && OnlyTyped(output) && OnlyTyped(input)
    && JsonTypes(output).Some? && JsonTypes(input).Some?
    && forall t :: t in JsonTypes(output).value ==> Covered(t, JsonTypes(input).value)
  }

  predicate IsObject(s: Schema) { s.Keywords? && s.types == Some({ObjectType}) }

  /** A dictionary that Python takes for true. */
  predicate Constrained(s: Schema) { s.Keywords? && s != EMPTY }

  function ValidateCompatibility(output: Schema, input: Schema): Verdict {
    if output == input then Compatible
    else if !IsObject(output) || !IsObject(input) then NotAnObject
    else
      var op, ip := PropertiesOf(output), PropertiesOf(input);
      var oe, ie := AdditionalOf(output), AdditionalOf(input);
      if !(RequiredOf(input) <= RequiredOf(output)) then MissingRequired
      else if exists k :: k in RequiredOf(input) && !(k in op && k in ip && FieldCompatible(op[k], ip[k]))
        then UnprovenField
      else if exists k :: k in op && k in ip && !FieldCompatible(op[k], ip[k]) then UnprovenField
      else if ie == Constant(false) then
        if (exists k :: k in op && k !in ip) || oe != Constant(false) then ClosedInput else Compatible
      else if Constrained(ie) then
        if exists k :: k in op && k !in ip && !FieldCompatible(op[k], ie) then UnprovenField
        else if oe == Constant(true) then OpenOutput
        else if Constrained(oe) && !FieldCompatible(oe, ie) then UnprovenField
        else Compatible
      else Compatible
  }
}
