/** The static metadata table that stands for reflection: for each target type, its
    public properties in declaration order, each with its CLR type, its accessor pattern and
    the binding attributes declared on it, and the type's overrides of the target contract. */
module Metadata {
  import opened Values
  import opened DynamicProperties
  import opened DynamicClasses

  /** The declared CLR type of a property, as far as assignment depends on it. */
  datatype ClrType =
    | StringType                                 // string
    | ValueType(family: Family, nullable: bool)  // int, decimal, int?, decimal?, double, …
    | TargetType(name: string)                   // a target type such as Supplier
    | ObjectType                                 // object

  /** The value a fresh field of type `t` holds: zero for a non-nullable value type,
      null otherwise. */
  function Default(t: ClrType): Value
  {
    if t.ValueType? && !t.nullable then Scalar(t.family, 0) else Null
  }

  /** What PropertyInfo.SetValue makes of a boxed value for a property of type `t`: a null
      becomes the type's default, a value of the property's own type is kept, and any
      other value is refused. */
  function Conform(t: ClrType, v: Value): (r: Option<Value>)
    ensures r.Some? ==> r.value == (if v == Null then Default(t) else v)
    ensures v == Null ==> r.Some?
  {
    match v
    case Null => Some(Default(t))
    case DbNull => if t.ObjectType? then Some(v) else None
    case Text(_) => if t.StringType? || t.ObjectType? then Some(v) else None
    case Scalar(f, _) => if (t.ValueType? && t.family == f) || t.ObjectType? then Some(v) else None
    case Object(n, _) => if (t.TargetType? && t.name == n) || t.ObjectType? then Some(v) else None
  }

  /** A value `Conform` produces is one `Conform` keeps as it is. */
  lemma ConformKeepsConformed(t: ClrType, v: Value)
    requires Conform(t, v).Some?
    ensures Conform(t, Conform(t, v).value) == Conform(t, v)
  {
  }

  /** How a property's getter and setter behave. `Guarded` is the pattern the target
      contract asks of every bindable property: the getter fails while the companion
      `Is…Set` flag (named `flag`) is false and the setter ends by making it true; the flag's
      own setter may be public or protected. `Plain` is an auto-property. */
  datatype Accessor = Guarded(flag: string, flagSetterPublic: bool) | Plain

  datatype AttributeData = PropertyAttribute(column: ColumnBinding) | ClassAttribute(nested: ClassBinding)

  datatype AttributeKind = DynamicPropertyKind | DynamicClassKind

  /** typeof(T).Name of each attribute class. */
  function KindName(k: AttributeKind): string
  {
    match k
    case DynamicPropertyKind => "DynamicProperty"
    case DynamicClassKind => "DynamicClass"
  }

  predicate IsKind(a: AttributeData, k: AttributeKind)
  {
    match k
    case DynamicPropertyKind => a.PropertyAttribute?
    case DynamicClassKind => a.ClassAttribute?
  }

  /** GetCustomAttributes(typeof(K)): the attributes of kind `k`, in declaration order. */
  function OfKind(attrs: seq<AttributeData>, k: AttributeKind): (r: seq<AttributeData>)
    ensures |r| <= |attrs|
    ensures forall a :: a in r <==> a in attrs && IsKind(a, k)
    ensures forall i :: 0 <= i < |r| ==> IsKind(r[i], k)
  {
    if attrs == [] then []
    else (if IsKind(attrs[0], k) then [attrs[0]] else []) + OfKind(attrs[1..], k)
  }

  datatype PropertyInfo = PropertyInfo(
    name: string,
    clrType: ClrType,
    accessor: Accessor,
    attributes: seq<AttributeData>)

  /** A target type: its name, its data properties in declaration order (the `Is…Set`
      flag properties ride on their `Guarded` accessors), and its overrides of the
      abstract members of the target contract, each of which may throw. */
  datatype TypeInfo = TypeInfo(
    name: string,
    properties: seq<PropertyInfo>,
    isEmpty: State -> Result<bool>,
    toString: State -> Result<Option<string>>,
    onLoaded: State -> Result<State>)

  /** The registered target types by name: what `MakeGenericMethod(attr.Type)` can reach. */
  type Schema = map<string, TypeInfo>

  /** The state of a freshly constructed target: every field holds its default and no
      flag is set. */
  function Fresh(): State
  {
    State(map[], {})
  }

  /** The value the backing field of `p` holds in `s`. */
  function Stored(p: PropertyInfo, s: State): Value
  {
    if p.name in s.values then s.values[p.name] else Default(p.clrType)
  }

  /** The type's property names are distinct. */
  predicate DistinctNames(props: seq<PropertyInfo>)
  {
    forall i, j :: 0 <= i < j < |props| ==> props[i].name != props[j].name
  }
}
