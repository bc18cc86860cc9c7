/** The contract every bindable target type follows: guarded getters, flag-setting
    setters, the abstract IsEmpty / ToString / OnLoaded members, the two ToString-based
    comparers and the attribute getters. */
module BusinessLogic {
  import opened Values
  import opened Metadata
  import ExtensionMethods

  /** The message a guarded getter raises while its flag is false. */
  const CstPropertyValueNotReturned: string :=
    "The value for this property was not returned from the dataset.  \r\n Please check the stored procedure's output if this value should be included."

  // The set-flag contract, on a target's state

  /** The getter of `p`: a guarded getter fails with the standard message while the
      property's `Is…Set` flag is false; otherwise it returns the backing field. */
  function Read(p: PropertyInfo, s: State): Result<Value>
  {
    if p.accessor.Guarded? && p.name !in s.flags then Err(Exception(CstPropertyValueNotReturned))
    else Ok(Stored(p, s))
  }

  /** The setter of `p`: store the value in the backing field, then (for a guarded
      property) make the `Is…Set` flag true. */
  function Write(p: PropertyInfo, s: State, v: Value): State
  {
    State(s.values[p.name := v], if p.accessor.Guarded? then s.flags + {p.name} else s.flags)
  }

  /** The public setter of a flag property, as `IsNameSet = b` does it. */
  function WriteFlag(p: PropertyInfo, s: State, b: bool): State
    requires p.accessor.Guarded?
  {
    State(s.values, if b then s.flags + {p.name} else s.flags - {p.name})
  }

  /** A guarded getter fails exactly while its flag is false, with the standard message;
      once the flag is true it returns the backing field. */
  lemma GuardedGetter(p: PropertyInfo, s: State)
    requires p.accessor.Guarded?
    ensures Read(p, s).Err? <==> p.name !in s.flags
    ensures Read(p, s).Err? ==> Read(p, s).error == Exception(CstPropertyValueNotReturned)
    ensures Read(p, s).Ok? ==> Read(p, s).value == Stored(p, s)
  {
  }

  /** The getter returns what the setter stored, null included: a setter never leaves its
      property unreadable. */
  lemma ReadAfterWrite(p: PropertyInfo, s: State, v: Value)
    ensures Read(p, Write(p, s, v)) == Ok(v)
    ensures p.accessor.Guarded? ==> p.name in Write(p, s, v).flags
  {
  }

  /** A setter touches its own backing field and flag and nothing else. */
  lemma WriteLeavesOthers(p: PropertyInfo, q: PropertyInfo, s: State, v: Value)
    requires q.name != p.name
    ensures Read(q, Write(p, s, v)) == Read(q, s)
    ensures (q.name in Write(p, s, v).flags) == (q.name in s.flags)
  {
  }

  /** A flag's public setter changes only that flag: the backing field keeps its value and
      the getter then fails or succeeds according to the new flag. */
  lemma WriteFlagGuards(p: PropertyInfo, s: State, b: bool)
    requires p.accessor.Guarded?
    ensures Stored(p, WriteFlag(p, s, b)) == Stored(p, s)
    ensures Read(p, WriteFlag(p, s, b)).Ok? == b
  {
  }

  // String helpers of the overrides

  /** Char.IsWhiteSpace: the Unicode space separators, the line and paragraph
      separators, and the control characters U+0009-U+000D and U+0085. */
  predicate IsWhiteSpace(c: char)
  {
    c == ' ' || ('\t' <= c <= '\r') || c == '\U{85}' || c == '\U{A0}' || c == '\U{1680}'
    || ('\U{2000}' <= c <= '\U{200A}') || c == '\U{2028}' || c == '\U{2029}' || c == '\U{202F}'
    || c == '\U{205F}' || c == '\U{3000}'
  }

  /** A string property's value read as a .NET string reference; a string property only
      ever holds a string or null, which `Conform` guarantees. */
  function AsString(v: Value): Option<string>
  {
    if v.Text? then Some(v.s) else None
  }

  /** String.IsNullOrWhiteSpace. */
  predicate IsNullOrWhiteSpace(s: Option<string>)
  {
    s.None? || forall i :: 0 <= i < |s.value| ==> IsWhiteSpace(s.value[i])
  }

  /** The whitespace test on a concrete string, as String.IsNullOrWhiteSpace runs it: scan
      for the first character that is not whitespace. */
  method IsNullOrWhiteSpaceScan(s: Option<string>) returns (r: bool)
    ensures r == IsNullOrWhiteSpace(s)
  {
    if s.None? {
      return true;
    }
    var t := s.value;
    for i := 0 to |t|
      invariant forall j :: 0 <= j < i ==> IsWhiteSpace(t[j])
    {
      if !IsWhiteSpace(t[i]) {
        return false;
      }
    }
    return true;
  }

  // The comparers

  /** String.CompareTo on a non-null receiver: every string sorts after null, and two
      strings compare by the culture's order, which is left abstract. */
  function CompareTo(s: string, t: Option<string>, order: (string, string) -> int): int
  {
    if t.None? then 1 else order(s, t.value)
  }

  // Target instances

  /** An instance of a class derived from BusinessLogicBase (a Supplier, a Product): the
      backing fields of its properties and their `Is…Set` flags, updated in place by the
      setters. `loads` counts the runs of OnLoaded that completed. */
  class Target {
    const info: TypeInfo
    var values: map<string, Value>
    var flags: set<string>
    ghost var loads: nat

    /** The instance's current state. */
    function Contents(): State
      reads this
    {
      State(values, flags)
    }

    /** `new T()`: every backing field at its default, every flag false. */
    constructor (info: TypeInfo)
      ensures this.info == info
      ensures Contents() == Fresh()
      ensures loads == 0
    {
      this.info := info;
      values := map[];
      flags := {};
      loads := 0;
    }

    /** The property's getter. */
    method Get(p: PropertyInfo) returns (r: Result<Value>)
      requires p in info.properties
      ensures r == Read(p, Contents())
    {
      if p.accessor.Guarded? && p.name !in flags {
        return Err(Exception(CstPropertyValueNotReturned));
      }
      r := Ok(if p.name in values then values[p.name] else Default(p.clrType));
    }

    /** The property's setter, given a value of the property's type. */
    method Set(p: PropertyInfo, v: Value)
      requires p in info.properties
      requires Conform(p.clrType, v) == Some(v)
      modifies this
      ensures Contents() == Write(p, old(Contents()), v)
      ensures loads == old(loads)
    {
      values := values[p.name := v];
      if p.accessor.Guarded? {
        flags := flags + {p.name};
      }
    }

    /** The getter of the `Is…Set` flag of `p`. */
    function IsSet(p: PropertyInfo): bool
      requires p.accessor.Guarded?
      reads this
    {
      p.name in flags
    }

    /** The public setter of the `Is…Set` flag of `p`. */
    method SetFlag(p: PropertyInfo, b: bool)
      requires p in info.properties && p.accessor.Guarded? && p.accessor.flagSetterPublic
      modifies this
      ensures Contents() == WriteFlag(p, old(Contents()), b)
      ensures loads == old(loads)
    {
      if b {
        flags := flags + {p.name};
      } else {
        flags := flags - {p.name};
      }
    }

    /** The type's IsEmpty override. */
    function IsEmpty(): Result<bool>
      reads this
    {
      info.isEmpty(Contents())
    }

    /** The type's ToString override; the result may be a null reference. */
    function ToString(): Result<Option<string>>
      reads this
    {
      info.toString(Contents())
    }

    /** The type's OnLoaded override, run once binding is done. An override that throws
        is taken to leave the instance as it was. */
    method OnLoaded() returns (r: Result<()>)
      modifies this
      ensures r.Err? <==> info.onLoaded(old(Contents())).Err?
      ensures r.Err? ==> r.error == info.onLoaded(old(Contents())).error
      ensures r.Err? ==> Contents() == old(Contents()) && loads == old(loads)
      ensures r.Ok? ==> Contents() == info.onLoaded(old(Contents())).value && loads == old(loads) + 1
    {
      var s := info.onLoaded(Contents());
      if s.Err? {
        return Err(s.error);
      }
      values := s.value.values;
      flags := s.value.flags;
      loads := loads + 1;
      return Ok(());
    }

    /** Refresh<T>: its body is empty, so neither object changes. */
    method Refresh(newObject: Target)
      ensures Contents() == old(Contents())
      ensures newObject.Contents() == old(newObject.Contents())
    {
    }

    /** The DynamicProperty attributes of the named property of this instance's type. */
    method GetDynamicPropertyAttributes(propertyName: string) returns (r: Result<array<AttributeData>>)
      ensures r.Err? <==> ExtensionMethods.PropertyAttributes(info, propertyName, DynamicPropertyKind).Err?
      ensures r.Err? ==> r.error == ExtensionMethods.PropertyAttributes(info, propertyName, DynamicPropertyKind).error
      ensures r.Ok? ==> r.value[..] == ExtensionMethods.PropertyAttributes(info, propertyName, DynamicPropertyKind).value
    {
      r := ExtensionMethods.GetPropertyAttributes(info, propertyName, DynamicPropertyKind);
    }

    /** The DynamicClass attributes of the named property of this instance's type. */
    method GetDynamicClassAttributes(propertyName: string) returns (r: Result<array<AttributeData>>)
      ensures r.Err? <==> ExtensionMethods.PropertyAttributes(info, propertyName, DynamicClassKind).Err?
      ensures r.Err? ==> r.error == ExtensionMethods.PropertyAttributes(info, propertyName, DynamicClassKind).error
      ensures r.Ok? ==> r.value[..] == ExtensionMethods.PropertyAttributes(info, propertyName, DynamicClassKind).value
    {
      r := ExtensionMethods.GetPropertyAttributes(info, propertyName, DynamicClassKind);
    }
  }

  /** DefaultComparerAsc: x.ToString().CompareTo(y.ToString()), with every exception
      caught and answered by 0 (a failing ToString, or a null string for x). */
  function DefaultComparerAsc(x: Target, y: Target, order: (string, string) -> int): int
    reads x, y
  {
    match x.ToString()
    case Ok(Some(sx)) =>
      (match y.ToString()
       case Ok(sy) => CompareTo(sx, sy, order)
       case Err(_) => 0)
    case _ => 0
  }

  /** DefaultComparerDesc: y.ToString().CompareTo(x.ToString()) with nothing caught; y's
      string is computed first, and a null one fails when CompareTo is called on it. */
  function DefaultComparerDesc(x: Target, y: Target, order: (string, string) -> int): Result<int>
    reads x, y
  {
    match y.ToString()
    case Err(e) => Err(e)
    case Ok(sy) =>
      match x.ToString()
      case Err(e) => Err(e)
      case Ok(sx) => if sy.None? then Err(NullReference) else Ok(CompareTo(sy.value, sx, order))
  }

  /** Descending is ascending with the arguments swapped, whenever neither ToString fails
      (and the receiver's string is not null, where the ascending comparer would answer
      0 instead of failing). */
  lemma DescIsSwappedAsc(x: Target, y: Target, order: (string, string) -> int)
    requires x.ToString().Ok? && y.ToString().Ok? && y.ToString().value.Some?
    ensures DefaultComparerDesc(x, y, order) == Ok(DefaultComparerAsc(y, x, order))
  {
  }

  /** A failing ToString on either side makes the ascending comparer answer 0 and the
      descending one fail with that same exception (y's first). */
  lemma ComparersOnFailure(x: Target, y: Target, order: (string, string) -> int)
    requires x.ToString().Err? || y.ToString().Err?
    ensures DefaultComparerAsc(x, y, order) == 0
    ensures DefaultComparerDesc(x, y, order) ==
      Err(if y.ToString().Err? then y.ToString().error else x.ToString().error)
  {
  }

  /** An instance compares equal to itself under the ascending comparer when its ToString
      gives a string the order ranks equal to itself. */
  lemma AscReflexive(x: Target, order: (string, string) -> int)
    requires x.ToString().Ok? && x.ToString().value.Some?
    requires order(x.ToString().value.value, x.ToString().value.value) == 0
    ensures DefaultComparerAsc(x, x, order) == 0
  {
  }
}
