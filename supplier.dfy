/** The sample Supplier target type: a company name and an employee count bound from
    columns, a double that carries no binding metadata, and a markup whose column the sample
    table lacks. */
module Suppliers {
  import opened Values
  import opened Metadata
  import opened DynamicProperties
  import SqlDbTypes
  import opened BusinessLogic
  import ExtensionMethods
  import opened ResultSets

  const NameProperty: PropertyInfo := PropertyInfo(
    "Name", StringType, Guarded("IsNameSet", true),
    [PropertyAttribute(ColumnBinding(Some("sup_CompanyName"), SqlDbTypes.Code(SqlDbTypes.NVarChar)))])

  const NumberOfEmployeesProperty: PropertyInfo := PropertyInfo(
    "NumberOfEmployees", ValueType(Int32, true), Guarded("IsNumberOfEmployeesSet", true),
    [PropertyAttribute(ColumnBinding(Some("sup_TotalEmployees"), SqlDbTypes.Code(SqlDbTypes.Int)))])

  /** An auto-property of type double with no attribute. */
  const NotDataboundProperty: PropertyInfo := PropertyInfo(
    "notDataboundProperty", ValueType(Double, false), Plain, [])

  const MarkupProperty: PropertyInfo := PropertyInfo(
    "Markup", ValueType(Decimal, false), Guarded("IsMarkupSet", true),
    [PropertyAttribute(ColumnBinding(Some("sup_markup"), SqlDbTypes.Code(SqlDbTypes.Decimal)))])

  /** The data properties in declaration order. */
  const Properties: seq<PropertyInfo> :=
    [NameProperty, NumberOfEmployeesProperty, NotDataboundProperty, MarkupProperty]

  /** The IsEmpty override: a supplier without a name, or with a blank one, is empty. The
      name's getter is reached only once its flag is known to be true. */
  function IsEmpty(s: State): Result<bool>
  {
    if NameProperty.name !in s.flags then Ok(true)
    else
      match Read(NameProperty, s)
      case Err(e) => Err(e)
      case Ok(v) => Ok(IsNullOrWhiteSpace(AsString(v)))
  }

  /** The ToString override: the name, through its guarded getter. */
  function ToString(s: State): Result<Option<string>>
  {
    match Read(NameProperty, s)
    case Err(e) => Err(e)
    case Ok(v) => Ok(AsString(v))
  }

  /** The OnLoaded override does nothing, and does not throw. */
  function OnLoaded(s: State): Result<State>
  {
    Ok(s)
  }

  const Info: TypeInfo := TypeInfo("Supplier", Properties, IsEmpty, ToString, OnLoaded)

  /** The property names are distinct, and no `Is…Set` flag shares a name with a data
      property. */
  lemma WellFormed()
    ensures DistinctNames(Info.properties)
    ensures forall p, q :: p in Info.properties && q in Info.properties && p.accessor.Guarded? ==>
      p.accessor.flag != q.name
  {
    assert Info.properties == [NameProperty, NumberOfEmployeesProperty, NotDataboundProperty, MarkupProperty];
  }

  /** IsEmpty never throws, and a supplier is empty exactly when its name is unset,
      null or blank. */
  lemma IsEmptyExactly(s: State)
    ensures Info.isEmpty(s).Ok?
    ensures Info.isEmpty(s).value <==>
      "Name" !in s.flags || IsNullOrWhiteSpace(AsString(Stored(NameProperty, s)))
  {
    if "Name" in s.flags {
      GuardedGetter(NameProperty, s);
    }
  }

  /** A new supplier is empty. */
  lemma FreshIsEmpty()
    ensures Info.isEmpty(Fresh()) == Ok(true)
  {
    IsEmptyExactly(Fresh());
  }

  /** ToString fails with the standard message exactly while the name is unset, and
      otherwise gives the name. */
  lemma ToStringExactly(s: State)
    ensures Info.toString(s).Err? <==> "Name" !in s.flags
    ensures Info.toString(s).Err? ==> Info.toString(s).error == Exception(CstPropertyValueNotReturned)
    ensures Info.toString(s).Ok? ==> Info.toString(s).value == AsString(Stored(NameProperty, s))
  {
    GuardedGetter(NameProperty, s);
  }

  /** The attribute lookup finds the name's column binding and, for the double, nothing. */
  lemma NameAttributes()
    ensures ExtensionMethods.PropertyAttributes(Info, "Name", DynamicPropertyKind) == Ok(NameProperty.attributes)
    ensures ExtensionMethods.PropertyAttributes(Info, "notDataboundProperty", DynamicPropertyKind) == Ok([])
  {
    WellFormed();
    ExtensionMethods.FoundAttributesInOrder(Info, 0, DynamicPropertyKind);
    ExtensionMethods.FoundAttributesInOrder(Info, 2, DynamicPropertyKind);
    assert OfKind(NameProperty.attributes, DynamicPropertyKind) == NameProperty.attributes by {
      assert NameProperty.attributes[1..] == [];
    }
  }

  /** Looking up DynamicProperty attributes of "Color", which Supplier does not declare,
      raises the not-found exception, whose message puts "Supplier" in the attributes slot
      and "DynamicProperty" in the class slot. */
  lemma ColorLookupMessage()
    ensures ExtensionMethods.PropertyAttributes(Info, "Color", DynamicPropertyKind)
      == Err(PropertyNotFound("Color", "Supplier", "DynamicProperty"))
    ensures ExtensionMethods.Message(PropertyNotFound("Color", "Supplier", "DynamicProperty")) ==
      "Could not retrieve " + "Supplier" + " attributes of the property " + "Color" + " in class "
      + "DynamicProperty" + ".  Property " + "Color" + " does not exist."
  {
    assert !ExtensionMethods.Declares(Info.properties, "Color");
    ExtensionMethods.NotFoundExactlyWhenMissing(Info, "Color", DynamicPropertyKind);
    ExtensionMethods.AsWrittenMessageIsWrong();
  }

  /** Binding a row never touches the double: it keeps its value and has no flag. */
  lemma NotDataboundUntouched(ctx: Context, level: nat, s0: State)
    requires BindProperties(ctx, Info.properties, level, s0).Ok?
    ensures Untouched("notDataboundProperty", s0, BindProperties(ctx, Info.properties, level, s0).value)
  {
    WellFormed();
    UnboundPropertyKeeps(ctx, Info.properties, 2, level, s0);
  }

  /** A row without the markup column leaves Markup unset, so its getter throws: the
      exception the sample program prints for every supplier. */
  lemma MarkupUnsetWithoutColumn(ctx: Context, level: nat)
    requires "sup_markup" !in ctx.row
    requires BindProperties(ctx, Info.properties, level, Fresh()).Ok?
    ensures Read(MarkupProperty, BindProperties(ctx, Info.properties, level, Fresh()).value)
      == Err(Exception(CstPropertyValueNotReturned))
  {
    WellFormed();
    UnboundPropertyKeeps(ctx, Info.properties, 3, level, Fresh());
  }

  /** A DBNull markup cell makes Markup read as zero, its flag true. */
  lemma MarkupDbNullIsZero(ctx: Context, level: nat, s0: State)
    requires "sup_markup" in ctx.row && ctx.row["sup_markup"] == DbNull
    requires BindProperties(ctx, Info.properties, level, s0).Ok?
    ensures Read(MarkupProperty, BindProperties(ctx, Info.properties, level, s0).value) == Ok(Scalar(Decimal, 0))
  {
    WellFormed();
    ColumnValueStored(ctx, Info.properties, 3, level, s0);
  }

  /** A company-name cell holding a string is the name the supplier reads. */
  lemma NameFromColumn(ctx: Context, level: nat, s0: State, name: string)
    requires "sup_CompanyName" in ctx.row && ctx.row["sup_CompanyName"] == Text(name)
    requires BindProperties(ctx, Info.properties, level, s0).Ok?
    ensures Read(NameProperty, BindProperties(ctx, Info.properties, level, s0).value) == Ok(Text(name))
  {
    WellFormed();
    ColumnValueStored(ctx, Info.properties, 0, level, s0);
    NamedTagCoercion(SqlDbTypes.NVarChar, Text(name), ctx.rt);
  }

  /** A row with a company name, an employee-count cell that coerces to `count`, and no
      markup column binds to a supplier holding exactly those two values, both flags set;
      it is returned exactly when the name is not blank. */
  lemma BindsFromCells(ctx: Context, level: nat, name: string, count: Value)
    requires "sup_CompanyName" in ctx.row && ctx.row["sup_CompanyName"] == Text(name)
    requires "sup_TotalEmployees" in ctx.row
    requires Coerce(SqlDbTypes.Code(SqlDbTypes.Int), ctx.row["sup_TotalEmployees"], ctx.rt) == Ok(count)
    requires count == Null || (count.Scalar? && count.family == Int32)
    requires "sup_markup" !in ctx.row
    ensures BindRow(ctx, Info, level, Fresh()) == Ok(Bound(
      State(map["Name" := Text(name), "NumberOfEmployees" := count], {"Name", "NumberOfEmployees"}),
      !IsNullOrWhiteSpace(Some(name))))
  {
    var p := Info.properties;
    var s2 := Write(NumberOfEmployeesProperty, Write(NameProperty, Fresh(), Text(name)), count);
    ThroughNotDatabound(ctx, level, name, count);
    assert p[3] == MarkupProperty;
    assert BindProperty(ctx, p[3], level, s2) == Ok(s2) by {
      SingleColumnAbsent(ctx, MarkupProperty, level, s2);
    }
    PrefixStep(ctx, p, 3, level, Fresh(), s2, s2);
    assert p[..4] == p;
    assert s2 == State(map["Name" := Text(name), "NumberOfEmployees" := count], {"Name", "NumberOfEmployees"});
    assert Info.isEmpty(s2) == Ok(IsNullOrWhiteSpace(Some(name))) by {
      IsEmptyExactly(s2);
      assert Stored(NameProperty, s2) == Text(name);
    }
  }

  /** The name and the employee count bound from their cells. */
  lemma ThroughNumberOfEmployees(ctx: Context, level: nat, name: string, count: Value)
    requires "sup_CompanyName" in ctx.row && ctx.row["sup_CompanyName"] == Text(name)
    requires "sup_TotalEmployees" in ctx.row
    requires Coerce(SqlDbTypes.Code(SqlDbTypes.Int), ctx.row["sup_TotalEmployees"], ctx.rt) == Ok(count)
    requires count == Null || (count.Scalar? && count.family == Int32)
    ensures BindProperties(ctx, Info.properties[..2], level, Fresh())
      == Ok(Write(NumberOfEmployeesProperty, Write(NameProperty, Fresh(), Text(name)), count))
  {
    var p := Info.properties;
    assert p[..0] == [];
    assert p[0] == NameProperty && p[1] == NumberOfEmployeesProperty;
    SqlDbTypes.FromCodeOfCode(SqlDbTypes.NVarChar);
    PrefixColumnStep(ctx, p, 0, level, Fresh(), Fresh(), Text(name));
    PrefixColumnStep(ctx, p, 1, level, Fresh(), Write(NameProperty, Fresh(), Text(name)), count);
  }

  /** The double, which has no binding, leaves the first two properties' state as it is. */
  lemma ThroughNotDatabound(ctx: Context, level: nat, name: string, count: Value)
    requires "sup_CompanyName" in ctx.row && ctx.row["sup_CompanyName"] == Text(name)
    requires "sup_TotalEmployees" in ctx.row
    requires Coerce(SqlDbTypes.Code(SqlDbTypes.Int), ctx.row["sup_TotalEmployees"], ctx.rt) == Ok(count)
    requires count == Null || (count.Scalar? && count.family == Int32)
    ensures BindProperties(ctx, Info.properties[..3], level, Fresh())
      == Ok(Write(NumberOfEmployeesProperty, Write(NameProperty, Fresh(), Text(name)), count))
  {
    var s2 := Write(NumberOfEmployeesProperty, Write(NameProperty, Fresh(), Text(name)), count);
    ThroughNumberOfEmployees(ctx, level, name, count);
    assert Info.properties[2] == NotDataboundProperty;
    UnboundPropertyUntouched(ctx, NotDataboundProperty, level, s2);
    PrefixStep(ctx, Info.properties, 2, level, Fresh(), s2, s2);
  }
}
