/** The sample Product target type: a name, a stock count and a price bound from columns,
    a Supplier bound as a nested object from the same row, and a supplier id whose column
    the sample table lacks. */
module Products {
  import opened Values
  import opened Metadata
  import opened DynamicProperties
  import opened DynamicClasses
  import SqlDbTypes
  import opened BusinessLogic
  import opened ResultSets
  import Suppliers

  /** The name; its `IsNameSet` flag has a protected setter. */
  const NameProperty: PropertyInfo := PropertyInfo(
    "Name", StringType, Guarded("IsNameSet", false),
    [PropertyAttribute(ColumnBinding(Some("prod_name"), SqlDbTypes.Code(SqlDbTypes.NVarChar)))])

  const InStockProperty: PropertyInfo := PropertyInfo(
    "InStock", ValueType(Int32, true), Guarded("IsInStockSet", true),
    [PropertyAttribute(ColumnBinding(Some("prod_instock"), SqlDbTypes.Code(SqlDbTypes.Int)))])

  const PriceProperty: PropertyInfo := PropertyInfo(
    "Price", ValueType(Decimal, true), Guarded("IsPriceSet", true),
    [PropertyAttribute(ColumnBinding(Some("prod_unitprice"), SqlDbTypes.Code(SqlDbTypes.Decimal)))])

  /** The supplier, bound as a nested Supplier; its id field is named "SupplierID". */
  const SupplierProperty: PropertyInfo := PropertyInfo(
    "Supplier", TargetType("Supplier"), Guarded("IsSupplierSet", true),
    [ClassAttribute(ClassBinding("Supplier", "SupplierID"))])

  const SupplierIdProperty: PropertyInfo := PropertyInfo(
    "SupplierID", ValueType(Int32, true), Guarded("IsSupplierIDSet", true),
    [PropertyAttribute(ColumnBinding(Some("prod_SupplierId"), SqlDbTypes.Code(SqlDbTypes.Int)))])

  /** The data properties in declaration order. */
  const Properties: seq<PropertyInfo> :=
    [NameProperty, InStockProperty, PriceProperty, SupplierProperty, SupplierIdProperty]

  /** The IsEmpty override: a product without a name, or with a blank one, is empty. */
  function IsEmpty(s: State): Result<bool>
  {
    if NameProperty.name !in s.flags then Ok(true)
    else
      match Read(NameProperty, s)
      case Err(e) => Err(e)
      case Ok(v) => Ok(IsNullOrWhiteSpace(AsString(v)))
  }

  /** The ToString override: the name, through its guarded getter. */
  function ToString(s: State): Result<Option<string>>
  {
    match Read(NameProperty, s)
    case Err(e) => Err(e)
    case Ok(v) => Ok(AsString(v))
  }

  /** The OnLoaded override does nothing, and does not throw. */
  function OnLoaded(s: State): Result<State>
  {
    Ok(s)
  }

  const Info: TypeInfo := TypeInfo("Product", Properties, IsEmpty, ToString, OnLoaded)

  /** The property names are distinct, and no `Is…Set` flag shares a name with a data
      property. */
  lemma WellFormed()
    ensures DistinctNames(Info.properties)
    ensures forall p, q :: p in Info.properties && q in Info.properties && p.accessor.Guarded? ==>
      p.accessor.flag != q.name
  {
    assert Info.properties == [NameProperty, InStockProperty, PriceProperty, SupplierProperty, SupplierIdProperty];
  }

  /** Every data property is guarded, and only the name's flag has a protected setter, so
      outside code makes IsNameSet true only through the Name setter. */
  lemma FlagSetters()
    ensures forall p :: p in Info.properties ==> p.accessor.Guarded?
    ensures forall p :: p in Info.properties ==> (p.accessor.flagSetterPublic <==> p.name != "Name")
  {
    assert Info.properties == [NameProperty, InStockProperty, PriceProperty, SupplierProperty, SupplierIdProperty];
  }

  /** IsEmpty never throws, and a product is empty exactly when its name is unset, null
      or blank. */
  lemma IsEmptyExactly(s: State)
    ensures Info.isEmpty(s).Ok?
    ensures Info.isEmpty(s).value <==>
      "Name" !in s.flags || IsNullOrWhiteSpace(AsString(Stored(NameProperty, s)))
  {
    if "Name" in s.flags {
      GuardedGetter(NameProperty, s);
    }
  }

  /** ToString fails with the standard message exactly while the name is unset, and
      otherwise gives the name. */
  lemma ToStringExactly(s: State)
    ensures Info.toString(s).Err? <==> "Name" !in s.flags
    ensures Info.toString(s).Err? ==> Info.toString(s).error == Exception(CstPropertyValueNotReturned)
    ensures Info.toString(s).Ok? ==> Info.toString(s).value == AsString(Stored(NameProperty, s))
  {
    GuardedGetter(NameProperty, s);
  }

  /** A DBNull name cell leaves the name null with its flag true, so the product is
      empty: a row without product data gives no product. */
  lemma DbNullNameIsEmpty(ctx: Context, level: nat, s0: State)
    requires "prod_name" in ctx.row && ctx.row["prod_name"] == DbNull
    requires BindProperties(ctx, Info.properties, level, s0).Ok?
    ensures Info.isEmpty(BindProperties(ctx, Info.properties, level, s0).value) == Ok(true)
  {
    WellFormed();
    ColumnValueStored(ctx, Info.properties, 0, level, s0);
    IsEmptyExactly(BindProperties(ctx, Info.properties, level, s0).value);
  }

  /** Below the depth limit, with Supplier registered, the Supplier property holds the
      supplier bound from the same row one level down when that supplier is returned and
      not empty; a returned but empty supplier, or none, leaves it as it was. */
  lemma SupplierFromSameRow(ctx: Context, level: nat, s0: State)
    requires level < MaxLevelCounter
    requires "Supplier" in ctx.schema && ctx.schema["Supplier"] == Suppliers.Info
    requires BindProperties(ctx, Info.properties, level, s0).Ok?
    requires BindRow(ctx, Suppliers.Info, level + 1, Fresh()).Ok?
    ensures var child := BindRow(ctx, Suppliers.Info, level + 1, Fresh()).value;
      var s := BindProperties(ctx, Info.properties, level, s0).value;
      && (child.loaded && Suppliers.Info.isEmpty(child.state) == Ok(false) ==>
            Read(SupplierProperty, s) == Ok(Object("Supplier", child.state)))
      && (!child.loaded || Suppliers.Info.isEmpty(child.state) == Ok(true) ==>
            Untouched("Supplier", s0, s))
  {
    WellFormed();
    var child := BindRow(ctx, Suppliers.Info, level + 1, Fresh()).value;
    var before := Info.properties[..3];
    PropertyOutcome(ctx, Info.properties, 3, level, s0);
    var mid := BindProperties(ctx, before, level, s0).value;
    var after := BindProperty(ctx, SupplierProperty, level, mid).value;
    var final := BindProperties(ctx, Info.properties, level, s0).value;
    assert Untouched("Supplier", after, final);
    SupplierPropertyOutcome(ctx, level, mid);
    if child.loaded && Suppliers.Info.isEmpty(child.state) == Ok(false) {
      UntouchedReads(SupplierProperty, after, final);
    } else {
      forall q | q in before ensures q.name != "Supplier" {
        var k :| 0 <= k < |before| && before[k] == q;
        assert q == Info.properties[k];
      }
      BindPropertiesFrame(ctx, before, level, s0, "Supplier");
    }
  }

  /** Binding the Supplier property alone: a loaded, non-empty child is stored and read
      back, and any other child leaves the state as it was. */
  lemma SupplierPropertyOutcome(ctx: Context, level: nat, s: State)
    requires level < MaxLevelCounter
    requires "Supplier" in ctx.schema && ctx.schema["Supplier"] == Suppliers.Info
    requires BindProperty(ctx, SupplierProperty, level, s).Ok?
    requires BindRow(ctx, Suppliers.Info, level + 1, Fresh()).Ok?
    ensures var child := BindRow(ctx, Suppliers.Info, level + 1, Fresh()).value;
      var after := BindProperty(ctx, SupplierProperty, level, s).value;
      && (child.loaded && Suppliers.Info.isEmpty(child.state) == Ok(false) ==>
            Read(SupplierProperty, after) == Ok(Object("Supplier", child.state)))
      && (!child.loaded || Suppliers.Info.isEmpty(child.state) == Ok(true) ==> after == s)
  {
    var child := BindRow(ctx, Suppliers.Info, level + 1, Fresh()).value;
    assert OfKind(SupplierProperty.attributes, DynamicClassKind) == SupplierProperty.attributes by {
      assert SupplierProperty.attributes[1..] == [];
    }
    assert OfKind(SupplierProperty.attributes, DynamicPropertyKind) == [] by {
      assert SupplierProperty.attributes[1..] == [];
    }
    ChildAssignedOnlyIfLoaded(ctx, SupplierProperty, level, s);
    Suppliers.IsEmptyExactly(child.state);
  }

  /** At the depth limit the Supplier property is never bound. */
  lemma SupplierAtDepthLimit(ctx: Context, level: nat, s0: State)
    requires level >= MaxLevelCounter
    requires BindProperties(ctx, Info.properties, level, s0).Ok?
    ensures Untouched("Supplier", s0, BindProperties(ctx, Info.properties, level, s0).value)
  {
    WellFormed();
    assert OfKind(SupplierProperty.attributes, DynamicPropertyKind) == [] by {
      assert SupplierProperty.attributes[1..] == [];
    }
    UnboundPropertyKeeps(ctx, Info.properties, 3, level, s0);
  }

  /** A row without the supplier-id column leaves SupplierID unset on a new product. */
  lemma SupplierIdUnsetWithoutColumn(ctx: Context, level: nat)
    requires "prod_SupplierId" !in ctx.row
    requires BindProperties(ctx, Info.properties, level, Fresh()).Ok?
    ensures Read(SupplierIdProperty, BindProperties(ctx, Info.properties, level, Fresh()).value)
      == Err(Exception(CstPropertyValueNotReturned))
  {
    WellFormed();
    UnboundPropertyKeeps(ctx, Info.properties, 4, level, Fresh());
  }

  /** The row's name, stock and price cells coerce to `name`, `inStock` and `price`, values
      of the three properties' types, and the row has no supplier-id column. */
  predicate CellsCoerce(ctx: Context, name: Value, inStock: Value, price: Value)
  {
    && "prod_name" in ctx.row && "prod_instock" in ctx.row && "prod_unitprice" in ctx.row
    && Coerce(SqlDbTypes.Code(SqlDbTypes.NVarChar), ctx.row["prod_name"], ctx.rt) == Ok(name)
    && Coerce(SqlDbTypes.Code(SqlDbTypes.Int), ctx.row["prod_instock"], ctx.rt) == Ok(inStock)
    && Coerce(SqlDbTypes.Code(SqlDbTypes.Decimal), ctx.row["prod_unitprice"], ctx.rt) == Ok(price)
    && (name == Null || name.Text?)
    && (inStock == Null || (inStock.Scalar? && inStock.family == Int32))
    && (price == Null || (price.Scalar? && price.family == Decimal))
    && "prod_SupplierId" !in ctx.row
  }

  /** Below the depth limit, with Supplier registered, the row binds one level down to a
      returned supplier in state `supplier` that is not empty. */
  ghost predicate SupplierKept(ctx: Context, level: nat, supplier: State)
  {
    && level < MaxLevelCounter
    && "Supplier" in ctx.schema && ctx.schema["Supplier"] == Suppliers.Info
    && BindRow(ctx, Suppliers.Info, level + 1, Fresh()) == Ok(Bound(supplier, true))
    && Suppliers.Info.isEmpty(supplier) == Ok(false)
  }

  /** A row whose product cells coerce to `name`, `inStock` and `price` and whose supplier
      is kept binds to a product holding exactly those four values, their flags set; it is
      returned exactly when the name is not null or blank. */
  lemma BindsFromCells(ctx: Context, level: nat, name: Value, inStock: Value, price: Value, supplier: State)
    requires CellsCoerce(ctx, name, inStock, price)
    requires SupplierKept(ctx, level, supplier)
    ensures BindRow(ctx, Info, level, Fresh()) == Ok(Bound(
      State(map["Name" := name, "InStock" := inStock, "Price" := price, "Supplier" := Object("Supplier", supplier)],
            {"Name", "InStock", "Price", "Supplier"}),
      !IsNullOrWhiteSpace(AsString(name))))
  {
    var p := Info.properties;
    assert p[4] == SupplierIdProperty;
    var s4 := Write(SupplierProperty, Write(PriceProperty, Write(InStockProperty,
        Write(NameProperty, Fresh(), name), inStock), price), Object("Supplier", supplier));
    ThroughSupplier(ctx, level, name, inStock, price, supplier);
    assert BindProperty(ctx, p[4], level, s4) == Ok(s4) by {
      SingleColumnAbsent(ctx, SupplierIdProperty, level, s4);
    }
    PrefixStep(ctx, p, 4, level, Fresh(), s4, s4);
    assert p[..5] == p;
    BoundShape(name, inStock, price, supplier);
  }

  /** The properties up to the name, bound from their cells. */
  lemma ThroughName(ctx: Context, level: nat, name: Value, inStock: Value, price: Value)
    requires CellsCoerce(ctx, name, inStock, price)
    ensures BindProperties(ctx, Info.properties[..1], level, Fresh()) == Ok(Write(NameProperty, Fresh(), name))
  {
    assert Info.properties[..0] == [];
    assert Info.properties[0] == NameProperty;
    PrefixColumnStep(ctx, Info.properties, 0, level, Fresh(), Fresh(), name);
  }

  /** The properties up to the stock count, bound from their cells. */
  lemma ThroughInStock(ctx: Context, level: nat, name: Value, inStock: Value, price: Value)
    requires CellsCoerce(ctx, name, inStock, price)
    ensures BindProperties(ctx, Info.properties[..2], level, Fresh())
      == Ok(Write(InStockProperty, Write(NameProperty, Fresh(), name), inStock))
  {
    ThroughName(ctx, level, name, inStock, price);
    assert Info.properties[1] == InStockProperty;
    ColumnCell(ctx, InStockProperty, inStock, "prod_instock", SqlDbTypes.Code(SqlDbTypes.Int));
    PrefixColumnStep(ctx, Info.properties, 1, level, Fresh(), Write(NameProperty, Fresh(), name), inStock);
  }

  /** The properties up to the price, bound from their cells. */
  lemma ThroughPrice(ctx: Context, level: nat, name: Value, inStock: Value, price: Value)
    requires CellsCoerce(ctx, name, inStock, price)
    ensures BindProperties(ctx, Info.properties[..3], level, Fresh())
      == Ok(Write(PriceProperty, Write(InStockProperty, Write(NameProperty, Fresh(), name), inStock), price))
  {
    ThroughInStock(ctx, level, name, inStock, price);
    assert Info.properties[2] == PriceProperty;
    ColumnCell(ctx, PriceProperty, price, "prod_unitprice", SqlDbTypes.Code(SqlDbTypes.Decimal));
    PrefixColumnStep(ctx, Info.properties, 2, level, Fresh(),
      Write(InStockProperty, Write(NameProperty, Fresh(), name), inStock), price);
  }

  /** A property bound to one present column whose cell coerces to a fitting value. */
  lemma ColumnCell(ctx: Context, p: PropertyInfo, v: Value, column: string, code: int)
    requires p.attributes == [PropertyAttribute(ColumnBinding(Some(column), code))]
    requires column in ctx.row && Coerce(code, ctx.row[column], ctx.rt) == Ok(v)
    requires Conform(p.clrType, v) == Some(v)
    ensures |p.attributes| == 1 && p.attributes[0].PropertyAttribute?
    ensures ColumnPresent(ctx.row, p.attributes[0].column.columnName)
    ensures Coerce(p.attributes[0].column.databaseType, ctx.row[p.attributes[0].column.columnName.value], ctx.rt) == Ok(v)
  {
  }

  /** The properties up to the supplier, the supplier bound one level down. */
  lemma ThroughSupplier(ctx: Context, level: nat, name: Value, inStock: Value, price: Value, supplier: State)
    requires CellsCoerce(ctx, name, inStock, price)
    requires SupplierKept(ctx, level, supplier)
    ensures BindProperties(ctx, Info.properties[..4], level, Fresh())
      == Ok(Write(SupplierProperty, Write(PriceProperty, Write(InStockProperty,
           Write(NameProperty, Fresh(), name), inStock), price), Object("Supplier", supplier)))
  {
    var s3 := Write(PriceProperty, Write(InStockProperty, Write(NameProperty, Fresh(), name), inStock), price);
    ThroughPrice(ctx, level, name, inStock, price);
    assert Info.properties[3] == SupplierProperty;
    SupplierStep(ctx, level, s3, supplier);
    PrefixStep(ctx, Info.properties, 3, level, Fresh(), s3, Write(SupplierProperty, s3, Object("Supplier", supplier)));
  }

  /** The Supplier property takes a returned, non-empty supplier bound one level down. */
  lemma SupplierStep(ctx: Context, level: nat, s: State, supplier: State)
    requires SupplierKept(ctx, level, supplier)
    ensures BindProperty(ctx, SupplierProperty, level, s) == Ok(Write(SupplierProperty, s, Object("Supplier", supplier)))
  {
    assert OfKind(SupplierProperty.attributes, DynamicPropertyKind) == [] by {
      assert SupplierProperty.attributes[1..] == [];
    }
    assert OfKind(SupplierProperty.attributes, DynamicClassKind) == SupplierProperty.attributes by {
      assert SupplierProperty.attributes[1..] == [];
    }
    assert BindProperty(ctx, SupplierProperty, level, s)
      == NestedOutcome(ctx, SupplierProperty, "Supplier", level + 1, s);
  }

  /** The state the four setters leave, and whether IsEmpty then keeps it. */
  lemma BoundShape(name: Value, inStock: Value, price: Value, supplier: State)
    ensures var s4 := Write(SupplierProperty, Write(PriceProperty, Write(InStockProperty,
        Write(NameProperty, Fresh(), name), inStock), price), Object("Supplier", supplier));
      && s4 == State(map["Name" := name, "InStock" := inStock, "Price" := price, "Supplier" := Object("Supplier", supplier)],
                     {"Name", "InStock", "Price", "Supplier"})
      && Info.isEmpty(s4) == Ok(IsNullOrWhiteSpace(AsString(name)))
      && Info.onLoaded(s4) == Ok(s4)
  {
    var s4 := Write(SupplierProperty, Write(PriceProperty, Write(InStockProperty,
        Write(NameProperty, Fresh(), name), inStock), price), Object("Supplier", supplier));
    IsEmptyExactly(s4);
    assert Stored(NameProperty, s4) == name;
  }
}
