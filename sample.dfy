/** The sample program's table: two rows over six untyped columns, bound once to
    suppliers and once to products. Untyped columns hold every cell as a string, and a
    cell never stored holds DBNull. */
module Sample {
  import opened Values
  import opened Metadata
  import SqlDbTypes
  import opened BusinessLogic
  import opened ResultSets
  import Suppliers
  import Products

  /** The target types the program can reach. */
  const Registered: Schema := map["Supplier" := Suppliers.Info, "Product" := Products.Info]

  const Row1: Row := map[
    "sup_CompanyName" := Text("Mike Milk Man McIsaac the Dairy"),
    "sup_TotalEmployees" := Text("9000"),
    "sup_FieldNotUsed" := Text("This is some empty field."),
    "prod_name" := Text("2L 2% Lactose Free"),
    "prod_instock" := Text("2879"),
    "prod_unitprice" := Text("2.54")]  // the double 2.54 as the invariant culture writes it

  const Row2: Row := map[
    "sup_CompanyName" := Text("Another company"),
    "sup_TotalEmployees" := DbNull,
    "sup_FieldNotUsed" := Text("It is not anything but a thing."),
    "prod_name" := DbNull,
    "prod_instock" := DbNull,
    "prod_unitprice" := DbNull]

  const Rows: Table := [Row1, Row2]

  /** The runtime converts the three numeric cells of the first row. */
  predicate Converts(rt: Runtime)
  {
    && rt.convert(Int32, Text("9000")).Some?
    && rt.convert(Int32, Text("2879")).Some?
    && rt.convert(Decimal, Text("2.54")).Some?
  }

  /** The first supplier: its name and employee count set, its markup not. */
  function Supplier1(rt: Runtime): State
    requires Converts(rt)
  {
    State(map["Name" := Text("Mike Milk Man McIsaac the Dairy"),
              "NumberOfEmployees" := Scalar(Int32, rt.convert(Int32, Text("9000")).value)],
          {"Name", "NumberOfEmployees"})
  }

  /** The second supplier: a DBNull employee count leaves that nullable property null,
      its flag set. */
  const Supplier2: State :=
    State(map["Name" := Text("Another company"), "NumberOfEmployees" := Null], {"Name", "NumberOfEmployees"})

  /** The one product, holding the first row's supplier. */
  function Product1(rt: Runtime): State
    requires Converts(rt)
  {
    State(map["Name" := Text("2L 2% Lactose Free"),
              "InStock" := Scalar(Int32, rt.convert(Int32, Text("2879")).value),
              "Price" := Scalar(Decimal, rt.convert(Decimal, Text("2.54")).value),
              "Supplier" := Object("Supplier", Supplier1(rt))],
          {"Name", "InStock", "Price", "Supplier"})
  }

  /** The cells of the sample coerce as their declared types say. */
  lemma SampleCoercions(rt: Runtime)
    requires Converts(rt)
    ensures forall x :: Coerce(SqlDbTypes.Code(SqlDbTypes.NVarChar), Text(x), rt) == Ok(Text(x))
    ensures Coerce(SqlDbTypes.Code(SqlDbTypes.Int), Text("9000"), rt)
      == Ok(Scalar(Int32, rt.convert(Int32, Text("9000")).value))
    ensures Coerce(SqlDbTypes.Code(SqlDbTypes.Int), Text("2879"), rt)
      == Ok(Scalar(Int32, rt.convert(Int32, Text("2879")).value))
    ensures Coerce(SqlDbTypes.Code(SqlDbTypes.Decimal), Text("2.54"), rt)
      == Ok(Scalar(Decimal, rt.convert(Decimal, Text("2.54")).value))
  {
    SqlDbTypes.FromCodeOfCode(SqlDbTypes.NVarChar);
    SqlDbTypes.FromCodeOfCode(SqlDbTypes.Int);
    SqlDbTypes.FromCodeOfCode(SqlDbTypes.SqlDbType.Decimal);
  }

  /** GetList over a two-row table keeps the first row's result, then the second's, each
      when it is returned. */
  lemma TwoRows(schema: Schema, rt: Runtime, r1: Row, r2: Row, info: TypeInfo)
    requires Binds(schema, rt, r1, info) && Binds(schema, rt, r2, info)
    ensures var b1 := BindRow(Context(schema, rt, r1), info, 0, Fresh()).value;
      var b2 := BindRow(Context(schema, rt, r2), info, 0, Fresh()).value;
      BindAll(schema, rt, [r1, r2], info) ==
        Ok((if b1.loaded then [b1.state] else []) + (if b2.loaded then [b2.state] else []))
  {
    var b1 := BindRow(Context(schema, rt, r1), info, 0, Fresh()).value;
    var k1 := if b1.loaded then [b1.state] else [];
    var rows := [r1, r2];
    assert [r1][..0] == [];
    assert BindAll(schema, rt, [r1], info) == Ok(k1) by {
      assert [] + [b1.state] == [b1.state];
    }
    assert rows[..|rows| - 1] == [r1];
    assert rows[|rows| - 1] == r2;
    assert k1 + [] == k1;
  }

  /** The cells of the first row, for any context holding them. */
  predicate FirstRowCells(row: Row)
  {
    && "sup_CompanyName" in row && row["sup_CompanyName"] == Text("Mike Milk Man McIsaac the Dairy")
    && "sup_TotalEmployees" in row && row["sup_TotalEmployees"] == Text("9000")
    && "prod_name" in row && row["prod_name"] == Text("2L 2% Lactose Free")
    && "prod_instock" in row && row["prod_instock"] == Text("2879")
    && "prod_unitprice" in row && row["prod_unitprice"] == Text("2.54")
    && "sup_markup" !in row && "prod_SupplierId" !in row
  }

  /** The cells of the second row, for any context holding them. */
  predicate SecondRowCells(row: Row)
  {
    && "sup_CompanyName" in row && row["sup_CompanyName"] == Text("Another company")
    && "sup_TotalEmployees" in row && row["sup_TotalEmployees"] == DbNull
    && "prod_name" in row && row["prod_name"] == DbNull
    && "prod_instock" in row && row["prod_instock"] == DbNull
    && "prod_unitprice" in row && row["prod_unitprice"] == DbNull
    && "sup_markup" !in row && "prod_SupplierId" !in row
  }

  lemma FirstRow()
    ensures FirstRowCells(Row1)
  {
  }

  lemma SecondRow()
    ensures SecondRowCells(Row2)
  {
  }

  /** The program registers Supplier under its name. */
  lemma SupplierRegistered()
    ensures "Supplier" in Registered && Registered["Supplier"] == Suppliers.Info
  {
  }

  /** A row with the first row's cells gives the first supplier, at any level. */
  lemma FirstSupplier(ctx: Context, level: nat)
    requires Converts(ctx.rt) && FirstRowCells(ctx.row)
    ensures BindRow(ctx, Suppliers.Info, level, Fresh()) == Ok(Bound(Supplier1(ctx.rt), true))
  {
    SampleCoercions(ctx.rt);
    Suppliers.BindsFromCells(ctx, level, "Mike Milk Man McIsaac the Dairy",
      Scalar(Int32, ctx.rt.convert(Int32, Text("9000")).value));
    assert !IsWhiteSpace("Mike Milk Man McIsaac the Dairy"[0]);
  }

  /** A row with the second row's cells gives the second supplier, at any level. */
  lemma SecondSupplier(ctx: Context, level: nat)
    requires SecondRowCells(ctx.row)
    ensures BindRow(ctx, Suppliers.Info, level, Fresh()) == Ok(Bound(Supplier2, true))
  {
    DbNullIsNull(SqlDbTypes.Code(SqlDbTypes.Int), ctx.rt);
    Suppliers.BindsFromCells(ctx, level, "Another company", Null);
    assert !IsWhiteSpace("Another company"[0]);
  }

  /** The product cells of the first row coerce to a name, a stock count and a price. */
  lemma FirstProductCells(ctx: Context)
    requires Converts(ctx.rt) && FirstRowCells(ctx.row)
    ensures Products.CellsCoerce(ctx, Text("2L 2% Lactose Free"),
      Scalar(Int32, ctx.rt.convert(Int32, Text("2879")).value),
      Scalar(Decimal, ctx.rt.convert(Decimal, Text("2.54")).value))
  {
    SampleCoercions(ctx.rt);
  }

  /** The first supplier is returned and not empty. */
  lemma FirstSupplierKept(ctx: Context)
    requires Converts(ctx.rt) && FirstRowCells(ctx.row)
    requires "Supplier" in ctx.schema && ctx.schema["Supplier"] == Suppliers.Info
    ensures Products.SupplierKept(ctx, 0, Supplier1(ctx.rt))
  {
    FirstSupplier(ctx, 1);
    Suppliers.IsEmptyExactly(Supplier1(ctx.rt));
    assert !IsWhiteSpace("Mike Milk Man McIsaac the Dairy"[0]);
  }

  /** The first product's name is not blank. */
  lemma FirstProductNamed()
    ensures !IsNullOrWhiteSpace(AsString(Text("2L 2% Lactose Free")))
  {
    assert !IsWhiteSpace("2L 2% Lactose Free"[0]);
  }

  /** A row with the first row's cells gives the one product, holding the first
      supplier. */
  lemma FirstProduct(ctx: Context)
    requires Converts(ctx.rt) && FirstRowCells(ctx.row)
    requires "Supplier" in ctx.schema && ctx.schema["Supplier"] == Suppliers.Info
    ensures BindRow(ctx, Products.Info, 0, Fresh()) == Ok(Bound(Product1(ctx.rt), true))
  {
    var rt := ctx.rt;
    FirstProductCells(ctx);
    FirstSupplierKept(ctx);
    FirstProductNamed();
    Products.BindsFromCells(ctx, 0, Text("2L 2% Lactose Free"),
      Scalar(Int32, rt.convert(Int32, Text("2879")).value),
      Scalar(Decimal, rt.convert(Decimal, Text("2.54")).value), Supplier1(rt));
  }

  /** The product cells of the second row are DBNull, so they coerce to null. */
  lemma SecondProductCells(ctx: Context)
    requires SecondRowCells(ctx.row)
    ensures Products.CellsCoerce(ctx, Null, Null, Null)
  {
    DbNullIsNull(SqlDbTypes.Code(SqlDbTypes.NVarChar), ctx.rt);
    DbNullIsNull(SqlDbTypes.Code(SqlDbTypes.Int), ctx.rt);
    DbNullIsNull(SqlDbTypes.Code(SqlDbTypes.Decimal), ctx.rt);
  }

  /** The second supplier is returned and not empty. */
  lemma SecondSupplierKept(ctx: Context)
    requires SecondRowCells(ctx.row)
    requires "Supplier" in ctx.schema && ctx.schema["Supplier"] == Suppliers.Info
    ensures Products.SupplierKept(ctx, 0, Supplier2)
  {
    SecondSupplier(ctx, 1);
    Suppliers.IsEmptyExactly(Supplier2);
    assert !IsWhiteSpace("Another company"[0]);
  }

  /** A row with the second row's cells gives a product with a null name, which is empty
      and dropped. */
  lemma SecondProduct(ctx: Context)
    requires SecondRowCells(ctx.row)
    requires "Supplier" in ctx.schema && ctx.schema["Supplier"] == Suppliers.Info
    ensures BindRow(ctx, Products.Info, 0, Fresh()).Ok?
    ensures !BindRow(ctx, Products.Info, 0, Fresh()).value.loaded
  {
    SecondProductCells(ctx);
    SecondSupplierKept(ctx);
    Products.BindsFromCells(ctx, 0, Null, Null, Null, Supplier2);
  }

  /** GetList<Supplier> on the sample table: both rows give a supplier, in row order. */
  lemma SampleSuppliers(rt: Runtime)
    requires Converts(rt)
    ensures BindAll(Registered, rt, Rows, Suppliers.Info) == Ok([Supplier1(rt), Supplier2])
  {
    SupplierRows(rt);
    TwoRows(Registered, rt, Row1, Row2, Suppliers.Info);
    assert Rows == [Row1, Row2];
    assert [Supplier1(rt)] + [Supplier2] == [Supplier1(rt), Supplier2];
  }

  lemma SupplierRows(rt: Runtime)
    requires Converts(rt)
    ensures BindRow(Context(Registered, rt, Row1), Suppliers.Info, 0, Fresh()) == Ok(Bound(Supplier1(rt), true))
    ensures BindRow(Context(Registered, rt, Row2), Suppliers.Info, 0, Fresh()) == Ok(Bound(Supplier2, true))
  {
    FirstRow();
    SecondRow();
    FirstSupplier(Context(Registered, rt, Row1), 0);
    SecondSupplier(Context(Registered, rt, Row2), 0);
  }

  /** Every sample supplier's markup getter throws, its column being absent. */
  lemma SampleMarkupUnset(rt: Runtime)
    requires Converts(rt)
    ensures Read(Suppliers.MarkupProperty, Supplier1(rt)) == Err(Exception(CstPropertyValueNotReturned))
    ensures Read(Suppliers.MarkupProperty, Supplier2) == Err(Exception(CstPropertyValueNotReturned))
  {
    GuardedGetter(Suppliers.MarkupProperty, Supplier2);
    GuardedGetter(Suppliers.MarkupProperty, Supplier1(rt));
  }

  /** GetList<Product> on the sample table: only the first row has product data, so one
      product comes back, holding the first supplier. */
  lemma SampleProducts(rt: Runtime)
    requires Converts(rt)
    ensures BindAll(Registered, rt, Rows, Products.Info) == Ok([Product1(rt)])
  {
    FirstRow();
    SecondRow();
    SupplierRegistered();
    FirstProduct(Context(Registered, rt, Row1));
    SecondProduct(Context(Registered, rt, Row2));
    TwoRows(Registered, rt, Row1, Row2, Products.Info);
    assert Rows == [Row1, Row2];
    assert [Product1(rt)] + [] == [Product1(rt)];
  }
}
