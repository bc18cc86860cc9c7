/** The row-to-object binder: the coercion of a cell by its declared database type, the
    depth-limited recursive RowToType, and GetList over the rows of a table. */
module ResultSets {
  import opened Values
  import opened Metadata
  import opened DynamicProperties
  import opened DynamicClasses
  import SqlDbTypes
  import opened BusinessLogic

  /** _maxLevelCounter: how deep nested objects may be bound. */
  const MaxLevelCounter: nat := 3

  /** A DataRow: its cell in each column of its table (DBNull where nothing was stored). */
  type Row = map<string, Value>

  /** A DataTable, as far as the binder sees it: its rows in order. */
  type Table = seq<Row>

  /** The .NET conversions the switch calls, left abstract: Convert.ToX for each family
      (the payload, or `None` where it throws), ToString of a boxed scalar, the Guid
      parser, and the namespace-qualified name of a target type. */
  datatype Runtime = Runtime(
    convert: (Family, Value) -> Option<int>,
    show: (Family, int) -> string,
    parseGuid: string -> Option<int>,
    fullName: string -> string)

  // The coercion switch of SetPropertyValue

  /** What the switch does with a non-DBNull cell for one database type. */
  datatype Conversion =
    | ConvertTo(family: Family)   // value = Convert.ToX(value)
    | CastTo(family: Family)      // value = (X)value
    | ToText                      // value = value.ToString()
    | ParseGuid                   // value = new Guid(value.ToString())
    | PassThrough                 // the value is left as it is

  /** The switch's case for each tag. */
  function Dispatch(t: SqlDbTypes.SqlDbType): Conversion
  {
    match t
    case BigInt => ConvertTo(Int64)
    case Binary | Image | Timestamp | VarBinary => CastTo(Bytes)
    case Bit => ConvertTo(Boolean)
    case Char | NChar | NText | NVarChar | Text | VarChar | Xml => ToText
    case DateTime | SmallDateTime | Date | Time | DateTime2 => ConvertTo(DateTime)
    case Decimal | Money | SmallMoney => ConvertTo(Decimal)
    case Float => ConvertTo(Double)
    case Int => ConvertTo(Int32)
    case Real => ConvertTo(Single)
    case UniqueIdentifier => ParseGuid
    case SmallInt => ConvertTo(Int16)
    case TinyInt => ConvertTo(Byte)
    case Variant | Udt => PassThrough
    case Structured => CastTo(DataTable)
    case DateTimeOffset => CastTo(DateTimeOffset)
  }

  /** object.ToString() on a cell. A target object answers Object.ToString, its type's
      full name: BusinessLogicBase hides that method behind a `new` ToString rather than
      overriding it. */
  function ObjectToString(raw: Value, rt: Runtime): Result<string>
  {
    match raw
    case Text(s) => Ok(s)
    case Scalar(f, x) => Ok(rt.show(f, x))
    case Null => Err(NullReference)
    case DbNull => Ok("")
    case Object(n, _) => Ok(rt.fullName(n))
  }

  /** One case of the switch applied to a cell. */
  function Apply(c: Conversion, raw: Value, rt: Runtime): Result<Value>
  {
    match c
    case ConvertTo(f) =>
      (match rt.convert(f, raw)
       case None => Err(ConversionFailed(f))
       case Some(x) => Ok(Scalar(f, x)))
    case CastTo(f) =>
      if raw == Null || (raw.Scalar? && raw.family == f) then Ok(raw) else Err(InvalidCast(f))
    case ToText =>
      (match ObjectToString(raw, rt)
       case Err(e) => Err(e)
       case Ok(s) => Ok(Text(s)))
    case ParseGuid =>
      (match ObjectToString(raw, rt)
       case Err(e) => Err(e)
       case Ok(s) =>
         match rt.parseGuid(s)
         case None => Err(ConversionFailed(Guid))
         case Some(g) => Ok(Scalar(Guid, g)))
    case PassThrough => Ok(raw)
  }

  /** The value SetPropertyValue assigns for a cell and a declared type code: null for
      DBNull whatever the code, the switch's conversion for a named tag, and
      ArgumentOutOfRangeException for a code no tag names. */
  function Coerce(code: int, raw: Value, rt: Runtime): Result<Value>
  {
    if raw == DbNull then Ok(Null)
    else
      match SqlDbTypes.FromCode(code)
      case None => Err(ArgumentOutOfRange("DatabaseType"))
      case Some(t) => Apply(Dispatch(t), raw, rt)
  }

  /** What a successful case of the switch yields, told apart by the case alone. */
  predicate Yields(c: Conversion, raw: Value, v: Value)
  {
    match c
    case ConvertTo(f) => v.Scalar? && v.family == f
    case CastTo(f) => v == raw && (v == Null || (v.Scalar? && v.family == f))
    case ToText => v.Text?
    case ParseGuid => v.Scalar? && v.family == Guid
    case PassThrough => v == raw
  }

  /** A DBNull cell is coerced to null for every code, named or not. */
  lemma DbNullIsNull(code: int, rt: Runtime)
    ensures Coerce(code, DbNull, rt) == Ok(Null)
  {
  }

  /** The out-of-range failure is raised exactly for a non-DBNull cell whose code no tag
      names. */
  lemma UnknownCodeFails(code: int, raw: Value, rt: Runtime)
    ensures Coerce(code, raw, rt) == Err(ArgumentOutOfRange("DatabaseType"))
      <==> raw != DbNull && SqlDbTypes.FromCode(code).None?
  {
    if raw != DbNull && SqlDbTypes.FromCode(code).Some? {
      var t := SqlDbTypes.FromCode(code).value;
      match Dispatch(t)
      case ConvertTo(f) =>
      case CastTo(f) =>
      case ToText =>
      case ParseGuid => {
        match ObjectToString(raw, rt)
        case Err(e) =>
        case Ok(s) =>
      }
      case PassThrough =>
    }
  }

  /** A non-DBNull cell under a named tag gets that tag's case of the switch, and a
      successful conversion yields a value of the case's family. */
  lemma NamedTagCoercion(t: SqlDbTypes.SqlDbType, raw: Value, rt: Runtime)
    requires raw != DbNull
    ensures Coerce(SqlDbTypes.Code(t), raw, rt) == Apply(Dispatch(t), raw, rt)
    ensures Coerce(SqlDbTypes.Code(t), raw, rt).Ok? ==>
      Yields(Dispatch(t), raw, Coerce(SqlDbTypes.Code(t), raw, rt).value)
  {
    SqlDbTypes.FromCodeOfCode(t);
  }

  /** The character, text and Xml tags are exactly the ones read through ToString. */
  lemma TextTags(t: SqlDbTypes.SqlDbType)
    ensures Dispatch(t) == ToText <==>
      t in {SqlDbTypes.Char, SqlDbTypes.NChar, SqlDbTypes.NText, SqlDbTypes.NVarChar,
            SqlDbTypes.SqlDbType.Text, SqlDbTypes.VarChar, SqlDbTypes.Xml}
  {
  }

  /** UniqueIdentifier alone is parsed from the string form; Variant and Udt alone pass
      the cell through; the casts are the binary tags, Structured and DateTimeOffset. */
  lemma SpecialTags(t: SqlDbTypes.SqlDbType)
    ensures Dispatch(t) == ParseGuid <==> t == SqlDbTypes.UniqueIdentifier
    ensures Dispatch(t) == PassThrough <==> t == SqlDbTypes.Variant || t == SqlDbTypes.Udt
    ensures Dispatch(t).CastTo? <==>
      t in {SqlDbTypes.Binary, SqlDbTypes.Image, SqlDbTypes.Timestamp, SqlDbTypes.VarBinary,
            SqlDbTypes.Structured, SqlDbTypes.SqlDbType.DateTimeOffset}
  {
  }

  /** A converting case fails exactly when the runtime conversion throws. */
  lemma ConversionFailure(f: Family, raw: Value, rt: Runtime)
    ensures Apply(ConvertTo(f), raw, rt).Err? <==> rt.convert(f, raw).None?
    ensures Apply(ConvertTo(f), raw, rt).Err? ==> Apply(ConvertTo(f), raw, rt).error == ConversionFailed(f)
  {
  }

  // Assignment through reflection

  /** PropertyInfo.SetValue: the value is fitted to the property's type (null becoming
      its default) and handed to the property's setter; a value of another type fails. */
  function ReflectSet(p: PropertyInfo, s: State, v: Value): Result<State>
  {
    match Conform(p.clrType, v)
    case None => Err(ArgumentMismatch(p.name))
    case Some(w) => Ok(Write(p, s, w))
  }

  /** The table has the column a binding names. */
  predicate ColumnPresent(row: Row, name: Option<string>)
  {
    name.Some? && name.value in row
  }

  /** The table lacks the column a binding names. A binding without a name is neither
      present nor absent: DataColumnCollection.Contains(null) throws. */
  predicate ColumnAbsent(row: Row, name: Option<string>)
  {
    name.Some? && name.value !in row
  }

  /** SetPropertyValue for a column the row has: coerce the cell and assign it. */
  function AssignColumn(p: PropertyInfo, col: ColumnBinding, row: Row, rt: Runtime, s: State): Result<State>
    requires ColumnPresent(row, col.columnName)
  {
    match Coerce(col.databaseType, row[col.columnName.value], rt)
    case Err(e) => Err(e)
    case Ok(v) => ReflectSet(p, s, v)
  }

  /** A DBNull cell makes the property "set to its default" rather than unset: null for a
      reference or nullable type, zero for a non-nullable value type, and the flag true. */
  lemma DbNullSetsDefault(p: PropertyInfo, col: ColumnBinding, row: Row, rt: Runtime, s: State)
    requires ColumnPresent(row, col.columnName) && row[col.columnName.value] == DbNull
    ensures AssignColumn(p, col, row, rt, s).Ok?
    ensures Read(p, AssignColumn(p, col, row, rt, s).value) == Ok(Default(p.clrType))
    ensures p.accessor.Guarded? ==> p.name in AssignColumn(p, col, row, rt, s).value.flags
  {
    DbNullIsNull(col.databaseType, rt);
    ReadAfterWrite(p, s, Default(p.clrType));
  }

  // The recursive binder, as a specification

  /** The context of one binding: the registered target types, the runtime
      conversions, and the row. */
  datatype Context = Context(schema: Schema, rt: Runtime, row: Row)

  /** The outcome of a completed RowToType: the instance's final state, and whether it
      was returned (non-empty, OnLoaded run) rather than answered by null. */
  datatype Bound = Bound(state: State, loaded: bool)

  /** The measure of the recursion: the levels still allowed. */
  function Rank(level: nat): nat
  {
    if level < MaxLevelCounter then MaxLevelCounter - level else 0
  }

  /** RowToType<T>(row, level, returnObject) on an instance of type `t` in state `s0`:
      bind each property in order, then test emptiness, then either run OnLoaded or
      answer null. */
  function BindRow(ctx: Context, t: TypeInfo, level: nat, s0: State): Result<Bound>
    decreases Rank(level), 2, 0
  {
    match BindProperties(ctx, t.properties, level, s0)
    case Err(e) => Err(e)
    case Ok(s) =>
      match t.isEmpty(s)
      case Err(e) => Err(e)
      case Ok(empty) =>
        if empty then Ok(Bound(s, false))
        else
          match t.onLoaded(s)
          case Err(e) => Err(e)
          case Ok(s') => Ok(Bound(s', true))
  }

  /** The properties bound one after another, in order. */
  function BindProperties(ctx: Context, props: seq<PropertyInfo>, level: nat, s0: State): Result<State>
    decreases Rank(level), 1, |props|
  {
    if props == [] then Ok(s0)
    else
      match BindProperties(ctx, props[..|props| - 1], level, s0)
      case Err(e) => Err(e)
      case Ok(s) => BindProperty(ctx, props[|props| - 1], level, s)
  }

  /** One property: its first DynamicProperty binding if the row has that column (the
      column test throws on a binding without a column name); otherwise its first
      DynamicClass binding, if the depth allows, by a nested RowToType at the next level
      on a new instance, assigned only when that returns a non-null, non-empty child. */
  function BindProperty(ctx: Context, p: PropertyInfo, level: nat, s: State): Result<State>
    decreases Rank(level), 0, 0
  {
    var cols := OfKind(p.attributes, DynamicPropertyKind);
    if |cols| != 0 && cols[0].column.columnName.None? then Err(NullReference)
    else if |cols| != 0 && ColumnPresent(ctx.row, cols[0].column.columnName) then
      AssignColumn(p, cols[0].column, ctx.row, ctx.rt, s)
    else
      var classes := OfKind(p.attributes, DynamicClassKind);
      if |classes| == 0 || level >= MaxLevelCounter then Ok(s)
      else
        NestedOutcome(ctx, p, classes[0].nested.typeName, level + 1, s)
  }

  /** The nested binding of an object-bound property at `childLevel`: the registered type
      must exist, and the child RowToType on a new instance decides the assignment. */
  function NestedOutcome(ctx: Context, p: PropertyInfo, n: string, childLevel: nat, s: State): Result<State>
    decreases Rank(childLevel), 3, 0
  {
    if n !in ctx.schema then Err(NotBindable(n))
    else AttachChild(p, n, ctx.schema[n], BindRow(ctx, ctx.schema[n], childLevel, Fresh()), s)
  }

  /** What becomes of an object-bound property once the nested call has answered: its
      failure comes back wrapped, a null or empty child leaves the property alone, and a
      non-empty child is assigned through reflection. */
  function AttachChild(p: PropertyInfo, n: string, childInfo: TypeInfo, child: Result<Bound>, s: State): Result<State>
  {
    match child
    case Err(e) => Err(InvocationFailed(e))
    case Ok(c) =>
      if !c.loaded then Ok(s)
      else
        match childInfo.isEmpty(c.state)
        case Err(e) => Err(e)
        case Ok(empty) => if empty then Ok(s) else ReflectSet(p, s, Object(n, c.state))
  }

  // The binder's properties

  /** A column binding whose column the row has takes precedence: it is assigned, and no
      object binding is attempted for that property. */
  lemma ColumnTakesPrecedence(ctx: Context, p: PropertyInfo, level: nat, s: State)
    requires |OfKind(p.attributes, DynamicPropertyKind)| != 0
    requires ColumnPresent(ctx.row, OfKind(p.attributes, DynamicPropertyKind)[0].column.columnName)
    ensures BindProperty(ctx, p, level, s) ==
      AssignColumn(p, OfKind(p.attributes, DynamicPropertyKind)[0].column, ctx.row, ctx.rt, s)
  {
  }

  /** A first column binding without a column name fails the property with the
      NullReferenceException of the column test, whatever else is declared on it. */
  lemma NullColumnNameFails(ctx: Context, p: PropertyInfo, level: nat, s: State)
    requires |OfKind(p.attributes, DynamicPropertyKind)| != 0
    requires OfKind(p.attributes, DynamicPropertyKind)[0].column.columnName.None?
    ensures BindProperty(ctx, p, level, s) == Err(NullReference)
  {
  }

  /** A column binding whose cell coerces to a value of the property's type stores that
      value through the setter, flag included. */
  lemma ColumnAssigns(ctx: Context, p: PropertyInfo, level: nat, s: State, v: Value)
    requires |OfKind(p.attributes, DynamicPropertyKind)| != 0
    requires ColumnPresent(ctx.row, OfKind(p.attributes, DynamicPropertyKind)[0].column.columnName)
    requires var col := OfKind(p.attributes, DynamicPropertyKind)[0].column;
      Coerce(col.databaseType, ctx.row[col.columnName.value], ctx.rt) == Ok(v)
    requires Conform(p.clrType, v) == Some(v)
    ensures BindProperty(ctx, p, level, s) == Ok(Write(p, s, v))
  {
    ColumnTakesPrecedence(ctx, p, level, s);
  }

  /** A property whose one attribute names a column the row has, and whose cell coerces to
      a value of the property's type, stores that value. */
  lemma SingleColumnAssigns(ctx: Context, p: PropertyInfo, level: nat, s: State, v: Value)
    requires |p.attributes| == 1 && p.attributes[0].PropertyAttribute?
    requires ColumnPresent(ctx.row, p.attributes[0].column.columnName)
    requires Coerce(p.attributes[0].column.databaseType, ctx.row[p.attributes[0].column.columnName.value], ctx.rt) == Ok(v)
    requires Conform(p.clrType, v) == Some(v)
    ensures BindProperty(ctx, p, level, s) == Ok(Write(p, s, v))
  {
    assert p.attributes[1..] == [];
    ColumnAssigns(ctx, p, level, s, v);
  }

  /** A property whose one attribute names a column the row lacks is left as it was. */
  lemma SingleColumnAbsent(ctx: Context, p: PropertyInfo, level: nat, s: State)
    requires |p.attributes| == 1 && p.attributes[0].PropertyAttribute?
    requires ColumnAbsent(ctx.row, p.attributes[0].column.columnName)
    ensures BindProperty(ctx, p, level, s) == Ok(s)
  {
    assert p.attributes[1..] == [];
    UnboundPropertyUntouched(ctx, p, level, s);
  }

  /** A property with no column of the row to read and no object binding the depth
      allows is left exactly as it was, its flag included: what happens to a property
      without metadata, to one whose column is absent, and to object bindings at the
      depth limit. */
  lemma UnboundPropertyUntouched(ctx: Context, p: PropertyInfo, level: nat, s: State)
    requires |OfKind(p.attributes, DynamicPropertyKind)| == 0
      || ColumnAbsent(ctx.row, OfKind(p.attributes, DynamicPropertyKind)[0].column.columnName)
    requires |OfKind(p.attributes, DynamicClassKind)| == 0 || level >= MaxLevelCounter
    ensures BindProperty(ctx, p, level, s) == Ok(s)
  {
  }

  /** An object binding whose type is not registered fails. */
  lemma UnregisteredTypeFails(ctx: Context, p: PropertyInfo, level: nat, s: State)
    requires |OfKind(p.attributes, DynamicPropertyKind)| == 0
      || ColumnAbsent(ctx.row, OfKind(p.attributes, DynamicPropertyKind)[0].column.columnName)
    requires |OfKind(p.attributes, DynamicClassKind)| != 0 && level < MaxLevelCounter
    requires OfKind(p.attributes, DynamicClassKind)[0].nested.typeName !in ctx.schema
    ensures BindProperty(ctx, p, level, s) ==
      Err(NotBindable(OfKind(p.attributes, DynamicClassKind)[0].nested.typeName))
  {
  }

  /** An object-bound property below the depth limit is assigned exactly when the nested
      binding, one level down on a new instance, returns a non-null child that is not
      empty; the property then holds that child, its flag set. A null or empty child leaves
      it as it was. A failure of the nested binding comes back wrapped; a failing IsEmpty of
      the child comes back as it is, and so does SetValue's refusal of a child the property's
      type does not admit. */
  lemma ChildAssignedOnlyIfLoaded(ctx: Context, p: PropertyInfo, level: nat, s: State)
    requires |OfKind(p.attributes, DynamicPropertyKind)| == 0
      || ColumnAbsent(ctx.row, OfKind(p.attributes, DynamicPropertyKind)[0].column.columnName)
    requires |OfKind(p.attributes, DynamicClassKind)| != 0 && level < MaxLevelCounter
    requires OfKind(p.attributes, DynamicClassKind)[0].nested.typeName in ctx.schema
    ensures var n := OfKind(p.attributes, DynamicClassKind)[0].nested.typeName;
      var child := BindRow(ctx, ctx.schema[n], level + 1, Fresh());
      && (child.Err? ==> BindProperty(ctx, p, level, s) == Err(InvocationFailed(child.error)))
      && (child.Ok? && !child.value.loaded ==> BindProperty(ctx, p, level, s) == Ok(s))
      && (child.Ok? && child.value.loaded && ctx.schema[n].isEmpty(child.value.state) == Ok(true)
          ==> BindProperty(ctx, p, level, s) == Ok(s))
      && (child.Ok? && child.value.loaded && ctx.schema[n].isEmpty(child.value.state) == Ok(false)
          && Conform(p.clrType, Object(n, child.value.state)).Some?
          ==> BindProperty(ctx, p, level, s).Ok?
              && Read(p, BindProperty(ctx, p, level, s).value) == Ok(Object(n, child.value.state)))
      && (child.Ok? && child.value.loaded && ctx.schema[n].isEmpty(child.value.state).Err?
          ==> BindProperty(ctx, p, level, s) == Err(ctx.schema[n].isEmpty(child.value.state).error))
      && (child.Ok? && child.value.loaded && ctx.schema[n].isEmpty(child.value.state) == Ok(false)
          && Conform(p.clrType, Object(n, child.value.state)).None?
          ==> BindProperty(ctx, p, level, s) == Err(ArgumentMismatch(p.name)))
  {
    var n := OfKind(p.attributes, DynamicClassKind)[0].nested.typeName;
    var child := BindRow(ctx, ctx.schema[n], level + 1, Fresh());
    if child.Ok? && child.value.loaded && ctx.schema[n].isEmpty(child.value.state) == Ok(false)
      && Conform(p.clrType, Object(n, child.value.state)).Some?
    {
      ReadAfterWrite(p, s, Object(n, child.value.state));
    }
  }

  /** The values of a property named `name`, and its flag, agree in two states. */
  predicate Untouched(name: string, s: State, s': State)
  {
    && (name in s.values <==> name in s'.values)
    && (name in s.values ==> s.values[name] == s'.values[name])
    && (name in s.flags <==> name in s'.flags)
  }

  /** A property untouched between two states reads the same in both. */
  lemma UntouchedReads(p: PropertyInfo, s: State, s': State)
    requires Untouched(p.name, s, s')
    ensures Read(p, s) == Read(p, s')
  {
  }

  /** Binding a property writes that property and no other. */
  lemma BindPropertyFrame(ctx: Context, p: PropertyInfo, level: nat, s: State, name: string)
    requires name != p.name
    requires BindProperty(ctx, p, level, s).Ok?
    ensures Untouched(name, s, BindProperty(ctx, p, level, s).value)
  {
  }

  /** Binding a list of properties leaves every other name untouched. */
  lemma {:induction false} BindPropertiesFrame(ctx: Context, props: seq<PropertyInfo>, level: nat, s0: State, name: string)
    requires forall q :: q in props ==> q.name != name
    requires BindProperties(ctx, props, level, s0).Ok?
    ensures Untouched(name, s0, BindProperties(ctx, props, level, s0).value)
  {
    if props != [] {
      var init := props[..|props| - 1];
      forall q | q in init ensures q.name != name {
        assert q in props;
      }
      assert props[|props| - 1] in props;
      BindPropertiesFrame(ctx, init, level, s0, name);
      var s := BindProperties(ctx, init, level, s0).value;
      BindPropertyFrame(ctx, props[|props| - 1], level, s, name);
    }
  }

  /** Binding `a + b` is binding `a`, then `b` from where `a` left off. */
  lemma {:induction false} BindPropertiesSplit(ctx: Context, a: seq<PropertyInfo>, b: seq<PropertyInfo>, level: nat, s0: State)
    ensures BindProperties(ctx, a + b, level, s0) ==
      match BindProperties(ctx, a, level, s0)
      case Err(e) => Err(e)
      case Ok(s) => BindProperties(ctx, b, level, s)
    decreases |b|
  {
    if b == [] {
      assert a + b == a;
    } else {
      var b' := b[..|b| - 1];
      assert (a + b)[..|a + b| - 1] == a + b';
      assert (a + b)[|a + b| - 1] == b[|b| - 1];
      BindPropertiesSplit(ctx, a, b', level, s0);
    }
  }

  /** Binding the first i + 1 properties is binding the first i, then property i. */
  lemma BindPropertiesStep(ctx: Context, props: seq<PropertyInfo>, i: nat, level: nat, s0: State)
    requires i < |props|
    ensures BindProperties(ctx, props[..i + 1], level, s0) ==
      match BindProperties(ctx, props[..i], level, s0)
      case Err(e) => Err(e)
      case Ok(s) => BindProperty(ctx, props[i], level, s)
  {
    assert props[..i + 1][..i] == props[..i];
    assert props[..i + 1][i] == props[i];
  }

  /** A prefix's outcome extended by the next property's outcome. */
  lemma PrefixStep(ctx: Context, props: seq<PropertyInfo>, i: nat, level: nat, s0: State, s: State, s': State)
    requires i < |props|
    requires BindProperties(ctx, props[..i], level, s0) == Ok(s)
    requires BindProperty(ctx, props[i], level, s) == Ok(s')
    ensures BindProperties(ctx, props[..i + 1], level, s0) == Ok(s')
  {
    BindPropertiesStep(ctx, props, i, level, s0);
  }

  /** Binding a list of properties threads the state through them: when each property
      takes the state the one before it left to the next, the list goes from the first
      state to the last. */
  lemma {:induction false} BindPropertiesChain(ctx: Context, props: seq<PropertyInfo>, level: nat, states: seq<State>)
    requires |states| == |props| + 1
    requires forall i :: 0 <= i < |props| ==> BindProperty(ctx, props[i], level, states[i]) == Ok(states[i + 1])
    ensures BindProperties(ctx, props, level, states[0]) == Ok(states[|props|])
    decreases |props|
  {
    if props != [] {
      var n := |props| - 1;
      var init, before := props[..n], states[..n + 1];
      forall i | 0 <= i < n ensures BindProperty(ctx, init[i], level, before[i]) == Ok(before[i + 1]) {
        assert init[i] == props[i] && before[i] == states[i] && before[i + 1] == states[i + 1];
      }
      BindPropertiesChain(ctx, init, level, before);
      assert BindProperty(ctx, props[n], level, states[n]) == Ok(states[n + 1]);
    }
  }

  /** A prefix's outcome extended by a property whose one attribute names a column the row
      has, its cell coercing to a value of the property's type. */
  lemma PrefixColumnStep(ctx: Context, props: seq<PropertyInfo>, i: nat, level: nat, s0: State, s: State, v: Value)
    requires i < |props|
    requires BindProperties(ctx, props[..i], level, s0) == Ok(s)
    requires |props[i].attributes| == 1 && props[i].attributes[0].PropertyAttribute?
    requires ColumnPresent(ctx.row, props[i].attributes[0].column.columnName)
    requires Coerce(props[i].attributes[0].column.databaseType,
      ctx.row[props[i].attributes[0].column.columnName.value], ctx.rt) == Ok(v)
    requires Conform(props[i].clrType, v) == Some(v)
    ensures BindProperties(ctx, props[..i + 1], level, s0) == Ok(Write(props[i], s, v))
  {
    SingleColumnAssigns(ctx, props[i], level, s, v);
    PrefixStep(ctx, props, i, level, s0, s, Write(props[i], s, v));
  }

  /** With distinct property names, what the whole row leaves in a property is what
      binding that one property left there, from the state the properties before it
      produced. */
  lemma PropertyOutcome(ctx: Context, props: seq<PropertyInfo>, i: nat, level: nat, s0: State)
    requires i < |props| && DistinctNames(props)
    requires BindProperties(ctx, props, level, s0).Ok?
    ensures BindProperties(ctx, props[..i], level, s0).Ok?
    ensures BindProperty(ctx, props[i], level, BindProperties(ctx, props[..i], level, s0).value).Ok?
    ensures Untouched(props[i].name,
      BindProperty(ctx, props[i], level, BindProperties(ctx, props[..i], level, s0).value).value,
      BindProperties(ctx, props, level, s0).value)
  {
    var a, b := props[..i + 1], props[i + 1..];
    assert props == a + b;
    BindPropertiesSplit(ctx, a, b, level, s0);
    BindPropertiesStep(ctx, props, i, level, s0);
    var mid := BindProperties(ctx, a, level, s0);
    assert mid.Ok?;
    forall q | q in b ensures q.name != props[i].name {
      var k :| 0 <= k < |b| && b[k] == q;
      assert q == props[i + 1 + k];
    }
    BindPropertiesFrame(ctx, b, level, mid.value, props[i].name);
  }

  /** A property whose column the row has ends up holding the coerced cell (fitted to its
      type) with its flag set, whatever the other properties do. */
  lemma ColumnValueStored(ctx: Context, props: seq<PropertyInfo>, i: nat, level: nat, s0: State)
    requires i < |props| && DistinctNames(props)
    requires |OfKind(props[i].attributes, DynamicPropertyKind)| != 0
    requires ColumnPresent(ctx.row, OfKind(props[i].attributes, DynamicPropertyKind)[0].column.columnName)
    requires BindProperties(ctx, props, level, s0).Ok?
    ensures var col := OfKind(props[i].attributes, DynamicPropertyKind)[0].column;
      var v := Coerce(col.databaseType, ctx.row[col.columnName.value], ctx.rt);
      && v.Ok? && Conform(props[i].clrType, v.value).Some?
      && Read(props[i], BindProperties(ctx, props, level, s0).value) == Ok(Conform(props[i].clrType, v.value).value)
  {
    PropertyOutcome(ctx, props, i, level, s0);
    var col := OfKind(props[i].attributes, DynamicPropertyKind)[0].column;
    var v := Coerce(col.databaseType, ctx.row[col.columnName.value], ctx.rt);
    var s := BindProperties(ctx, props[..i], level, s0).value;
    ReadAfterWrite(props[i], s, Conform(props[i].clrType, v.value).value);
  }

  /** A property with no column of the row to read and no object binding the depth allows
      (one without binding metadata among them) keeps, after the whole row, the value and
      flag it had before. */
  lemma UnboundPropertyKeeps(ctx: Context, props: seq<PropertyInfo>, i: nat, level: nat, s0: State)
    requires i < |props| && DistinctNames(props)
    requires |OfKind(props[i].attributes, DynamicPropertyKind)| == 0
      || ColumnAbsent(ctx.row, OfKind(props[i].attributes, DynamicPropertyKind)[0].column.columnName)
    requires |OfKind(props[i].attributes, DynamicClassKind)| == 0 || level >= MaxLevelCounter
    requires BindProperties(ctx, props, level, s0).Ok?
    ensures Untouched(props[i].name, s0, BindProperties(ctx, props, level, s0).value)
  {
    PropertyOutcome(ctx, props, i, level, s0);
    UnboundPropertyUntouched(ctx, props[i], level, BindProperties(ctx, props[..i], level, s0).value);
    var before := props[..i];
    forall q | q in before ensures q.name != props[i].name {
      var k :| 0 <= k < |before| && before[k] == q;
      assert q == props[k];
    }
    BindPropertiesFrame(ctx, before, level, s0, props[i].name);
  }

  /** The id-field name of an object binding is never read: renaming it in every
      DynamicClass attribute of a property changes nothing about its binding. */
  function WithIdFieldName(attrs: seq<AttributeData>, id: string): (r: seq<AttributeData>)
    ensures |r| == |attrs|
  {
    if attrs == [] then []
    else
      (if attrs[0].ClassAttribute? then [ClassAttribute(ClassBinding(attrs[0].nested.typeName, id))] else [attrs[0]])
      + WithIdFieldName(attrs[1..], id)
  }

  lemma {:induction false} WithIdFieldNameAppend(x: seq<AttributeData>, y: seq<AttributeData>, id: string)
    ensures WithIdFieldName(x + y, id) == WithIdFieldName(x, id) + WithIdFieldName(y, id)
  {
    if x != [] {
      assert (x + y)[0] == x[0];
      assert (x + y)[1..] == x[1..] + y;
      WithIdFieldNameAppend(x[1..], y, id);
    } else {
      assert x + y == y;
    }
  }

  lemma {:induction false} OfKindWithIdFieldName(attrs: seq<AttributeData>, id: string)
    ensures OfKind(WithIdFieldName(attrs, id), DynamicPropertyKind) == OfKind(attrs, DynamicPropertyKind)
    ensures OfKind(WithIdFieldName(attrs, id), DynamicClassKind) == WithIdFieldName(OfKind(attrs, DynamicClassKind), id)
  {
    if attrs != [] {
      var r := WithIdFieldName(attrs, id);
      assert r[1..] == WithIdFieldName(attrs[1..], id);
      OfKindWithIdFieldName(attrs[1..], id);
      var head := if IsKind(attrs[0], DynamicClassKind) then [attrs[0]] else [];
      WithIdFieldNameAppend(head, OfKind(attrs[1..], DynamicClassKind), id);
    }
  }

  lemma IdFieldNameIgnored(ctx: Context, p: PropertyInfo, level: nat, s: State, id: string)
    ensures BindProperty(ctx, p.(attributes := WithIdFieldName(p.attributes, id)), level, s)
      == BindProperty(ctx, p, level, s)
  {
    OfKindWithIdFieldName(p.attributes, id);
    var cols := OfKind(p.attributes, DynamicPropertyKind);
    var classes := OfKind(p.attributes, DynamicClassKind);
    if |cols| != 0 && cols[0].column.columnName.None? {
      assert OfKind(p.(attributes := WithIdFieldName(p.attributes, id)).attributes, DynamicPropertyKind) == cols;
    } else if |cols| != 0 && ColumnPresent(ctx.row, cols[0].column.columnName) {
      IdFieldNameIgnoredByColumn(ctx, p, level, s, id);
    } else if |classes| != 0 && level < MaxLevelCounter {
      IdFieldNameIgnoredByClass(ctx, p, level, s, id);
    } else {
      var q := p.(attributes := WithIdFieldName(p.attributes, id));
      UnboundPropertyUntouched(ctx, p, level, s);
      UnboundPropertyUntouched(ctx, q, level, s);
    }
  }

  /** The column branch of IdFieldNameIgnored. */
  lemma IdFieldNameIgnoredByColumn(ctx: Context, p: PropertyInfo, level: nat, s: State, id: string)
    requires |OfKind(p.attributes, DynamicPropertyKind)| != 0
    requires ColumnPresent(ctx.row, OfKind(p.attributes, DynamicPropertyKind)[0].column.columnName)
    ensures BindProperty(ctx, p.(attributes := WithIdFieldName(p.attributes, id)), level, s)
      == BindProperty(ctx, p, level, s)
  {
    var q := p.(attributes := WithIdFieldName(p.attributes, id));
    OfKindWithIdFieldName(p.attributes, id);
    var c := OfKind(p.attributes, DynamicPropertyKind)[0].column;
    SameSetter(p, q, s);
    assert AssignColumn(q, c, ctx.row, ctx.rt, s) == AssignColumn(p, c, ctx.row, ctx.rt, s);
    ColumnTakesPrecedence(ctx, p, level, s);
    ColumnTakesPrecedence(ctx, q, level, s);
  }

  /** The nested-object branch of IdFieldNameIgnored. */
  lemma IdFieldNameIgnoredByClass(ctx: Context, p: PropertyInfo, level: nat, s: State, id: string)
    requires |OfKind(p.attributes, DynamicPropertyKind)| == 0
      || ColumnAbsent(ctx.row, OfKind(p.attributes, DynamicPropertyKind)[0].column.columnName)
    requires |OfKind(p.attributes, DynamicClassKind)| != 0 && level < MaxLevelCounter
    ensures BindProperty(ctx, p.(attributes := WithIdFieldName(p.attributes, id)), level, s)
      == BindProperty(ctx, p, level, s)
  {
    var q := p.(attributes := WithIdFieldName(p.attributes, id));
    OfKindWithIdFieldName(p.attributes, id);
    var n := OfKind(p.attributes, DynamicClassKind)[0].nested.typeName;
    assert OfKind(q.attributes, DynamicClassKind)[0].nested.typeName == n;
    NestedBranch(ctx, p, level, s);
    NestedBranch(ctx, q, level, s);
    SameNested(ctx, p, q, n, level + 1, s);
  }

  /** A property with no column to read and an object binding below the limit takes the
      nested branch. */
  lemma NestedBranch(ctx: Context, p: PropertyInfo, level: nat, s: State)
    requires |OfKind(p.attributes, DynamicPropertyKind)| == 0
      || ColumnAbsent(ctx.row, OfKind(p.attributes, DynamicPropertyKind)[0].column.columnName)
    requires |OfKind(p.attributes, DynamicClassKind)| != 0 && level < MaxLevelCounter
    ensures BindProperty(ctx, p, level, s)
      == NestedOutcome(ctx, p, OfKind(p.attributes, DynamicClassKind)[0].nested.typeName, level + 1, s)
  {
  }

  lemma SameNested(ctx: Context, p: PropertyInfo, q: PropertyInfo, n: string, childLevel: nat, s: State)
    requires p.name == q.name && p.clrType == q.clrType && p.accessor == q.accessor
    ensures NestedOutcome(ctx, p, n, childLevel, s) == NestedOutcome(ctx, q, n, childLevel, s)
  {
    SameSetter(p, q, s);
  }

  /** Assignment reads a property's name, type and accessor, never its attributes. */
  lemma SameSetter(p: PropertyInfo, q: PropertyInfo, s: State)
    requires p.name == q.name && p.clrType == q.clrType && p.accessor == q.accessor
    ensures forall v :: ReflectSet(p, s, v) == ReflectSet(q, s, v)
  {
  }

  // The binder, as the source runs it

  /** The state binding starts from: a new instance's when none is passed in. */
  function Initial(o: Target?): State
    reads o
  {
    if o == null then Fresh() else o.Contents()
  }

  /** PropertyInfo.SetValue on a target instance. */
  method SetValue(obj: Target, p: PropertyInfo, v: Value) returns (r: Result<()>)
    requires p in obj.info.properties
    modifies obj
    ensures r.Err? <==> ReflectSet(p, old(obj.Contents()), v).Err?
    ensures r.Err? ==> r.error == ReflectSet(p, old(obj.Contents()), v).error
    ensures r.Err? ==> obj.Contents() == old(obj.Contents())
    ensures r.Ok? ==> obj.Contents() == ReflectSet(p, old(obj.Contents()), v).value
    ensures obj.loads == old(obj.loads)
  {
    var w := Conform(p.clrType, v);
    if w.None? {
      return Err(ArgumentMismatch(p.name));
    }
    ConformKeepsConformed(p.clrType, v);
    obj.Set(p, w.value);
    return Ok(());
  }

  /** SetPropertyValue: read the cell, replace DBNull by null or run the switch, then
      assign through reflection. */
  method SetPropertyValue(newObject: Target, row: Row, property: PropertyInfo, attr: ColumnBinding, rt: Runtime)
    returns (r: Result<()>)
    requires ColumnPresent(row, attr.columnName)
    requires property in newObject.info.properties
    modifies newObject
    ensures r.Err? <==> AssignColumn(property, attr, row, rt, old(newObject.Contents())).Err?
    ensures r.Err? ==> r.error == AssignColumn(property, attr, row, rt, old(newObject.Contents())).error
    ensures r.Err? ==> newObject.Contents() == old(newObject.Contents())
    ensures r.Ok? ==> newObject.Contents() == AssignColumn(property, attr, row, rt, old(newObject.Contents())).value
    ensures newObject.loads == old(newObject.loads)
  {
    var value := row[attr.columnName.value];
    if value == DbNull {
      value := Null;
    } else {
      var tag := SqlDbTypes.FromCode(attr.databaseType);
      if tag.None? {
        return Err(ArgumentOutOfRange("DatabaseType"));
      }
      var converted := Apply(Dispatch(tag.value), value, rt);
      if converted.Err? {
        return Err(converted.error);
      }
      value := converted.value;
    }
    r := SetValue(newObject, property, value);
  }

  /** A failure part-way through the properties is the failure of the whole list. */
  lemma {:induction false} PrefixFailure(ctx: Context, props: seq<PropertyInfo>, i: nat, level: nat, s0: State)
    requires i <= |props|
    requires BindProperties(ctx, props[..i], level, s0).Err?
    ensures BindProperties(ctx, props, level, s0) == BindProperties(ctx, props[..i], level, s0)
    decreases |props|
  {
    if i < |props| {
      var init := props[..|props| - 1];
      assert init[..i] == props[..i];
      PrefixFailure(ctx, init, i, level, s0);
    } else {
      assert props[..i] == props;
    }
  }

  /** The DynamicClass branch of RowToType for one property, with the level already
      raised: build the generic RowToType for the nested type, call it on a null
      instance, and assign a non-null, non-empty answer. */
  method BindNested(schema: Schema, rt: Runtime, row: Row, obj: Target, property: PropertyInfo, n: string, childLevel: nat)
    returns (r: Result<()>)
    requires property in obj.info.properties
    modifies obj
    decreases Rank(childLevel), 2
    ensures r.Err? <==> NestedOutcome(Context(schema, rt, row), property, n, childLevel, old(obj.Contents())).Err?
    ensures r.Err? ==> r.error == NestedOutcome(Context(schema, rt, row), property, n, childLevel, old(obj.Contents())).error
    ensures r.Err? ==> obj.Contents() == old(obj.Contents())
    ensures r.Ok? ==> obj.Contents() == NestedOutcome(Context(schema, rt, row), property, n, childLevel, old(obj.Contents())).value
    ensures obj.loads == old(obj.loads)
  {
    if n !in schema {
      return Err(NotBindable(n));
    }
    var child := RowToTypeAt(schema, rt, row, schema[n], childLevel, null);
    if child.Err? {
      return Err(InvocationFailed(child.error));
    }
    var newChildObject := child.value;
    if newChildObject != null {
      var empty := newChildObject.IsEmpty();
      if empty.Err? {
        return Err(empty.error);
      }
      if !empty.value {
        r := SetValue(obj, property, Object(n, newChildObject.Contents()));
        return;
      }
    }
    return Ok(());
  }

  /** The body of RowToType's loop for one property: a column binding whose column the
      row has is assigned; otherwise an object binding below the depth limit raises the
      level cursor, binds the nested type and lowers the cursor again. */
  method BindPropertyInto(schema: Schema, rt: Runtime, row: Row, obj: Target, property: PropertyInfo, level: nat)
    returns (r: Result<()>)
    requires property in obj.info.properties
    modifies obj
    decreases Rank(level), 0
    ensures r.Err? <==> BindProperty(Context(schema, rt, row), property, level, old(obj.Contents())).Err?
    ensures r.Err? ==> r.error == BindProperty(Context(schema, rt, row), property, level, old(obj.Contents())).error
    ensures r.Err? ==> obj.Contents() == old(obj.Contents())
    ensures r.Ok? ==> obj.Contents() == BindProperty(Context(schema, rt, row), property, level, old(obj.Contents())).value
    ensures obj.loads == old(obj.loads)
  {
    var cursor := level;
    var attrs := OfKind(property.attributes, DynamicPropertyKind);
    if |attrs| != 0 {
      var attr := attrs[0].column;
      if attr.columnName.None? {
        return Err(NullReference);
      }
      if ColumnPresent(row, attr.columnName) {
        r := SetPropertyValue(obj, row, property, attr, rt);
        return;
      }
    }
    var typeAttrs := OfKind(property.attributes, DynamicClassKind);
    if |typeAttrs| != 0 {
      var attr := typeAttrs[0].nested;
      if cursor >= MaxLevelCounter {
        return Ok(());
      }
      cursor := cursor + 1;
      r := BindNested(schema, rt, row, obj, property, attr.typeName, cursor);
      if r.Err? {
        return;
      }
      cursor := cursor - 1;
    }
    return Ok(());
  }

  /** Where a failing RowToType leaves the instance it binds into, from `s0`: with the writes
      of the properties before the first failing one and nothing of that one, or, when
      every property was bound, as the loop left it before IsEmpty or OnLoaded threw. */
  predicate StoppedAt(ctx: Context, t: TypeInfo, level: nat, s0: State, s: State)
  {
    || (exists k :: 0 <= k < |t.properties| && BindProperties(ctx, t.properties[..k], level, s0) == Ok(s)
          && BindProperty(ctx, t.properties[k], level, s).Err?)
    || (BindProperties(ctx, t.properties, level, s0) == Ok(s)
          && (t.isEmpty(s).Err? || (t.isEmpty(s) == Ok(false) && t.onLoaded(s).Err?)))
  }

  /** A state where binding stops is one of a binding that fails. */
  lemma StoppedAtFails(ctx: Context, t: TypeInfo, level: nat, s0: State, s: State)
    requires StoppedAt(ctx, t, level, s0, s)
    ensures BindRow(ctx, t, level, s0).Err?
  {
    var props := t.properties;
    if BindProperties(ctx, props, level, s0) == Ok(s)
      && (t.isEmpty(s).Err? || (t.isEmpty(s) == Ok(false) && t.onLoaded(s).Err?))
    {
      BindRowOfFailedHook(ctx, t, level, s0, s);
    } else {
      var k :| 0 <= k < |props| && BindProperties(ctx, props[..k], level, s0) == Ok(s)
        && BindProperty(ctx, props[k], level, s).Err?;
      BindRowOfFailedProperty(ctx, t, k, level, s0, s);
    }
  }

  lemma BindRowOfFailedProperty(ctx: Context, t: TypeInfo, k: nat, level: nat, s0: State, s: State)
    requires k < |t.properties|
    requires BindProperties(ctx, t.properties[..k], level, s0) == Ok(s)
    requires BindProperty(ctx, t.properties[k], level, s).Err?
    ensures BindRow(ctx, t, level, s0).Err?
  {
    var props := t.properties;
    FailureBeforeOk(ctx, props, k, |props|, level, s0, s);
    assert props[..|props|] == props;
    BindRowOfFailedProperties(ctx, t, level, s0);
  }

  lemma BindRowOfFailedProperties(ctx: Context, t: TypeInfo, level: nat, s0: State)
    requires BindProperties(ctx, t.properties, level, s0).Err?
    ensures BindRow(ctx, t, level, s0).Err?
  {
  }

  lemma BindRowOfFailedHook(ctx: Context, t: TypeInfo, level: nat, s0: State, s: State)
    requires BindProperties(ctx, t.properties, level, s0) == Ok(s)
    requires t.isEmpty(s).Err? || (t.isEmpty(s) == Ok(false) && t.onLoaded(s).Err?)
    ensures BindRow(ctx, t, level, s0).Err?
  {
  }

  /** A failing binding stops in one state only: the instance's state after a failure is
      determined by the row and the state binding started from. */
  lemma StoppedAtUnique(ctx: Context, t: TypeInfo, level: nat, s0: State, s: State, s': State)
    requires StoppedAt(ctx, t, level, s0, s) && StoppedAt(ctx, t, level, s0, s')
    ensures s == s'
  {
    var props := t.properties;
    if BindProperties(ctx, props, level, s0) == Ok(s) {
      StoppedBeforeEnd(ctx, props, level, s0, s');
    } else if BindProperties(ctx, props, level, s0) == Ok(s') {
      StoppedBeforeEnd(ctx, props, level, s0, s);
    } else {
      var k :| 0 <= k < |props| && BindProperties(ctx, props[..k], level, s0) == Ok(s)
        && BindProperty(ctx, props[k], level, s).Err?;
      var k' :| 0 <= k' < |props| && BindProperties(ctx, props[..k'], level, s0) == Ok(s')
        && BindProperty(ctx, props[k'], level, s').Err?;
      if k < k' {
        FailureBeforeOk(ctx, props, k, k', level, s0, s);
      } else if k' < k {
        FailureBeforeOk(ctx, props, k', k, level, s0, s');
      }
    }
  }

  /** Once every property binds, no property fails along the way. */
  lemma StoppedBeforeEnd(ctx: Context, props: seq<PropertyInfo>, level: nat, s0: State, s: State)
    requires BindProperties(ctx, props, level, s0).Ok?
    ensures forall k :: 0 <= k < |props| && BindProperties(ctx, props[..k], level, s0) == Ok(s)
                ==> BindProperty(ctx, props[k], level, s).Ok?
  {
    forall k | 0 <= k < |props| && BindProperties(ctx, props[..k], level, s0) == Ok(s)
      ensures BindProperty(ctx, props[k], level, s).Ok?
    {
      BindPropertiesStep(ctx, props, k, level, s0);
      if BindProperty(ctx, props[k], level, s).Err? {
        PrefixFailure(ctx, props, k + 1, level, s0);
      }
    }
  }

  /** A property that fails at `k` makes every longer prefix fail. */
  lemma FailureBeforeOk(ctx: Context, props: seq<PropertyInfo>, k: nat, k': nat, level: nat, s0: State, s: State)
    requires k < k' <= |props|
    requires BindProperties(ctx, props[..k], level, s0) == Ok(s)
    requires BindProperty(ctx, props[k], level, s).Err?
    ensures BindProperties(ctx, props[..k'], level, s0).Err?
  {
    BindPropertiesStep(ctx, props, k, level, s0);
    var pre := props[..k'];
    assert pre[..k + 1] == props[..k + 1];
    PrefixFailure(ctx, pre, k + 1, level, s0);
  }

  /** The private RowToType<T>(row, level, returnObject): bind into `returnObject`, or a
      new instance when it is null, and answer the instance or null. The nested calls
      receive the level one higher, which is restored after each of them. */
  method RowToTypeAt(schema: Schema, rt: Runtime, row: Row, info: TypeInfo, level: nat, returnObject: Target?)
    returns (r: Result<Target?>)
    requires returnObject != null ==> returnObject.info == info
    modifies returnObject
    decreases Rank(level), 1
    ensures r.Err? <==> BindRow(Context(schema, rt, row), info, level, old(Initial(returnObject))).Err?
    ensures r.Err? ==> r.error == BindRow(Context(schema, rt, row), info, level, old(Initial(returnObject))).error
    ensures r.Ok? ==> (r.value != null <==> BindRow(Context(schema, rt, row), info, level, old(Initial(returnObject))).value.loaded)
    ensures r.Ok? && r.value != null ==>
      && r.value.info == info
      && r.value.Contents() == BindRow(Context(schema, rt, row), info, level, old(Initial(returnObject))).value.state
      && (returnObject != null ==> r.value == returnObject && r.value.loads == old(returnObject.loads) + 1)
      && (returnObject == null ==> fresh(r.value) && r.value.loads == 1)
    ensures r.Ok? && r.value == null && returnObject != null ==>
      returnObject.Contents() == BindRow(Context(schema, rt, row), info, level, old(Initial(returnObject))).value.state
      && returnObject.loads == old(returnObject.loads)
    ensures r.Err? && returnObject != null ==>
      StoppedAt(Context(schema, rt, row), info, level, old(Initial(returnObject)), returnObject.Contents())
      && returnObject.loads == old(returnObject.loads)
  {
    ghost var ctx := Context(schema, rt, row);
    var obj: Target;
    if returnObject == null {
      obj := new Target(info);
    } else {
      obj := returnObject;
    }
    ghost var s0 := obj.Contents();
    ghost var loads0 := obj.loads;
    assert s0 == old(Initial(returnObject));
    var properties := info.properties;
    var failure: Option<Error> := None;
    ghost var at := 0;
    for i := 0 to |properties|
      invariant obj.info == info
      invariant returnObject != null ==> obj == returnObject
      invariant returnObject == null ==> fresh(obj)
      invariant obj.loads == loads0
      invariant failure.None?
      invariant BindProperties(ctx, properties[..i], level, s0) == Ok(obj.Contents())
    {
      BindPropertiesStep(ctx, properties, i, level, s0);
      var outcome := BindPropertyInto(schema, rt, row, obj, properties[i], level);
      if outcome.Err? {
        failure := Some(outcome.error);
        at := i;
        PrefixFailure(ctx, properties, i + 1, level, s0);
        break;
      }
    }
    if failure.Some? {
      assert BindProperties(ctx, properties, level, s0) == Err(failure.value);
      assert 0 <= at < |properties| && BindProperties(ctx, properties[..at], level, s0) == Ok(obj.Contents())
        && BindProperty(ctx, properties[at], level, obj.Contents()).Err?;
      return Err(failure.value);
    }
    assert properties[..|properties|] == properties;
    assert BindProperties(ctx, properties, level, s0) == Ok(obj.Contents());
    var empty := obj.IsEmpty();
    if empty.Err? {
      return Err(empty.error);
    }
    if !empty.value {
      var loaded := obj.OnLoaded();
      if loaded.Err? {
        return Err(loaded.error);
      }
      return Ok(obj);
    }
    return Ok(null);
  }

  /** The public RowToType<T>(row): bind a new instance at the top level. */
  method RowToType(schema: Schema, rt: Runtime, row: Row, info: TypeInfo) returns (r: Result<Target?>)
    ensures r.Err? <==> BindRow(Context(schema, rt, row), info, 0, Fresh()).Err?
    ensures r.Err? ==> r.error == BindRow(Context(schema, rt, row), info, 0, Fresh()).error
    ensures r.Ok? ==> (r.value != null <==> BindRow(Context(schema, rt, row), info, 0, Fresh()).value.loaded)
    ensures r.Ok? && r.value != null ==>
      fresh(r.value) && r.value.info == info && r.value.loads == 1
      && r.value.Contents() == BindRow(Context(schema, rt, row), info, 0, Fresh()).value.state
  {
    r := RowToTypeAt(schema, rt, row, info, 0, null);
  }

  /** The public RowToType<T>(row, existingObject): bind into the given instance (a new
      one if it is null), which is mutated in place and returned when not empty. */
  method RowToTypeInto(schema: Schema, rt: Runtime, row: Row, info: TypeInfo, existingObject: Target?)
    returns (r: Result<Target?>)
    requires existingObject != null ==> existingObject.info == info
    modifies existingObject
    ensures r.Err? <==> BindRow(Context(schema, rt, row), info, 0, old(Initial(existingObject))).Err?
    ensures r.Err? ==> r.error == BindRow(Context(schema, rt, row), info, 0, old(Initial(existingObject))).error
    ensures r.Ok? ==> (r.value != null <==> BindRow(Context(schema, rt, row), info, 0, old(Initial(existingObject))).value.loaded)
    ensures r.Ok? && r.value != null ==>
      && r.value.Contents() == BindRow(Context(schema, rt, row), info, 0, old(Initial(existingObject))).value.state
      && (existingObject != null ==> r.value == existingObject && r.value.loads == old(existingObject.loads) + 1)
      && (existingObject == null ==> fresh(r.value) && r.value.loads == 1)
    ensures r.Err? && existingObject != null ==>
      StoppedAt(Context(schema, rt, row), info, 0, old(existingObject.Contents()), existingObject.Contents())
      && existingObject.loads == old(existingObject.loads)
  {
    r := RowToTypeAt(schema, rt, row, info, 0, existingObject);
  }

  // The row-set driver

  /** GetList<T>, as a specification: every row bound at the top level, in order, the
      non-null results kept. */
  function BindAll(schema: Schema, rt: Runtime, rows: Table, info: TypeInfo): Result<seq<State>>
  {
    if rows == [] then Ok([])
    else
      match BindAll(schema, rt, rows[..|rows| - 1], info)
      case Err(e) => Err(e)
      case Ok(acc) =>
        match BindRow(Context(schema, rt, rows[|rows| - 1]), info, 0, Fresh())
        case Err(e) => Err(e)
        case Ok(b) => Ok(if b.loaded then acc + [b.state] else acc)
  }

  /** Every row binds without failure. */
  predicate AllBind(schema: Schema, rt: Runtime, rows: Table, info: TypeInfo)
  {
    forall i :: 0 <= i < |rows| ==> Binds(schema, rt, rows[i], info)
  }

  /** A row binds without failure. */
  predicate Binds(schema: Schema, rt: Runtime, row: Row, info: TypeInfo)
  {
    BindRow(Context(schema, rt, row), info, 0, Fresh()).Ok?
  }

  /** The states of the rows that bind to a non-null result, in row order. */
  function Kept(schema: Schema, rt: Runtime, rows: Table, info: TypeInfo): seq<State>
    requires AllBind(schema, rt, rows, info)
  {
    if rows == [] then []
    else
      AllBindInit(schema, rt, rows, info);
      var b := BindRow(Context(schema, rt, rows[|rows| - 1]), info, 0, Fresh()).value;
      Kept(schema, rt, rows[..|rows| - 1], info) + (if b.loaded then [b.state] else [])
  }

  /** The number of rows that bind to null. */
  function Dropped(schema: Schema, rt: Runtime, rows: Table, info: TypeInfo): nat
    requires AllBind(schema, rt, rows, info)
  {
    if rows == [] then 0
    else
      AllBindInit(schema, rt, rows, info);
      var b := BindRow(Context(schema, rt, rows[|rows| - 1]), info, 0, Fresh()).value;
      Dropped(schema, rt, rows[..|rows| - 1], info) + (if b.loaded then 0 else 1)
  }

  /** The rows before the last bind when all rows do. */
  lemma AllBindInit(schema: Schema, rt: Runtime, rows: Table, info: TypeInfo)
    requires rows != [] && AllBind(schema, rt, rows, info)
    ensures AllBind(schema, rt, rows[..|rows| - 1], info)
    ensures BindRow(Context(schema, rt, rows[|rows| - 1]), info, 0, Fresh()).Ok?
  {
    var init := rows[..|rows| - 1];
    forall i | 0 <= i < |init| ensures Binds(schema, rt, init[i], info) {
      assert init[i] == rows[i];
    }
    assert Binds(schema, rt, rows[|rows| - 1], info);
  }

  /** When every row binds, GetList's list is exactly the non-null results in row order. */
  lemma {:induction false} BindAllKeepsInOrder(schema: Schema, rt: Runtime, rows: Table, info: TypeInfo)
    requires AllBind(schema, rt, rows, info)
    ensures BindAll(schema, rt, rows, info) == Ok(Kept(schema, rt, rows, info))
  {
    if rows != [] {
      AllBindInit(schema, rt, rows, info);
      var init := rows[..|rows| - 1];
      BindAllKeepsInOrder(schema, rt, init, info);
      var b := BindRow(Context(schema, rt, rows[|rows| - 1]), info, 0, Fresh()).value;
      assert Kept(schema, rt, init, info) + [] == Kept(schema, rt, init, info);
      assert BindAll(schema, rt, rows, info) ==
        Ok(if b.loaded then Kept(schema, rt, init, info) + [b.state] else Kept(schema, rt, init, info));
    }
  }

  /** The list is as long as the table minus the rows that bound to null. */
  lemma {:induction false} KeptCount(schema: Schema, rt: Runtime, rows: Table, info: TypeInfo)
    requires AllBind(schema, rt, rows, info)
    ensures |Kept(schema, rt, rows, info)| == |rows| - Dropped(schema, rt, rows, info)
  {
    if rows != [] {
      AllBindInit(schema, rt, rows, info);
      KeptCount(schema, rt, rows[..|rows| - 1], info);
    }
  }

  /** GetList fails exactly when some row fails to bind, with the first such failure. */
  lemma {:induction false} BindAllFailsAtFirstFailure(schema: Schema, rt: Runtime, rows: Table, info: TypeInfo, k: nat)
    requires k < |rows|
    requires AllBind(schema, rt, rows[..k], info)
    requires BindRow(Context(schema, rt, rows[k]), info, 0, Fresh()).Err?
    ensures BindAll(schema, rt, rows, info) == Err(BindRow(Context(schema, rt, rows[k]), info, 0, Fresh()).error)
    decreases |rows|
  {
    if k < |rows| - 1 {
      var init := rows[..|rows| - 1];
      assert init[..k] == rows[..k];
      assert init[k] == rows[k];
      BindAllFailsAtFirstFailure(schema, rt, init, info, k);
    } else {
      var init := rows[..k];
      assert rows[..|rows| - 1] == init;
      BindAllKeepsInOrder(schema, rt, init, info);
    }
  }

  /** The states of a list of instances. */
  function ContentsOf(list: seq<Target>): seq<State>
    reads set o | o in list
  {
    if list == [] then [] else ContentsOf(list[..|list| - 1]) + [list[|list| - 1].Contents()]
  }

  /** DynamicResultSet: a table held behind a lazily defaulted property. */
  class DynamicResultSet {
    var data: Option<Table>

    /** The constructor stores the table through the Data setter; it may be null. */
    constructor (data: Option<Table>)
      ensures this.data == data
    {
      this.data := data;
    }

    /** The Data getter: a null table is replaced by an empty one, which is kept. */
    method Data() returns (d: Table)
      modifies this
      ensures data == Some(d)
      ensures old(data).Some? ==> d == old(data).value
      ensures old(data).None? ==> d == []
    {
      if data.None? {
        data := Some([]);
      }
      d := data.value;
    }

    /** GetList<T>: bind every row in order and keep the non-null results; a failure of
      any row propagates. The getter never answers null, so the source's null test never
      fires. */
    method GetList(schema: Schema, rt: Runtime, info: TypeInfo) returns (r: Result<seq<Target>>)
      modifies this
      ensures data.Some? && (old(data).Some? ==> data == old(data)) && (old(data).None? ==> data == Some([]))
      ensures r.Err? <==> BindAll(schema, rt, data.value, info).Err?
      ensures r.Err? ==> r.error == BindAll(schema, rt, data.value, info).error
      ensures r.Ok? ==> ContentsOf(r.value) == BindAll(schema, rt, data.value, info).value
      ensures r.Ok? ==> forall o :: o in r.value ==> fresh(o) && o.info == info && o.loads == 1
    {
      var rows := Data();
      var list: seq<Target> := [];
      for i := 0 to |rows|
        invariant data == Some(rows)
        invariant BindAll(schema, rt, rows[..i], info) == Ok(ContentsOf(list))
        invariant forall o :: o in list ==> fresh(o) && o.info == info && o.loads == 1
      {
        assert rows[..i + 1][..i] == rows[..i];
        assert rows[..i + 1][i] == rows[i];
        var newObject := RowToType(schema, rt, rows[i], info);
        if newObject.Err? {
          BindAllPrefixFailure(schema, rt, rows, i + 1, info);
          return Err(newObject.error);
        }
        if newObject.value != null {
          var o := newObject.value;
          assert (list + [o])[..|list|] == list;
          list := list + [o];
        }
      }
      assert rows[..|rows|] == rows;
      return Ok(list);
    }
  }

  /** A failure on a prefix of the rows is the failure of the whole table. */
  lemma {:induction false} BindAllPrefixFailure(schema: Schema, rt: Runtime, rows: Table, i: nat, info: TypeInfo)
    requires i <= |rows|
    requires BindAll(schema, rt, rows[..i], info).Err?
    ensures BindAll(schema, rt, rows, info) == BindAll(schema, rt, rows[..i], info)
    decreases |rows|
  {
    if i < |rows| {
      var init := rows[..|rows| - 1];
      assert init[..i] == rows[..i];
      BindAllPrefixFailure(schema, rt, init, i, info);
    } else {
      assert rows[..i] == rows;
    }
  }
}
