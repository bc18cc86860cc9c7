# DynamicClasses: binding result rows to business objects

DynamicClasses fills plain C# business objects from the rows of a `DataTable`. A target
type derives from `BusinessLogicBase`. Each bindable property is marked in one of two ways:

- `[DynamicProperty(ColumnName, DatabaseType)]` binds the property to a column, whose cell
  is coerced through a switch on the declared `SqlDbType`.
- `[DynamicClass(typeof(T), idField)]` binds the property to a nested object, built by
  calling `RowToType<T>` recursively on the same row, at most three levels deep.

Every bindable property follows the set-flag contract. Its getter throws
`CST_PROPERTY_VALUE_NOT_RETURNED` while the companion `Is…Set` flag is false, and its setter
ends by making that flag true. After all properties are bound, `IsEmpty` decides whether
the instance is returned (after `OnLoaded`) or replaced by null. An exception stops the
binding with no rollback, so an instance passed in keeps the properties already bound.
`GetList<T>` binds every row in order and keeps the non-null results.

The model is written in Dafny, one module per source file, plus `Values`, `Metadata` and
`Sample`:

- `Values`: the boxed values (`DbNull` distinct from `Null`) and the exceptions.
- `Metadata`: a static table that stands in for reflection. It lists each target type's
  properties in declaration order, with CLR type, accessor pattern and attributes, and the
  type's `IsEmpty` / `ToString` / `OnLoaded` overrides as function values.
- `SqlDbTypes`: the enumeration and its integer codes.
- `DynamicProperties`, `DynamicClasses`: the two attribute records, as mutable classes.
- `BusinessLogic`: the set-flag contract on a state, the target instance (class `Target`),
  the comparers and the attribute getters.
- `ExtensionMethods`: the attribute lookup, its copy loop, and the not-found message.
- `ResultSets`: the binder. The coercion switch is a pure function, and the recursive
  binder is specified by the functions `BindRow` / `BindProperties` / `BindProperty` /
  `NestedOutcome`. The methods `SetPropertyValue`, `BindNested`, `BindPropertyInto`,
  `RowToTypeAt` and `GetList` mutate `Target` instances as the C# code does, and are proved
  against those functions.
- `Suppliers`, `Products`: the two sample target types, as metadata-table entries, with
  their overrides and what binding does to them.
- `Sample`: the two-row table of the sample program. It proves that binding it gives two
  suppliers and one product.

Conversions the runtime performs (`Convert.ToX`, `ToString` of a boxed scalar, the `Guid`
parser, and the full type name that `Object.ToString` gives for a target object) are a
`Runtime` parameter of function values. A conversion may fail. The culture's
string order is a parameter of the comparers.

## Model

| member | source | states |
|---|---|---|
| ResultSets.DbNullIsNull | Classes/DynamicResultSet.cs:169-173 | A DBNull cell becomes null under every type code, named or not, before the switch is reached. |
| ResultSets.UnknownCodeFails | Classes/DynamicResultSet.cs:242-243 | Coercion raises ArgumentOutOfRangeException("DatabaseType") exactly when the cell is not DBNull and its code names no SqlDbType tag. |
| ResultSets.NamedTagCoercion | Classes/DynamicResultSet.cs:177-241 | A non-DBNull cell under a named tag goes through that tag's case. A successful case yields a value of that case's family: the converted family, a string, a Guid, or the cell itself. |
| ResultSets.TextTags | Classes/DynamicResultSet.cs:192-201 | The ToString case is taken exactly for Char, NChar, NText, NVarChar, Text, VarChar and Xml. |
| ResultSets.SpecialTags | Classes/DynamicResultSet.cs:182-241 | UniqueIdentifier alone is parsed from the string form. Variant and Udt alone pass the cell through unchanged. The cast cases are exactly Binary, Image, Timestamp, VarBinary, Structured and DateTimeOffset. |
| ResultSets.ConversionFailure | Classes/DynamicResultSet.cs:179-229 | A Convert.ToX case fails exactly when the runtime conversion throws, and the failure names the family. |
| ResultSets.DbNullSetsDefault | Classes/DynamicResultSet.cs:169-247 | A DBNull cell assigns successfully. The getter then returns the type's default (null, or zero for a non-nullable value type) and the flag is true: the property is "set to null", not "unset". |
| ResultSets.SetValue | Classes/DynamicResultSet.cs:247 | PropertyInfo.SetValue fails exactly when the value does not fit the property's type. Otherwise the instance's new state is the setter applied to the fitted value. |
| ResultSets.SetPropertyValue | Classes/DynamicResultSet.cs:167-248 | The method's failure and new instance state are exactly those of the coercion followed by SetValue (`AssignColumn`). A failure leaves the instance as it was. |
| ResultSets.ColumnTakesPrecedence | Classes/DynamicResultSet.cs:100-108 | When the first column binding names a column the row has, the property's outcome is that column's assignment, and no object binding is tried. |
| ResultSets.NullColumnNameFails | Classes/DynamicResultSet.cs:100-103 | A first DynamicProperty attribute without a column name fails the property with a NullReferenceException, because `Columns.Contains(null)` throws, whatever else the property declares. |
| ResultSets.ColumnAssigns | Classes/DynamicResultSet.cs:100-108 | A present column whose cell coerces to a value of the property's type stores that value through the setter, flag included. |
| ResultSets.SingleColumnAssigns | Classes/DynamicResultSet.cs:100-108 | The same result for a property whose only attribute is that column binding. |
| ResultSets.SingleColumnAbsent | Classes/DynamicResultSet.cs:101-113 | A property whose only attribute names a column the row lacks is left exactly as it was. |
| ResultSets.UnboundPropertyUntouched | Classes/DynamicResultSet.cs:101-132 | A property with no present column, and either no object binding or a level at the limit, is left exactly as it was. |
| ResultSets.UnregisteredTypeFails | Classes/DynamicResultSet.cs:136-148 | An object binding below the limit whose type is not a registered target type fails. |
| ResultSets.ChildAssignedOnlyIfLoaded | Classes/DynamicResultSet.cs:131-152 | Below the limit, the nested binding runs one level down on a new instance. A failure comes back wrapped in a TargetInvocationException. A null or empty child leaves the property untouched. A failing IsEmpty of the child fails the property with that same exception, unwrapped. A non-empty child the property's type does not admit fails with SetValue's ArgumentException. A non-empty child that fits is assigned and read back. |
| ResultSets.BindPropertyFrame | Classes/DynamicResultSet.cs:86-153 | Binding one property changes no other property's value or flag. |
| ResultSets.BindPropertiesFrame | Classes/DynamicResultSet.cs:86-153 | Binding a list of properties leaves every name outside the list untouched. |
| ResultSets.BindPropertiesChain | Classes/DynamicResultSet.cs:86-153 | When each property takes the state its predecessor left to the next, the loop goes from the first state to the last. |
| ResultSets.PropertyOutcome | Classes/DynamicResultSet.cs:86-153 | With distinct names, what the whole loop leaves in a property is what binding that property left, from the state its predecessors produced. |
| ResultSets.ColumnValueStored | Classes/DynamicResultSet.cs:100-108 | A property whose column the row has ends up holding the coerced cell, fitted to its type, whatever the other properties do. |
| ResultSets.UnboundPropertyKeeps | Classes/DynamicResultSet.cs:86-132 | A property with no column to read and no object binding the depth allows keeps its value and flag through the whole loop. |
| ResultSets.IdFieldNameIgnored | Classes/DynamicResultSet.cs:125-150 | Renaming the id field of every DynamicClass attribute of a property changes nothing about how it binds. |
| ResultSets.BindNested | Classes/DynamicResultSet.cs:136-150 | The nested step's failure and new instance state are exactly the specification's `NestedOutcome`. A failure leaves the parent as it was. |
| ResultSets.BindPropertyInto | Classes/DynamicResultSet.cs:88-153 | One pass of the loop body: a nameless column binding fails, a present column is assigned, and otherwise the level is raised around the nested call and restored after it. Its outcome and new state are exactly `BindProperty` at the caller's level, so siblings recurse at the same depth. A failure leaves the instance as it was. |
| ResultSets.RowToTypeAt | Classes/DynamicResultSet.cs:77-165 | The result fails exactly when `BindRow` fails, with the same error. It is non-null exactly when the bound state is not empty, and then holds that state. A given instance is the one mutated and returned, with OnLoaded run once; otherwise a fresh instance is used. A null result leaves a given instance with OnLoaded not run. A failure leaves a given instance where binding stopped (`StoppedAt`): holding the writes of the properties before the first failing one, or all of them when IsEmpty or OnLoaded threw, with no completed OnLoaded. |
| ResultSets.StoppedAtFails | Classes/DynamicResultSet.cs:86-164 | A state where binding stops belongs to a binding that fails: a property failing part-way, or IsEmpty or OnLoaded throwing, fails the whole RowToType. |
| ResultSets.StoppedAtUnique | Classes/DynamicResultSet.cs:86-164 | A failing binding stops in exactly one state, so the state it leaves in a given instance is determined by the row and the instance's starting state. |
| ResultSets.RowToType | Classes/DynamicResultSet.cs:67-71 | Binding at level 0 into a new instance. |
| ResultSets.RowToTypeInto | Classes/DynamicResultSet.cs:73-76 | Binding at level 0 into the given instance, which is reused and mutated in place when not null. After a failure, the given instance is left where binding stopped (`StoppedAt`), with no rollback of the properties already bound. |
| ResultSets.DynamicResultSet.constructor | Classes/DynamicResultSet.cs:33-36 | The table is stored as given, null included. |
| ResultSets.DynamicResultSet.Data | Classes/DynamicResultSet.cs:18-28 | The getter returns the stored table. A null table is replaced by an empty one, which is kept. |
| ResultSets.DynamicResultSet.GetList | Classes/DynamicResultSet.cs:48-65 | The list fails exactly when `BindAll` does. Otherwise its objects' states are `BindAll`'s list, each object fresh and loaded once. |
| ResultSets.BindAllKeepsInOrder | Classes/DynamicResultSet.cs:48-65 | When every row binds, GetList's result is exactly the non-null results in row order. |
| ResultSets.KeptCount | Classes/DynamicResultSet.cs:55-62 | The list's length is the row count minus the number of rows that bound to null. |
| ResultSets.BindAllFailsAtFirstFailure | Classes/DynamicResultSet.cs:55-57 | GetList fails with the failure of the first row that fails to bind. |
| Metadata.Conform | Classes/DynamicResultSet.cs:247 | A fitted value is the value itself, or the type's default for null. Null always fits. |
| Metadata.ConformKeepsConformed | Classes/DynamicResultSet.cs:247 | Fitting is idempotent. |
| Metadata.OfKind | Classes/DynamicResultSet.cs:93 | GetCustomAttributes(typeof(K)) keeps exactly the attributes of kind K, in order. |
| SqlDbTypes.FromCodeOfCode | Classes/DynamicResultSet.cs:177 | Decoding a tag's code gives the tag back. |
| SqlDbTypes.CodeOfFromCode | Classes/DynamicResultSet.cs:177-243 | A code decodes to a tag exactly when it is that tag's code. |
| BusinessLogic.GuardedGetter | Classes/BusinessLogicBase.cs:19-26 | A guarded getter throws CST_PROPERTY_VALUE_NOT_RETURNED exactly while its flag is false. Otherwise it returns the backing field. |
| BusinessLogic.ReadAfterWrite | Classes/BusinessLogicBase.cs:19-24 | The getter returns what the setter stored, null included, and the setter makes the flag true. |
| BusinessLogic.WriteLeavesOthers | Classes/BusinessLogicBase.cs:19-24 | A setter changes no other property's getter result or flag. |
| BusinessLogic.WriteFlagGuards | SampleDynamicResultSet/BusinessObjects/Supplier.cs:40 | Setting a flag publicly keeps the backing field, and the getter then succeeds exactly when the flag is true. |
| BusinessLogic.IsNullOrWhiteSpaceScan | SampleDynamicResultSet/BusinessObjects/Supplier.cs:92 | The scan answers exactly String.IsNullOrWhiteSpace. |
| BusinessLogic.Target.constructor | Classes/DynamicResultSet.cs:83-84 | `new T()`: all fields default, all flags false, OnLoaded never run. |
| BusinessLogic.Target.Get | SampleDynamicResultSet/BusinessObjects/Supplier.cs:22-28 | The getter on an instance is the flag-guarded read of its state. |
| BusinessLogic.Target.Set | SampleDynamicResultSet/BusinessObjects/Supplier.cs:29-38 | The setter stores the value and then sets its own flag; nothing else changes. |
| BusinessLogic.Target.SetFlag | SampleDynamicResultSet/BusinessObjects/Supplier.cs:40 | A public flag setter changes that flag only. |
| BusinessLogic.Target.OnLoaded | Classes/BusinessLogicBase.cs:97-100 | The override may throw. It fails exactly when the type's hook fails, with the same exception. Otherwise the new state is the hook applied to the old one, and the run is counted. |
| BusinessLogic.Target.Refresh | Classes/BusinessLogicBase.cs:102-105 | Neither object changes. |
| BusinessLogic.Target.GetDynamicPropertyAttributes | Classes/BusinessLogicBase.cs:113-116 | Exactly the generic lookup for DynamicProperty, not-found failure included. |
| BusinessLogic.Target.GetDynamicClassAttributes | Classes/BusinessLogicBase.cs:124-127 | Exactly the generic lookup for DynamicClass, not-found failure included. |
| BusinessLogic.DescIsSwappedAsc | Classes/BusinessLogicBase.cs:68-86 | Descending equals ascending with the arguments swapped whenever neither ToString fails and the receiver's string is not null. |
| BusinessLogic.ComparersOnFailure | Classes/BusinessLogicBase.cs:70-85 | A failing ToString makes the ascending comparer answer 0. The descending comparer fails with y's exception, or x's. |
| BusinessLogic.AscReflexive | Classes/BusinessLogicBase.cs:72 | An instance with a non-null ToString compares equal to itself when the order ranks the string equal to itself. |
| ExtensionMethods.FindProperty | Classes/ExtensionMethods.cs:44 | A property is found exactly when the type declares that name. A flag property has no attributes. |
| ExtensionMethods.GetPropertyAttributes | Classes/ExtensionMethods.cs:39-67 | The method throws exactly when the lookup fails, with the same error. Otherwise the fresh array holds exactly the attributes of the requested kind. |
| ExtensionMethods.NotFoundExactlyWhenMissing | Classes/ExtensionMethods.cs:44-49 | PropertyNotFoundException exactly when no property has the name. It carries the property, class and attribute names. |
| ExtensionMethods.NoAttributesGiveEmpty | Classes/ExtensionMethods.cs:41-66 | A declared property without attributes of the kind gives an empty array, not an error. |
| ExtensionMethods.FoundAttributesInOrder | Classes/ExtensionMethods.cs:54-63 | The result is the property's attributes of the kind, all of them, in declared order. |
| ExtensionMethods.FormatText | Classes/ExtensionMethods.cs:10 | Formatting the template with three arguments gives its wording with argument 2 after "retrieve", argument 0 after "property", argument 1 after "class", and argument 0 again after "Property". |
| ExtensionMethods.AsWrittenSwapsNames | Classes/ExtensionMethods.cs:10-18 | The message the constructor builds reads "Could not retrieve <class> attributes of the property <property> in class <attribute>.  Property <property> does not exist.": the class and attribute names are swapped. |
| ExtensionMethods.MessageNamesClassAndKind | Classes/ExtensionMethods.cs:10-13 | The corrected message reads "Could not retrieve <attribute> attributes of the property <property> in class <class>.  Property <property> does not exist.". |
| ExtensionMethods.AsWrittenMessageIsWrong | Classes/ExtensionMethods.cs:10-18 | For the missing property "Color" on Supplier, the exception's message is "Could not retrieve Supplier attributes of the property Color in class DynamicProperty.  Property Color does not exist.". The corrected one names DynamicProperty as the attributes and Supplier as the class, and the two messages differ. |
| DynamicProperties.DynamicProperty.constructor | Classes/DynamicProperty.cs:11-12 | A fresh attribute has a null column name and the zero tag, BigInt. |
| DynamicProperties.DynamicProperty.SetColumnName | Classes/DynamicProperty.cs:18-22 | ColumnName returns the value set, and DatabaseType is unchanged. |
| DynamicProperties.DynamicProperty.SetDatabaseType | Classes/DynamicProperty.cs:27-31 | DatabaseType returns the value set, and ColumnName is unchanged. |
| DynamicProperties.Instantiate | Classes/DynamicProperty.cs:9-31 | Building the attribute from a declaration holds exactly the declared column and tag. |
| DynamicClasses.DynamicClass.constructor | Classes/DynamicClass.cs:16-20 | The constructor stores the type and the id-field name. |
| DynamicClasses.DynamicClass.SetType | Classes/DynamicClass.cs:25 | Type is set, and IDFieldName is unchanged. |
| DynamicClasses.DynamicClass.SetIdFieldName | Classes/DynamicClass.cs:30 | IDFieldName is set, and Type is unchanged. |
| DynamicClasses.Instantiate | Classes/DynamicClass.cs:16-20 | Building the attribute holds exactly the declared type and id field. |
| Suppliers.WellFormed | SampleDynamicResultSet/BusinessObjects/Supplier.cs:15-127 | Property names are distinct, and no flag shares a name with a data property. |
| Suppliers.IsEmptyExactly | SampleDynamicResultSet/BusinessObjects/Supplier.cs:90-93 | IsEmpty never throws. It is true exactly when the name is unset, null or blank. |
| Suppliers.FreshIsEmpty | SampleDynamicResultSet/BusinessObjects/Supplier.cs:90-93 | A new supplier is empty. |
| Suppliers.ToStringExactly | SampleDynamicResultSet/BusinessObjects/Supplier.cs:84-88 | ToString throws the standard message exactly while the name is unset. Otherwise it gives the name. |
| Suppliers.NameAttributes | SampleDynamicResultSet/BusinessObjects/Supplier.cs:19-76 | The lookup finds Name's column binding, and nothing on notDataboundProperty. |
| Suppliers.ColorLookupMessage | Classes/ExtensionMethods.cs:10-18 | Looking up DynamicProperty attributes of the undeclared "Color" on a Supplier raises PropertyNotFoundException("Color", "Supplier", "DynamicProperty"), whose message reads "Could not retrieve Supplier attributes of the property Color in class DynamicProperty.  Property Color does not exist.". |
| Suppliers.NotDataboundUntouched | SampleDynamicResultSet/BusinessObjects/Supplier.cs:76 | Binding never changes the double without metadata. |
| Suppliers.MarkupUnsetWithoutColumn | SampleDynamicResultSet/BusinessObjects/Supplier.cs:102-127 | Without the markup column, a new supplier's Markup getter throws. |
| Suppliers.MarkupDbNullIsZero | SampleDynamicResultSet/BusinessObjects/Supplier.cs:103-119 | A DBNull markup cell makes the non-nullable Markup read as zero. |
| Suppliers.NameFromColumn | SampleDynamicResultSet/BusinessObjects/Supplier.cs:19-38 | A string company-name cell is the name the supplier reads. |
| Suppliers.BindsFromCells | SampleDynamicResultSet/BusinessObjects/Supplier.cs:15-127 | A name cell, an employee-count cell and no markup column give exactly those two values, both flags set. The supplier is returned exactly when the name is not blank. |
| Suppliers.ThroughNumberOfEmployees | SampleDynamicResultSet/BusinessObjects/Supplier.cs:15-72 | The first two properties bind from their cells. |
| Suppliers.ThroughNotDatabound | SampleDynamicResultSet/BusinessObjects/Supplier.cs:76 | The unbound double leaves the state as the first two properties left it. |
| Products.WellFormed | SampleDynamicResultSet/BusinessObjects/Product.cs:14-153 | Property names are distinct, and no flag shares a name with a data property. |
| Products.FlagSetters | SampleDynamicResultSet/BusinessObjects/Product.cs:38-152 | Every data property is guarded, and only IsNameSet has a protected setter. |
| Products.IsEmptyExactly | SampleDynamicResultSet/BusinessObjects/Product.cs:164-167 | IsEmpty never throws. It is true exactly when the name is unset, null or blank. |
| Products.ToStringExactly | SampleDynamicResultSet/BusinessObjects/Product.cs:159-162 | ToString throws exactly while the name is unset. Otherwise it gives the name. |
| Products.DbNullNameIsEmpty | SampleDynamicResultSet/BusinessObjects/Product.cs:164-167 | A DBNull name cell leaves the product empty. |
| Products.SupplierFromSameRow | SampleDynamicResultSet/BusinessObjects/Product.cs:101-126 | Below the limit, Supplier holds the supplier bound from the same row when that supplier is returned and not empty. Otherwise it is untouched. |
| Products.SupplierPropertyOutcome | SampleDynamicResultSet/BusinessObjects/Product.cs:104-125 | The same, for the Supplier property on its own. |
| Products.SupplierAtDepthLimit | SampleDynamicResultSet/BusinessObjects/Product.cs:104 | At the depth limit the Supplier property is never bound. |
| Products.SupplierIdUnsetWithoutColumn | SampleDynamicResultSet/BusinessObjects/Product.cs:128-153 | Without the supplier-id column, SupplierID's getter throws. |
| Products.BindsFromCells | SampleDynamicResultSet/BusinessObjects/Product.cs:14-171 | Cells that coerce, plus a kept supplier, give exactly those four values with their flags set. The product is returned exactly when the name is not null or blank. |
| Products.ThroughName | SampleDynamicResultSet/BusinessObjects/Product.cs:14-39 | The first property binds from its cell. |
| Products.ThroughInStock | SampleDynamicResultSet/BusinessObjects/Product.cs:43-68 | The first two properties bind from their cells. |
| Products.ThroughPrice | SampleDynamicResultSet/BusinessObjects/Product.cs:72-97 | The first three properties bind from their cells. |
| Products.ThroughSupplier | SampleDynamicResultSet/BusinessObjects/Product.cs:101-126 | The first four properties bind, the supplier one level down. |
| Products.SupplierStep | SampleDynamicResultSet/BusinessObjects/Product.cs:104-125 | A kept supplier is assigned through the Supplier setter. |
| Products.BoundShape | SampleDynamicResultSet/BusinessObjects/Product.cs:164-171 | The four setters' state is kept exactly when the name is not blank, and OnLoaded leaves it as it is. |
| Sample.SampleCoercions | SampleDynamicResultSet/Program.cs:28-33 | The sample's string cells coerce to strings, and its numeric cells to the runtime's Int32 and Decimal values. |
| Sample.TwoRows | Classes/DynamicResultSet.cs:55-62 | GetList over two rows keeps the first row's result and then the second's, each when it is returned. |
| Sample.FirstSupplier | SampleDynamicResultSet/Program.cs:27-33 | The first row gives a supplier named "Mike Milk Man McIsaac the Dairy" whose employee count is the runtime's Int32 conversion of the "9000" cell, both flags set. |
| Sample.SecondSupplier | SampleDynamicResultSet/Program.cs:35-38 | The second row gives "Another company" with a null employee count, its flag set. |
| Sample.FirstProduct | SampleDynamicResultSet/Program.cs:27-33 | The first row gives one product, which holds the first supplier. |
| Sample.SecondProduct | SampleDynamicResultSet/Program.cs:64 | The second row's DBNull product name makes the product empty, so null is returned. |
| Sample.SampleSuppliers | SampleDynamicResultSet/Program.cs:44-46 | GetList<Supplier> returns the two suppliers, in row order. |
| Sample.SampleMarkupUnset | SampleDynamicResultSet/Program.cs:94-101 | Both suppliers' Markup getters throw, so the program prints the exception message. |
| Sample.SampleProducts | SampleDynamicResultSet/Program.cs:64-69 | GetList<Product> returns exactly one product. |

## Left out

- Column lookup is exact. `DataColumnCollection.Contains` and `DataRow[string]` ignore
  case; the model takes the row's keys as they are.
- Reflection (`GetProperties`, `GetCustomAttributes`, `MakeGenericMethod`, `Invoke`) is
  replaced by the static metadata table. A table lookup cannot fail, so the exceptions
  swallowed around attribute lookup, and the `as` casts that could give null, have no
  counterpart.
- A property of a type that inherits one is not modelled. The binder reads declared
  attributes only, while `GetPropertyAttributes` includes inherited ones. The table has no
  inheritance, so both read the same list.
- The `Is…Set` flag properties are not separate entries of a type's property list: they
  ride on the guarded accessor of their data property. In the source they carry no
  attributes, so the binder passes over them without effect. The attribute lookup still
  finds them by name.
- Conversions (`Convert.ToX`, `ToString` of a boxed scalar, `new Guid(string)`) and
  floating point are left abstract in `Runtime`. So is a target type's namespace-qualified
  name, which is what `object.ToString` gives for a target object in a cell, because
  `BusinessLogicBase` hides `Object.ToString` with `new` rather than overriding it. The sample lemmas require only that the runtime converts
  "9000", "2879" and "2.54". The sample program stores the double 2.54 in an untyped
  column, so the cell holds its culture-dependent string form; the sample table takes the
  invariant rendering "2.54".
- A boxed scalar's payload is an unbounded integer that abstracts its bits. No integer
  width is modelled.
- PropertyInfo.SetValue is modelled by family equality, null becoming the type's default.
  Widening, boxing and user conversions are not modelled.
- SetValue: every property of the metadata table has a setter. A get-only property, on
  which `PropertyInfo.SetValue` throws ArgumentException ("Property set method not
  found"), cannot be expressed, so that failure of a bound column or child is not
  modelled.
- OnLoaded: an override that throws is taken to leave the instance as binding left it.
  What such an override changes before it throws is not modelled. The sample types'
  overrides are empty and never throw.
- A nested child is stored in its parent as a snapshot of its state. Aliasing between the
  child object and other references is not modelled.
- The `row.Table != null` test is always true: a row always belongs to its table.
- The `returnObject != null` test after the loop is always true, so only `IsEmpty`
  decides the result.
- The `this.Data == null` test in GetList never fires, because the getter never returns
  null.
- Culture-sensitive `String.CompareTo` is a parameter of the comparers.
- `[Serializable]`, the unused `_propertyErrorMessageField`, and the inner-exception
  overload of `PropertyNotFoundException` are left out. The overload's message is built
  the same way.
- The sample program's console output and key presses are left out. Only its table and
  what GetList returns for it are modelled.

## Findings

| source | as written | input that shows it | evidently intended | confidence | as-written member | corrected member |
|---|---|---|---|---|---|---|
| Classes/ExtensionMethods.cs:10-18 | The constructor passes (propertyName, attributeName, className) to a template whose slot {1} follows "in class" and whose slot {2} precedes "attributes". | GetPropertyAttributes<DynamicProperty>("Color") on a Supplier (Suppliers.ColorLookupMessage): the message begins "Could not retrieve Supplier attributes of the property Color in class DynamicProperty". | The attribute kind in the "attributes" slot and the class name in the "class" slot, that is, the arguments (propertyName, className, attributeName). | not executed | ExtensionMethods.AsWrittenSwapsNames | ExtensionMethods.MessageNamesClassAndKind |
