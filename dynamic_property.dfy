/** Scalar-binding metadata: "bind this property to column X, read as database type Y". */
module DynamicProperties {
  import opened Values
  import SqlDbTypes

  /** The content of a `[DynamicProperty(ColumnName = …, DatabaseType = …)]` declaration.
      The column name may be null; the type is the tag's integer code. */
  datatype ColumnBinding = ColumnBinding(columnName: Option<string>, databaseType: int)

  /** The attribute object itself: a mutable record with two independent properties. */
  class DynamicProperty {
    var columnName: Option<string>
    var databaseType: int

    /** The record's current contents. */
    function Binding(): ColumnBinding
      reads this
    {
      ColumnBinding(columnName, databaseType)
    }

    /** A fresh attribute has a null column name and the enumeration's zero tag. */
    constructor ()
      ensures columnName == None
      ensures SqlDbTypes.FromCode(databaseType) == Some(SqlDbTypes.BigInt)
    {
      columnName := None;
      databaseType := 0;
    }

    function ColumnName(): Option<string>
      reads this
    {
      columnName
    }

    function DatabaseType(): int
      reads this
    {
      databaseType
    }

    /** The ColumnName setter: the getter then returns `value`; DatabaseType is untouched. */
    method SetColumnName(value: Option<string>)
      modifies this
      ensures ColumnName() == value
      ensures DatabaseType() == old(DatabaseType())
    {
      columnName := value;
    }

    /** The DatabaseType setter: the getter then returns `value`; ColumnName is untouched. */
    method SetDatabaseType(value: int)
      modifies this
      ensures DatabaseType() == value
      ensures ColumnName() == old(ColumnName())
    {
      databaseType := value;
    }
  }

  /** How the runtime builds the attribute a declaration describes: the parameterless
      constructor, then the named properties' setters. */
  method Instantiate(declared: ColumnBinding) returns (attr: DynamicProperty)
    ensures fresh(attr)
    ensures attr.Binding() == declared
  {
    attr := new DynamicProperty();
    attr.SetColumnName(declared.columnName);
    attr.SetDatabaseType(declared.databaseType);
  }
}
