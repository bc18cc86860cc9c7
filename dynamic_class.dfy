/** Object-binding metadata: "bind this property to a nested target type, keyed by field Z". */
module DynamicClasses {

  /** The content of a `[DynamicClass(typeof(T), "IdField")]` declaration; a type is
      named by its registered name. */
  datatype ClassBinding = ClassBinding(typeName: string, idFieldName: string)

  /** The attribute object itself; both properties stay settable after construction. */
  class DynamicClass {
    var targetType: string
    var idFieldName: string

    /** The record's current contents. */
    function Binding(): ClassBinding
      reads this
    {
      ClassBinding(targetType, idFieldName)
    }

    constructor (targetType: string, idFieldName: string)
      ensures this.targetType == targetType
      ensures this.idFieldName == idFieldName
    {
      this.targetType := targetType;
      this.idFieldName := idFieldName;
    }

    /** The Type setter leaves IDFieldName unchanged. */
    method SetType(value: string)
      modifies this
      ensures targetType == value
      ensures idFieldName == old(idFieldName)
    {
      targetType := value;
    }

    /** The IDFieldName setter leaves Type unchanged. */
    method SetIdFieldName(value: string)
      modifies this
      ensures idFieldName == value
      ensures targetType == old(targetType)
    {
      idFieldName := value;
    }
  }

  /** How the runtime builds the attribute a declaration describes: its constructor. */
  method Instantiate(declared: ClassBinding) returns (attr: DynamicClass)
    ensures fresh(attr)
    ensures attr.Binding() == declared
  {
    attr := new DynamicClass(declared.typeName, declared.idFieldName);
  }
}
