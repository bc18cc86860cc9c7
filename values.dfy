/** The values that travel from a result row into a bound object, and the failures
    that binding can raise. A boxed .NET value is a `Value`; an exception is an `Error`. */
module Values {

  datatype Option<+T> = None | Some(value: T)

  /** The native representations the coercion switch converts into, named after the
      .NET types they stand for (`Bytes` is `byte[]`, `DataTable` a nested table). */
  datatype Family =
    | Int64 | Bytes | Boolean | DateTime | Decimal | Double | Int32 | Single
    | Guid | Int16 | Byte | DataTable | DateTimeOffset

  /** A boxed value: a cell of a row, a coerced value, or what a property holds. */
  datatype Value =
    | DbNull                                  // System.DBNull.Value, the row's null marker
    | Null                                    // a null reference
    | Text(s: string)                         // a string
    | Scalar(family: Family, payload: int)    // a boxed value of one family; the payload abstracts its bits
    | Object(typeName: string, state: State)  // a bound target object, by its contents

  /** What a target object holds: the backing value of each property (a property missing
      from `values` still holds its type's default) and the set of properties whose
      `Is…Set` flag is true. */
  datatype State = State(values: map<string, Value>, flags: set<string>)

  /** The exceptions the core raises, each by the .NET exception it stands for. */
  datatype Error =
    | Exception(message: string)              // System.Exception, raised by a guarded getter
    | ArgumentOutOfRange(paramName: string)   // a database type code no tag names
    | ConversionFailed(family: Family)        // Convert.ToX or the Guid parser rejected the value
    | InvalidCast(family: Family)             // an explicit cast that does not apply
    | NullReference                           // a member call on a null reference
    | ArgumentMismatch(property: string)      // SetValue given a value the property's type refuses
    | NotBindable(typeName: string)           // a nested type that is not a registered target type
    | PropertyNotFound(propertyName: string, className: string, attributeName: string)
    | InvocationFailed(inner: Error)           // TargetInvocationException: a failure inside a reflective call

  datatype Result<+T> = Ok(value: T) | Err(error: Error)
}
