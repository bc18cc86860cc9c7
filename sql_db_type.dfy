/** The System.Data.SqlDbType enumeration: the database type tags a column binding
    declares. A tag is stored as its integer code, so a binding can carry a code that no
    tag names; `FromCode` tells the two apart. */
module SqlDbTypes {
  import opened Values

  datatype SqlDbType =
    | BigInt | Binary | Bit | Char | DateTime | Decimal | Float | Image | Int | Money
    | NChar | NText | NVarChar | Real | UniqueIdentifier | SmallDateTime | SmallInt
    | SmallMoney | Text | Timestamp | TinyInt | VarBinary | VarChar | Variant | Xml
    | Udt | Structured | Date | Time | DateTime2 | DateTimeOffset

  /** The enumeration's underlying value of each tag (24 and 26-28 name nothing). */
  function Code(t: SqlDbType): int
  {
    match t
    case BigInt => 0            case Binary => 1           case Bit => 2
    case Char => 3              case DateTime => 4         case Decimal => 5
    case Float => 6             case Image => 7            case Int => 8
    case Money => 9             case NChar => 10           case NText => 11
    case NVarChar => 12         case Real => 13            case UniqueIdentifier => 14
    case SmallDateTime => 15    case SmallInt => 16        case SmallMoney => 17
    case Text => 18             case Timestamp => 19       case TinyInt => 20
    case VarBinary => 21        case VarChar => 22         case Variant => 23
    case Xml => 25              case Udt => 29             case Structured => 30
    case Date => 31             case Time => 32            case DateTime2 => 33
    case DateTimeOffset => 34
  }

  /** The tag a code names, if any. */
  function FromCode(c: int): Option<SqlDbType>
  {
    if c == 0 then Some(BigInt) else if c == 1 then Some(Binary)
    else if c == 2 then Some(Bit) else if c == 3 then Some(Char)
    else if c == 4 then Some(SqlDbType.DateTime) else if c == 5 then Some(SqlDbType.Decimal)
    else if c == 6 then Some(Float) else if c == 7 then Some(Image)
    else if c == 8 then Some(Int) else if c == 9 then Some(Money)
    else if c == 10 then Some(NChar) else if c == 11 then Some(NText)
    else if c == 12 then Some(NVarChar) else if c == 13 then Some(Real)
    else if c == 14 then Some(UniqueIdentifier) else if c == 15 then Some(SmallDateTime)
    else if c == 16 then Some(SmallInt) else if c == 17 then Some(SmallMoney)
    else if c == 18 then Some(SqlDbType.Text) else if c == 19 then Some(Timestamp)
    else if c == 20 then Some(TinyInt) else if c == 21 then Some(VarBinary)
    else if c == 22 then Some(VarChar) else if c == 23 then Some(Variant)
    else if c == 25 then Some(Xml) else if c == 29 then Some(Udt)
    else if c == 30 then Some(Structured) else if c == 31 then Some(Date)
    else if c == 32 then Some(Time) else if c == 33 then Some(DateTime2)
    else if c == 34 then Some(SqlDbType.DateTimeOffset)
    else None
  }

  /** Decoding a tag's code gives the tag back. */
  lemma FromCodeOfCode(t: SqlDbType)
    ensures FromCode(Code(t)) == Some(t)
  {
  }

  /** A code decodes to a tag exactly when it is that tag's code. */
  lemma CodeOfFromCode(c: int, t: SqlDbType)
    ensures FromCode(c) == Some(t) <==> Code(t) == c
  {
    if Code(t) == c { FromCodeOfCode(t); }
  }
}
