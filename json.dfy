/** The already-parsed JSON tree the decoders read from. */
module JsonValues {

  datatype Json =
    | JNull
    | JBool(b: bool)
    | JNum(n: int)
    | JStr(str: string)
    | JArr(items: seq<Json>)
    | JObj(obj: map<string, Json>)

  /** The name of a value's dynamic type, as a type-mismatch error reports it. */
  function KindName(j: Json): string
  {
    match j
    case JNull => "NSNull"
    case JBool(_) => "Bool"
    case JNum(_) => "Int"
    case JStr(_) => "String"
    case JArr(_) => "Array"
    case JObj(_) => "Dictionary"
  }
}
