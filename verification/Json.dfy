/** JSON values, as far as the program looks into them. */
module JsonValues {
  datatype Json = JNull | JStr(s: string) | JNum(n: int) | JBool(b: bool) | JArr(items: seq<Json>)

  type Obj = map<string, Json>
}
