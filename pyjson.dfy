/** A value `json.loads` produces, which is also the Python value the
    scrapers then handle: `None`, `bool`, `int`, `float`, `str`, `list`
    and `dict`. */
module PyJson {
  import opened Common
  import opened Text
  import opened Numbers

  datatype Json =
    | JNull
    | JBool(b: bool)
    | JInt(i: int)
    | JFloat(f: real)
    | JStr(s: string)
    | JArr(items: seq<Json>)
    | JObj(fields: map<string, Json>)

  /** Python truthiness. */
  predicate Truthy(j: Json) {
    match j
    case JNull => false
    case JBool(b) => b
    case JInt(i) => i != 0
    case JFloat(f) => f != 0.0
    case JStr(s) => s != ""
    case JArr(xs) => xs != []
    case JObj(m) => m != map[]
  }

  /** `a or b` */
  function Or(a: Json, b: Json): Json { if Truthy(a) then a else b }

  /** `d.get(key)` on a dict: `None` when the key is absent. */
  function Get(d: map<string, Json>, key: string): Json { if key in d then d[key] else JNull }

  /** `float(j)`; `None` stands for the ValueError or TypeError it raises. */
  function ToFloat(j: Json): Option<real> {
    match j
    case JBool(b) => Some(if b then 1.0 else 0.0)
    case JInt(i) => Some(i as real)
    case JFloat(f) => Some(f)
    case JStr(s) => ParseFloat(s)
    case _ => None
  }

  /** `int(j)`; `None` stands for the ValueError or TypeError it raises. */
  function ToInt(j: Json): Option<int> {
    match j
    case JBool(b) => Some(if b then 1 else 0)
    case JInt(i) => Some(i)
    case JFloat(f) => Some(Truncate(f))
    case JStr(s) => ParseInt(s)
    case _ => None
  }

  /** `float(str(j))`: a float or an int prints as text that reads back as
      the same number, a string is read as it is, and `None`, booleans,
      lists and dicts print as text `float()` rejects. */
  function FloatOfStr(j: Json): Option<real> {
    match j
    case JInt(i) => Some(i as real)
    case JFloat(f) => Some(f)
    case JStr(s) => ParseFloat(s)
    case _ => None
  }

  /** `str(i)` for an int. */
  function IntText(i: int): string {
    if i < 0 then "-" + NatToString(-i) else NatToString(i)
  }

  /** `str(j)` where the model has it: `None` for a float, a list or a dict,
      whose printed forms are not part of this model. */
  function ScalarText(j: Json): Option<string> {
    match j
    case JNull => Some("None")
    case JBool(b) => Some(if b then "True" else "False")
    case JInt(i) => Some(IntText(i))
    case JStr(s) => Some(s)
    case _ => None
  }
}
