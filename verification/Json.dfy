/** JSON values as `json.loads` hands them to Python, and the few Python operations the
    gateway applies to them. */
module Json {
  import opened Prelude

  datatype Value =
    | Null
    | Bool(b: bool)
    | Int(n: int)
    | Str(s: string)
    | Arr(items: seq<Value>)
    | Obj(members: map<string, Value>)

  /** What the interpreter and its libraries compute and the model leaves open: `json.dumps`,
      the text between the brackets when a list or dict is formatted, case mapping, and
      reading a text with `int` or `float`. A theorem holds for every choice of these,
      unless it says what it needs of them. */
  datatype Python = Python(
    dumps: Value -> string,
    inner: Value -> string,
    lower: string -> string,
    upper: string -> string,
    parseInt: string -> Option<int>,
    parsesFloat: string -> bool)

  /** `bool(v)`. */
  predicate Truthy(v: Value) {
    match v
    case Null => false
    case Bool(b) => b
    case Int(n) => n != 0
    case Str(s) => s != ""
    case Arr(items) => items != []
    case Obj(members) => members != map[]
  }

  /** `m.get(key)`. */
  function Get(m: map<string, Value>, key: string): Value {
    if key in m then m[key] else Null
  }

  /** `v or d`. */
  function Or(v: Value, d: Value): Value {
    if Truthy(v) then v else d
  }

  function Digits(n: nat): (s: string)
    ensures s != "" && '0' <= s[0] <= '9'
    ensures forall c | c in s :: '0' <= c <= '9'
  {
    (if n < 10 then "" else Digits(n / 10)) + ['0' + (n % 10) as char]
  }

  function Decimal(n: int): (s: string)
    ensures s != "" && (s[0] == '-' || '0' <= s[0] <= '9')
  {
    if n < 0 then "-" + Digits(-n) else Digits(n)
  }

  /** `str(v)`. */
  function ToText(py: Python, v: Value): string {
    match v
    case Null => "None"
    case Bool(b) => if b then "True" else "False"
    case Int(n) => Decimal(n)
    case Str(s) => s
    case Arr(_) => "[" + py.inner(v) + "]"
    case Obj(_) => "{" + py.inner(v) + "}"
  }

  /** `int(v)`; None where Python raises. */
  function ToInt(py: Python, v: Value): Option<int> {
    match v
    case Bool(b) => Some(if b then 1 else 0)
    case Int(n) => Some(n)
    case Str(s) => py.parseInt(s)
    case _ => None
  }
}
