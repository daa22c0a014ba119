/** JSON values as `serde_json::Value` holds them: object keys are unique, and
    an object iterates its keys in ascending order. A number that is not an
    integer is carried as an opaque literal. */
module Json {
  import opened Text

  datatype Json =
    | Null
    | Bool(b: bool)
    | Int(n: int)
    | Float(literal: string)
    | Str(s: string)
    | Arr(items: seq<Json>)
    | Obj(fields: map<string, Json>)
  {
    /** `Value::get` with a string index: absent unless an object has the key. */
    function Get(name: string): Option<Json> {
      if Obj? && name in fields then Some(fields[name]) else None
    }

    /** `get(name).and_then(Value::as_str)` */
    function GetStr(name: string): Option<string> {
      match Get(name)
      case Some(Str(s)) => Some(s)
      case _ => None
    }

    /** `get(name).and_then(Value::as_array)` */
    function GetArr(name: string): Option<seq<Json>> {
      match Get(name)
      case Some(Arr(items)) => Some(items)
      case _ => None
    }

    predicate AbsentOrNull(name: string) {
      Get(name).None? || Get(name) == Some(Null)
    }

    /** `Value::as_u64` succeeds. */
    predicate IsU64() {
      Int? && 0 <= n < 0x1_0000_0000_0000_0000
    }

    /** `Value::as_i64` succeeds. */
    predicate IsI64() {
      Int? && -0x8000_0000_0000_0000 <= n < 0x8000_0000_0000_0000
    }
  }
}
