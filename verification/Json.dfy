/** Parsed JSON values, as `serde_json::Value`. Reading JSON text is a parameter of the modules that need it. */
module Json {
  import opened Wrappers

  datatype Value =
    | Null
    | Bool(flag: bool)
    | Integer(n: int)
    | Fraction(r: real)
    | Str(text: string)
    | Array(items: seq<Value>)
    | Object(fields: map<string, Value>)
  {
    function Get(key: string): Option<Value> {
      if Object? && key in fields then Some(fields[key]) else None
    }

    function AsStr(): Option<string> {
      if Str? then Some(text) else None
    }

    function AsI64(): Option<int> {
      if Integer? && -0x8000_0000_0000_0000 <= n < 0x8000_0000_0000_0000 then Some(n) else None
    }

    /** RFC 6901 lookup, for the tokens this program uses: the only array index among them is 0. */
    function Pointer(path: seq<string>): Option<Value>
      decreases |path|
    {
      if path == [] then Some(this)
      else if Array? then
        if path[0] == "0" && items != [] then items[0].Pointer(path[1..]) else None
      else if Get(path[0]).Some? then Get(path[0]).value.Pointer(path[1..])
      else None
    }

    function StrAt(path: seq<string>): Option<string> {
      if Pointer(path).Some? then Pointer(path).value.AsStr() else None
    }

    function IntAt(path: seq<string>): Option<int> {
      if Pointer(path).Some? then Pointer(path).value.AsI64() else None
    }
  }
}
