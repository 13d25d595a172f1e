/** JSON values as Python's `json` module produces and consumes them, and the
    codec the core relies on, kept abstract (RFC 8259 is not re-implemented). */
module Json {
  import opened Common

  /** A JSON value. Objects keep their keys in insertion order, as Python dicts do. */
  datatype Json =
    | Null
    | Bool(b: bool)
    | Num(n: int)
    | Str(s: string)
    | Arr(elems: seq<Json>)
    | Obj(members: seq<(string, Json)>)

  /** The empty object `{}`. */
  const EmptyObject: Json := Obj([])

  /** Python truthiness of a decoded JSON value (`x or {}`). */
  predicate Truthy(j: Json)
  {
    match j
    case Null => false
    case Bool(b) => b
    case Num(n) => n != 0
    case Str(s) => s != ""
    case Arr(a) => a != []
    case Obj(m) => m != []
  }

  /** The codec. `loads` fails with the decoder's message; `dumps` is `json.dumps`;
      `show` is Python's `str()` of a value that is not a string (dict and list repr,
      `None`, `True`, numbers). */
  datatype Codec = Codec(
    loads: string -> Result<Json, string>,
    dumps: Json -> string,
    show: Json -> string)

  /** What an f-string prints for a value: a string as itself, anything else by `str()`. */
  function FormatValue(codec: Codec, j: Json): string
  {
    if j.Str? then j.s else codec.show(j)
  }

  /** What an f-string prints for an optional string attribute (`None` when absent). */
  function FormatName(name: Option<string>): string
  {
    match name
    case Some(s) => s
    case None => "None"
  }
}
