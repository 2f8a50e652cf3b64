/** The decoded JSON and YAML values the indexer passes around as PHP arrays. */
module Values {

  datatype Option<+T> = None | Some(value: T) {
    function GetOr(default: T): T {
      match this
      case Some(v) => v
      case None => default
    }
  }

  /** A PHP value as produced by json_decode or the YAML parser. A list is an array
      with keys 0, 1, ...; a dictionary is an array with string keys. */
  datatype Value =
    | Null
    | Bool(b: bool)
    | Int(i: int)
    | Str(s: string)
    | List(items: seq<Value>)
    | Dict(entries: map<string, Value>)

  /** PHP's is_array. */
  predicate IsArray(v: Value) {
    v.List? || v.Dict?
  }

  /** The PHP literal []. */
  const EmptyArray: Value := List([])

  /** A list of strings as a PHP array. */
  function Strs(s: seq<string>): (v: Value)
    ensures v.List? && |v.items| == |s|
    ensures forall i :: 0 <= i < |s| ==> v.items[i] == Str(s[i])
  {
    List(seq(|s|, i requires 0 <= i < |s| => Str(s[i])))
  }

  /** A string-to-string mapping as a PHP array. */
  function StrMap(m: map<string, string>): (v: Value)
    ensures v.Dict? && v.entries.Keys == m.Keys
    ensures forall k :: k in m ==> v.entries[k] == Str(m[k])
  {
    Dict(map k | k in m :: Str(m[k]))
  }
}
