/** Bytes and the dynamically typed values that msgpack decodes into. The
    client's packet handlers index these values the way Python does, so the
    failure cases of Python indexing (KeyError, TypeError, AttributeError)
    are made explicit here as `None` results. */
module Values {

  datatype Option<+T> = None | Some(value: T)

  /** One octet on the wire. */
  type Byte = b: int | 0 <= b < 256

  type Bytes = seq<Byte>

  /** What `msgpack.unpackb(..., raw=False)` can hand back: nil, booleans,
      integers, text strings, byte strings, arrays and string-keyed maps. */
  datatype Value =
    | VNil
    | VBool(b: bool)
    | VInt(i: int)
    | VStr(s: string)
    | VBin(bytes: Bytes)
    | VArray(items: seq<Value>)
    | VMap(entries: map<string, Value>)

  /** Python truthiness: `None`, `False`, `0` and empty containers are false. */
  function Truthy(v: Value): (t: bool)
    ensures !t <==> v in {VNil, VBool(false), VInt(0), VStr(""), VBin([]), VArray([]), VMap(map[])}
  {
    match v
    case VNil => false
    case VBool(b) => b
    case VInt(i) => i != 0
    case VStr(s) => s != ""
    case VBin(b) => b != []
    case VArray(xs) => xs != []
    case VMap(m) => m != map[]
  }

  /** `v[key]`: defined only on a dict that holds the key; every other case
      raises (KeyError on a dict, TypeError on anything else). */
  function Index(v: Value, key: string): (r: Option<Value>)
    ensures r.Some? <==> v.VMap? && key in v.entries
    ensures r.Some? ==> r.value == v.entries[key]
  {
    if v.VMap? && key in v.entries then Some(v.entries[key]) else None
  }

  /** `v.get(key, default)`: defined on every dict; anything else has no
      `get` attribute and raises. */
  function Get(v: Value, key: string, default: Value): (r: Option<Value>)
    ensures r.Some? <==> v.VMap?
    ensures r.Some? && key in v.entries ==> r.value == v.entries[key]
    ensures r.Some? && key !in v.entries ==> r.value == default
  {
    match v
    case VMap(m) => Some(if key in m then m[key] else default)
    case _ => None
  }

  /** `for x in v`: the items a Python loop visits. Lists give their items,
      strings their one-character strings, byte strings their integers;
      `None`, booleans and integers are not iterable and raise. */
  function Items(v: Value): (r: Option<seq<Value>>)
    ensures v.VArray? ==> r == Some(v.items)
    ensures v.VStr? ==> r.Some? && |r.value| == |v.s|
                        && forall i :: 0 <= i < |v.s| ==> r.value[i] == VStr([v.s[i]])
    ensures v.VBin? ==> r.Some? && |r.value| == |v.bytes|
                        && forall i :: 0 <= i < |v.bytes| ==> r.value[i] == VInt(v.bytes[i])
    ensures r.None? <==> !(v.VArray? || v.VStr? || v.VBin?)
  {
    match v
    case VArray(xs) => Some(xs)
    case VStr(s) => Some(seq(|s|, i requires 0 <= i < |s| => VStr([s[i]])))
    case VBin(b) => Some(seq(|b|, i requires 0 <= i < |b| => VInt(b[i])))
    case _ => None
  }

  /** The concatenation of a sequence of byte chunks. */
  function Concat(chunks: seq<Bytes>): (r: Bytes)
  {
    if chunks == [] then [] else chunks[0] + Concat(chunks[1..])
  }
}
