/** Python values as they appear in document metadata, and langchain's Document. */
module Values {

  /** A Python value: None, str, int, float, bool, list or dict with str keys. */
  datatype Value =
    | VNone
    | VStr(s: string)
    | VInt(i: int)
    | VFloat(x: real)
    | VBool(b: bool)
    | VList(items: seq<Value>)
    | VDict(entries: map<string, Value>)

  /** Python truthiness (`if v:` / `if not v:`). */
  predicate Truthy(v: Value) {
    match v
    case VNone => false
    case VStr(s) => s != ""
    case VInt(i) => i != 0
    case VFloat(x) => x != 0.0
    case VBool(b) => b
    case VList(items) => items != []
    case VDict(entries) => entries != map[]
  }

  /** Whether Python can use the value as a dict key. */
  predicate Hashable(v: Value) {
    !v.VList? && !v.VDict?
  }

  /** The empty dict `{}`. */
  const EmptyDict: Value := VDict(map[])

  /** `d.get(key, default)` on a value already known to be a dict. */
  function Get(entries: map<string, Value>, key: string, default: Value): Value
  {
    if key in entries then entries[key] else default
  }

  /** langchain's Document: page text and (possibly malformed) metadata. */
  datatype Document = Document(pageContent: string, metadata: Value)
}
