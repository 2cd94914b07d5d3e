/** The loosely typed values (`Any`) exchanged with the JavaScript side, and
    the checked casts (`as?`) the plugin applies to them. */
module Bridge {
  import opened Sdk

  datatype Value =
    | Int(i: int64)
    | Bool(b: bool)
    | Str(s: string)
    | List(items: seq<Value>)
    | Dict(entries: map<string, Value>)
    | Enum(valueType: ValueType)         // a boxed `BarcodeValueType`
    | Converted(conversion: Conversion)  // whatever `BarcodeConverter` returned

  /** `v as? [Int]`: succeeds exactly on a list whose every element is an
      integer, and then gives those integers in order. */
  function AsIntList(v: Value): (r: Option<seq<int64>>)
    ensures r.Some? <==> v.List? && forall i :: 0 <= i < |v.items| ==> v.items[i].Int?
    ensures r.Some? ==> |r.value| == |v.items|
    ensures r.Some? ==> forall i :: 0 <= i < |v.items| ==> v.items[i] == Int(r.value[i])
  {
    if v.List? && forall i :: 0 <= i < |v.items| ==> v.items[i].Int? then
      Some(seq(|v.items|, i requires 0 <= i < |v.items| && v.items[i].Int? => v.items[i].i))
    else
      None
  }

  /** `v as? [String: Int]`: succeeds exactly on a dictionary whose every
      value is an integer, and then keeps its keys and their integers. */
  function AsIntDict(v: Value): (r: Option<map<string, int64>>)
    ensures r.Some? <==> v.Dict? && forall k :: k in v.entries ==> v.entries[k].Int?
    ensures r.Some? ==> r.value.Keys == v.entries.Keys
    ensures r.Some? ==> forall k :: k in v.entries ==> v.entries[k] == Int(r.value[k])
  {
    if v.Dict? && forall k :: k in v.entries ==> v.entries[k].Int? then
      Some(map k | k in v.entries :: v.entries[k].i)
    else
      None
  }

  /** `v as? [String: Any] ?? [String: Any]()`: the dictionary itself, and an
      empty one for any other value. */
  function DictOrEmpty(v: Value): (m: map<string, Value>)
    ensures v.Dict? ==> m == v.entries
    ensures !v.Dict? ==> |m| == 0
  {
    if v.Dict? then v.entries else map[]
  }

  /** `m[key] as? Bool ?? false`: set exactly when the key holds `true`; an
      absent key or a value of another type reads as false. */
  function FlagOrFalse(m: map<string, Value>, key: string): (on: bool)
    ensures on <==> key in m && m[key] == Bool(true)
  {
    key in m && m[key].Bool? && m[key].b
  }

  /** An optional string as the optional value stored under a key. */
  function StrOf(s: Option<string>): Option<Value> {
    match s
    case Some(x) => Some(Str(x))
    case None => None
  }

  /** `m[key] = v` for an optional `v`: assigning nil removes the key. The
      other keys are kept. */
  function Store(m: map<string, Value>, key: string, v: Option<Value>): (r: map<string, Value>)
    ensures key in r <==> v.Some?
    ensures v.Some? ==> r[key] == v.value
    ensures r.Keys - {key} == m.Keys - {key}
  {
    match v
    case Some(x) => m[key := x]
    case None => m - {key}
  }

  /** Storing under one key leaves the value under every other key as it was. */
  lemma StoreKeepsOthers(m: map<string, Value>, key: string, v: Option<Value>, other: string)
    requires other in m && other != key
    ensures other in Store(m, key, v) && Store(m, key, v)[other] == m[other]
  {
  }
}
