/** `convertContent` and `convertBarcode`: one detected barcode as the map of
    attributes handed back to JavaScript. */
module Convert {
  import opened Sdk
  import opened Bridge

  /** Value types whose content is the barcode's raw text. */
  predicate CarriesRawValue(t: ValueType) {
    t.Unknown? || t.ISBN? || t.Text?
  }

  /** Value types whose content a `BarcodeConverter` overload describes. */
  predicate HasConverter(t: ValueType) {
    t.ContactInfo? || t.Email? || t.Phone? || t.SMS? || t.URL? || t.WiFi?
    || t.GeographicCoordinates? || t.CalendarEvent? || t.DriversLicense?
  }

  /** The detail object `convertContent` hands to the converter for value
      type `t`: one `case` of its `switch` each. */
  function DetailOf(b: Barcode, t: ValueType): Option<Detail> {
    match t
    case ContactInfo => b.contactInfo
    case Email => b.email
    case Phone => b.phone
    case SMS => b.sms
    case URL => b.url
    case WiFi => b.wifi
    case GeographicCoordinates => b.geoPoint
    case CalendarEvent => b.calendarEvent
    case DriversLicense => b.driverLicense
    case _ => None
  }

  /** The `content` map of a barcode: its value type under `type` and its
      payload under `data`, or nothing at all for a value type the switch
      does not list. */
  function ConvertContent(b: Barcode): (content: map<string, Value>)
    ensures content.Keys <= {"type", "data"}
    ensures "type" in content <==> CarriesRawValue(b.valueType) || HasConverter(b.valueType)
  {
    var typed := map["type" := Enum(b.valueType)];
    if CarriesRawValue(b.valueType) then
      Store(typed, "data", StrOf(b.rawValue))
    else if HasConverter(b.valueType) then
      typed["data" := Converted(DetailMap(b.valueType, DetailOf(b, b.valueType)))]
    else
      map[]
  }

  /** The shape of the `content` map, value type by value type: text-like
      types carry the raw value, the types with a converter carry the
      converter's result, and any other type gives an empty map. */
  lemma ConvertContentShape(b: Barcode)
    ensures var m := ConvertContent(b);
            && m.Keys <= {"type", "data"}
            && ("type" in m <==> CarriesRawValue(b.valueType) || HasConverter(b.valueType))
            && ("type" in m ==> m["type"] == Enum(b.valueType))
    ensures var m := ConvertContent(b);
            CarriesRawValue(b.valueType) ==>
              && ("data" in m <==> b.rawValue.Some?)
              && (b.rawValue.Some? ==> m["data"] == Str(b.rawValue.value))
    ensures var m := ConvertContent(b);
            HasConverter(b.valueType) ==>
              "data" in m && m["data"] == Converted(DetailMap(b.valueType, DetailOf(b, b.valueType)))
    ensures !CarriesRawValue(b.valueType) && !HasConverter(b.valueType) ==> ConvertContent(b) == map[]
  {
  }

  /** The attribute map of one barcode. */
  function ConvertBarcode(b: Barcode): (attributes: map<string, Value>)
    ensures {"cornerPoints", "content", "format"} <= attributes.Keys
    ensures attributes.Keys <= {"cornerPoints", "displayValue", "rawValue", "content", "format"}
  {
    var corners := map["cornerPoints" := Converted(PointArray(b.cornerPoints))];
    var displayed := Store(corners, "displayValue", StrOf(b.displayValue));
    var raw := Store(displayed, "rawValue", StrOf(b.rawValue));
    var content := raw["content" := Dict(ConvertContent(b))];
    content["format" := Int(b.format)]
  }

  /** `cornerPoints`, `content` and `format` are always present, `format`
      being the raw value of the barcode's format; `displayValue` and
      `rawValue` are present exactly when the barcode has them, since storing
      nil removes a key. No other key is set. */
  lemma ConvertBarcodeShape(b: Barcode)
    ensures var m := ConvertBarcode(b);
            && m.Keys == {"cornerPoints", "content", "format"}
                         + (if b.displayValue.Some? then {"displayValue"} else {})
                         + (if b.rawValue.Some? then {"rawValue"} else {})
            && m["cornerPoints"] == Converted(PointArray(b.cornerPoints))
            && m["content"] == Dict(ConvertContent(b))
            && m["format"] == Int(b.format)
            && (b.displayValue.Some? ==> m["displayValue"] == Str(b.displayValue.value))
            && (b.rawValue.Some? ==> m["rawValue"] == Str(b.rawValue.value))
  {
    var corners := map["cornerPoints" := Converted(PointArray(b.cornerPoints))];
    var displayed := Store(corners, "displayValue", StrOf(b.displayValue));
    var raw := Store(displayed, "rawValue", StrOf(b.rawValue));
    assert displayed["cornerPoints"] == corners["cornerPoints"];
    assert raw["cornerPoints"] == corners["cornerPoints"];
    assert b.displayValue.Some? ==> raw["displayValue"] == Str(b.displayValue.value);
    assert displayed.Keys == {"cornerPoints"} + (if b.displayValue.Some? then {"displayValue"} else {});
    assert raw.Keys == displayed.Keys + (if b.rawValue.Some? then {"rawValue"} else {});
  }

  /** `f` applied to each element of `s`, in order. */
  function Map<T, U>(f: T -> U, s: seq<T>): (r: seq<U>)
    ensures |r| == |s|
    ensures forall i :: 0 <= i < |s| ==> r[i] == f(s[i])
  {
    seq(|s|, i requires 0 <= i < |s| => f(s[i]))
  }

  lemma MapAppend<T, U>(f: T -> U, s: seq<T>, t: seq<T>)
    ensures Map(f, s + t) == Map(f, s) + Map(f, t)
  {
    var whole, parts := Map(f, s + t), Map(f, s) + Map(f, t);
    forall i | 0 <= i < |whole| ensures whole[i] == parts[i] {
      if i < |s| {
        assert (s + t)[i] == s[i];
      } else {
        assert (s + t)[i] == t[i - |s|];
      }
    }
  }

  /** One element of the list `callback` returns. */
  function Attribute(b: Barcode): Value {
    Dict(ConvertBarcode(b))
  }

  /** The attribute maps of a list of barcodes: one per barcode, in order. */
  function AttributesOf(barcodes: seq<Barcode>): (attributes: seq<Value>)
    ensures |attributes| == |barcodes|
    ensures forall i :: 0 <= i < |barcodes| ==> attributes[i] == Dict(ConvertBarcode(barcodes[i]))
  {
    Map(Attribute, barcodes)
  }

  /** The attribute maps of two lists of barcodes, one after the other. */
  lemma AttributesOfAppend(first: seq<Barcode>, second: seq<Barcode>)
    ensures AttributesOf(first + second) == AttributesOf(first) + AttributesOf(second)
  {
    MapAppend(Attribute, first, second);
  }

  /** The `for` loop of `callback`. */
  method ConvertBarcodes(barcodes: seq<Barcode>) returns (attributes: seq<Value>)
    ensures attributes == AttributesOf(barcodes)
  {
    attributes := [];
    if |barcodes| != 0 {
      for i := 0 to |barcodes|
        invariant attributes == AttributesOf(barcodes[..i])
      {
        assert barcodes[..i + 1] == barcodes[..i] + [barcodes[i]];
        AttributesOfAppend(barcodes[..i], [barcodes[i]]);
        attributes := attributes + [Attribute(barcodes[i])];
      }
    }
    assert barcodes[..|barcodes|] == barcodes;
  }

  /** What a JavaScript reader learns from an attribute map: the format, the
      raw and display values, and the value type when the content names one. */
  datatype Summary = Summary(
    format: int64,
    rawValue: Option<string>,
    displayValue: Option<string>,
    valueType: Option<ValueType>)

  function StringAt(m: map<string, Value>, key: string): Option<string> {
    if key in m && m[key].Str? then Some(m[key].s) else None
  }

  function ReadBack(m: map<string, Value>): Option<Summary> {
    if "format" in m && m["format"].Int? && "content" in m && m["content"].Dict? then
      var content := m["content"].entries;
      var valueType := if "type" in content && content["type"].Enum? then Some(content["type"].valueType) else None;
      Some(Summary(m["format"].i, StringAt(m, "rawValue"), StringAt(m, "displayValue"), valueType))
    else
      None
  }

  /** Reading an attribute map back recovers the barcode's format, raw value
      and display value, and its value type unless the switch does not list it. */
  lemma ReadBackConvertBarcode(b: Barcode)
    ensures ReadBack(ConvertBarcode(b)) == Some(Summary(
              b.format, b.rawValue, b.displayValue,
              if b.valueType.Product? then None else Some(b.valueType)))
  {
    ConvertBarcodeShape(b);
    ConvertContentShape(b);
  }

  /** For text-like barcodes the content's `data` is the same text as the
      top-level `rawValue`, and both are absent together. */
  lemma ContentDataIsRawValue(b: Barcode)
    requires CarriesRawValue(b.valueType)
    ensures StringAt(ConvertContent(b), "data") == StringAt(ConvertBarcode(b), "rawValue")
    ensures "data" in ConvertContent(b) <==> "rawValue" in ConvertBarcode(b)
  {
    ConvertBarcodeShape(b);
    ConvertContentShape(b);
  }
}
