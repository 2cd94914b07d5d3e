/** The parts of MLKit's barcode API that the plugin reads. The SDK itself
    (detection, its option types' internals, `BarcodeConverter`) is not part
    of this model: its objects appear here only as the values the plugin
    passes along. */
module Sdk {

  datatype Option<+T> = None | Some(value: T)

  /** Swift's `Int`, 64 bits wide on every platform the plugin ships for. */
  type int64 = i: int | -0x8000_0000_0000_0000 <= i < 0x8000_0000_0000_0000

  /** MLKit's `BarcodeValueType`: what kind of payload a barcode carries. */
  datatype ValueType =
    | Unknown
    | ContactInfo
    | Email
    | ISBN
    | Phone
    | Product
    | SMS
    | Text
    | URL
    | WiFi
    | GeographicCoordinates
    | CalendarEvent
    | DriversLicense

  /** An SDK object the plugin never looks inside (a contact card, an e-mail,
      a Wi-Fi configuration, ...): only its identity matters here. */
  type Detail = nat

  /** A corner of a detected barcode, in image coordinates. */
  datatype Point = Point(x: real, y: real)

  /** One detected barcode (`MLKBarcode`), with the properties the plugin reads. */
  datatype Barcode = Barcode(
    format: int64,                  // `format.rawValue`
    valueType: ValueType,
    rawValue: Option<string>,
    displayValue: Option<string>,
    cornerPoints: Option<seq<Point>>,
    contactInfo: Option<Detail>,
    email: Option<Detail>,
    phone: Option<Detail>,
    sms: Option<Detail>,
    url: Option<Detail>,
    wifi: Option<Detail>,
    geoPoint: Option<Detail>,
    calendarEvent: Option<Detail>,
    driverLicense: Option<Detail>)

  /** What a `BarcodeConverter` overload returns, kept as the unevaluated
      application: `DetailMap(t, d)` is `convertToMap` on the detail object
      of value type `t`, `PointArray(ps)` is `convertToArray(points: ps)`. */
  datatype Conversion =
    | DetailMap(kind: ValueType, detail: Option<Detail>)
    | PointArray(points: Option<seq<Point>>)
}
