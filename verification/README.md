# vision-camera-code-scanner: a verified model of the iOS plugin

The plugin is a frame processor for React Native Vision Camera. For every
camera frame, JavaScript calls `scanBarcodes(frame, formats, options)`. The
plugin's native `callback` then does five things:

- It builds an MLKit barcode scanner for the requested formats, or reuses
  the one it cached.
- It runs detection on the whole frame. When the caller gives a `scanFrame`,
  it runs detection on that region of the frame instead.
- When `checkInverted` is set, it runs detection a second time on the
  colour-inverted region.
- It turns every barcode found into a map of attributes.
- It returns the list of these maps, or nil when something failed.

This project models the logic that belongs to the plugin itself, from
`ios/VisionCameraCodeScanner.swift`. MLKit, CoreImage and `BarcodeConverter`
are foreign code: each call into them is a parameter of the model.

The modules:

- `Sdk`: the MLKit values the plugin reads. These are `Barcode`, its
  `ValueType` and the opaque detail objects. A call of a `BarcodeConverter`
  overload is kept as an unevaluated `Conversion` term.
- `Bridge`: the loosely typed values exchanged with JavaScript (`Any`). It
  also defines the casts the plugin applies to them (`as? [Int]`,
  `as? [String: Int]`, `as? Bool`). Assigning an optional to a dictionary key
  is modelled too: storing nil removes the key.
- `ScanRegion`: the region-of-interest arithmetic. Absent `scanFrame` fields
  are filled in from the image's extent. The origin then moves from the
  top-left corner to CoreImage's bottom-left corner, so `y' = H - y - h`.
- `Formats`: the set of formats a scanner is built for. MLKit's
  `BarcodeFormat` option set is modelled as the set of positions of its one
  bits. `FoldFormats` is the `forEach` loop of `createScanner`. The raw
  value 0 stands for `.all`, and every other raw value `r` stands for
  `BarcodeFormat(rawValue: r)`.
- `Convert`: `convertContent` and `convertBarcode`, and the loop that
  converts every barcode found.
- `Plugin`: the class `VisionCameraCodeScanner`.
  - Its two static fields (the cached scanner and its format set) are
    fields of one object.
  - `scannersBuilt` numbers the scanners built, so that a rebuilt scanner
    can be told apart from the cached one.
  - `Callback` is proved equal to the specification function `Expected`.
  - `DetectAndConvert` is the part of `callback` that runs after
    `createScanner`. It is proved equal to `Scan`.

A `Vision` value stands for the foreign calls of one invocation:

- `results(in:)`, as a function from a scanner and an image to the
  barcodes found, or to None when the call throws;
- whether `createCGImage` returns an image;
- whether `invert(src:)` returns an image.

`callback` has three kinds of outcome, and the model keeps them apart:

- `Nil`: the plugin returns nil. This happens when an error is thrown and
  caught, or when a `guard` fails.
- `Attributes`: the plugin returns the list of attribute maps.
- `Trap`: a runtime trap. This happens when `args` has fewer elements than
  the plugin indexes. It also happens on the inverted check without a
  `scanFrame`: line 54 binds the image from the pixel buffer to a new local
  that shadows `ciImage`, so `ciImage!` at line 57 unwraps nil. The model
  keeps this as written (`InvertedWithoutScanFrameFails`).

## Model

| member | source | states |
|---|---|---|
| `ScanRegion.RequestedRegion` | ios/VisionCameraCodeScanner.swift:24-27 | A field that is present is used as given. An absent `x` or `y` is 0. An absent `width` makes the region reach the image's right edge (`x + width == W`). An absent `height` makes it reach the bottom edge (`y + height == H`). |
| `ScanRegion.ToBottomLeft` | ios/VisionCameraCodeScanner.swift:28-34 | The move to a bottom-left origin keeps `x`, `width` and `height`. It puts the rectangle's top at `H - y`. It keeps the rectangle vertically inside the image exactly when it was inside before (both directions). |
| `ScanRegion.ToBottomLeftInvolutive` | ios/VisionCameraCodeScanner.swift:30-31 | Moving the origin twice gives back the caller's rectangle, so the crop rectangle determines the requested one. |
| `ScanRegion.CropRect` | ios/VisionCameraCodeScanner.swift:24-34 | Without `height`, the crop starts at `y' = 0`. Without `y` and `height`, it also spans the full height `H`. Without `x` and `width`, it spans the full width. With `y` and `height` given, `y' = H - y - h`. The crop is inside `[0, H]` exactly when the requested region is. |
| `Formats.FoldFormats` | ios/VisionCameraCodeScanner.swift:80-88 | The loop's result is `Requested(raw)`, the union of each raw format's contribution. |
| `Formats.RequestedMembers` | ios/VisionCameraCodeScanner.swift:80-88 | A format bit is in the requested set if and only if some raw format in the list contributes it. |
| `Formats.RequestedContainsEach` | ios/VisionCameraCodeScanner.swift:81-87 | Every raw format in the list contributes to the set: 0 contributes `.all`, and any other `r` contributes `BarcodeFormat(rawValue: r)`. |
| `Formats.ZeroRequestsAll` | ios/VisionCameraCodeScanner.swift:82-84 | A 0 anywhere in the list requests every format of `.all`. |
| `Formats.RequestedIsLeast` | ios/VisionCameraCodeScanner.swift:80-88 | Every option set that contains all the contributions contains the requested set, so the requested set holds no bit that nobody asked for. |
| `Formats.RequestedIgnoresOrderAndDuplicates` | ios/VisionCameraCodeScanner.swift:80-88 | Two lists with the same raw formats, in any order and with any repetitions, request the same set. |
| `Plugin.Refresh` | ios/VisionCameraCodeScanner.swift:89-93 | A scanner is built if and only if none is cached or the cached set differs from the requested one. Otherwise the cache is unchanged. Afterwards the scanner is non-nil and the cached set is the requested one. Starting from a consistent cache (the class invariant `Valid()`), the cache stays consistent, so the scanner was built for the requested set. |
| `Plugin.RefreshIdempotent` | ios/VisionCameraCodeScanner.swift:89-93 | A second request for the same formats changes nothing, so two calls in a row build at most one scanner. |
| `Plugin.VisionCameraCodeScanner.constructor` | ios/VisionCameraCodeScanner.swift:7-8 | The cache starts with no scanner and the empty format set. |
| `Plugin.VisionCameraCodeScanner.CreateScanner` | ios/VisionCameraCodeScanner.swift:76-94 | If `args[0]` is not an `[Int]`, the method throws `noBarcodeFormatProvided` and leaves the cache untouched. Otherwise the new cache is `Refresh` of the old cache with the requested set. The invariant holds: the cached scanner is the last one built, for the cached set. |
| `Plugin.VisionCameraCodeScanner.Callback` | ios/VisionCameraCodeScanner.swift:11-74 | The result is `Expected` of the old cache, the frame, the arguments and the foreign calls. The new cache is the old one, refreshed when `args[0]` is an `[Int]`. |
| `Plugin.DetectAndConvert` | ios/VisionCameraCodeScanner.swift:16-67 | Detection on the region or the frame, the optional inverted detection, and the conversion give exactly `Scan`. |
| `Plugin.NoFormatsGivesNil` | ios/VisionCameraCodeScanner.swift:69-79 | When `args[0]` is not an `[Int]`, `callback` returns nil and the cache is unchanged. |
| `Plugin.ScannerMatchesRequest` | ios/VisionCameraCodeScanner.swift:89-93 | After `createScanner`, detection uses a scanner built for exactly the requested formats. |
| `Plugin.ThrowingDetectionGivesNil` | ios/VisionCameraCodeScanner.swift:39-71 | If the primary detection throws, the result is nil. If the inverted detection throws, the result is nil too. |
| `Plugin.AttributesFollowDetections` | ios/VisionCameraCodeScanner.swift:39-67 | A successful result is the primary scan's attribute maps followed by the inverted scan's. Without `checkInverted`, the inverted scan contributes nothing. |
| `Plugin.NothingFoundGivesEmptyList` | ios/VisionCameraCodeScanner.swift:12-73 | When every stage succeeds and nothing is detected, the result is the empty list, not nil. |
| `Plugin.InvertedWithoutScanFrameFails` | ios/VisionCameraCodeScanner.swift:48-57 | With `checkInverted` set and no `scanFrame`, once the primary scan succeeds, the result is a trap when the frame has a pixel buffer and nil when it has none. It is never a list. |
| `Bridge.AsIntList` | ios/VisionCameraCodeScanner.swift:77 | `args[0] as? [Int]` succeeds if and only if the value is a list whose every element is an integer. The result then has one entry per element, and each entry is that element's integer. |
| `Bridge.AsIntDict` | ios/VisionCameraCodeScanner.swift:20 | `options["scanFrame"] as? [String: Int]` succeeds if and only if the value is a dictionary whose every value is an integer. The result then has the same keys, with each key's integer. |
| `Bridge.DictOrEmpty` | ios/VisionCameraCodeScanner.swift:18 | `args[1] as? [String: Any] ?? [:]` is the dictionary itself when `args[1]` is one, and empty for any other value. |
| `Bridge.FlagOrFalse` | ios/VisionCameraCodeScanner.swift:48 | `options["checkInverted"] as? Bool ?? false` is true if and only if the key holds the boolean `true`. An absent key or a value of another type reads as false. |
| `Bridge.Store` | ios/VisionCameraCodeScanner.swift:103-134 | Assigning an optional to a dictionary key: the key is present afterwards if and only if the value is non-nil, and then it holds that value. Every other key is kept. |
| `Bridge.StoreKeepsOthers` | ios/VisionCameraCodeScanner.swift:103-134 | Assigning under one key leaves every other key's value as it was. |
| `Convert.ConvertContent` | ios/VisionCameraCodeScanner.swift:96-127 | The `content` map sets no key other than `type` and `data`. It has `type` if and only if the switch lists the value type. The full case-by-case contract is `Convert.ConvertContentShape`. |
| `Convert.ConvertBarcode` | ios/VisionCameraCodeScanner.swift:129-139 | The attribute map always has `cornerPoints`, `content` and `format`, and has no key outside these three, `displayValue` and `rawValue`. The exact key set and the values are stated by `Convert.ConvertBarcodeShape`. |
| `Convert.AttributesOf` | ios/VisionCameraCodeScanner.swift:63-67 | There is one attribute map per barcode, and the i-th map is the i-th barcode's. |
| `Convert.AttributesOfAppend` | ios/VisionCameraCodeScanner.swift:39-67 | Converting two lists of barcodes one after the other gives the two lists of maps one after the other. |
| `Convert.ConvertBarcodes` | ios/VisionCameraCodeScanner.swift:63-67 | The loop returns `AttributesOf(barcodes)`. |
| `Convert.ConvertContentShape` | ios/VisionCameraCodeScanner.swift:96-127 | For `.unknown`, `.ISBN` and `.text`, `data` is the raw value, and absent when the raw value is nil. For each type that has a converter, `data` is that converter applied to that type's detail object. For any other type, the map is empty and has no `type` key. No key other than `type` and `data` is set. |
| `Convert.ConvertBarcodeShape` | ios/VisionCameraCodeScanner.swift:129-139 | The keys are exactly `cornerPoints`, `content` and `format`, plus `displayValue` and `rawValue` when the barcode has them. `format` is the format's raw value and `content` is `convertContent`'s map. |
| `Convert.ReadBackConvertBarcode` | ios/VisionCameraCodeScanner.swift:129-139 | Reading an attribute map back recovers the barcode's format, raw value and display value. It also recovers the value type, unless the switch does not list that type. |
| `Convert.ContentDataIsRawValue` | ios/VisionCameraCodeScanner.swift:102-134 | For text-like barcodes, the content's `data` and the top-level `rawValue` are the same string, and both are absent together. |

## Left out

- MLKit detection (`BarcodeScanner.barcodeScanner`, `results(in:)`, `VisionImage`) is vendor code. It is a function parameter of the model.
- CoreImage and UIKit image work is not modelled: `CIImage` cropping, `CIContext.createCGImage`, the `CIColorInvert` filter of `invert` (lines 142-150) and `UIImage`. Images are symbolic tokens, and whether rendering and inversion return an image are parameters.
- `BarcodeConverter.convertToMap` and `convertToArray` are not part of this model. Their results are unevaluated terms, and the result of `convertToArray` is taken to be non-nil, so `cornerPoints` is always present.
- `Convert.ConvertContent`: takes the result of `BarcodeConverter.convertToMap` to be non-nil, so `data` is always present for the nine value types that have a converter, even when the barcode's detail object is nil. In the source, a nil result would leave `data` unset, because assigning nil removes a key. `BarcodeConverter` is not part of this model, so when it returns nil is unknown.
- The frame-processor host interface (`FrameProcessorPluginBase`, `CMSampleBufferGetImageBuffer`) and its threading are not modelled. The static fields are one object's fields, and concurrent callers are not modelled.
- `ScanRegion.RequestedRegion`: computes in unbounded integers and does not model Swift's overflow trap on `H - y - h` or `W - x`. It also ignores the conversion of the rectangle to `CGFloat`, and that cropping intersects it with the image's extent.
- `Bridge.AsIntList`: Bool and Int are distinct. The cross-casts of bridged `NSNumber` values (a JavaScript boolean read as an Int, a fractional number refused by `as? Int`) are not modelled. A nil `args` is not modelled either; a short `args` is, as a trap.
- `Sdk.ValueType` lists the thirteen value types MLKit defines. A value type added by a later SDK release would reach the `default` case in the same way as `.product`.
- The pixel buffer's extent is taken as whole numbers (`Int(extent.width)`, `Int(extent.height)` of a pixel-buffer image).
- example/src/App.tsx is a React user interface with a permission request, and its scan-frame sizing uses floating-point ratios. It is not part of this model.
