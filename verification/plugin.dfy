/** The frame-processor plugin: the memoised scanner and `callback`, which
    runs detection on a frame (or a region of it, optionally also on its
    colour-inverted copy) and returns one attribute map per barcode found. */
module Plugin {
  import opened Sdk
  import opened Bridge
  import opened Formats
  import opened ScanRegion
  import opened Convert

  /** A camera frame: whether its sample buffer yields a pixel buffer, and
      that pixel buffer's extent. */
  datatype Frame = Frame(id: nat, hasPixelBuffer: bool, width: nat, height: nat)

  /** The images the plugin hands to MLKit. */
  datatype Image =
    | Sample(frame: Frame)               // `VisionImage(buffer: frame.buffer)`
    | Cropped(frame: Frame, rect: Rect)  // the pixel buffer cropped to `rect`
    | Inverted(source: Image)            // `invert(src:)` of an image

  /** A `BarcodeScanner`: the `generation`-th one built, for `formats`. */
  datatype Scanner = Scanner(generation: nat, formats: BarcodeFormat)

  /** The foreign calls one invocation makes, as functions of their inputs. */
  datatype Vision = Vision(
    results: (Scanner, Image) -> Option<seq<Barcode>>,  // `results(in:)`; None when it throws
    renders: Image -> bool,                              // `createCGImage` returns an image
    inverts: Image -> bool)                              // `invert(src:)` returns an image

  datatype Error = NoBarcodeFormatProvided

  /** How `createScanner` ends: normally, by throwing, or by a runtime trap. */
  datatype Completion = Returned | Threw(error: Error) | Crashed

  /** What `callback` gives the host: nil, a list of attribute maps, or a
      runtime trap (an index out of range, a nil unwrapped with `!`). */
  datatype CallbackResult = Nil | Attributes(items: seq<Value>) | Trap

  /** The two static fields, with the number of scanners built so far. */
  datatype Cache = Cache(scanner: Option<Scanner>, formats: BarcodeFormat, built: nat)

  /** The cached scanner is the last one built, and was built for the cached formats. */
  ghost predicate Consistent(c: Cache) {
    c.scanner.Some? ==> c.scanner.value == Scanner(c.built, c.formats)
  }

  /** The cache after `createScanner` asked for `requested`: a new scanner
      exactly when there was none or the cached formats differ. */
  function Refresh(c: Cache, requested: BarcodeFormat): (d: Cache)
    ensures d.scanner.Some? && d.formats == requested
    ensures Consistent(c) ==> Consistent(d) && d.scanner.value.formats == requested
    ensures d.built == if c.scanner.None? || c.formats != requested then c.built + 1 else c.built
    ensures c.scanner.Some? && c.formats == requested ==> d == c
  {
    if c.scanner.None? || c.formats != requested then
      Cache(Some(Scanner(c.built + 1, requested)), requested, c.built + 1)
    else
      c
  }

  /** Asking twice for the same formats changes nothing the second time, so
      two calls build at most one scanner. */
  lemma RefreshIdempotent(c: Cache, requested: BarcodeFormat)
    ensures Refresh(Refresh(c, requested), requested) == Refresh(c, requested)
    ensures Refresh(Refresh(c, requested), requested).built <= c.built + 1
  {
  }

  /** The cache after `callback`: refreshed when `args[0]` is a list of integers. */
  function CacheAfter(c: Cache, args: seq<Value>): Cache {
    if |args| > 0 && AsIntList(args[0]).Some? then Refresh(c, Requested(AsIntList(args[0]).value)) else c
  }

  /** `options["scanFrame"] as? [String: Int]` */
  function ScanFrameOf(options: map<string, Value>): Option<map<string, int64>> {
    if "scanFrame" in options then AsIntDict(options["scanFrame"]) else None
  }

  /** The image the first detection runs on. */
  function PrimaryImage(frame: Frame, options: map<string, Value>): Image {
    match ScanFrameOf(options)
    case Some(scanFrame) => Cropped(frame, CropRect(scanFrame, frame.width, frame.height))
    case None => Sample(frame)
  }

  /** How a detection step of `callback` ends: with the barcodes found, or
      with `callback` returning early. */
  datatype Detection = Detected(barcodes: seq<Barcode>) | Halted(result: CallbackResult)

  /** The first detection: on the cropped region when a scan frame is given,
      on the whole sample buffer otherwise. */
  function PrimaryDetection(scanner: Scanner, frame: Frame, options: map<string, Value>, vision: Vision): Detection {
    var image := PrimaryImage(frame, options);
    if ScanFrameOf(options).Some? && (!frame.hasPixelBuffer || !vision.renders(image)) then Halted(Nil)
    else match vision.results(scanner, image)
      case None => Halted(Nil)
      case Some(primary) => Detected(primary)
  }

  /** The second detection, on the colour-inverted region, when asked for. */
  function InvertedDetection(scanner: Scanner, frame: Frame, options: map<string, Value>, vision: Vision): Detection {
    var image := PrimaryImage(frame, options);
    if !FlagOrFalse(options, "checkInverted") then Detected([])
    else if ScanFrameOf(options).None? then Halted(if frame.hasPixelBuffer then Trap else Nil)
    else if !vision.inverts(image) then Halted(Nil)
    else match vision.results(scanner, Inverted(image))
      case None => Halted(Nil)
      case Some(inverted) => Detected(inverted)
  }

  /** `callback` after `createScanner` succeeded with `scanner`. */
  function Scan(scanner: Scanner, frame: Frame, options: map<string, Value>, vision: Vision): CallbackResult {
    match PrimaryDetection(scanner, frame, options, vision)
    case Halted(result) => result
    case Detected(primary) =>
      match InvertedDetection(scanner, frame, options, vision)
      case Halted(result) => result
      case Detected(inverted) => Attributes(AttributesOf(primary + inverted))
  }

  /** What `callback` returns when it starts from cache `c`. */
  function Expected(c: Cache, frame: Frame, args: seq<Value>, vision: Vision): CallbackResult {
    if |args| == 0 then Trap
    else match AsIntList(args[0])
      case None => Nil
      case Some(raw) =>
        if |args| < 2 then Trap
        else Scan(Refresh(c, Requested(raw)).scanner.value, frame, DictOrEmpty(args[1]), vision)
  }

  /** The plugin class. Its two static fields are fields of this object, and
      `scannersBuilt` numbers the scanners so that a rebuilt one is a new one. */
  class VisionCameraCodeScanner {
    var barcodeScanner: Option<Scanner>
    var barcodeFormatOptionSet: BarcodeFormat
    var scannersBuilt: nat

    function State(): Cache
      reads this
    {
      Cache(barcodeScanner, barcodeFormatOptionSet, scannersBuilt)
    }

    ghost predicate Valid()
      reads this
    {
      Consistent(State())
    }

    constructor ()
      ensures Valid() && State() == Cache(None, Empty, 0)
    {
      barcodeScanner := None;
      barcodeFormatOptionSet := Empty;
      scannersBuilt := 0;
    }

    /** Builds the scanner for the formats listed in `args[0]`, reusing the
        cached one when it was built for the same formats. */
    method CreateScanner(args: seq<Value>) returns (c: Completion)
      requires Valid()
      modifies this
      ensures Valid()
      ensures |args| == 0 ==> c == Crashed && State() == old(State())
      ensures |args| > 0 && AsIntList(args[0]).None? ==>
                c == Threw(NoBarcodeFormatProvided) && State() == old(State())
      ensures |args| > 0 && AsIntList(args[0]).Some? ==>
                c == Returned && State() == Refresh(old(State()), Requested(AsIntList(args[0]).value))
    {
      if |args| == 0 {
        return Crashed;
      }
      var rawFormats := AsIntList(args[0]);
      if rawFormats.None? {
        return Threw(NoBarcodeFormatProvided);
      }
      var formatOptionSet := FoldFormats(rawFormats.value);
      if barcodeScanner.None? || barcodeFormatOptionSet != formatOptionSet {
        scannersBuilt := scannersBuilt + 1;
        barcodeScanner := Some(Scanner(scannersBuilt, formatOptionSet));
        barcodeFormatOptionSet := formatOptionSet;
      }
      c := Returned;
    }

    /** One invocation of the plugin on `frame`. */
    method Callback(frame: Frame, args: seq<Value>, vision: Vision) returns (r: CallbackResult)
      requires Valid()
      modifies this
      ensures Valid()
      ensures r == Expected(old(State()), frame, args, vision)
      ensures State() == CacheAfter(old(State()), args)
    {
      var created := CreateScanner(args);
      if created.Crashed? {
        return Trap;
      } else if created.Threw? {
        return Nil;
      }
      if |args| < 2 {
        return Trap;
      }
      r := DetectAndConvert(barcodeScanner.value, frame, DictOrEmpty(args[1]), vision);
    }
  }

  /** The rest of `callback` once the scanner exists and the options are read:
      detection on the frame or its region, optionally again on the inverted
      region, then conversion of everything found. */
  method DetectAndConvert(scanner: Scanner, frame: Frame, options: map<string, Value>, vision: Vision)
    returns (r: CallbackResult)
    ensures r == Scan(scanner, frame, options, vision)
  {
    var barcodes: seq<Barcode> := [];
    var ciImage: Option<Image> := None;
    var scanFrame := ScanFrameOf(options);
    if scanFrame.Some? {
      if !frame.hasPixelBuffer {
        return Nil;
      }
      var rect := CropRect(scanFrame.value, frame.width, frame.height);
      ciImage := Some(Cropped(frame, rect));
      assert ciImage.value == PrimaryImage(frame, options);
      if !vision.renders(ciImage.value) {
        return Nil;
      }
      var found := vision.results(scanner, ciImage.value);
      if found.None? {
        return Nil;
      }
      barcodes := barcodes + found.value;
    } else {
      var found := vision.results(scanner, Sample(frame));
      if found.None? {
        return Nil;
      }
      barcodes := barcodes + found.value;
    }
    assert PrimaryDetection(scanner, frame, options, vision) == Detected(barcodes);

    var checkInverted := FlagOrFalse(options, "checkInverted");
    ghost var inverted: seq<Barcode> := [];
    if checkInverted {
      if ciImage.None? {
        if !frame.hasPixelBuffer {
          return Nil;
        }
        // the image made from the pixel buffer here goes to a new local,
        // so `ciImage` stays nil and unwrapping it traps
        return Trap;
      }
      if !vision.inverts(ciImage.value) {
        return Nil;
      }
      var found := vision.results(scanner, Inverted(ciImage.value));
      if found.None? {
        return Nil;
      }
      inverted := found.value;
      barcodes := barcodes + found.value;
    }
    assert InvertedDetection(scanner, frame, options, vision) == Detected(inverted);

    var barCodeAttributes := ConvertBarcodes(barcodes);
    r := Attributes(barCodeAttributes);
  }

  /** When `args[0]` is not a list of integers, `callback` returns nil and
      leaves the cache as it was. */
  lemma NoFormatsGivesNil(c: Cache, frame: Frame, args: seq<Value>, vision: Vision)
    requires |args| > 0 && AsIntList(args[0]).None?
    ensures Expected(c, frame, args, vision) == Nil
    ensures CacheAfter(c, args) == c
  {
  }

  /** Detection runs with a scanner built for exactly the formats requested. */
  lemma ScannerMatchesRequest(c: Cache, args: seq<Value>)
    requires Consistent(c)
    requires |args| > 0 && AsIntList(args[0]).Some?
    ensures CacheAfter(c, args).scanner.Some?
    ensures CacheAfter(c, args).scanner.value.formats == Requested(AsIntList(args[0]).value)
  {
  }

  /** The result lists the attribute maps of the primary scan's barcodes,
      then those of the inverted scan's (none when it was not asked for). */
  lemma AttributesFollowDetections(scanner: Scanner, frame: Frame, options: map<string, Value>, vision: Vision)
    requires Scan(scanner, frame, options, vision).Attributes?
    ensures var image := PrimaryImage(frame, options);
            && vision.results(scanner, image).Some?
            && (FlagOrFalse(options, "checkInverted") ==> vision.results(scanner, Inverted(image)).Some?)
    ensures var image := PrimaryImage(frame, options);
            var primary := vision.results(scanner, image).value;
            var inverted := if FlagOrFalse(options, "checkInverted") then vision.results(scanner, Inverted(image)).value else [];
            Scan(scanner, frame, options, vision).items == AttributesOf(primary) + AttributesOf(inverted)
  {
    var primary := PrimaryDetection(scanner, frame, options, vision).barcodes;
    var inverted := InvertedDetection(scanner, frame, options, vision).barcodes;
    AttributesOfAppend(primary, inverted);
  }

  /** A detection that throws turns the whole result into nil, whichever
      of the two scans it is. */
  lemma ThrowingDetectionGivesNil(scanner: Scanner, frame: Frame, options: map<string, Value>, vision: Vision)
    ensures vision.results(scanner, PrimaryImage(frame, options)).None? ==> Scan(scanner, frame, options, vision) == Nil
    ensures var image := PrimaryImage(frame, options);
            && ScanFrameOf(options).Some?
            && FlagOrFalse(options, "checkInverted")
            && vision.results(scanner, Inverted(image)).None?
            ==> Scan(scanner, frame, options, vision) == Nil
  {
  }

  /** When every stage succeeds and nothing is found, the result is the
      empty list, not nil. */
  lemma NothingFoundGivesEmptyList(scanner: Scanner, frame: Frame, options: map<string, Value>, vision: Vision)
    requires vision.results(scanner, PrimaryImage(frame, options)) == Some([])
    requires ScanFrameOf(options).Some? ==> frame.hasPixelBuffer && vision.renders(PrimaryImage(frame, options))
    requires FlagOrFalse(options, "checkInverted") ==>
               && ScanFrameOf(options).Some?
               && vision.inverts(PrimaryImage(frame, options))
               && vision.results(scanner, Inverted(PrimaryImage(frame, options))) == Some([])
    ensures Scan(scanner, frame, options, vision) == Attributes([])
  {
  }

  /** Asking for the inverted check without a scan frame traps once the
      primary scan has succeeded (or returns nil when the frame has no pixel
      buffer): the pixel-buffer image is never stored in `ciImage`. */
  lemma InvertedWithoutScanFrameFails(scanner: Scanner, frame: Frame, options: map<string, Value>, vision: Vision)
    requires ScanFrameOf(options).None? && FlagOrFalse(options, "checkInverted")
    requires vision.results(scanner, Sample(frame)).Some?
    ensures Scan(scanner, frame, options, vision) == if frame.hasPixelBuffer then Trap else Nil
  {
  }
}
