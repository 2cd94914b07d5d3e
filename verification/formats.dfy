/** The set of barcode formats a scanner is built for, and how `createScanner`
    folds the caller's list of raw format numbers into it. */
module Formats {
  import opened Sdk

  /** MLKit's `BarcodeFormat`, an option set over the bits of a Swift `Int`,
      as the set of positions of its one bits. Two option sets are equal
      exactly when their raw values are. */
  type BarcodeFormat = set<nat>

  /** `[]`, the empty option set. */
  const Empty: BarcodeFormat := {}

  /** MLKit's `.all` (raw value 0xFFFF): every format bit the SDK defines. */
  const All: BarcodeFormat := set i: nat | i < 16

  function Pow2(n: nat): (p: nat)
    ensures p >= 1
  {
    if n == 0 then 1 else 2 * Pow2(n - 1)
  }

  /** `BarcodeFormat(rawValue: r)`: the option set holding the bits of `r`'s
      64-bit two's-complement representation. */
  function FromRaw(r: int64): BarcodeFormat {
    set i: nat | i < 64 && (r % 0x1_0000_0000_0000_0000) / Pow2(i) % 2 == 1
  }

  /** What one raw format number adds to the set. The JavaScript side numbers
      "all formats" 0, which is not MLKit's raw value for `.all`. */
  function Contribution(r: int64): BarcodeFormat {
    if r == 0 then All else FromRaw(r)
  }

  /** The contribution of each raw format, in list order. */
  function Contributions(raw: seq<int64>): (parts: seq<BarcodeFormat>)
    ensures |parts| == |raw|
    ensures forall i :: 0 <= i < |raw| ==> parts[i] == Contribution(raw[i])
  {
    seq(|raw|, i requires 0 <= i < |raw| => Contribution(raw[i]))
  }

  /** The option set built by inserting each part in turn into `[]`. */
  function Union(parts: seq<BarcodeFormat>): BarcodeFormat {
    if parts == [] then Empty else Union(parts[..|parts| - 1]) + parts[|parts| - 1]
  }

  /** The option set `createScanner` builds from the raw formats. */
  function Requested(raw: seq<int64>): BarcodeFormat {
    Union(Contributions(raw))
  }

  /** The loop of `createScanner`: `formatOptionSet.insert(...)` for each raw format. */
  method FoldFormats(raw: seq<int64>) returns (formatOptionSet: BarcodeFormat)
    ensures formatOptionSet == Requested(raw)
  {
    ghost var parts := Contributions(raw);
    formatOptionSet := Empty;
    for i := 0 to |raw|
      invariant formatOptionSet == Union(parts[..i])
    {
      if raw[i] == 0 {
        formatOptionSet := formatOptionSet + All;
      } else {
        formatOptionSet := formatOptionSet + FromRaw(raw[i]);
      }
      assert parts[..i + 1][..i] == parts[..i];
    }
    assert parts[..|raw|] == parts;
  }

  lemma {:induction false} UnionContainsEach(parts: seq<BarcodeFormat>, i: nat)
    requires i < |parts|
    ensures parts[i] <= Union(parts)
  {
    if i < |parts| - 1 {
      UnionContainsEach(parts[..|parts| - 1], i);
    }
  }

  lemma {:induction false} UnionIsLeast(parts: seq<BarcodeFormat>, bound: BarcodeFormat)
    requires forall i :: 0 <= i < |parts| ==> parts[i] <= bound
    ensures Union(parts) <= bound
  {
    if parts != [] {
      var init := parts[..|parts| - 1];
      UnionIsLeast(init, bound);
    }
  }

  lemma {:induction false} UnionMembers(parts: seq<BarcodeFormat>, f: nat)
    ensures f in Union(parts) <==> exists i :: 0 <= i < |parts| && f in parts[i]
  {
    if parts != [] {
      var init := parts[..|parts| - 1];
      UnionMembers(init, f);
      if f in Union(init) {
        var i :| 0 <= i < |init| && f in init[i];
        assert f in parts[i];
      }
      if exists i :: 0 <= i < |parts| && f in parts[i] {
        var i :| 0 <= i < |parts| && f in parts[i];
        if i < |init| {
          assert f in init[i];
        }
      }
    }
  }

  /** A format bit is requested exactly when some raw format in the list
      contributes it. */
  lemma RequestedMembers(raw: seq<int64>, f: nat)
    ensures f in Requested(raw) <==> exists i :: 0 <= i < |raw| && f in Contribution(raw[i])
  {
    var parts := Contributions(raw);
    UnionMembers(parts, f);
    if exists i :: 0 <= i < |raw| && f in Contribution(raw[i]) {
      var i :| 0 <= i < |raw| && f in Contribution(raw[i]);
      assert f in parts[i];
    }
  }

  /** Every raw format in the list contributes to the requested set. */
  lemma RequestedContainsEach(raw: seq<int64>, i: nat)
    requires i < |raw|
    ensures Contribution(raw[i]) <= Requested(raw)
  {
    UnionContainsEach(Contributions(raw), i);
  }

  /** A raw format of 0 anywhere in the list requests every format. */
  lemma ZeroRequestsAll(raw: seq<int64>)
    requires 0 in raw
    ensures All <= Requested(raw)
  {
    var i :| 0 <= i < |raw| && raw[i] == 0;
    RequestedContainsEach(raw, i);
  }

  /** The requested set is the least one containing every contribution: it
      holds no format bit that no entry of the list asked for. */
  lemma RequestedIsLeast(raw: seq<int64>, bound: BarcodeFormat)
    requires forall i :: 0 <= i < |raw| ==> Contribution(raw[i]) <= bound
    ensures Requested(raw) <= bound
  {
    UnionIsLeast(Contributions(raw), bound);
  }

  /** The requested set depends only on which raw formats occur in the list:
      neither their order nor repetitions matter. */
  lemma RequestedIgnoresOrderAndDuplicates(xs: seq<int64>, ys: seq<int64>)
    requires forall r :: r in xs <==> r in ys
    ensures Requested(xs) == Requested(ys)
  {
    forall i | 0 <= i < |xs| ensures Contribution(xs[i]) <= Requested(ys) {
      assert xs[i] in ys;
      var j :| 0 <= j < |ys| && ys[j] == xs[i];
      RequestedContainsEach(ys, j);
    }
    forall j | 0 <= j < |ys| ensures Contribution(ys[j]) <= Requested(xs) {
      assert ys[j] in xs;
      var i :| 0 <= i < |xs| && xs[i] == ys[j];
      RequestedContainsEach(xs, i);
    }
    RequestedIsLeast(xs, Requested(ys));
    RequestedIsLeast(ys, Requested(xs));
  }
}
