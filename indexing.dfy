/** Index mapping from a prediction patch into the output volume
    (engine/inference.py:167-209): which box of the volume a patch writes and
    which voxel of the patch each written voxel comes from. */
module PatchIndexing {
  import opened Common
  import opened InferenceConfig

  /** Offsets relative to a patch origin: the volume receives
      `[origin + destLo, origin + destHi)` and the patch supplies
      `[srcLo, srcHi)`, on every patch axis. */
  datatype Window = Window(destLo: int, destHi: int, srcLo: int, srcHi: int)

  /** A window whose source and destination have the same width and whose
      source starts inside the patch. */
  predicate WellFormed(w: Window)
  {
    w.srcLo >= 0 && w.destHi - w.destLo == w.srcHi - w.srcLo
  }

  /** Border mode: the network keeps the input extent and only the inset
      central region is trusted. */
  predicate BorderMode(imageSize: int, labelSize: int, border: int)
  {
    border > 0 && labelSize == imageSize
  }

  /** The window rule (engine/inference.py:174-183). The shrink-mode offset
      `(image_size - label_size)/2` is Python 2 integer division (the file
      imports `six`), which rounds down: an odd difference puts the extra
      voxel after the window. */
  function WindowFor(imageSize: int, labelSize: int, border: int): (w: Window)
    ensures WellFormed(w)
    ensures BorderMode(imageSize, labelSize, border) ==>
      w.destLo == border && w.destHi == imageSize - border &&
      w.srcLo == border && w.srcHi == imageSize - border
    ensures !BorderMode(imageSize, labelSize, border) ==>
      2 * w.destLo <= imageSize - labelSize <= 2 * w.destLo + 1 &&
      w.destHi - w.destLo == labelSize && w.srcLo == 0 && w.srcHi == labelSize
    ensures !BorderMode(imageSize, labelSize, border) && (imageSize - labelSize) % 2 == 0 ==>
      2 * w.destLo == imageSize - labelSize
  {
    if border > 0 && labelSize == imageSize then
      Window(border, imageSize - border, border, imageSize - border)
    else
      var s := (imageSize - labelSize) / 2;
      Window(s, s + labelSize, 0, labelSize)
  }

  /** The spatial extent of an output volume. */
  datatype Extent = Extent(x: nat, y: nat, z: nat) {
    function Len(a: nat): nat
      requires a < 3
    {
      if a == 0 then x else if a == 1 then y else z
    }

    predicate Has(i: int, j: int, l: int)
    {
      0 <= i < x && 0 <= j < y && 0 <= l < z
    }
  }

  /** A half-open index range; empty when `hi <= lo`. */
  datatype Range = Range(lo: int, hi: int) {
    predicate Has(i: int)
    {
      lo <= i < hi
    }

    predicate IsEmpty()
    {
      hi <= lo
    }

    predicate FitsIn(n: int)
    {
      IsEmpty() || (0 <= lo && hi <= n)
    }
  }

  /** A destination box of the output volume. */
  datatype Box = Box(x: Range, y: Range, z: Range) {
    predicate Has(i: int, j: int, l: int)
    {
      x.Has(i) && y.Has(j) && z.Has(l)
    }

    predicate IsEmpty()
    {
      x.IsEmpty() || y.IsEmpty() || z.IsEmpty()
    }

    predicate FitsIn(e: Extent)
    {
      IsEmpty() || (x.FitsIn(e.x) && y.FitsIn(e.y) && z.FitsIn(e.z))
    }
  }

  /** One network output: its spatial shape and its voxel values. */
  datatype Patch<V> = Patch(shape: seq<nat>, at: (int, int, int) -> V)

  /** Where a patch goes and what each destination voxel receives. */
  datatype Placement<V> = Placement(box: Box, src: (int, int, int) -> V)

  /** A shape padded with trailing singleton axes up to `ndim` axes. */
  function Padded(shape: seq<nat>, ndim: nat): (s: seq<nat>)
    ensures |s| == if |shape| < ndim then ndim else |shape|
    ensures s[..|shape|] == shape
    ensures forall i :: |shape| <= i < |s| ==> s[i] == 1
  {
    if |shape| < ndim then shape + seq(ndim - |shape|, _ => 1) else shape
  }

  /** Padding an already padded shape changes nothing. */
  lemma PaddedIdempotent(shape: seq<nat>, ndim: nat)
    ensures Padded(Padded(shape, ndim), ndim) == Padded(shape, ndim)
  {
  }

  /** The `expand_dims` loop (engine/inference.py:168-169). */
  method ExpandDims(shape: seq<nat>, ndim: nat) returns (padded: seq<nat>)
    ensures padded == Padded(shape, ndim)
  {
    padded := shape;
    while |padded| < ndim
      invariant |shape| <= |padded| <= (if |shape| < ndim then ndim else |shape|)
      invariant padded[..|shape|] == shape
      invariant forall i :: |shape| <= i < |padded| ==> padded[i] == 1
      decreases ndim - |padded|
    {
      padded := padded + [1];
    }
    assert |padded| == |Padded(shape, ndim)|;
    assert forall i :: 0 <= i < |padded| ==> padded[i] == Padded(shape, ndim)[i] by {
      forall i | 0 <= i < |padded|
        ensures padded[i] == Padded(shape, ndim)[i]
      {
        if i < |shape| {
          assert padded[..|shape|][i] == Padded(shape, ndim)[..|shape|][i];
        }
      }
    }
  }

  /** How many leading entries of the spatial-info row (after the subject id)
      a write reads: the origin, plus the slice index in 2.5D mode. */
  function CoordsNeeded(k: RankKind): nat
  {
    if k == Rank25 then 3 else PatchAxes(k)
  }

  /** The two bounds asserts (engine/inference.py:187-189): on the first
      `axes` axes the destination starts at or after 0 and ends at or before
      the volume's extent. */
  predicate InBounds(w: Window, ext: Extent, coords: seq<int>, axes: nat)
    requires axes <= 3 && axes <= |coords|
  {
    forall a :: 0 <= a < axes ==>
      coords[a] + w.destLo >= 0 && coords[a] + w.destHi <= ext.Len(a)
  }

  /** The patch supplies the source window on its first `axes` axes (a
      shorter slice cannot be assigned to the destination). */
  predicate SourceFits(w: Window, s: seq<nat>, axes: nat)
    requires axes <= |s|
  {
    w.srcHi <= w.srcLo || forall a :: 0 <= a < axes ==> w.srcHi <= s[a]
  }

  /** The write rule for one patch (engine/inference.py:172-209): the
      destination box and, for each voxel in it, the patch voxel it copies.
      `coords` is the spatial-info row after the subject id. */
  function Place<V>(kind: Option<RankKind>, w: Window, ext: Extent, coords: seq<int>, p: Patch<V>)
    : (r: Result<Placement<V>, Fault>)
    requires WellFormed(w)
    // a rank without a write rule is an error
    ensures kind.None? ==> r == Failure(UnsupportedRank)
    // the bounds asserts fail exactly when the destination leaves the volume
    // on the asserted axes
    ensures kind.Some? && |coords| >= CoordsNeeded(kind.value) ==>
      (r == Failure(AssertionFailed) <==> !InBounds(w, ext, coords, PatchAxes(kind.value)))
    ensures r.Success? ==> kind.Some? && |coords| >= CoordsNeeded(kind.value)
    // every voxel written lies inside the volume
    ensures r.Success? ==> r.value.box.FitsIn(ext)
    // on each patch axis the destination is the window moved to the origin
    ensures r.Success? ==>
      r.value.box.x == Range(coords[0] + w.destLo, coords[0] + w.destHi) &&
      r.value.box.y == Range(coords[1] + w.destLo, coords[1] + w.destHi)
    ensures r.Success? && kind == Some(Rank3) ==>
      r.value.box.z == Range(coords[2] + w.destLo, coords[2] + w.destHi)
    // rank 2 covers the whole (singleton) third axis
    ensures r.Success? && kind == Some(Rank2) ==> r.value.box.z == Range(0, ext.z)
    // 2.5D writes exactly the slice named by the row, counted from the end
    // when negative
    ensures r.Success? && kind == Some(Rank25) ==>
      r.value.box.z.hi == r.value.box.z.lo + 1 &&
      (r.value.box.z.lo == coords[2] || r.value.box.z.lo == coords[2] + ext.z)
  {
    match kind
    case None => Failure(UnsupportedRank)
    case Some(k) =>
      var n := PatchAxes(k);
      if |coords| < CoordsNeeded(k) then Failure(MalformedInfo)
      else if !InBounds(w, ext, coords, n) then Failure(AssertionFailed)
      else
        var s := Padded(p.shape, 3);
        var at := p.at;
        var rx := Range(coords[0] + w.destLo, coords[0] + w.destHi);
        var ry := Range(coords[1] + w.destLo, coords[1] + w.destHi);
        if !SourceFits(w, s, n) then Failure(ShapeMismatch)
        else
          match k
          case Rank3 =>
            var bz := Range(coords[2] + w.destLo, coords[2] + w.destHi);
            Success(Placement(Box(rx, ry, bz),
              (i, j, l) => at(w.srcLo + (i - rx.lo), w.srcLo + (j - ry.lo), w.srcLo + (l - bz.lo))))
          case Rank2 =>
            if s[2] != 1 && s[2] != ext.z then Failure(ShapeMismatch)
            else
              Success(Placement(Box(rx, ry, Range(0, ext.z)),
                (i, j, l) => at(w.srcLo + (i - rx.lo), w.srcLo + (j - ry.lo), if s[2] == 1 then 0 else l)))
          case Rank25 =>
            var z := coords[2];
            if z < -(ext.z as int) || z >= ext.z || s[2] == 0 then Failure(IndexOutOfRange)
            else
              var zi := if z < 0 then z + ext.z else z;
              Success(Placement(Box(rx, ry, Range(zi, zi + 1)),
                (i, j, l) => at(w.srcLo + (i - rx.lo), w.srcLo + (j - ry.lo), 0)))
  }

  /** A successful placement writes only voxels of the volume, and each of
      them copies the patch voxel at the same offset inside the source
      window, which lies inside the padded patch (engine/inference.py:185-207). */
  lemma PlaceSource<V>(kind: Option<RankKind>, w: Window, ext: Extent, coords: seq<int>, p: Patch<V>)
    requires WellFormed(w) && Place(kind, w, ext, coords, p).Success?
    ensures var r := Place(kind, w, ext, coords, p);
      forall i, j, l :: r.value.box.Has(i, j, l) ==> ext.Has(i, j, l)
    ensures var r := Place(kind, w, ext, coords, p);
      forall i, j, l :: r.value.box.Has(i, j, l) ==>
        var s := Padded(p.shape, 3);
        var a := w.srcLo + (i - r.value.box.x.lo);
        var b := w.srcLo + (j - r.value.box.y.lo);
        w.srcLo <= a < w.srcHi && w.srcLo <= b < w.srcHi && a < s[0] && b < s[1] &&
        (kind == Some(Rank3) ==>
          var c := w.srcLo + (l - r.value.box.z.lo);
          w.srcLo <= c < w.srcHi && c < s[2] && r.value.src(i, j, l) == p.at(a, b, c)) &&
        (kind == Some(Rank2) ==>
          var c := if s[2] == 1 then 0 else l;
          c < s[2] && r.value.src(i, j, l) == p.at(a, b, c)) &&
        (kind == Some(Rank25) ==> 0 < s[2] && r.value.src(i, j, l) == p.at(a, b, 0))
  {
  }

  /** Padding the patch shape first (the `expand_dims` loop) does not change
      the placement: the write rule pads the shape itself. */
  lemma PlacePadded<V>(kind: Option<RankKind>, w: Window, ext: Extent, coords: seq<int>, p: Patch<V>)
    requires WellFormed(w)
    ensures Place(kind, w, ext, coords, Patch(Padded(p.shape, 3), p.at)) == Place(kind, w, ext, coords, p)
  {
    PaddedIdempotent(p.shape, 3);
  }

  /** In border mode the destination box on each patch axis is
      `[origin + border, origin + image_size - border)`, `image_size -
      2*border` wide, and each of its voxels copies the patch voxel at the
      same offset from `border` (engine/inference.py:174-178, 185-205). */
  lemma BorderModePlacement<V>(kind: Option<RankKind>, imageSize: int, labelSize: int, border: int,
                               ext: Extent, coords: seq<int>, p: Patch<V>)
    requires BorderMode(imageSize, labelSize, border)
    requires Place(kind, WindowFor(imageSize, labelSize, border), ext, coords, p).Success?
    ensures var pl := Place(kind, WindowFor(imageSize, labelSize, border), ext, coords, p).value;
      pl.box.x == Range(coords[0] + border, coords[0] + imageSize - border) &&
      pl.box.y == Range(coords[1] + border, coords[1] + imageSize - border) &&
      pl.box.x.hi - pl.box.x.lo == imageSize - 2 * border &&
      pl.box.y.hi - pl.box.y.lo == imageSize - 2 * border
    ensures var pl := Place(kind, WindowFor(imageSize, labelSize, border), ext, coords, p).value;
      forall i, j, l :: pl.box.Has(i, j, l) ==>
        var a := i - coords[0];
        var b := j - coords[1];
        border <= a < imageSize - border && border <= b < imageSize - border &&
        (kind == Some(Rank3) ==> pl.src(i, j, l) == p.at(a, b, l - coords[2])) &&
        (kind == Some(Rank25) ==> pl.src(i, j, l) == p.at(a, b, 0))
  {
  }

  /** In shrink mode the destination box on each patch axis is
      `[origin + s, origin + s + label_size)` with `s` half of `image_size -
      label_size`, rounded down, filled from the patch's `[0, label_size)`
      (engine/inference.py:179-185). */
  lemma ShrinkModePlacement<V>(kind: Option<RankKind>, imageSize: int, labelSize: int, border: int,
                               ext: Extent, coords: seq<int>, p: Patch<V>)
    requires !BorderMode(imageSize, labelSize, border)
    requires Place(kind, WindowFor(imageSize, labelSize, border), ext, coords, p).Success?
    ensures var pl := Place(kind, WindowFor(imageSize, labelSize, border), ext, coords, p).value;
      2 * (pl.box.x.lo - coords[0]) <= imageSize - labelSize <= 2 * (pl.box.x.lo - coords[0]) + 1 &&
      pl.box.y.lo - coords[1] == pl.box.x.lo - coords[0] &&
      pl.box.x.hi - pl.box.x.lo == labelSize && pl.box.y.hi - pl.box.y.lo == labelSize
    ensures var pl := Place(kind, WindowFor(imageSize, labelSize, border), ext, coords, p).value;
      forall i, j, l :: pl.box.Has(i, j, l) ==>
        var a := i - pl.box.x.lo;
        var b := j - pl.box.y.lo;
        0 <= a < labelSize && 0 <= b < labelSize &&
        (kind == Some(Rank25) ==> pl.src(i, j, l) == p.at(a, b, 0))
  {
  }

  /** Padding appends singleton axes after the prediction's own axes, so a
      per-class prediction's class axis takes the third place: in rank 2 a
      class axis longer than the singleton third axis of the volume is a
      broadcast error, and in 2.5D only class 0 is read
      (engine/inference.py:167-169, 196-207). */
  lemma ClassAxisAfterPadding<V>(p: Patch<V>)
    requires p.shape == [4, 4, 3]
    ensures var w := Window(0, 4, 0, 4);
      Place(Some(Rank2), w, Extent(4, 4, 1), [0, 0], p) == Failure(ShapeMismatch) &&
      Place(Some(Rank25), w, Extent(4, 4, 5), [0, 0, 2], p).Success? &&
      forall i, j :: 0 <= i < 4 && 0 <= j < 4 ==>
        Place(Some(Rank25), w, Extent(4, 4, 5), [0, 0, 2], p).value.src(i, j, 2) == p.at(i, j, 0)
  {
    var w := Window(0, 4, 0, 4);
    assert Padded(p.shape, 3) == [4, 4, 3];
    assert InBounds(w, Extent(4, 4, 1), [0, 0], 2);
    assert InBounds(w, Extent(4, 4, 5), [0, 0, 2], 2);
  }

  /** In 2.5D mode the asserts do not cover the slice index: a row whose
      window is in bounds but whose slice index is past the volume fails with
      an index error rather than an assertion, and a negative slice index
      writes a slice counted from the end (engine/inference.py:187-189, 203-205). */
  lemma SliceIndexNotAsserted<V>(p: Patch<V>)
    requires p.shape == [4, 4]
    ensures var w := Window(0, 4, 0, 4);
      var ext := Extent(4, 4, 3);
      InBounds(w, ext, [0, 0, 7], 2) &&
      Place(Some(Rank25), w, ext, [0, 0, 7], p) == Failure(IndexOutOfRange) &&
      Place(Some(Rank25), w, ext, [0, 0, -1], p).Success? &&
      Place(Some(Rank25), w, ext, [0, 0, -1], p).value.box.z == Range(2, 3)
  {
    var w := Window(0, 4, 0, 4);
    var ext := Extent(4, 4, 3);
    assert Padded(p.shape, 3) == [4, 4, 1];
    assert InBounds(w, ext, [0, 0, -1], 2);
  }
}
