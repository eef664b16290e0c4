/** The output volume `pred_img`: a 3-D array of voxels, written box by box
    in place (engine/inference.py:193, 198, 205) and, before it is saved,
    re-laid out by exchanging axes 3 and 4 (engine/inference.py:144-146).
    A voxel value stands for everything the volume holds at one spatial
    position (its channel and modality entries). */
module OutputVolume {
  import opened PatchIndexing

  /** An output volume as a value: the extents of axes 3 and 4 and the
      voxels indexed by x, y and z. */
  datatype Volume<V> = Volume(channels: nat, modalities: nat, voxels: seq<seq<seq<V>>>)

  /** `s` has the extents `e`. */
  ghost predicate Shaped<V>(s: seq<seq<seq<V>>>, e: Extent)
  {
    |s| == e.x &&
    (forall i :: 0 <= i < |s| ==> |s[i]| == e.y) &&
    (forall i, j :: 0 <= i < |s| && 0 <= j < |s[i]| ==> |s[i][j]| == e.z)
  }

  function ExtentOf<V>(a: array3<V>): Extent
  {
    Extent(a.Length0, a.Length1, a.Length2)
  }

  /** The voxels an array holds, as a value. */
  ghost function Voxels<V>(a: array3<V>): (s: seq<seq<seq<V>>>)
    reads a
    ensures Shaped(s, ExtentOf(a))
    ensures forall i, j, l :: 0 <= i < a.Length0 && 0 <= j < a.Length1 && 0 <= l < a.Length2 ==>
      s[i][j][l] == a[i, j, l]
  {
    seq(a.Length0, i reads a requires 0 <= i < a.Length0 =>
      seq(a.Length1, j reads a requires 0 <= j < a.Length1 =>
        seq(a.Length2, l reads a requires 0 <= l < a.Length2 => a[i, j, l])))
  }

  /** Two voxel grids of the same shape that agree everywhere are equal. */
  lemma {:induction false} SameVoxels<V>(s: seq<seq<seq<V>>>, t: seq<seq<seq<V>>>, e: Extent)
    requires Shaped(s, e) && Shaped(t, e)
    requires forall i, j, l :: 0 <= i < e.x && 0 <= j < e.y && 0 <= l < e.z ==> s[i][j][l] == t[i][j][l]
    ensures s == t
  {
    forall i | 0 <= i < e.x
      ensures s[i] == t[i]
    {
      forall j | 0 <= j < e.y
        ensures s[i][j] == t[i][j]
      {
        assert forall l :: 0 <= l < e.z ==> s[i][j][l] == t[i][j][l];
      }
    }
  }

  /** A volume of extent `e` whose every voxel is `v`. */
  function Filled<V>(e: Extent, v: V): seq<seq<seq<V>>>
  {
    seq(e.x, i => seq(e.y, j => seq(e.z, l => v)))
  }

  /** `Filled` has the extent asked for and holds `v` everywhere. */
  lemma FilledAt<V>(e: Extent, v: V)
    ensures Shaped(Filled(e, v), e)
    ensures forall i, j, l :: 0 <= i < e.x && 0 <= j < e.y && 0 <= l < e.z ==> Filled(e, v)[i][j][l] == v
  {
  }

  /** The slice assignment on values. */
  function Paint<V>(s: seq<seq<seq<V>>>, b: Box, src: (int, int, int) -> V): seq<seq<seq<V>>>
  {
    seq(|s|, i requires 0 <= i < |s| =>
      seq(|s[i]|, j requires 0 <= j < |s[i]| =>
        seq(|s[i][j]|, l requires 0 <= l < |s[i][j]| =>
          if b.Has(i, j, l) then src(i, j, l) else s[i][j][l])))
  }

  /** `Paint` keeps the shape; inside the box every voxel becomes `src`,
      outside it keeps its value. */
  lemma PaintAt<V>(s: seq<seq<seq<V>>>, b: Box, src: (int, int, int) -> V)
    ensures var r := Paint(s, b, src);
      |r| == |s| &&
      (forall i :: 0 <= i < |s| ==> |r[i]| == |s[i]|) &&
      (forall i, j :: 0 <= i < |s| && 0 <= j < |s[i]| ==> |r[i][j]| == |s[i][j]|) &&
      (forall i, j, l :: 0 <= i < |s| && 0 <= j < |s[i]| && 0 <= l < |s[i][j]| ==>
        r[i][j][l] == if b.Has(i, j, l) then src(i, j, l) else s[i][j][l])
  {
  }

  /** Writing a box keeps the volume's axes 3 and 4. */
  function Painted<V>(v: Volume<V>, b: Box, src: (int, int, int) -> V): (r: Volume<V>)
    ensures r.channels == v.channels && r.modalities == v.modalities
  {
    Volume(v.channels, v.modalities, Paint(v.voxels, b, src))
  }

  /** Applies a per-voxel function everywhere. */
  function MapVoxels<V>(s: seq<seq<seq<V>>>, f: V -> V): (r: seq<seq<seq<V>>>)
    ensures |r| == |s|
    ensures forall i :: 0 <= i < |s| ==> |r[i]| == |s[i]|
    ensures forall i, j :: 0 <= i < |s| && 0 <= j < |s[i]| ==> |r[i][j]| == |s[i][j]|
    ensures forall i, j, l :: 0 <= i < |s| && 0 <= j < |s[i]| && 0 <= l < |s[i][j]| ==>
      r[i][j][l] == f(s[i][j][l])
  {
    seq(|s|, i requires 0 <= i < |s| =>
      seq(|s[i]|, j requires 0 <= j < |s[i]| =>
        seq(|s[i][j]|, l requires 0 <= l < |s[i][j]| => f(s[i][j][l]))))
  }

  /** `np.swapaxes(pred_img, 4, 3)`: axes 3 and 4 change places, and so does
      each voxel's channel/modality content (`swap`). */
  function Swapped<V>(v: Volume<V>, swap: V -> V): (r: Volume<V>)
    ensures r.channels == v.modalities && r.modalities == v.channels
  {
    Volume(v.modalities, v.channels, MapVoxels(v.voxels, swap))
  }

  /** The layout handed to the save collaborator: axes 3 and 4 are exchanged
      exactly when axis 3 has more than one entry (engine/inference.py:144-150). */
  function SavedForm<V>(v: Volume<V>, swap: V -> V): (r: Volume<V>)
    ensures v.channels > 1 ==> r == Swapped(v, swap)
    ensures v.channels <= 1 ==> r == v
  {
    if v.channels > 1 then Swapped(v, swap) else v
  }

  /** When the per-voxel exchange undoes itself, exchanging the axes twice
      restores the volume: the swap loses nothing. */
  lemma {:induction false} SwappedTwice<V>(v: Volume<V>, swap: V -> V)
    requires forall x :: swap(swap(x)) == x
    ensures Swapped(Swapped(v, swap), swap) == v
  {
    var s := v.voxels;
    var t := MapVoxels(MapVoxels(s, swap), swap);
    forall i | 0 <= i < |s|
      ensures t[i] == s[i]
    {
      forall j | 0 <= j < |s[i]|
        ensures t[i][j] == s[i][j]
      {
        assert |t[i][j]| == |s[i][j]|;
        forall l | 0 <= l < |s[i][j]|
          ensures t[i][j][l] == s[i][j][l]
        {
          assert t[i][j][l] == swap(swap(s[i][j][l]));
        }
      }
      assert |t[i]| == |s[i]|;
    }
    assert |t| == |s|;
  }

  /** Writes `src` into one z-run `[zr.lo, zr.hi)` at (i, j). */
  method FillRun<V>(a: array3<V>, i: int, j: int, zr: Range, src: (int, int, int) -> V)
    requires 0 <= i < a.Length0 && 0 <= j < a.Length1 && 0 <= zr.lo <= zr.hi <= a.Length2
    modifies a
    ensures forall x, y, l :: 0 <= x < a.Length0 && 0 <= y < a.Length1 && 0 <= l < a.Length2 ==>
      a[x, y, l] == if x == i && y == j && zr.Has(l) then src(x, y, l) else old(a[x, y, l])
  {
    var l := zr.lo;
    while l < zr.hi
      invariant zr.lo <= l <= zr.hi
      invariant forall x, y, c :: 0 <= x < a.Length0 && 0 <= y < a.Length1 && 0 <= c < a.Length2 ==>
        a[x, y, c] == if x == i && y == j && zr.lo <= c < l then src(x, y, c) else old(a[x, y, c])
    {
      a[i, j, l] := src(i, j, l);
      l := l + 1;
    }
  }

  /** Writes `src` into the plane `x == i` of the box `[yr) x [zr)`. */
  method FillPlane<V>(a: array3<V>, i: int, yr: Range, zr: Range, src: (int, int, int) -> V)
    requires 0 <= i < a.Length0 && 0 <= yr.lo <= yr.hi <= a.Length1 && 0 <= zr.lo <= zr.hi <= a.Length2
    modifies a
    ensures forall x, y, l :: 0 <= x < a.Length0 && 0 <= y < a.Length1 && 0 <= l < a.Length2 ==>
      a[x, y, l] == if x == i && yr.Has(y) && zr.Has(l) then src(x, y, l) else old(a[x, y, l])
  {
    var j := yr.lo;
    while j < yr.hi
      invariant yr.lo <= j <= yr.hi
      invariant forall x, y, c :: 0 <= x < a.Length0 && 0 <= y < a.Length1 && 0 <= c < a.Length2 ==>
        a[x, y, c] == if x == i && yr.lo <= y < j && zr.Has(c) then src(x, y, c) else old(a[x, y, c])
    {
      FillRun(a, i, j, zr, src);
      j := j + 1;
    }
  }

  /** The slice assignment `pred_img[box] = predictions[...]`: every voxel of
      the box receives `src`, every other voxel keeps its value. */
  method Fill<V>(a: array3<V>, b: Box, src: (int, int, int) -> V)
    requires b.FitsIn(ExtentOf(a))
    modifies a
    ensures forall x, y, l :: 0 <= x < a.Length0 && 0 <= y < a.Length1 && 0 <= l < a.Length2 ==>
      a[x, y, l] == if b.Has(x, y, l) then src(x, y, l) else old(a[x, y, l])
    ensures Voxels(a) == Paint(old(Voxels(a)), b, src)
  {
    ghost var before := Voxels(a);
    if b.IsEmpty() {
      PaintedFrom(Voxels(a), before, b, src, ExtentOf(a));
      return;
    }
    var i := b.x.lo;
    while i < b.x.hi
      invariant b.x.lo <= i <= b.x.hi
      invariant forall x, y, c :: 0 <= x < a.Length0 && 0 <= y < a.Length1 && 0 <= c < a.Length2 ==>
        a[x, y, c] == if b.x.lo <= x < i && b.y.Has(y) && b.z.Has(c) then src(x, y, c) else old(a[x, y, c])
    {
      FillPlane(a, i, b.y, b.z, src);
      i := i + 1;
    }
    PaintedFrom(Voxels(a), before, b, src, ExtentOf(a));
  }

  /** A grid that agrees with `Paint(t, b, src)` everywhere is that grid. */
  lemma PaintedFrom<V>(s: seq<seq<seq<V>>>, t: seq<seq<seq<V>>>, b: Box, src: (int, int, int) -> V, e: Extent)
    requires Shaped(s, e) && Shaped(t, e)
    requires forall i, j, l :: 0 <= i < e.x && 0 <= j < e.y && 0 <= l < e.z ==>
      s[i][j][l] == if b.Has(i, j, l) then src(i, j, l) else t[i][j][l]
    ensures s == Paint(t, b, src)
  {
    PaintAt(t, b, src);
    SameVoxels(s, Paint(t, b, src), e);
  }

  /** Applies `f` to every voxel in place. */
  method MapInPlace<V>(a: array3<V>, f: V -> V)
    modifies a
    ensures Voxels(a) == MapVoxels(old(Voxels(a)), f)
  {
    ghost var before := Voxels(a);
    var i := 0;
    while i < a.Length0
      invariant 0 <= i <= a.Length0
      invariant forall x, y, c :: 0 <= x < a.Length0 && 0 <= y < a.Length1 && 0 <= c < a.Length2 ==>
        a[x, y, c] == if x < i then f(before[x][y][c]) else before[x][y][c]
    {
      var j := 0;
      while j < a.Length1
        invariant 0 <= j <= a.Length1
        invariant forall x, y, c :: 0 <= x < a.Length0 && 0 <= y < a.Length1 && 0 <= c < a.Length2 ==>
          a[x, y, c] == if x < i || (x == i && y < j) then f(before[x][y][c]) else before[x][y][c]
      {
        var l := 0;
        while l < a.Length2
          invariant 0 <= l <= a.Length2
          invariant forall x, y, c :: 0 <= x < a.Length0 && 0 <= y < a.Length1 && 0 <= c < a.Length2 ==>
            a[x, y, c] == if x < i || (x == i && (y < j || (y == j && c < l))) then f(before[x][y][c])
                          else before[x][y][c]
        {
          a[i, j, l] := f(a[i, j, l]);
          l := l + 1;
        }
        j := j + 1;
      }
      i := i + 1;
    }
    SameVoxels(Voxels(a), MapVoxels(before, f), ExtentOf(a));
  }
}
