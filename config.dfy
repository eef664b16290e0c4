/** Configuration values that the inference driver derives before it starts
    reconstructing (engine/inference.py:20-29, 61-68, 83-86). */
module InferenceConfig {
  import opened Common

  /** The three spatial modes the reconstruction loop knows how to write. */
  datatype RankKind = Rank2 | Rank25 | Rank3

  /** The mode selected by comparing `spatial_rank` with 3, 2 and 2.5; any other
      value has no write rule. */
  function Classify(rank: real): Option<RankKind>
  {
    if rank == 3.0 then Some(Rank3)
    else if rank == 2.0 then Some(Rank2)
    else if rank == 2.5 then Some(Rank25)
    else None
  }

  /** Number of spatial axes a patch carries in each mode: 2.5D patches are 2-D. */
  function PatchAxes(k: RankKind): nat
  {
    if k == Rank3 then 3 else 2
  }

  /** `int(np.floor(spatial_rank))`: the number of leading axes the bounds
      asserts cover and the number of origin coordinates in a spatial-info row. */
  function CheckedAxes(rank: real): int
  {
    rank.Floor
  }

  /** Python's `int(r)` on a float: truncation toward zero. */
  function Truncate(r: real): (n: int)
    ensures 0.0 <= r ==> n as real <= r < n as real + 1.0
    ensures r < 0.0 ==> n as real - 1.0 < r <= n as real
  {
    if r >= 0.0 then r.Floor else -((-r).Floor)
  }

  /** Python's `[x] * n`: empty when n is not positive. */
  function Repeat(x: int, n: int): (s: seq<int>)
    ensures |s| == if n <= 0 then 0 else n
    ensures forall i :: 0 <= i < |s| ==> s[i] == x
  {
    if n <= 0 then [] else seq(n, _ => x)
  }

  /** The queue capacity is raised to at least the batch size
      (engine/inference.py:20). */
  function QueueLength(queueLength: int, batchSize: int): (q: int)
    ensures q >= queueLength && q >= batchSize
    ensures q == queueLength || q == batchSize
  {
    if queueLength >= batchSize then queueLength else batchSize
  }

  /** Output channels: one label per voxel, or one probability per class
      (engine/inference.py:29). */
  function ChannelsOut(outputProb: bool, numClasses: int): (n: int)
    ensures !outputProb ==> n == 1
    ensures outputProb ==> n == numClasses
  {
    if !outputProb then 1 else numClasses
  }

  /** Symmetric volume padding: three (before, after) pairs for rank 3, two
      otherwise (engine/inference.py:22-28). */
  function SpatialPadding(rank: real, pad: int): (p: seq<(int, int)>)
    ensures |p| == if rank == 3.0 then 3 else 2
    ensures forall i :: 0 <= i < |p| ==> p[i] == (pad, pad)
  {
    if rank == 3.0 then [(pad, pad), (pad, pad), (pad, pad)]
    else [(pad, pad), (pad, pad)]
  }

  /** Patch shape for an edge length: two axes in 2.5D mode, otherwise
      `int(spatial_rank)` axes (engine/inference.py:61-68). */
  function PatchShape(rank: real, size: int): seq<int>
  {
    if rank == 2.5 then Repeat(size, 2) else Repeat(size, Truncate(rank))
  }

  /** For every supported rank, the patch shape, the origin coordinates in a
      spatial-info row and the asserted axes all agree on the number of axes. */
  lemma PatchShapeMatchesCheckedAxes(rank: real, size: int)
    requires Classify(rank).Some?
    ensures |PatchShape(rank, size)| == PatchAxes(Classify(rank).value)
    ensures CheckedAxes(rank) == PatchAxes(Classify(rank).value)
    ensures forall i :: 0 <= i < |PatchShape(rank, size)| ==> PatchShape(rank, size)[i] == size
  {
    if rank == 2.5 {
      assert (2.5).Floor == 2;
    } else if rank == 2.0 {
      assert Truncate(rank) == 2;
    } else {
      assert Truncate(rank) == 3;
    }
  }

  /** The sampling grid step is the label size, which must be positive; the
      value computed from the border on the line before is overwritten
      (engine/inference.py:83-86). */
  function SamplingGridSize(imageSize: int, labelSize: int, border: int): (r: Result<int, Fault>)
    ensures r.Success? <==> labelSize > 0
    ensures r.Success? ==> r.value == labelSize
    ensures r.Failure? ==> r.error == GridSizeNotPositive
  {
    if labelSize > 0 then Success(labelSize) else Failure(GridSizeNotPositive)
  }
}
