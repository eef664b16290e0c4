# Patch-to-volume reconstruction of the inference engine

This project models the part of the inference engine's `run` function that
puts a segmentation volume back together from network output patches. The
source is `engine/inference.py`. The model proves properties of that logic
in Dafny.

The model has three layers:

- **Configuration** (`config.dfy`, module `InferenceConfig`). The values
  `run` derives before it starts: queue capacity, output channel count,
  volume padding, patch shapes, and the sampling grid step with its
  positivity assert.
- **Index mapping** (`indexing.dfy`, module `PatchIndexing`). The window rule
  has two modes. In border mode the inset central region of a full-size
  output is used. In shrink mode a smaller output is centred. The bounds
  asserts come next, then the three rank-specific slice assignments (3-D,
  2-D, 2.5-D), as the pure function `Place`. `Place` gives the destination
  box and the patch voxel each written voxel copies. Padding the prediction
  with trailing singleton axes is the method `ExpandDims`.
- **Reconstruction** (`volume.dfy`, `accumulator.dfy`, `driver.dfy`).
  - The output volume `pred_img` is an `array3` of opaque voxel values,
    written box by box in place.
  - The accumulator is the class `Accumulator`. It holds `img_id`,
    `subject_i`, `pred_img` and `all_saved_flag`, plus a ghost log of every
    call to `save_network_output` with the volume handed over.
  - The pure state `Control` stands for the accumulator: the current id,
    the current volume's extent and contents, the flag, and the save log.
  - Its `ProcessRecord` method is proved against the pure transition `Step`.
    `Step` covers detecting a subject change, saving the finished volume
    after the conditional exchange of axes 3 and 4, checking the stop
    signal, allocating the next volume, and writing the patch.
  - The driver `Run` loops over batches (one turn is `FeedBatch`), and
    within a batch over records (`ProcessBatch`). It is proved against the
    pure functions `RunBatch` and `Drive`, volumes and save log included.
  - `Drive` also models the exit paths: exhaustion, cancellation, a
    coordinator stop, and an exception. It also counts the calls to
    `close_all`.

The external collaborators become parameters of an environment `Env`:

- `get_subject` is a registry mapping from subject ids to volume geometry
  and the initial voxel value;
- `is_stopping_signal` is a predicate on spatial-info rows.

`matrix_like_input_data_5d` is modelled as allocating an array of the
subject's extent. `save_network_output` is modelled as appending a
`(subject id, volume)` event to the ghost log.

The delivered batches are a sequence of record sequences. They end in one of
four ways (`Ending`):

- the coordinator asks to stop;
- the queue raises `OutOfRangeError`;
- the user interrupts;
- pulling a batch raises another exception.

A voxel value stands for everything the volume holds at one spatial
position, so the channel and modality entries are folded into the voxel.
The exchange of axes 3 and 4 is therefore a per-voxel function `swap`,
together with exchanging the two extents the volume records.

`spatial_rank` is a real number. The values 3, 2 and 2.5 select a write
rule. Any other value has no write rule and is the fault `UnsupportedRank`,
the `ValueError` of the last branch.

The main results:

- every written voxel lies inside the volume and copies the patch voxel at
  the same offset inside the source window;
- a write changes exactly the destination box;
- over accepted records, each contiguous run of subject ids is saved
  exactly once, in order, and the first record saves nothing;
- the stop signal is checked only on an id change, after the save. It sets
  the flag, allocates nothing, skips the rest of its batch and calls
  `close_all`;
- a run that ends before a stop signal leaves the subject in progress
  unsaved and the flag clear;
- `close_all` is called on every exit path.

## Model

| member | source | states |
|---|---|---|
| InferenceConfig.QueueLength | engine/inference.py:20 | the queue capacity is at least both the configured capacity and the batch size, and equals one of them |
| InferenceConfig.SpatialPadding | engine/inference.py:22-28 | three (pad, pad) pairs when the rank is 3, two otherwise |
| InferenceConfig.ChannelsOut | engine/inference.py:29 | one output channel without probabilities, `num_classes` with them |
| InferenceConfig.Truncate | engine/inference.py:66 | Python's `int()` on a real truncates toward zero, for positive and negative values |
| InferenceConfig.Repeat | engine/inference.py:62-68 | `[x] * n` has length `n`, or 0 when `n` is not positive, and every entry is `x` |
| InferenceConfig.PatchShapeMatchesCheckedAxes | engine/inference.py:61-68 | for ranks 2, 2.5 and 3 the patch shape has as many axes as a patch carries (2, 2, 3), each of the given size; and `floor(spatial_rank)`, the number of asserted axes and origin entries, is that same count |
| InferenceConfig.SamplingGridSize | engine/inference.py:83-86 | the grid step is the label size whenever that is positive, and the assert fails exactly when it is not; the border-based value is overwritten |
| PatchIndexing.WindowFor | engine/inference.py:174-183 | border mode: destination and source offsets are both `[border, image_size - border)`; shrink mode: destination `[s, s + label_size)` with `s` half of `image_size - label_size` rounded down (exactly half when the difference is even), source `[0, label_size)`; the window is well formed for every input |
| PatchIndexing.Padded | engine/inference.py:168-169 | the padded shape keeps the original axes and appends singleton axes up to the target count, never removing any |
| PatchIndexing.PaddedIdempotent | engine/inference.py:168-169 | padding a padded shape again changes nothing |
| PatchIndexing.ExpandDims | engine/inference.py:168-169 | the `expand_dims` loop yields exactly the padded shape |
| PatchIndexing.Place | engine/inference.py:172-209 | an unsupported rank fails; with a long enough row the assertion fails exactly when the destination leaves the volume on the first `floor(rank)` axes; on success the box fits in the volume; on the patch axes it is the window moved to the origin; rank 2 covers the whole (singleton) z axis; 2.5D writes one slice at the row's z, counted from the end when negative |
| PatchIndexing.PlaceSource | engine/inference.py:185-207 | every voxel a successful write touches lies inside the volume and copies the patch voxel at the same offset inside the source window (slice 0 in 2.5D, the broadcast singleton z in 2D), which lies inside the padded patch |
| PatchIndexing.PlacePadded | engine/inference.py:167-169 | padding the prediction before the write leaves the write unchanged |
| PatchIndexing.BorderModePlacement | engine/inference.py:174-205 | in border mode every successful write covers `[origin + border, origin + image_size - border)` on x and y, `image_size - 2*border` wide, and each voxel copies the patch voxel at its offset from the origin, an offset inside `[border, image_size - border)` (and the z offset in 3-D, slice 0 in 2.5D) |
| PatchIndexing.ShrinkModePlacement | engine/inference.py:179-205 | in shrink mode every successful write covers `label_size` voxels on x and y, starting half of `image_size - label_size` (rounded down) after the origin, and reads the patch inside `[0, label_size)` (slice 0 in 2.5D) |
| PatchIndexing.ClassAxisAfterPadding | engine/inference.py:167-207 | a per-class patch padded by `expand_dims` puts its class axis third: in rank 2 with a singleton volume axis the write fails with a shape mismatch, and in 2.5D every voxel of the slice reads class 0 |
| PatchIndexing.SliceIndexNotAsserted | engine/inference.py:187-205 | in 2.5D a row that passes both asserts can still carry a slice index past the volume (an index error), and a negative slice index writes a slice counted from the end |
| OutputVolume.FilledAt | engine/inference.py:161-164 | a newly allocated grid has the subject's extent and the initial value at every voxel |
| OutputVolume.PaintAt | engine/inference.py:191-207 | a slice assignment keeps the grid's shape, gives every voxel of the box its source value and leaves every other voxel as it was |
| OutputVolume.MapVoxels | engine/inference.py:146 | the mapped grid has the same shape and every voxel is the function of the old one |
| OutputVolume.Swapped | engine/inference.py:146 | exchanging axes 3 and 4 exchanges their extents |
| OutputVolume.SavedForm | engine/inference.py:144-150 | the saved layout is the exchanged one exactly when axis 3 has more than one entry, and the volume unchanged otherwise |
| OutputVolume.SwappedTwice | engine/inference.py:146 | when the per-voxel exchange undoes itself, exchanging twice restores the volume, so the save loses nothing |
| OutputVolume.Fill | engine/inference.py:191-207 | the in-place slice assignment gives every voxel of the box its source value and leaves every other voxel as it was; the array's contents are then the painted grid |
| OutputVolume.MapInPlace | engine/inference.py:146 | the array afterwards holds the old voxels mapped by the function |
| Reconstruction.Saving | engine/inference.py:140-150 | an id change saves at most one volume, and the saved ids gain the current subject exactly when there is one |
| Reconstruction.WriteStep | engine/inference.py:166-209 | a write never signals a stop and succeeds exactly when the write rule does; then only the current volume changes, painted at the rule's box with the copied patch voxels; a failed write changes nothing |
| Reconstruction.Step | engine/inference.py:137-209 | a record of the current subject only writes; the subject changes only on an id change and never on a stop, and then becomes the record's; the stop signal is detected exactly on an id change whose row is a stop signal; on an id change the previous subject, if any, is logged once with its volume in the saved layout, before the stop check, otherwise nothing is logged; a stop sets the flag and allocates nothing; a new subject gets its registered extent; an unknown subject fails |
| Reconstruction.StepVolume | engine/inference.py:159-207 | a written record paints the current volume when its subject is current, and otherwise the new subject's freshly allocated volume, at the box and with the sources the write rule gives |
| Reconstruction.Accumulator.constructor | engine/inference.py:126-129 | the accumulator starts with no subject, no volume, a clear flag and an empty save log |
| Reconstruction.Accumulator.SaveCurrent | engine/inference.py:140-150 | the volume is re-laid out in place by the saved-form rule and exactly that form is appended to the save log under the current id |
| Reconstruction.Accumulator.Allocate | engine/inference.py:159-164 | a fresh array of the subject's extent, filled with its initial value, with the output channel count and the subject's axis-4 size: exactly the pure fresh volume |
| Reconstruction.Accumulator.WritePatch | engine/inference.py:166-209 | the state after the write, voxel contents included, is exactly what the pure write gives; a failed write leaves the array untouched |
| Reconstruction.Accumulator.ProcessRecord | engine/inference.py:137-209 | the accumulator, with its volume's contents and its save log of (id, volume) pairs, moves exactly as `Step` says; the same subject keeps its array, and a failed write to it changes nothing; a stop keeps the array and allocates nothing; a new subject gets a fresh array |
| Reconstruction.Accumulator.ChangeSubject | engine/inference.py:137-164 | a record of another subject saves the current volume, then stops, fails on an unknown subject, or allocates and writes, exactly as `Step` says |
| Reconstruction.Accumulator.StartSubject | engine/inference.py:159-209 | allocating the new subject's volume and writing the patch give exactly the pure write into the fresh volume |
| Driver.ExitOf | engine/inference.py:213-223 | only an exception other than an interrupt and the queue's end of input is a failed exit, with the producer's fault |
| Driver.ClosesOf | engine/inference.py:223-229 | every exit path calls `close_all` once or twice, twice exactly on a failure (the handler, then `finally`) |
| Driver.RunBatch | engine/inference.py:136-209 | an empty batch changes nothing; the save log only grows, by at most one entry per record; the flag is set afterwards exactly when it was set before or the batch ended on a stop signal |
| Driver.Drive | engine/inference.py:130-229 | every run calls `close_all` at least once more; it leaves through the ending's exit unless a fault ended it; the save log only grows and the flag is never cleared |
| Driver.ProcessBatch | engine/inference.py:136-209 | the record loop moves the accumulator (ids, flag, the volume's contents and the save log with its volumes) exactly as `RunBatch` says, ending at the first stop signal or fault |
| Driver.FeedBatch | engine/inference.py:130-157 | after one batch the run goes on exactly as `Drive` says, with one more `close_all` after a stop signal, or ends failed with two after a fault |
| Driver.Run | engine/inference.py:125-229 | the exit, the flag, the whole save log (ids and the volumes handed to `save_network_output`) and the number of `close_all` calls are exactly those `Drive` gives for the batches and their ending |
| Driver.Leave | engine/inference.py:213-229 | leaving without a fault takes the ending's exit path with its number of `close_all` calls |
| Driver.Collapse | engine/inference.py:137-159 | the runs of an id sequence keep its first and last ids, are no longer than it, and no two neighbours are equal |
| Driver.CollapseSnoc | engine/inference.py:137-159 | a further id either extends the last run or adds a new run |
| Driver.RunBatchConcat | engine/inference.py:136-157 | a batch's records after a stop signal or a fault are never looked at; otherwise processing continues from where the earlier records left off |
| Driver.StepAccepted | engine/inference.py:137-164 | an accepted record writes, makes its subject current, keeps the flag, and saves the previous subject exactly when the id changes |
| Driver.RunBatchAccepted | engine/inference.py:137-164 | over accepted records the saved ids followed by the subject in progress are the runs of the ids seen |
| Driver.AcceptedState | engine/inference.py:137-209 | accepted records never stop or fail, keep the flag and the volume's extent consistent with the registry, and leave the last record's subject current |
| Driver.DrivePrefix | engine/inference.py:130-136 | splitting accepted records into batches makes no difference |
| Driver.FromStart | engine/inference.py:126-164 | from the initial state the first record saves nothing, and the saved ids followed by the subject in progress are the runs of the ids |
| Driver.SavesAreRuns | engine/inference.py:137-157 | over a stream ending in a stop signal, the saves are exactly the contiguous id runs, in order; the flag is set; and `close_all` is called for the stop and on the exit path |
| Driver.StopFirst | engine/inference.py:137-157 | a last batch that opens with a stop signal of a new subject saves the current subject, sets the flag, and calls `close_all` for the stop and on the exit path |
| Driver.EndsBeforeStop | engine/inference.py:213-229 | when the stream ends before a stop signal the subject in progress is never saved, every earlier run is, the flag stays clear, and `close_all` is still called in `finally` (and in the handler on an exception) |
| Driver.FaultEndsRun | engine/inference.py:217-229 | a fault ends the run at the faulty record, with `close_all` from the handler and from `finally` |
| Driver.FaultBeforeStop | engine/inference.py:217-229 | a fault before any stop signal fails the run with that fault, leaves the flag clear and the subject in progress unsaved, and calls `close_all` twice |
| Driver.StopEndsOnlyItsBatch | engine/inference.py:152-157 | a stop signal skips the rest of its batch, calls `close_all`, and the next batch carries on from the state it left |
| Driver.StopInLaterBatchSavesAgain | engine/inference.py:130-157 | since the stop signal only leaves the batch loop, a later batch starting with a stop signal saves the last subject a second time and calls `close_all` again |

## Left out

- The TensorFlow graph, session, checkpoint restore and the network's forward pass (engine/inference.py:56-123). These are a foreign library and floating-point output; voxel values are an opaque type and each record carries its patch.
- The CSV loader, histogram normalisation, volume loader, grid sampler and input buffer threads (engine/inference.py:34-54, 87-96, 128). Their code is not part of this model; `get_subject` and `is_stopping_signal` are parameters, and only the number of `close_all` calls is kept.
- The coordinator and queue blocking (engine/inference.py:125, 132-134). A coordinator stop, exhaustion, an interrupt or a producer exception is modelled only after the last delivered batch. An interrupt arriving in the middle of a batch is not modelled; it behaves as cancellation after the records already processed.
- Whether `close_all` makes the coordinator stop is not modelled. The batches after a stop signal are whatever the producer still delivers.
- The progress `print` output, the timing, and the traceback printing (engine/inference.py:54, 131, 145, 154, 210-211, 214, 218-222, 226-228).
- `save_network_output` and `matrix_like_input_data_5d` never fail in the model, and `get_subject` fails only for an id missing from the registry (`UnknownSubject`). An exception from any of them would reach the generic handler at engine/inference.py:217-223 and lead to two `close_all` calls, like the faults that are modelled.
- WindowFor: follows Python 2, where `/` on two integers rounds down (the file imports `six.moves`), so an odd `image_size - label_size` gives a rounded-down offset. Under Python 3 `/` gives a float for every difference, so `dest_start` and `dest_end` (engine/inference.py:185) are float arrays, and numpy 1.12 and later reject them as slice bounds at engine/inference.py:191-205; that failure is not modelled.
- Place: in 2.5D the origin slice `1:(1 + spatial_rank)` at engine/inference.py:172 has the float end 3.5. The model reads it as two origin coordinates, as numpy before 1.12 does by truncating the bound; later numpy rejects the float bound, and that failure is not modelled.
- Place: in rank 2 and 2.5D, `expand_dims` appends the missing axes after a per-class prediction's class axis (engine/inference.py:167-169), so that axis lands on the volume's third axis. In rank 2 with more than one class the value cannot be broadcast into the singleton third axis, a `ValueError`; the model reports `ShapeMismatch` (see `ClassAxisAfterPadding`). In 2.5D `predictions[p_:_p, p_:_p, 0, ...]` (engine/inference.py:205-207) keeps class 0 only and numpy broadcasts it to every channel of slice `z`; the model copies class 0's voxel whole, so the broadcast across channels inside a voxel is not modelled.
- Place: treats a destination or source range whose end lies below its start as empty. numpy would read a negative end from the back of the axis. This is only reachable in border mode with `2*border > image_size`.
- Place: reports a patch smaller than the source window as `ShapeMismatch`. numpy clamps slice ends and would still broadcast a slice of length one on such an axis. On z in rank 2, broadcasting of a singleton axis is modelled.
- Place: the fault kinds follow the model's own order of checks. The source raises `ValueError` for an unsupported rank only after the bounds asserts. All these faults land in the same `except Exception` handler, so only the fault label carried by the failed exit depends on the order.
- ProcessBatch: for an empty batch the accumulator's contents (ids, flag, voxels and save log) stay the same, but it is not promised that `pred` is still the same array object rather than a fresh one with the same contents.
- Run: the save log holds each volume's value at the moment of the call. `save_network_output` keeping a reference to the array is not modelled: after a stop signal a later record of the still-current subject writes into the same array, which in the source would also reach an object already handed over.
- Channel and modality axes are folded into the voxel value. Broadcasting a prediction's channel axis onto the volume's, and the layout inside a voxel, are not modelled beyond the per-voxel `swap`.
- `ImagePatch`'s `info_length=2*spatial_rank` (engine/inference.py:73) and `matrix_like_input_data_5d`'s `interp_order` are collaborator parameters and are not modelled.
