/** The volume accumulator: per record of the prediction stream, detect a
    change of subject, save the finished volume, check for the stop signal,
    allocate the next volume, and write the patch
    (engine/inference.py:137-209). */
module Reconstruction {
  import opened Common
  import opened InferenceConfig
  import opened PatchIndexing
  import opened OutputVolume

  /** What the subject registry supplies for one subject: the extent and
      axis-4 size of the volume `matrix_like_input_data_5d` allocates for it,
      and the value that volume starts out with. */
  datatype Subject<V> = Subject(ext: Extent, modalities: nat, fill: V)

  /** One record of a batch: the spatial-info row, split into the subject id
      (column 0) and the remaining coordinates, and the prediction patch. */
  datatype Record<V> = Record(subjectId: int, coords: seq<int>, patch: Patch<V>)

  /** The full spatial-info row, as the stop-signal predicate sees it. */
  function Row<V>(r: Record<V>): seq<int>
  {
    [r.subjectId] + r.coords
  }

  /** Everything that is fixed for one run: the rank mode, the window rule,
      the number of output channels, the subject registry (`get_subject`),
      the stop-signal predicate (`is_stopping_signal`) and the per-voxel
      exchange of axes 3 and 4 that `np.swapaxes` performs. */
  datatype Env<!V> = Env(
    kind: Option<RankKind>,
    window: Window,
    channelsOut: nat,
    registry: map<int, Subject<V>>,
    isStop: seq<int> -> bool,
    swap: V -> V)

  /** The accumulator's state as a value: the current subject id (`img_id`),
      the extent and contents of the current volume (`pred_img`),
      `all_saved_flag`, and the log of every `save_network_output` call, as
      (subject id, volume handed over) pairs in order. */
  datatype Control<V> = Control(imgId: Option<int>, ext: Extent, vol: Volume<V>, allSaved: bool,
                                log: seq<(int, Volume<V>)>)
  {
    /** The ids of the subjects saved so far. */
    function Saved(): seq<int>
    {
      SavedIds(log)
    }
  }

  /** How processing one record ended. */
  datatype Status = Written | Stop | Fail(fault: Fault)

  datatype StepOut<V> = StepOut(control: Control<V>, status: Status)

  function Opt(o: Option<int>): seq<int>
  {
    if o.Some? then [o.value] else []
  }

  /** The placeholder for "no volume yet" (`pred_img = None`). */
  function NoVolume<V>(): Volume<V>
  {
    Volume(0, 0, [])
  }

  /** The state before the first record (engine/inference.py:126, 129). */
  function Initial<V>(): Control<V>
  {
    Control(None, Extent(0, 0, 0), NoVolume(), false, [])
  }

  /** `matrix_like_input_data_5d`: the subject's geometry, filled with the
      subject's initial value, with `channelsOut` entries on axis 3
      (engine/inference.py:161-164). */
  function Fresh<V>(env: Env<V>, sub: Subject<V>): (v: Volume<V>)
    ensures v.channels == env.channelsOut && v.modalities == sub.modalities
  {
    Volume(env.channelsOut, sub.modalities, Filled(sub.ext, sub.fill))
  }

  /** The current volume after an id change: re-laid out for saving if there
      is one (`pred_img` is rebound to the swapped array,
      engine/inference.py:144-146). */
  function AfterSave<V>(c: Control<V>, swap: V -> V): Volume<V>
  {
    if c.imgId.Some? then SavedForm(c.vol, swap) else c.vol
  }

  /** What an id change appends to the save log: the current subject and its
      volume in the saved layout, if there is a current subject
      (engine/inference.py:140-150). */
  function Saving<V>(c: Control<V>, swap: V -> V): (s: seq<(int, Volume<V>)>)
    ensures |s| <= 1
    ensures SavedIds(c.log + s) == c.Saved() + Opt(c.imgId)
  {
    if c.imgId.Some? then
      SavedIdsSnoc(c.log, (c.imgId.value, AfterSave(c, swap)));
      [(c.imgId.value, AfterSave(c, swap))]
    else
      assert c.log + [] == c.log;
      []
  }

  /** Writing a patch into the current volume changes only its contents, and
      fails exactly when the write rule fails, leaving the state alone. */
  function WriteStep<V>(env: Env<V>, c: Control<V>, r: Record<V>): (out: StepOut<V>)
    requires WellFormed(env.window)
    ensures !out.status.Stop?
    ensures out.status.Written? <==> Place(env.kind, env.window, c.ext, r.coords, r.patch).Success?
    ensures out.status.Written? ==>
      var pl := Place(env.kind, env.window, c.ext, r.coords, r.patch).value;
      out.control == c.(vol := Painted(c.vol, pl.box, pl.src))
    ensures !out.status.Written? ==> out.control == c
  {
    match Place(env.kind, env.window, c.ext, r.coords, r.patch)
    case Success(pl) => StepOut(c.(vol := Painted(c.vol, pl.box, pl.src)), Written)
    case Failure(e) => StepOut(c, Fail(e))
  }

  /** One record (engine/inference.py:137-209). */
  function Step<V>(env: Env<V>, c: Control<V>, r: Record<V>): (out: StepOut<V>)
    requires WellFormed(env.window)
    // a record of the current subject only writes
    ensures Some(r.subjectId) == c.imgId ==> out == WriteStep(env, c, r)
    // the current subject changes only on an id change, and never on a stop
    ensures out.control.imgId != c.imgId ==>
      Some(r.subjectId) != c.imgId && !out.status.Stop? && out.control.imgId == Some(r.subjectId)
    ensures !out.status.Stop? ==> out.control.imgId == Some(r.subjectId)
    // the stop signal is checked only on an id change
    ensures out.status.Stop? <==> Some(r.subjectId) != c.imgId && env.isStop(Row(r))
    // on an id change the previous subject, if any, is saved once with its
    // volume in the saved layout, before the stop check; otherwise nothing
    // is saved
    ensures Some(r.subjectId) != c.imgId ==> out.control.log == c.log + Saving(c, env.swap)
    ensures Some(r.subjectId) != c.imgId ==> out.control.Saved() == c.Saved() + Opt(c.imgId)
    ensures Some(r.subjectId) == c.imgId ==> out.control.log == c.log
    // the stop signal sets the flag and allocates nothing
    ensures out.status.Stop? ==>
      out.control == Control(c.imgId, c.ext, AfterSave(c, env.swap), true, c.log + Saving(c, env.swap))
    ensures out.control.allSaved == (c.allSaved || out.status.Stop?)
    // a new subject gets a volume of its registered extent
    ensures Some(r.subjectId) != c.imgId && !out.status.Stop? && r.subjectId in env.registry ==>
      out.control.ext == env.registry[r.subjectId].ext
    ensures Some(r.subjectId) != c.imgId && !env.isStop(Row(r)) && r.subjectId !in env.registry ==>
      out.status == Fail(UnknownSubject)
  {
    if Some(r.subjectId) != c.imgId then
      var vol := AfterSave(c, env.swap);
      var log := c.log + Saving(c, env.swap);
      if env.isStop(Row(r)) then
        StepOut(Control(c.imgId, c.ext, vol, true, log), Stop)
      else if r.subjectId !in env.registry then
        StepOut(Control(Some(r.subjectId), c.ext, vol, c.allSaved, log), Fail(UnknownSubject))
      else
        var sub := env.registry[r.subjectId];
        WriteStep(env, Control(Some(r.subjectId), sub.ext, Fresh(env, sub), c.allSaved, log), r)
    else
      WriteStep(env, c, r)
  }

  /** A record of the current subject writes its patch into the current
      volume; a record of a new subject writes it into the volume freshly
      allocated for that subject, whose other voxels keep the subject's
      initial value (engine/inference.py:159-164, 185-207). */
  lemma StepVolume<V>(env: Env<V>, c: Control<V>, r: Record<V>)
    requires WellFormed(env.window)
    requires Step(env, c, r).status.Written?
    ensures Some(r.subjectId) == c.imgId ==>
      var pl := Place(env.kind, env.window, c.ext, r.coords, r.patch);
      pl.Success? && Step(env, c, r).control.vol == Painted(c.vol, pl.value.box, pl.value.src)
    ensures Some(r.subjectId) != c.imgId ==>
      r.subjectId in env.registry &&
      var sub := env.registry[r.subjectId];
      var pl := Place(env.kind, env.window, sub.ext, r.coords, r.patch);
      pl.Success? && Step(env, c, r).control.vol == Painted(Fresh(env, sub), pl.value.box, pl.value.src)
  {
  }

  /** The ids of a save log. */
  function SavedIds<V>(log: seq<(int, Volume<V>)>): seq<int>
  {
    if log == [] then [] else SavedIds(log[..|log| - 1]) + [log[|log| - 1].0]
  }

  /** Saving one more volume appends its id. */
  lemma SavedIdsSnoc<V>(log: seq<(int, Volume<V>)>, e: (int, Volume<V>))
    ensures SavedIds(log + [e]) == SavedIds(log) + [e.0]
  {
    assert (log + [e])[..|log|] == log;
  }

  /** The accumulator of `run`: `img_id`, `subject_i`, `pred_img` (axes 3 and
      4 kept as `channels` and `modalities`) and `all_saved_flag`, with a log
      of every call to `save_network_output`. */
  class Accumulator<V> {
    const env: Env<V>
    var imgId: Option<int>
    var subject: Option<Subject<V>>
    var pred: array3?<V>
    var channels: nat
    var modalities: nat
    var allSaved: bool
    ghost var saves: seq<(int, Volume<V>)>

    ghost predicate Valid()
      reads this
    {
      WellFormed(env.window) &&
      (imgId.Some? <==> subject.Some?) &&
      (subject.Some? <==> pred != null)
    }

    /** The current volume as a value. */
    ghost function Snapshot(): Volume<V>
      reads this, pred
      requires pred != null
    {
      Volume(channels, modalities, Voxels(pred))
    }

    /** The accumulator as the pure state it stands for. */
    ghost function ControlOf(): Control<V>
      reads this, pred
    {
      Control(imgId,
              if pred == null then Extent(0, 0, 0) else ExtentOf(pred),
              if pred == null then NoVolume() else Snapshot(),
              allSaved, saves)
    }

    constructor (env: Env<V>)
      requires WellFormed(env.window)
      ensures Valid() && this.env == env
      ensures ControlOf() == Initial() && pred == null && saves == []
    {
      this.env := env;
      imgId, subject, pred := None, None, null;
      channels, modalities := 0, 0;
      allSaved := false;
      saves := [];
    }

    /** Hands the current volume to the save collaborator, first exchanging
        axes 3 and 4 in place when axis 3 has more than one entry
        (engine/inference.py:140-150). */
    method SaveCurrent()
      requires Valid() && subject.Some?
      modifies this, pred
      ensures Valid()
      ensures imgId == old(imgId) && subject == old(subject) && pred == old(pred) && allSaved == old(allSaved)
      ensures Snapshot() == SavedForm(old(Snapshot()), env.swap)
      ensures saves == old(saves) + [(imgId.value, SavedForm(old(Snapshot()), env.swap))]
    {
      if channels > 1 {
        MapInPlace(pred, env.swap);
        channels, modalities := modalities, channels;
      }
      saves := saves + [(imgId.value, Snapshot())];
    }

    /** `matrix_like_input_data_5d`: a fresh volume of the subject's geometry
        with `channelsOut` entries on axis 3 (engine/inference.py:161-164). */
    method Allocate(sub: Subject<V>)
      modifies this
      ensures imgId == old(imgId) && allSaved == old(allSaved) && saves == old(saves)
      ensures subject == Some(sub) && pred != null && fresh(pred) && ExtentOf(pred) == sub.ext
      ensures Snapshot() == Fresh(env, sub)
      ensures channels == env.channelsOut && modalities == sub.modalities
      ensures forall x, y, l :: 0 <= x < pred.Length0 && 0 <= y < pred.Length1 && 0 <= l < pred.Length2 ==>
        pred[x, y, l] == sub.fill
    {
      subject := Some(sub);
      pred := new V[sub.ext.x, sub.ext.y, sub.ext.z]((_, _, _) => sub.fill);
      channels, modalities := env.channelsOut, sub.modalities;
      FilledAt(sub.ext, sub.fill);
      SameVoxels(Voxels(pred), Filled(sub.ext, sub.fill), sub.ext);
    }

    /** Pads the patch shape and writes the patch by the rank's rule
        (engine/inference.py:167-209). */
    method WritePatch(r: Record<V>) returns (status: Status)
      requires WellFormed(env.window) && pred != null
      modifies pred
      ensures StepOut(ControlOf(), status) == WriteStep(env, old(ControlOf()), r)
      ensures !status.Written? ==> unchanged(pred)
    {
      var padded := ExpandDims(r.patch.shape, 3);
      PlacePadded(env.kind, env.window, ExtentOf(pred), r.coords, r.patch);
      var placed := Place(env.kind, env.window, ExtentOf(pred), r.coords, Patch(padded, r.patch.at));
      match placed
      case Failure(e) =>
        status := Fail(e);
      case Success(pl) =>
        Fill(pred, pl.box, pl.src);
        status := Written;
        assert Snapshot() == Painted(old(Snapshot()), pl.box, pl.src);
    }

    /** Processes one record: the state moves as `Step` says (the save log
        records the finished volume in its saved layout, the volume changes
        only inside the written box), and the array is the old one or a new
        one (engine/inference.py:137-209). */
    method ProcessRecord(r: Record<V>) returns (status: Status)
      requires Valid()
      modifies this, pred
      ensures status.Fail? || Valid()
      ensures StepOut(ControlOf(), status) == Step(env, old(ControlOf()), r)
      ensures pred == old(pred) || fresh(pred)
      // the same subject keeps its array, and a failed write leaves it untouched
      ensures Some(r.subjectId) == old(imgId) ==> pred == old(pred) && subject == old(subject)
      ensures status.Fail? && Some(r.subjectId) == old(imgId) ==> unchanged(pred)
      // on the stop signal the (re-laid-out) array stays and nothing is allocated
      ensures status.Stop? ==> pred == old(pred) && subject == old(subject)
      // a new subject gets a fresh array
      ensures Some(r.subjectId) != old(imgId) && !status.Stop? && r.subjectId in env.registry ==>
        pred != null && fresh(pred) && subject == Some(env.registry[r.subjectId])
    {
      if Some(r.subjectId) == imgId {
        status := WritePatch(r);
      } else {
        status := ChangeSubject(r);
      }
    }

    /** A record of another subject: save the current volume, if any, then
        either take the stop signal or allocate the new subject's volume and
        write the patch (engine/inference.py:137-164). */
    method ChangeSubject(r: Record<V>) returns (status: Status)
      requires Valid() && Some(r.subjectId) != imgId
      modifies this, pred
      ensures status.Fail? || Valid()
      ensures StepOut(ControlOf(), status) == Step(env, old(ControlOf()), r)
      ensures pred == old(pred) || fresh(pred)
      ensures status.Stop? ==> pred == old(pred) && subject == old(subject)
      ensures !status.Stop? && r.subjectId in env.registry ==>
        pred != null && fresh(pred) && subject == Some(env.registry[r.subjectId])
    {
      ghost var c := ControlOf();
      if subject.Some? {
        SaveCurrent();
      }
      ghost var vol, log := AfterSave(c, env.swap), c.log + Saving(c, env.swap);
      assert ControlOf() == Control(c.imgId, c.ext, vol, c.allSaved, log);
      if env.isStop(Row(r)) {
        allSaved := true;
        assert StepOut(ControlOf(), Stop) == Step(env, c, r);
        return Stop;
      }
      imgId := Some(r.subjectId);
      if r.subjectId !in env.registry {
        assert StepOut(ControlOf(), Fail(UnknownSubject)) == Step(env, c, r);
        return Fail(UnknownSubject);
      }
      ghost var c1 := Control(Some(r.subjectId), env.registry[r.subjectId].ext,
                              Fresh(env, env.registry[r.subjectId]), c.allSaved, log);
      assert Step(env, c, r) == WriteStep(env, c1, r);
      status := StartSubject(r);
    }

    /** Allocates the volume of the subject just made current and writes the
        record's patch into it (engine/inference.py:159-209). */
    method StartSubject(r: Record<V>) returns (status: Status)
      requires WellFormed(env.window) && imgId == Some(r.subjectId) && r.subjectId in env.registry
      modifies this
      ensures status.Fail? || Valid()
      ensures var sub := env.registry[r.subjectId];
        StepOut(ControlOf(), status) ==
        WriteStep(env, Control(old(imgId), sub.ext, Fresh(env, sub), old(allSaved), old(saves)), r)
      ensures pred != null && fresh(pred) && subject == Some(env.registry[r.subjectId])
    {
      var sub := env.registry[r.subjectId];
      Allocate(sub);
      status := WritePatch(r);
    }
  }
}
