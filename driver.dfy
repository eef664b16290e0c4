/** The reconstruction driver: pull batches, feed every record to the
    accumulator, stop a batch early on the stop signal, and leave through one
    of the exit paths, shutting the producer down on each
    (engine/inference.py:125-135, 213-229). */
module Driver {
  import opened Common
  import opened PatchIndexing
  import opened OutputVolume
  import opened Reconstruction

  /** What happens once the batches given to the model are used up: the
      coordinator asks to stop, the queue raises `OutOfRangeError`, the user
      interrupts, or pulling a batch raises another exception. */
  datatype Ending = CoordinatorStop | OutOfRange | Interrupted | ProducerError

  /** The way the driver left its loop. */
  datatype Exit = CoordinatorStopped | Exhausted | Cancelled | Failed(fault: Fault)

  /** How a batch's record loop ended. */
  datatype BatchEnd = Finished | StopSeen | Faulted(fault: Fault)

  /** The result of a run: its exit, the accumulator's final control state
      and the number of `close_all` calls. */
  datatype Final<V> = Final(exit: Exit, control: Control<V>, closes: nat)

  /** The exit path an ending takes (engine/inference.py:133-134, 213-223):
      only an exception other than the two expected ones is a failure. */
  function ExitOf(e: Ending): (x: Exit)
    ensures x.Failed? <==> e == ProducerError
    ensures x.Failed? ==> x.fault == ProducerFailure
  {
    match e
    case CoordinatorStop => CoordinatorStopped
    case OutOfRange => Exhausted
    case Interrupted => Cancelled
    case ProducerError => Failed(ProducerFailure)
  }

  /** `close_all` calls on an exit path: the `finally` clause always, and the
      generic exception handler before it (engine/inference.py:223, 229). */
  function ClosesOf(e: Ending): (n: nat)
    ensures 1 <= n <= 2
    ensures n == 2 <==> ExitOf(e).Failed?
  {
    if e == ProducerError then 2 else 1
  }

  /** The per-batch `for` loop (engine/inference.py:136-209): a stop signal or
      a fault ends it and the records after it are not looked at. The save
      log only grows, by at most one entry per record, and the flag is set
      exactly when it was set before or the batch ended on a stop signal. */
  function RunBatch<V>(env: Env<V>, c: Control<V>, recs: seq<Record<V>>): (r: (Control<V>, BatchEnd))
    requires WellFormed(env.window)
    ensures recs == [] ==> r == (c, Finished)
    ensures c.log <= r.0.log && |r.0.log| <= |c.log| + |recs|
    ensures r.0.allSaved == (c.allSaved || r.1 == StopSeen)
    decreases |recs|
  {
    if recs == [] then (c, Finished)
    else
      var out := Step(env, c, recs[0]);
      match out.status
      case Stop => (out.control, StopSeen)
      case Fail(f) => (out.control, Faulted(f))
      case Written => RunBatch(env, out.control, recs[1..])
  }

  /** The `while True` loop and its exits (engine/inference.py:130-135,
      152-157, 213-229): a stop signal only ends its batch, adding one
      `close_all`; a fault inside the loop is caught by the generic handler. */
  function Drive<V>(env: Env<V>, c: Control<V>, batches: seq<seq<Record<V>>>, ending: Ending, closes: nat): (f: Final<V>)
    requires WellFormed(env.window)
    // every exit path calls `close_all` at least once (engine/inference.py:229)
    ensures f.closes >= closes + 1
    // the run leaves through the ending's path unless a fault ended it
    ensures f.exit != ExitOf(ending) ==> f.exit.Failed?
    // saves are only ever appended, and the flag is never cleared
    ensures c.log <= f.control.log
    ensures c.allSaved ==> f.control.allSaved
    decreases |batches|
  {
    if batches == [] then Final(ExitOf(ending), c, closes + ClosesOf(ending))
    else
      var (c', e) := RunBatch(env, c, batches[0]);
      match e
      case Faulted(f) => Final(Failed(f), c', closes + 2)
      case StopSeen => Drive(env, c', batches[1..], ending, closes + 1)
      case Finished => Drive(env, c', batches[1..], ending, closes)
  }

  /** The `for` loop over one batch (engine/inference.py:136-209): the
      accumulator moves as `RunBatch` says. */
  method ProcessBatch<V>(acc: Accumulator<V>, batch: seq<Record<V>>) returns (end: BatchEnd)
    requires acc.Valid()
    modifies acc, acc.pred
    ensures end.Faulted? || acc.Valid()
    ensures (acc.ControlOf(), end) == RunBatch(acc.env, old(acc.ControlOf()), batch)
    ensures acc.pred == old(acc.pred) || fresh(acc.pred)
  {
    ghost var c0 := acc.ControlOf();
    var i := 0;
    end := Finished;
    while i < |batch|
      invariant 0 <= i <= |batch| && acc.Valid()
      invariant acc.pred == old(acc.pred) || fresh(acc.pred)
      invariant RunBatch(acc.env, c0, batch) == RunBatch(acc.env, acc.ControlOf(), batch[i..])
    {
      HeadTail(batch[i..], []);
      assert batch[i..] + [] == batch[i..] && batch[i..][1..] == batch[i + 1..];
      var status := acc.ProcessRecord(batch[i]);
      match status {
        case Stop =>
          return StopSeen;
        case Fail(f) =>
          return Faulted(f);
        case Written =>
      }
      i := i + 1;
    }
  }

  /** `run` from the `try` on (engine/inference.py:126-229), with the batches
      the producer delivers and what happens after the last of them. */
  method Run<V>(env: Env<V>, batches: seq<seq<Record<V>>>, ending: Ending)
    returns (exit: Exit, allSaved: bool, ghost saves: seq<(int, Volume<V>)>, ghost closes: nat)
    requires WellFormed(env.window)
    ensures exit == Drive(env, Initial(), batches, ending, 0).exit
    ensures allSaved == Drive(env, Initial(), batches, ending, 0).control.allSaved
    ensures saves == Drive(env, Initial(), batches, ending, 0).control.log
    ensures closes == Drive(env, Initial(), batches, ending, 0).closes
  {
    var acc := new Accumulator(env);
    closes := 0;
    ghost var target := Drive(env, Initial(), batches, ending, 0);
    var k := 0;
    while k < |batches|
      invariant 0 <= k <= |batches|
      invariant fresh(acc) && acc.env == env && acc.Valid()
      invariant acc.pred != null ==> fresh(acc.pred)
      invariant Drive(env, acc.ControlOf(), batches[k..], ending, closes) == target
    {
      var end;
      end, closes := FeedBatch(acc, batches[k..], ending, closes);
      assert batches[k..][1..] == batches[k + 1..];
      if end.Faulted? {
        exit, allSaved, saves := Failed(end.fault), acc.allSaved, acc.saves;
        return;
      }
      k := k + 1;
    }
    var closed;
    exit, closed := Leave(ending);
    closes := closes + closed;
    allSaved, saves := acc.allSaved, acc.saves;
  }

  /** One turn of the `while True` loop (engine/inference.py:130-157): the
      first batch goes through the accumulator, a stop signal adds one
      `close_all` and a fault adds the handler's and the `finally` clause's
      two; the run goes on as `Drive` says with the remaining batches. */
  method FeedBatch<V>(acc: Accumulator<V>, batches: seq<seq<Record<V>>>, ending: Ending, ghost closes: nat)
    returns (end: BatchEnd, ghost closes': nat)
    requires acc.Valid() && batches != []
    modifies acc, acc.pred
    ensures end.Faulted? || acc.Valid()
    ensures acc.pred == old(acc.pred) || fresh(acc.pred)
    ensures end.Faulted? ==>
      Drive(acc.env, old(acc.ControlOf()), batches, ending, closes) == Final(Failed(end.fault), acc.ControlOf(), closes')
    ensures !end.Faulted? ==>
      Drive(acc.env, old(acc.ControlOf()), batches, ending, closes) == Drive(acc.env, acc.ControlOf(), batches[1..], ending, closes')
  {
    end := ProcessBatch(acc, batches[0]);
    match end {
      case Faulted(f) =>
        closes' := closes + 2;
      case StopSeen =>
        closes' := closes + 1;
      case Finished =>
        closes' := closes;
    }
  }

  /** The exit paths once the loop is left without a fault: the `break` on
      the coordinator's request, the two expected exceptions, and the generic
      handler, which closes the producer before `finally` does
      (engine/inference.py:133-134, 213-229). */
  method Leave(ending: Ending) returns (exit: Exit, closes: nat)
    ensures exit == ExitOf(ending) && closes == ClosesOf(ending)
  {
    closes := 0;
    match ending {
      case CoordinatorStop =>
        exit := CoordinatorStopped;
      case OutOfRange =>
        exit := Exhausted;
      case Interrupted =>
        exit := Cancelled;
      case ProducerError =>
        exit := Failed(ProducerFailure);
        closes := closes + 1;
    }
    closes := closes + 1;
  }

  /** The first element and the rest of a concatenation. */
  lemma HeadTail<T>(s: seq<T>, t: seq<T>)
    requires s != []
    ensures (s + t)[0] == s[0] && (s + t)[1..] == s[1..] + t
  {
  }

  /** Regrouping around one element. */
  lemma Regroup<T>(a: seq<T>, x: T, c: seq<T>)
    ensures a + [x] + c == a + ([x] + c)
    ensures ([x] + c)[0] == x && ([x] + c)[1..] == c
  {
  }

  // ---------------------------------------------------------------------
  // Properties of the specification

  /** The subject ids of a record stream. */
  function Ids<V>(recs: seq<Record<V>>): (ids: seq<int>)
    ensures |ids| == |recs|
    ensures forall i :: 0 <= i < |recs| ==> ids[i] == recs[i].subjectId
  {
    if recs == [] then [] else [recs[0].subjectId] + Ids(recs[1..])
  }

  /** All records of a sequence of batches, in order. */
  function Flatten<V>(batches: seq<seq<Record<V>>>): seq<Record<V>>
  {
    if batches == [] then [] else batches[0] + Flatten(batches[1..])
  }

  /** The contiguous runs of a sequence of ids: one entry per run, in order. */
  function Collapse(s: seq<int>): (r: seq<int>)
    ensures |r| <= |s|
    ensures s != [] ==> r != [] && r[0] == s[0] && r[|r| - 1] == s[|s| - 1]
    ensures forall i, j :: 0 <= i < j < |r| && j == i + 1 ==> r[i] != r[j]
    decreases |s|
  {
    if |s| <= 1 then s
    else if s[0] == s[1] then Collapse(s[1..])
    else [s[0]] + Collapse(s[1..])
  }

  /** Appending an id either extends the last run or starts a new one. */
  lemma {:induction false} CollapseSnoc(s: seq<int>, y: int)
    ensures Collapse(s + [y]) == if s != [] && s[|s| - 1] == y then Collapse(s) else Collapse(s) + [y]
    decreases |s|
  {
    if |s| == 0 {
      assert s + [y] == [y];
    } else if |s| == 1 {
      assert (s + [y])[1..] == [y];
    } else {
      var t := s[1..];
      assert (s + [y])[1..] == t + [y];
      assert (s + [y])[0] == s[0] && (s + [y])[1] == s[1];
      assert s[|s| - 1] == t[|t| - 1];
      CollapseSnoc(t, y);
      if s[0] != s[1] {
        ConcatAssoc([s[0]], Collapse(t), [y]);
      }
    }
  }

  /** Putting the current subject in front of the ids either merges with
      their first run or starts a run of its own. */
  lemma CollapseCons(o: Option<int>, x: int, t: seq<int>)
    ensures Collapse(Opt(o) + ([x] + t)) ==
      (if o == Some(x) then [] else Opt(o)) + Collapse([x] + t)
  {
    var s := Opt(o) + ([x] + t);
    if o.Some? {
      assert s == [o.value, x] + t && s[1..] == [x] + t;
    } else {
      assert s == [x] + t;
    }
  }

  /** The runs bookkeeping of one step: what the step saved, followed by
      the runs from its record on, is the runs including the previous
      subject. */
  lemma RunsAfterStep(saved: seq<int>, o: Option<int>, x: int, t: seq<int>, saved1: seq<int>)
    requires saved1 == saved + (if o == Some(x) then [] else Opt(o))
    ensures saved1 + Collapse([x] + t) == saved + Collapse(Opt(o) + ([x] + t))
  {
    CollapseCons(o, x, t);
    ConcatAssoc(saved, if o == Some(x) then [] else Opt(o), Collapse([x] + t));
  }

  /** Concatenation regroups freely. */
  lemma ConcatAssoc<T>(a: seq<T>, b: seq<T>, c: seq<T>)
    ensures (a + b) + c == a + (b + c)
  {
  }

  /** A record the accumulator writes without stopping or failing, whatever
      subject is current. */
  predicate Accepted<V>(env: Env<V>, r: Record<V>)
    requires WellFormed(env.window)
  {
    !env.isStop(Row(r)) && r.subjectId in env.registry &&
    Place(env.kind, env.window, env.registry[r.subjectId].ext, r.coords, r.patch).Success?
  }

  /** The current volume has its subject's registered extent. */
  predicate Consistent<V>(env: Env<V>, c: Control<V>)
  {
    c.imgId.Some? ==> c.imgId.value in env.registry && c.ext == env.registry[c.imgId.value].ext
  }

  /** A stop signal or a fault ends the batch and the rest of it is skipped;
      otherwise the next records carry on from where the batch ended. */
  lemma {:induction false} RunBatchConcat<V>(env: Env<V>, c: Control<V>, a: seq<Record<V>>, b: seq<Record<V>>)
    requires WellFormed(env.window)
    ensures RunBatch(env, c, a).1 == Finished ==>
      RunBatch(env, c, a + b) == RunBatch(env, RunBatch(env, c, a).0, b)
    ensures RunBatch(env, c, a).1 != Finished ==> RunBatch(env, c, a + b) == RunBatch(env, c, a)
    decreases |a|
  {
    if a == [] {
      assert a + b == b;
    } else {
      HeadTail(a, b);
      var out := Step(env, c, a[0]);
      if out.status.Written? {
        RunBatchConcat(env, out.control, a[1..], b);
      }
    }
  }

  /** One accepted record writes; it saves the previous subject exactly
      when it changes the subject. */
  lemma StepAccepted<V>(env: Env<V>, c: Control<V>, r: Record<V>)
    requires WellFormed(env.window) && Consistent(env, c) && Accepted(env, r)
    ensures var out := Step(env, c, r);
      out.status == Written && Consistent(env, out.control) &&
      out.control.allSaved == c.allSaved && out.control.imgId == Some(r.subjectId) &&
      out.control.Saved() == c.Saved() + (if c.imgId == Some(r.subjectId) then [] else Opt(c.imgId))
  {
    var out := Step(env, c, r);
    if Some(r.subjectId) == c.imgId {
      assert out == WriteStep(env, c, r);
    } else {
      var sub := env.registry[r.subjectId];
      assert out == WriteStep(env, Control(Some(r.subjectId), sub.ext, Fresh(env, sub), c.allSaved, c.log + Saving(c, env.swap)), r);
    }
  }

  /** Over accepted records, one save happens per change of subject: the
      saved ids followed by the subject still in progress are the runs of the
      ids seen. */
  lemma {:induction false} RunBatchAccepted<V>(env: Env<V>, c: Control<V>, recs: seq<Record<V>>)
    requires WellFormed(env.window) && Consistent(env, c)
    requires forall i :: 0 <= i < |recs| ==> Accepted(env, recs[i])
    ensures RunBatch(env, c, recs).0.Saved() + Opt(RunBatch(env, c, recs).0.imgId) ==
      c.Saved() + Collapse(Opt(c.imgId) + Ids(recs))
    decreases |recs|
  {
    if recs != [] {
      var r, tail := recs[0], recs[1..];
      AcceptedHead(env, c, recs);
      var c1 := Step(env, c, r).control;
      RunBatchAccepted(env, c1, tail);
      RunsAfterWrite(c, c1, r.subjectId, Ids(tail), RunBatch(env, c1, tail).0);
    }
  }

  /** The runs bookkeeping carried over one written record with subject
      `x`: from the state after it to the state before it. */
  lemma RunsAfterWrite<V>(c: Control<V>, c1: Control<V>, x: int, t: seq<int>, e: Control<V>)
    requires c1.Saved() == c.Saved() + (if c.imgId == Some(x) then [] else Opt(c.imgId))
    requires c1.imgId == Some(x)
    requires e.Saved() + Opt(e.imgId) == c1.Saved() + Collapse(Opt(c1.imgId) + t)
    ensures e.Saved() + Opt(e.imgId) == c.Saved() + Collapse(Opt(c.imgId) + ([x] + t))
  {
    RunsAfterStep(c.Saved(), c.imgId, x, t, c1.Saved());
    assert Opt(c1.imgId) + t == [x] + t;
  }

  /** Accepted records never stop or fail, keep the flag, keep the current
      volume consistent with the registry, and leave the last record's
      subject current. */
  lemma {:induction false} AcceptedState<V>(env: Env<V>, c: Control<V>, recs: seq<Record<V>>)
    requires WellFormed(env.window) && Consistent(env, c)
    requires forall i :: 0 <= i < |recs| ==> Accepted(env, recs[i])
    ensures RunBatch(env, c, recs).1 == Finished
    ensures Consistent(env, RunBatch(env, c, recs).0)
    ensures RunBatch(env, c, recs).0.allSaved == c.allSaved
    ensures recs != [] ==> RunBatch(env, c, recs).0.imgId == LastId(Ids(recs))
    decreases |recs|
  {
    if recs != [] {
      AcceptedHead(env, c, recs);
      AcceptedState(env, Step(env, c, recs[0]).control, recs[1..]);
      LastIdCons(recs[0].subjectId, Ids(recs[1..]));
    }
  }

  /** The first of some accepted records is written and hands the rest, all
      accepted, on to the state it leaves. */
  lemma AcceptedHead<V>(env: Env<V>, c: Control<V>, recs: seq<Record<V>>)
    requires WellFormed(env.window) && Consistent(env, c) && recs != []
    requires forall i :: 0 <= i < |recs| ==> Accepted(env, recs[i])
    ensures var c1 := Step(env, c, recs[0]).control;
      RunBatch(env, c, recs) == RunBatch(env, c1, recs[1..]) &&
      Consistent(env, c1) && c1.allSaved == c.allSaved && c1.imgId == Some(recs[0].subjectId) &&
      c1.Saved() == c.Saved() + (if c.imgId == Some(recs[0].subjectId) then [] else Opt(c.imgId))
    ensures forall i :: 0 <= i < |recs[1..]| ==> Accepted(env, recs[1..][i])
    ensures Ids(recs) == [recs[0].subjectId] + Ids(recs[1..])
  {
    AcceptedTail(env, recs);
    StepAccepted(env, c, recs[0]);
    RunBatchWritten(env, c, recs);
  }

  /** A record that is written hands the batch on to the next one. */
  lemma RunBatchWritten<V>(env: Env<V>, c: Control<V>, recs: seq<Record<V>>)
    requires WellFormed(env.window) && recs != [] && Step(env, c, recs[0]).status.Written?
    ensures RunBatch(env, c, recs) == RunBatch(env, Step(env, c, recs[0]).control, recs[1..])
  {
  }

  /** The head and the tail of accepted records are accepted. */
  lemma AcceptedTail<V>(env: Env<V>, recs: seq<Record<V>>)
    requires WellFormed(env.window) && recs != []
    requires forall i :: 0 <= i < |recs| ==> Accepted(env, recs[i])
    ensures Accepted(env, recs[0])
    ensures forall i :: 0 <= i < |recs[1..]| ==> Accepted(env, recs[1..][i])
  {
    forall i | 0 <= i < |recs[1..]|
      ensures Accepted(env, recs[1..][i])
    {
      assert recs[1..][i] == recs[i + 1];
    }
  }

  /** Batches of accepted records behave as their concatenation processed
      in one go. */
  lemma {:induction false} DrivePrefix<V>(env: Env<V>, c: Control<V>, batches: seq<seq<Record<V>>>,
                                          more: seq<seq<Record<V>>>, ending: Ending, n: nat)
    requires WellFormed(env.window) && Consistent(env, c)
    requires forall i :: 0 <= i < |Flatten(batches)| ==> Accepted(env, Flatten(batches)[i])
    ensures Drive(env, c, batches + more, ending, n) ==
      Drive(env, RunBatch(env, c, Flatten(batches)).0, more, ending, n)
    decreases |batches|
  {
    if batches == [] {
      assert batches + more == more;
    } else {
      var b0, rest := batches[0], batches[1..];
      assert Flatten(batches) == b0 + Flatten(rest);
      AcceptedSplit(env, b0, Flatten(rest));
      AcceptedState(env, c, b0);
      RunBatchAccepted(env, c, b0);
      var c1 := RunBatch(env, c, b0).0;
      HeadTail(batches, more);
      DrivePrefix(env, c1, rest, more, ending, n);
      RunBatchConcat(env, c, b0, Flatten(rest));
    }
  }

  /** Acceptance of a concatenation is acceptance of both parts. */
  lemma AcceptedSplit<V>(env: Env<V>, a: seq<Record<V>>, b: seq<Record<V>>)
    requires WellFormed(env.window)
    requires forall i :: 0 <= i < |a + b| ==> Accepted(env, (a + b)[i])
    ensures forall i :: 0 <= i < |a| ==> Accepted(env, a[i])
    ensures forall i :: 0 <= i < |b| ==> Accepted(env, b[i])
  {
    forall i | 0 <= i < |a|
      ensures Accepted(env, a[i])
    {
      assert (a + b)[i] == a[i];
    }
    forall i | 0 <= i < |b|
      ensures Accepted(env, b[i])
    {
      assert (a + b)[|a| + i] == b[i];
    }
  }

  /** Accepted records from the initial state: the saved ids followed by
      the subject in progress are the runs of the ids, and the flag is
      clear. */
  lemma FromStart<V>(env: Env<V>, recs: seq<Record<V>>)
    requires WellFormed(env.window)
    requires forall i :: 0 <= i < |recs| ==> Accepted(env, recs[i])
    ensures RunBatch(env, Initial(), recs).1 == Finished
    ensures Consistent(env, RunBatch(env, Initial(), recs).0)
    ensures !RunBatch(env, Initial(), recs).0.allSaved
    ensures RunBatch(env, Initial(), recs).0.imgId == LastId(Ids(recs))
    ensures var c' := RunBatch(env, Initial(), recs).0;
      c'.Saved() + Opt(c'.imgId) == Collapse(Ids(recs))
  {
    AcceptedState(env, Initial(), recs);
    RunBatchAccepted(env, Initial(), recs);
    NoPrefix(Initial<V>().imgId, Ids(recs));
    NoPrefix(None, Collapse(Ids(recs)));
  }

  /** The last id of a sequence, if any. */
  function LastId(ids: seq<int>): Option<int>
  {
    if ids == [] then None else Some(ids[|ids| - 1])
  }

  /** The last id of a non-empty sequence is that of its tail, if any. */
  lemma LastIdCons(x: int, t: seq<int>)
    ensures LastId([x] + t) == if t == [] then Some(x) else LastId(t)
  {
    if t != [] {
      assert ([x] + t)[|[x] + t| - 1] == t[|t| - 1];
    }
  }

  /** No current subject contributes nothing in front. */
  lemma NoPrefix(o: Option<int>, s: seq<int>)
    requires o.None?
    ensures Opt(o) + s == s && [] + s == s
  {
  }

  /** Carrying on after accepted records of the last batch is the same as
      processing every record up to there from the start. */
  lemma ThroughAccepted<V>(env: Env<V>, f: seq<Record<V>>, recs: seq<Record<V>>, tail: seq<Record<V>>)
    requires WellFormed(env.window)
    requires forall i :: 0 <= i < |f + recs| ==> Accepted(env, (f + recs)[i])
    ensures RunBatch(env, RunBatch(env, Initial(), f).0, recs + tail) ==
      RunBatch(env, RunBatch(env, Initial(), f + recs).0, tail)
  {
    AcceptedSplit(env, f, recs);
    FromStart(env, f);
    var c1 := RunBatch(env, Initial(), f).0;
    AcceptedState(env, c1, recs);
    RunBatchAccepted(env, c1, recs);
    RunBatchConcat(env, c1, recs, tail);
    RunBatchConcat(env, Initial(), f, recs);
  }

  /** The runs after one more record: it extends the last run or starts a
      new one, and only in the second case is the previous subject saved. */
  lemma RunsAfterLast(ids: seq<int>, saved: seq<int>, o: Option<int>, x: int, saved1: seq<int>)
    requires saved + Opt(o) == Collapse(ids)
    requires o == LastId(ids)
    requires o == Some(x) ==> saved1 == saved
    requires o != Some(x) ==> saved1 == saved + Opt(o)
    ensures saved1 + [x] == Collapse(ids + [x])
  {
    CollapseSnoc(ids, x);
  }

  /** Over a stream whose last record is a detected stop signal, every
      contiguous run of subject ids is saved exactly once, in order; the flag
      is set; the rest of the final batch is skipped; and `close_all` runs once
      for the stop signal and then on the exit path
      (engine/inference.py:137-164, 152-157, 224-229). */
  lemma SavesAreRuns<V>(env: Env<V>, batches: seq<seq<Record<V>>>, recs: seq<Record<V>>,
                        stop: Record<V>, rest: seq<Record<V>>, ending: Ending)
    requires WellFormed(env.window)
    requires forall i :: 0 <= i < |Flatten(batches) + recs| ==> Accepted(env, (Flatten(batches) + recs)[i])
    requires env.isStop(Row(stop))
    requires LastId(Ids(Flatten(batches) + recs)) != Some(stop.subjectId)
    ensures var f := Drive(env, Initial(), batches + [recs + [stop] + rest], ending, 0);
      f.control.Saved() == Collapse(Ids(Flatten(batches) + recs)) &&
      f.control.allSaved && f.exit == ExitOf(ending) && f.closes == 1 + ClosesOf(ending)
  {
    ReachLastBatch(env, batches, recs, stop, rest, [], ending);
    assert batches + [recs + [stop] + rest] + [] == batches + [recs + [stop] + rest];
    var c2 := RunBatch(env, Initial(), Flatten(batches) + recs).0;
    FromStart(env, Flatten(batches) + recs);
    StopFirst(env, c2, stop, rest, ending);
  }

  /** A batch starting with a detected stop signal of a new subject, as the
      last batch: the stop ends the run's records. */
  lemma StopFirst<V>(env: Env<V>, c: Control<V>, stop: Record<V>, rest: seq<Record<V>>, ending: Ending)
    requires WellFormed(env.window) && env.isStop(Row(stop)) && Some(stop.subjectId) != c.imgId
    ensures var c' := Step(env, c, stop).control;
      Drive(env, c, [[stop] + rest] + [], ending, 0) == Final(ExitOf(ending), c', 1 + ClosesOf(ending)) &&
      c'.Saved() == c.Saved() + Opt(c.imgId) && c'.allSaved
  {
    assert Step(env, c, stop).status == Stop;
    assert RunBatch(env, c, [stop] + rest) == (Step(env, c, stop).control, StopSeen);
    HeadTail([[stop] + rest], []);
  }

  /** Getting to the last record of interest: after accepted records in
      earlier batches and at the start of the current one, the run goes on
      from the state that processing all of them from the start leaves. */
  lemma ReachLastBatch<V>(env: Env<V>, batches: seq<seq<Record<V>>>, recs: seq<Record<V>>,
                          x: Record<V>, rest: seq<Record<V>>, more: seq<seq<Record<V>>>, ending: Ending)
    requires WellFormed(env.window)
    requires forall i :: 0 <= i < |Flatten(batches) + recs| ==> Accepted(env, (Flatten(batches) + recs)[i])
    ensures Drive(env, Initial(), batches + [recs + [x] + rest] + more, ending, 0) ==
      Drive(env, RunBatch(env, Initial(), Flatten(batches) + recs).0, [[x] + rest] + more, ending, 0)
  {
    var F := Flatten(batches);
    var lb := recs + [x] + rest;
    AcceptedSplit(env, F, recs);
    ConcatAssoc(batches, [lb], more);
    DrivePrefix(env, Initial(), batches, [lb] + more, ending, 0);
    Regroup(recs, x, rest);
    ThroughAccepted(env, F, recs, [x] + rest);
    DriveFirstBatch(env, RunBatch(env, Initial(), F).0, RunBatch(env, Initial(), F + recs).0,
                    lb, [x] + rest, more, ending);
  }

  /** Two first batches that end the same way lead to the same run. */
  lemma DriveFirstBatch<V>(env: Env<V>, c: Control<V>, c': Control<V>, b: seq<Record<V>>, b': seq<Record<V>>,
                           more: seq<seq<Record<V>>>, ending: Ending)
    requires WellFormed(env.window) && RunBatch(env, c, b) == RunBatch(env, c', b')
    ensures Drive(env, c, [b] + more, ending, 0) == Drive(env, c', [b'] + more, ending, 0)
  {
    HeadTail([b], more);
    HeadTail([b'], more);
  }

  /** When the stream runs out (or is cancelled, or the producer fails)
      before any stop signal: the flag stays false, the subject in progress
      is never saved while every earlier run is, and `close_all` is still
      called on the exit path (engine/inference.py:213-229). */
  lemma EndsBeforeStop<V>(env: Env<V>, batches: seq<seq<Record<V>>>, ending: Ending)
    requires WellFormed(env.window)
    requires forall i :: 0 <= i < |Flatten(batches)| ==> Accepted(env, Flatten(batches)[i])
    ensures var f := Drive(env, Initial(), batches, ending, 0);
      !f.control.allSaved && f.exit == ExitOf(ending) && f.closes == ClosesOf(ending) &&
      f.control.Saved() + Opt(f.control.imgId) == Collapse(Ids(Flatten(batches)))
  {
    DrivePrefix(env, Initial(), batches, [], ending, 0);
    assert batches + [] == batches;
    FromStart(env, Flatten(batches));
  }

  /** The stream part of `FaultBeforeStop`: the run ends at the faulty
      record with the handler's and `finally`'s closes. */
  lemma FaultEndsRun<V>(env: Env<V>, batches: seq<seq<Record<V>>>, good: seq<Record<V>>,
                        bad: Record<V>, rest: seq<Record<V>>, more: seq<seq<Record<V>>>, ending: Ending)
    requires WellFormed(env.window)
    requires forall i :: 0 <= i < |Flatten(batches) + good| ==> Accepted(env, (Flatten(batches) + good)[i])
    requires Step(env, RunBatch(env, Initial(), Flatten(batches) + good).0, bad).status.Fail?
    ensures var out := Step(env, RunBatch(env, Initial(), Flatten(batches) + good).0, bad);
      Drive(env, Initial(), batches + [good + [bad] + rest] + more, ending, 0) ==
      Final(Failed(out.status.fault), out.control, 2)
  {
    ReachLastBatch(env, batches, good, bad, rest, more, ending);
    FaultFirst(env, RunBatch(env, Initial(), Flatten(batches) + good).0, bad, rest, more, ending);
  }

  /** A batch whose first record fails ends the run with a failure. */
  lemma FaultFirst<V>(env: Env<V>, c: Control<V>, bad: Record<V>, rest: seq<Record<V>>,
                      more: seq<seq<Record<V>>>, ending: Ending)
    requires WellFormed(env.window) && Step(env, c, bad).status.Fail?
    ensures Drive(env, c, [[bad] + rest] + more, ending, 0) ==
      Final(Failed(Step(env, c, bad).status.fault), Step(env, c, bad).control, 2)
  {
    assert RunBatch(env, c, [bad] + rest) == (Step(env, c, bad).control, Faulted(Step(env, c, bad).status.fault));
    HeadTail([[bad] + rest], more);
  }

  /** A fault before any stop signal aborts the run: later records and
      batches are not processed, the flag stays false, the subject in
      progress is not saved, and `close_all` runs in the handler and in
      `finally` (engine/inference.py:217-229). */
  lemma FaultBeforeStop<V>(env: Env<V>, batches: seq<seq<Record<V>>>, good: seq<Record<V>>,
                           bad: Record<V>, rest: seq<Record<V>>, more: seq<seq<Record<V>>>, ending: Ending)
    requires WellFormed(env.window)
    requires forall i :: 0 <= i < |Flatten(batches) + good| ==> Accepted(env, (Flatten(batches) + good)[i])
    requires !env.isStop(Row(bad))
    requires Step(env, RunBatch(env, Initial(), Flatten(batches) + good).0, bad).status.Fail?
    ensures var f := Drive(env, Initial(), batches + [good + [bad] + rest] + more, ending, 0);
      f.exit == Failed(Step(env, RunBatch(env, Initial(), Flatten(batches) + good).0, bad).status.fault) &&
      !f.control.allSaved && f.closes == 2 &&
      f.control.Saved() + Opt(f.control.imgId) == Collapse(Ids(Flatten(batches) + good + [bad]))
  {
    var F := Flatten(batches);
    FaultEndsRun(env, batches, good, bad, rest, more, ending);
    var c2 := RunBatch(env, Initial(), F + good).0;
    FromStart(env, F + good);
    var out := Step(env, c2, bad);
    assert out.control.imgId == Some(bad.subjectId);
    var ids, saved, saved1 := Ids(F + good), c2.Saved(), out.control.Saved();
    assert saved + Opt(c2.imgId) == Collapse(ids);
    assert c2.imgId == Some(bad.subjectId) ==> saved1 == saved;
    assert c2.imgId != Some(bad.subjectId) ==> saved1 == saved + Opt(c2.imgId);
    RunsAfterLast(ids, saved, c2.imgId, bad.subjectId, saved1);
    IdsSnoc(F + good, bad);
  }

  /** The ids of a stream extended by one record. */
  lemma IdsSnoc<V>(recs: seq<Record<V>>, r: Record<V>)
    ensures Ids(recs + [r]) == Ids(recs) + [r.subjectId]
  {
  }

  /** A stop signal only ends its own batch: the records after it in that
      batch are skipped, and the next batch is processed from the state the
      stop left (engine/inference.py:152-157). */
  lemma StopEndsOnlyItsBatch<V>(env: Env<V>, c: Control<V>, pre: seq<Record<V>>, stop: Record<V>,
                                rest: seq<Record<V>>, more: seq<seq<Record<V>>>, ending: Ending, n: nat)
    requires WellFormed(env.window)
    requires RunBatch(env, c, pre).1 == Finished
    requires Step(env, RunBatch(env, c, pre).0, stop).status.Stop?
    ensures Drive(env, c, [pre + [stop] + rest] + more, ending, n) ==
      Drive(env, Step(env, RunBatch(env, c, pre).0, stop).control, more, ending, n + 1)
  {
    Regroup(pre, stop, rest);
    RunBatchConcat(env, c, pre, [stop] + rest);
    HeadTail([pre + [stop] + rest], more);
  }

  /** Because the stop signal does not leave the outer loop, a further batch
      that starts with a stop signal saves the last subject a second time and
      calls `close_all` again (engine/inference.py:130, 137-157). */
  lemma StopInLaterBatchSavesAgain<V>(env: Env<V>, c: Control<V>, s1: Record<V>, s2: Record<V>,
                                      ending: Ending, n: nat)
    requires WellFormed(env.window) && c.imgId.Some?
    requires env.isStop(Row(s1)) && env.isStop(Row(s2))
    requires Some(s1.subjectId) != c.imgId && Some(s2.subjectId) != c.imgId
    ensures var f := Drive(env, c, [[s1], [s2]], ending, n);
      f.control.Saved() == c.Saved() + [c.imgId.value, c.imgId.value] &&
      f.control.allSaved && f.closes == n + 2 + ClosesOf(ending)
  {
    var c1 := Step(env, c, s1).control;
    assert Step(env, c, s1).status == Stop;
    assert RunBatch(env, c, [s1]) == (c1, StopSeen);
    assert [[s1], [s2]][0] == [s1] && [[s1], [s2]][1..] == [[s2]];
    assert Drive(env, c, [[s1], [s2]], ending, n) == Drive(env, c1, [[s2]], ending, n + 1);
    var c2 := Step(env, c1, s2).control;
    assert Step(env, c1, s2).status == Stop;
    assert RunBatch(env, c1, [s2]) == (c2, StopSeen);
    assert [[s2]][0] == [s2] && [[s2]][1..] == [];
    assert Drive(env, c1, [[s2]], ending, n + 1) == Drive(env, c2, [], ending, n + 2);
  }
}
