/**
 * Completion bookkeeping of the frame executors.  Every executor publishes its run state
 * once (`_start`) and records the end of its circuit once (`_end`).  A root executor also
 * counts the sub-frames that are live and keeps the sub-frames that failed; a sub-frame
 * executor reports its start and its end to its root.  The two `threading.Event`s are
 * booleans, and the lock is left out because every method runs as one step.
 */
module FrameExecutor {
  import opened Wrappers
  import opened Errors
  import opened AggregateError

  /** The thread, event loop and task of a running circuit, reduced to an identity. */
  datatype RunState = RunState(handle: nat)

  datatype ExecError =
    | RuntimeError
    | TimeoutError
    | Aggregate(error: FrameAggregateError)
    | SubFrameError(frameName: string, cause: Exc)

  /** `FrameExecutorImpl`'s own fields: run state, circuit error and the two events. */
  datatype Completion = Completion(runState: Option<RunState>, circuitError: Option<Exc>, futureIsReady: bool, circuitIsEnded: bool)

  const NotStarted := Completion(None, None, false, false)

  predicate CompletionOk(c: Completion) {
    c.runState.Some? <==> c.futureIsReady
  }

  /** `_start`: publishes the run state unless it was published before. */
  function StartStep(c: Completion, rs: RunState): (r: (Completion, Outcome<ExecError>))
    ensures r.1 == Fail(RuntimeError) <==> c.futureIsReady
    ensures r.1.Pass? <==> !c.futureIsReady
    ensures r.1.Fail? ==> r.0 == c
    ensures r.1.Pass? ==> r.0.runState == Some(rs) && r.0.futureIsReady
    ensures r.0.circuitError == c.circuitError && r.0.circuitIsEnded == c.circuitIsEnded
    ensures CompletionOk(c) ==> CompletionOk(r.0)
  {
    if c.futureIsReady then (c, Fail(RuntimeError))
    else (c.(runState := Some(rs), futureIsReady := true), Pass)
  }

  /** `_end`: records the circuit's error unless the end was recorded before. */
  function EndStep(c: Completion, exc: Option<Exc>): (r: (Completion, Outcome<ExecError>))
    ensures r.1 == Fail(RuntimeError) <==> c.circuitIsEnded
    ensures r.1.Pass? <==> !c.circuitIsEnded
    ensures r.1.Fail? ==> r.0 == c
    ensures r.1.Pass? ==> r.0.circuitError == exc && r.0.circuitIsEnded
    ensures r.0.runState == c.runState && r.0.futureIsReady == c.futureIsReady
  {
    if c.circuitIsEnded then (c, Fail(RuntimeError))
    else (c.(circuitError := exc, circuitIsEnded := true), Pass)
  }

  /** An executor publishes one run state and records one end: a second attempt changes nothing. */
  lemma StartAndEndHappenOnce(c: Completion, rs1: RunState, rs2: RunState, e1: Option<Exc>, e2: Option<Exc>)
    ensures StartStep(c, rs1).1.Pass? ==>
      var s := StartStep(c, rs1).0; StartStep(s, rs2) == (s, Fail(RuntimeError)) && s.runState == Some(rs1)
    ensures EndStep(c, e1).1.Pass? ==>
      var t := EndStep(c, e1).0; EndStep(t, e2) == (t, Fail(RuntimeError)) && t.circuitError == e1
  {
  }

  predicate DistinctNames(d: SubErrors) {
    forall i, j | 0 <= i < j < |d| :: d[i].0 != d[j].0
  }

  /** The names after the first are distinct and differ from the first. */
  lemma HeadNotInTail(d: SubErrors)
    requires DistinctNames(d) && d != []
    ensures DistinctNames(d[1..])
    ensures forall p | p in d[1..] :: p.0 != d[0].0
  {
    forall p | p in d[1..] ensures p.0 != d[0].0 {
      var j :| 0 <= j < |d[1..]| && d[1..][j] == p;
      assert d[j + 1] == p;
    }
  }

  /** Putting a pair with a new name in front keeps the names distinct. */
  lemma ConsKeepsDistinct(x: (string, Exc), rest: SubErrors)
    requires DistinctNames(rest)
    requires forall p | p in rest :: p.0 != x.0
    ensures DistinctNames([x] + rest)
  {
    forall i, j | 0 <= i < j < |[x] + rest| ensures ([x] + rest)[i].0 != ([x] + rest)[j].0 {
      if i == 0 {
        assert ([x] + rest)[j] == rest[j - 1];
        assert rest[j - 1] in rest;
      } else {
        assert ([x] + rest)[i] == rest[i - 1] && ([x] + rest)[j] == rest[j - 1];
      }
    }
  }

  /** `d[k] = v` on a dict: an existing key keeps its place, a new key goes last. */
  function DictSet(d: SubErrors, k: string, v: Exc): (r: SubErrors)
    requires DistinctNames(d)
    ensures DistinctNames(r)
    ensures (k, v) in r
    ensures forall p | p in d && p.0 != k :: p in r
    ensures forall p | p in r :: p == (k, v) || (p in d && p.0 != k)
    ensures |r| == if exists p | p in d :: p.0 == k then |d| else |d| + 1
    decreases |d|
  {
    if d == [] then [(k, v)]
    else
      HeadNotInTail(d);
      assert d == [d[0]] + d[1..];
      if d[0].0 == k then
        ConsKeepsDistinct((k, v), d[1..]);
        [(k, v)] + d[1..]
      else
        var rest := DictSet(d[1..], k, v);
        ConsKeepsDistinct(d[0], rest);
        assert (exists p | p in d :: p.0 == k) <==> (exists p | p in d[1..] :: p.0 == k);
        [d[0]] + rest
  }

  /** DictSet keeps an existing key at its place. */
  lemma {:induction false} DictSetKeepsPlace(d: SubErrors, k: string, v: Exc, i: nat)
    requires DistinctNames(d)
    requires i < |d| && d[i].0 == k
    ensures DictSet(d, k, v) == d[i := (k, v)]
    decreases |d|
  {
    if d[0].0 == k {
      assert i == 0;
    } else {
      HeadNotInTail(d);
      assert d[1..][i - 1].0 == k;
      DictSetKeepsPlace(d[1..], k, v, i - 1);
      assert DictSet(d, k, v) == [d[0]] + d[1..][i - 1 := (k, v)];
    }
  }

  /** DictSet appends a new key at the end. */
  lemma {:induction false} DictSetAppends(d: SubErrors, k: string, v: Exc)
    requires DistinctNames(d)
    requires forall p | p in d :: p.0 != k
    ensures DictSet(d, k, v) == d + [(k, v)]
    decreases |d|
  {
    if d != [] {
      assert d[0] in d;
      HeadNotInTail(d);
      forall p | p in d[1..] ensures p.0 != k {
        assert p in d;
      }
      DictSetAppends(d[1..], k, v);
      var rest := DictSet(d[1..], k, v);
      assert DictSet(d, k, v) == [d[0]] + rest;
      assert d + [(k, v)] == [d[0]] + (d[1..] + [(k, v)]);
    }
  }

  /** The root's `wait_done` once waiting returned whether the circuit has ended. */
  function RootWaitDone(rootName: string, c: Completion, failed: SubErrors): (r: Outcome<ExecError>)
    ensures r == Fail(TimeoutError) <==> !c.circuitIsEnded
    ensures c.circuitIsEnded ==> (r.Fail? <==> c.circuitError.Some? || failed != [])
    ensures c.circuitIsEnded && r.Fail? ==> r.error == Aggregate(Build(rootName, c.circuitError, failed))
  {
    if !c.circuitIsEnded then Fail(TimeoutError)
    else if c.circuitError.Some? || failed != [] then Fail(Aggregate(Build(rootName, c.circuitError, failed)))
    else Pass
  }

  /** A sub-frame's `wait_done` once waiting returned whether its circuit has ended. */
  function SubWaitDone(frameName: string, c: Completion): (r: Outcome<ExecError>)
    ensures r == Fail(TimeoutError) <==> !c.circuitIsEnded
    ensures c.circuitIsEnded ==> (r.Fail? <==> c.circuitError.Some?)
    ensures c.circuitIsEnded && r.Fail? ==> r.error == SubFrameError(frameName, c.circuitError.value)
  {
    if !c.circuitIsEnded then Fail(TimeoutError)
    else if c.circuitError.Some? then Fail(SubFrameError(frameName, c.circuitError.value))
    else Pass
  }

  /** `raise_if`: the first failed sub-frame is removed and raised; nothing when there is none. */
  function RaiseIfStep(failed: SubErrors): (r: (SubErrors, Outcome<ExecError>))
    ensures failed == [] ==> r == (failed, Pass)
    ensures failed != [] ==> [failed[0]] + r.0 == failed
    ensures failed != [] ==> r.1 == Fail(SubFrameError(failed[0].0, failed[0].1))
  {
    if failed == [] then (failed, Pass) else (failed[1..], Fail(SubFrameError(failed[0].0, failed[0].1)))
  }

  /** What repeated `raise_if` calls raise until one returns normally. */
  function RaiseIfUntilEmpty(failed: SubErrors): seq<ExecError>
    decreases |failed|
  {
    var r := RaiseIfStep(failed);
    if r.1.Pass? then [] else [r.1.error] + RaiseIfUntilEmpty(r.0)
  }

  /** Repeated `raise_if` raises every failed sub-frame once, in map order. */
  lemma {:induction false} RaiseIfDrainsInOrder(failed: SubErrors)
    ensures RaiseIfUntilEmpty(failed) == seq(|failed|, i requires 0 <= i < |failed| => SubFrameError(failed[i].0, failed[i].1))
    decreases |failed|
  {
    if failed != [] {
      RaiseIfDrainsInOrder(failed[1..]);
    }
  }

  /** `_on_end_sub_frame` as written: the count goes down and `exc` is not used. */
  function EndSubFrameAsWritten(count: int, failed: SubErrors, frameName: string, exc: Option<Exc>): (r: (int, SubErrors, Outcome<ExecError>))
    ensures r.0 == count - 1 && r.1 == failed
    ensures r.2 == Fail(RuntimeError) <==> count < 1
    ensures r.2.Pass? <==> count >= 1
  {
    (count - 1, failed, if count - 1 < 0 then Fail(RuntimeError) else Pass)
  }

  /** `_on_end_sub_frame` as evidently intended: a failed sub-frame is kept in `failed_frames`. */
  function EndSubFrame(count: int, failed: SubErrors, frameName: string, exc: Option<Exc>): (r: (int, SubErrors, Outcome<ExecError>))
    requires DistinctNames(failed)
    ensures r.0 == count - 1
    ensures r.2 == Fail(RuntimeError) <==> count < 1
    ensures r.2.Pass? <==> count >= 1
    ensures DistinctNames(r.1)
    ensures r.2.Pass? && exc.Some? ==> r.1 == DictSet(failed, frameName, exc.value)
    ensures r.2.Fail? || exc.None? ==> r.1 == failed
  {
    if count - 1 < 0 then (count - 1, failed, Fail(RuntimeError))
    else if exc.Some? then (count - 1, DictSet(failed, frameName, exc.value), Pass)
    else (count - 1, failed, Pass)
  }

  /**
   * As written, a sub-frame that fails leaves no trace: after it ends, a root whose own
   * circuit ended cleanly returns normally from `wait_done`.
   */
  lemma SubFrameErrorIsLost(rootName: string, subName: string, e: Exc)
    ensures var after := EndSubFrameAsWritten(1, [], subName, Some(e));
      && after.2 == Pass && after.1 == []
      && RootWaitDone(rootName, Completion(Some(RunState(0)), None, true, true), after.1) == Pass
  {
  }

  /** With the failure recorded, the root's `wait_done` raises an aggregate naming the sub-frame. */
  lemma SubFrameErrorIsReported(rootName: string, subName: string, e: Exc, count: int, failed: SubErrors, c: Completion)
    requires count >= 1 && DistinctNames(failed) && c.circuitIsEnded
    ensures var after := EndSubFrame(count, failed, subName, Some(e));
      var w := RootWaitDone(rootName, c, after.1);
      && w.Fail? && w.error.Aggregate?
      && (subName, e) in w.error.error.subFrameErrors
      && Part(subName, e) in Parts(rootName, c.circuitError, w.error.error.subFrameErrors)
  {
    var after := EndSubFrame(count, failed, subName, Some(e));
    var subs := after.1;
    assert subs == DictSet(failed, subName, e);
    assert (subName, e) in subs;
    var w := RootWaitDone(rootName, c, subs);
    assert w == Fail(Aggregate(Build(rootName, c.circuitError, subs)));
    PartOfEachFailure(rootName, c.circuitError, subs, (subName, e));
  }

  /** Every failed sub-frame has its part in the aggregate's list. */
  lemma PartOfEachFailure(rootName: string, rootError: Option<Exc>, subs: SubErrors, p: (string, Exc))
    requires p in subs
    ensures Part(p.0, p.1) in Parts(rootName, rootError, subs)
  {
    var i :| 0 <= i < |subs| && subs[i] == p;
    PartsShape(rootName, rootError, subs);
    var k := if rootError.Some? then 1 else 0;
    assert Parts(rootName, rootError, subs)[k + i] == Part(p.0, p.1);
  }

  class RootFrameExecutor {
    const frameName: string
    var completion: Completion
    var startedSubFrameCount: int
    var failedFrames: SubErrors
    /** The sub-frames that reported their start and not yet their end. */
    ghost var live: set<object>

    ghost predicate Valid()
      reads this
    {
      CompletionOk(completion) && DistinctNames(failedFrames)
    }

    /** The counter counts exactly the live sub-frames. */
    ghost predicate Tracks()
      reads this
    {
      startedSubFrameCount == |live|
    }

    constructor (frameName: string)
      ensures this.frameName == frameName && completion == NotStarted
      ensures startedSubFrameCount == 0 && failedFrames == [] && live == {}
      ensures Valid() && Tracks()
    {
      this.frameName := frameName;
      completion := NotStarted;
      startedSubFrameCount := 0;
      failedFrames := [];
      live := {};
    }

    /** `_start`. */
    method Start(rs: RunState) returns (r: Outcome<ExecError>)
      requires Valid()
      modifies this
      ensures Valid()
      ensures (completion, r) == StartStep(old(completion), rs)
      ensures startedSubFrameCount == old(startedSubFrameCount) && failedFrames == old(failedFrames) && live == old(live)
    {
      var step := StartStep(completion, rs);
      completion, r := step.0, step.1;
    }

    /** `_end`. */
    method End(exc: Option<Exc>) returns (r: Outcome<ExecError>)
      requires Valid()
      modifies this
      ensures Valid()
      ensures (completion, r) == EndStep(old(completion), exc)
      ensures startedSubFrameCount == old(startedSubFrameCount) && failedFrames == old(failedFrames) && live == old(live)
    {
      var step := EndStep(completion, exc);
      completion, r := step.0, step.1;
    }

    /** `wait_done`, once waiting has returned. */
    method WaitDone() returns (r: Outcome<ExecError>)
      requires Valid()
      ensures r == RootWaitDone(frameName, completion, failedFrames)
    {
      if !completion.circuitIsEnded {
        r := Fail(TimeoutError);
      } else if completion.circuitError.Some? || failedFrames != [] {
        var agg := NewFrameAggregateError(frameName, completion.circuitError, failedFrames);
        r := Fail(Aggregate(agg));
      } else {
        r := Pass;
      }
    }

    /** `processing()`: the circuit has ended and no sub-frame is live. */
    method Processing() returns (b: bool)
      ensures b <==> completion.circuitIsEnded && startedSubFrameCount == 0
      ensures Tracks() ==> (b <==> completion.circuitIsEnded && live == {})
    {
      b := completion.circuitIsEnded && startedSubFrameCount == 0;
    }

    /** `raise_if`. */
    method RaiseIf() returns (r: Outcome<ExecError>)
      requires Valid()
      modifies this
      ensures Valid()
      ensures (failedFrames, r) == RaiseIfStep(old(failedFrames))
      ensures completion == old(completion) && startedSubFrameCount == old(startedSubFrameCount)
    {
      if failedFrames != [] {
        var entry := failedFrames[0];
        failedFrames := failedFrames[1..];
        r := Fail(SubFrameError(entry.0, entry.1));
      } else {
        r := Pass;
      }
    }

    /** `_on_start_sub_frame`: refused once the root's circuit has ended. */
    method OnStartSubFrame(ghost sub: object) returns (r: Outcome<ExecError>)
      requires Valid()
      modifies this
      ensures Valid()
      ensures r == Fail(RuntimeError) <==> old(completion.circuitIsEnded)
      ensures r.Pass? <==> !old(completion.circuitIsEnded)
      ensures r.Fail? ==> startedSubFrameCount == old(startedSubFrameCount) && live == old(live)
      ensures r.Pass? ==> startedSubFrameCount == old(startedSubFrameCount) + 1 && live == old(live) + {sub}
      ensures completion == old(completion) && failedFrames == old(failedFrames)
      ensures old(Tracks()) && sub !in old(live) ==> Tracks()
    {
      if completion.circuitIsEnded {
        r := Fail(RuntimeError);
      } else {
        startedSubFrameCount := startedSubFrameCount + 1;
        live := live + {sub};
        r := Pass;
      }
    }

    /** `_on_end_sub_frame`, recording the sub-frame's error. */
    method OnEndSubFrame(name: string, exc: Option<Exc>, ghost sub: object) returns (r: Outcome<ExecError>)
      requires Valid()
      modifies this
      ensures Valid()
      ensures (startedSubFrameCount, failedFrames, r) == EndSubFrame(old(startedSubFrameCount), old(failedFrames), name, exc)
      ensures live == old(live) - {sub} && completion == old(completion)
      ensures old(Tracks()) && sub in old(live) ==> Tracks() && r == Pass
    {
      startedSubFrameCount := startedSubFrameCount - 1;
      live := live - {sub};
      if startedSubFrameCount < 0 {
        r := Fail(RuntimeError);
      } else {
        if exc.Some? {
          failedFrames := DictSet(failedFrames, name, exc.value);
        }
        r := Pass;
      }
    }
  }

  class SubFrameExecutor {
    const frameName: string
    const root: RootFrameExecutor
    var completion: Completion

    constructor (frameName: string, root: RootFrameExecutor)
      ensures this.frameName == frameName && this.root == root && completion == NotStarted
    {
      this.frameName := frameName;
      this.root := root;
      completion := NotStarted;
    }

    /** `_start`: its own state first, then one report to the root. */
    method Start(rs: RunState) returns (r: Outcome<ExecError>)
      requires root.Valid() && CompletionOk(completion)
      modifies this, root
      ensures root.Valid() && CompletionOk(completion)
      ensures completion == StartStep(old(completion), rs).0
      ensures old(completion.futureIsReady) ==> r == Fail(RuntimeError) && unchanged(root)
      ensures !old(completion.futureIsReady) ==> (r.Pass? <==> !old(root.completion.circuitIsEnded))
      ensures r.Pass? || r == Fail(RuntimeError)
      ensures !old(completion.futureIsReady) && r.Pass? ==>
        root.startedSubFrameCount == old(root.startedSubFrameCount) + 1 && root.live == old(root.live) + {this}
      ensures r.Fail? ==> root.startedSubFrameCount == old(root.startedSubFrameCount) && root.live == old(root.live)
      ensures root.completion == old(root.completion) && root.failedFrames == old(root.failedFrames)
      ensures old(root.Tracks()) && this !in old(root.live) ==> root.Tracks()
    {
      var step := StartStep(completion, rs);
      completion, r := step.0, step.1;
      if r.Pass? {
        r := root.OnStartSubFrame(this);
      }
    }

    /** `_end`: its own state first, then one report to the root with its error. */
    method End(exc: Option<Exc>) returns (r: Outcome<ExecError>)
      requires root.Valid()
      modifies this, root
      ensures root.Valid()
      ensures completion == EndStep(old(completion), exc).0
      ensures old(completion.circuitIsEnded) ==> r == Fail(RuntimeError) && unchanged(root)
      ensures !old(completion.circuitIsEnded) ==>
        && (root.startedSubFrameCount, root.failedFrames, r) == EndSubFrame(old(root.startedSubFrameCount), old(root.failedFrames), frameName, exc)
        && root.live == old(root.live) - {this}
      ensures root.completion == old(root.completion)
      ensures !old(completion.circuitIsEnded) && old(root.Tracks()) && this in old(root.live) ==>
        r == Pass && root.Tracks() && root.startedSubFrameCount >= 0
    {
      var step := EndStep(completion, exc);
      completion, r := step.0, step.1;
      if r.Pass? {
        r := root.OnEndSubFrame(frameName, completion.circuitError, this);
      }
    }

    /** `wait_done`, once waiting has returned. */
    method WaitDone() returns (r: Outcome<ExecError>)
      ensures r == SubWaitDone(frameName, completion)
    {
      if !completion.circuitIsEnded {
        r := Fail(TimeoutError);
      } else if completion.circuitError.Some? {
        r := Fail(SubFrameError(frameName, completion.circuitError.value));
      } else {
        r := Pass;
      }
    }

    /** `processing()`: the circuit has ended. */
    method Processing() returns (b: bool)
      ensures b == completion.circuitIsEnded
    {
      b := completion.circuitIsEnded;
    }
  }

  /**
   * A root with one sub-frame, run the way the worker threads do: the counter goes up and
   * back to zero without ever going negative, and a failed sub-frame reaches the root's
   * `wait_done`.
   */
  method RootWithOneSubFrame(rootName: string, subName: string, e: Exc) returns (w: Outcome<ExecError>)
    ensures w.Fail? && w.error.Aggregate? && w.error.error.subFrameErrors == [(subName, e)]
  {
    var root := new RootFrameExecutor(rootName);
    var r := root.Start(RunState(0));
    var sub := new SubFrameExecutor(subName, root);
    r := sub.Start(RunState(1));
    assert r.Pass? && root.startedSubFrameCount == 1;
    r := sub.End(Some(e));
    assert r.Pass? && root.startedSubFrameCount == 0;
    r := root.End(None);
    w := root.WaitDone();
  }
}
