/**
 * The life cycle of one frame's circuit: `on_open`, then cycles of `on_start`, the routine,
 * `on_end` and `on_redo` for as long as `on_redo` answers true, then `on_close`.  An exception
 * in any hook ends the cycles and goes to `on_exception`, whose answer decides whether the
 * error is suppressed; `on_close` runs in every case.
 *
 * The handlers' answers and the exceptions they raise are the input (a Script); the model
 * computes the order in which the hooks run and the error the frame ends with.
 */
module Lifecycle {
  import opened Wrappers
  import opened Errors

  datatype Hook = OnOpen | OnStart | Routine | OnEnd | OnRedo | OnException | OnClose

  /** The hook of a cycle in which an exception is raised. */
  datatype Stage = AtStart | InRoutine | AtEnd | AtRedo

  /** How one cycle goes: it completes and `on_redo` answers, or a hook raises. */
  datatype CycleOutcome = Completes(redo: bool) | Raises(at: Stage, error: Exc)

  /**
   * `openError`: what `on_open` raises, if anything; `cycles`: how each cycle goes, in order;
   * `suppress`: what `on_exception` answers (an unset handler answers false).
   */
  datatype Script = Script(openError: Option<Exc>, cycles: seq<CycleOutcome>, suppress: bool)

  /** The hooks of a cycle that complete. */
  const FullCycle: seq<Hook> := [OnStart, Routine, OnEnd, OnRedo]

  /** The hooks of a cycle that run, up to and including the one that raises. */
  function HooksUpTo(at: Stage): (r: seq<Hook>)
    ensures 1 <= |r| <= 4 && r == FullCycle[..|r|]
  {
    match at
    case AtStart => [OnStart]
    case InRoutine => [OnStart, Routine]
    case AtEnd => [OnStart, Routine, OnEnd]
    case AtRedo => FullCycle
  }

  /** A cycle after which no further cycle starts. */
  predicate Stops(c: CycleOutcome) {
    c != Completes(true)
  }

  /** The cycles end: some cycle raises or `on_redo` answers false. */
  predicate EventuallyStops(cs: seq<CycleOutcome>) {
    exists i | 0 <= i < |cs| :: Stops(cs[i])
  }

  /** The index of the last cycle that runs. */
  function LastCycle(cs: seq<CycleOutcome>): (k: nat)
    requires EventuallyStops(cs)
    ensures k < |cs| && Stops(cs[k])
    ensures forall i | 0 <= i < k :: !Stops(cs[i])
  {
    if Stops(cs[0]) then 0
    else
      assert EventuallyStops(cs[1..]) by {
        var i :| 0 <= i < |cs| && Stops(cs[i]);
        assert cs[1..][i - 1] == cs[i];
      }
      1 + LastCycle(cs[1..])
  }

  /** The hooks the cycles run, and the error that ends them, if any. */
  function Cycles(cs: seq<CycleOutcome>): (r: (seq<Hook>, Option<Exc>))
    requires EventuallyStops(cs)
    ensures |r.0| > 0 && r.0[0] == OnStart
    ensures r.1.None? ==> |r.0| % 4 == 0 && r.0[|r.0| - 1] == OnRedo
    decreases |cs|
  {
    match cs[0]
    case Raises(at, e) => (HooksUpTo(at), Some(e))
    case Completes(redo) =>
      if !redo then (FullCycle, None)
      else
        assert EventuallyStops(cs[1..]) by {
          var i :| 0 <= i < |cs| && Stops(cs[i]);
          assert cs[1..][i - 1] == cs[i];
        }
        var rest := Cycles(cs[1..]);
        (FullCycle + rest.0, rest.1)
  }

  /** A script whose circuit ends: `on_open` raises, or the cycles stop. */
  predicate Terminates(s: Script) {
    s.openError.Some? || EventuallyStops(s.cycles)
  }

  /** The error raised before `on_exception` runs, if any. */
  function Raised(s: Script): Option<Exc>
    requires Terminates(s)
  {
    if s.openError.Some? then s.openError else Cycles(s.cycles).1
  }

  /** The hooks in the order they run, and the error the frame ends with. */
  function Circuit(s: Script): (r: (seq<Hook>, Option<Exc>))
    requires Terminates(s)
    ensures |r.0| >= 2 && r.0[0] == OnOpen && r.0[|r.0| - 1] == OnClose
    ensures r.1.Some? ==> !s.suppress && r.1 == Raised(s)
    ensures Raised(s).None? ==> r.1.None? && |r.0| >= 6 && r.0[|r.0| - 2] == OnRedo
  {
    var body := if s.openError.Some? then [] else Cycles(s.cycles).0;
    var failed := Raised(s).Some?;
    ([OnOpen] + body + (if failed then [OnException] else []) + [OnClose],
     if failed && !s.suppress then Raised(s) else None)
  }

  /** The circuit as the frame's thread runs it: a loop that repeats while `on_redo` answers true. */
  method RunCircuit(s: Script) returns (trace: seq<Hook>, error: Option<Exc>)
    requires Terminates(s)
    ensures (trace, error) == Circuit(s)
  {
    trace := [OnOpen];
    var failure: Option<Exc> := None;
    if s.openError.Some? {
      failure := s.openError;
    } else {
      var i := 0;
      var again := true;
      while again
        invariant 0 <= i <= |s.cycles|
        invariant again ==> EventuallyStops(s.cycles[i..]) && failure.None?
        invariant again ==> [OnOpen] + Cycles(s.cycles).0 == trace + Cycles(s.cycles[i..]).0
        invariant again ==> Cycles(s.cycles).1 == Cycles(s.cycles[i..]).1
        invariant !again ==> trace == [OnOpen] + Cycles(s.cycles).0 && failure == Cycles(s.cycles).1
        decreases |s.cycles| - i
      {
        ghost var rest := s.cycles[i..];
        assert i < |s.cycles|;
        assert rest[0] == s.cycles[i] && rest[1..] == s.cycles[i + 1..];
        match s.cycles[i] {
          case Completes(redo) =>
            trace := trace + FullCycle;
            again := redo;
          case Raises(at, e) =>
            trace := trace + HooksUpTo(at);
            failure := Some(e);
            again := false;
        }
        i := i + 1;
      }
    }
    ghost var body: seq<Hook> := if s.openError.Some? then [] else Cycles(s.cycles).0;
    assert trace == [OnOpen] + body && failure == Raised(s);
    error := None;
    if failure.Some? {
      trace := trace + [OnException];
      if !s.suppress {
        error := failure;
      }
    }
    trace := trace + [OnClose];
    assert trace == Circuit(s).0;
  }

  /** The cycles run only cycle hooks, and `on_start` once per cycle. */
  lemma {:induction false} CyclesHooks(cs: seq<CycleOutcome>)
    requires EventuallyStops(cs)
    ensures OnOpen !in Cycles(cs).0 && OnException !in Cycles(cs).0 && OnClose !in Cycles(cs).0
    ensures multiset(Cycles(cs).0)[OnStart] == LastCycle(cs) + 1
    ensures |Cycles(cs).0| > 0 && Cycles(cs).0[0] == OnStart
    decreases |cs|
  {
    if cs[0] == Completes(true) {
      assert EventuallyStops(cs[1..]) by {
        var i :| 0 <= i < |cs| && Stops(cs[i]);
        assert cs[1..][i - 1] == cs[i];
      }
      CyclesHooks(cs[1..]);
      assert multiset(FullCycle)[OnStart] == 1;
    } else {
      assert LastCycle(cs) == 0;
      match cs[0]
      case Completes(_) =>
        assert multiset(FullCycle)[OnStart] == 1;
      case Raises(at, _) =>
        var h := HooksUpTo(at);
        assert h[0] == OnStart && multiset(h)[OnStart] == 1 by {
          assert h == FullCycle[..|h|];
        }
    }
  }

  /** `on_open` runs once and first, `on_close` once and last, whatever the hooks raise. */
  lemma OpenFirstCloseLast(s: Script)
    requires Terminates(s)
    ensures var t := Circuit(s).0;
      && t[0] == OnOpen && t[|t| - 1] == OnClose
      && multiset(t)[OnOpen] == 1 && multiset(t)[OnClose] == 1
  {
    if s.openError.None? {
      CyclesHooks(s.cycles);
    }
  }

  /**
   * When `on_open` succeeds, one cycle runs for every `on_redo` that answered true, plus the
   * cycle that stopped.
   */
  lemma CycleCount(s: Script)
    requires s.openError.None? && EventuallyStops(s.cycles)
    ensures multiset(Circuit(s).0)[OnStart] == LastCycle(s.cycles) + 1
    ensures forall i | 0 <= i < LastCycle(s.cycles) :: s.cycles[i] == Completes(true)
  {
    CyclesHooks(s.cycles);
  }

  /**
   * `on_exception` runs exactly when a hook raised; the frame ends with that error unless
   * `on_exception` answered true.
   */
  lemma ExceptionHandling(s: Script)
    requires Terminates(s)
    ensures OnException in Circuit(s).0 <==> Raised(s).Some?
    ensures Circuit(s).1 == (if s.suppress then None else Raised(s))
    ensures Raised(s).None? ==> Circuit(s).1.None?
  {
    if s.openError.None? {
      CyclesHooks(s.cycles);
    }
  }

  /** The error that ends the cycles is the one raised in the last cycle. */
  lemma {:induction false} CyclesErrorIsLastCycle(cs: seq<CycleOutcome>)
    requires EventuallyStops(cs)
    ensures Cycles(cs).1.Some? <==> cs[LastCycle(cs)].Raises?
    ensures Cycles(cs).1.Some? ==> Cycles(cs).1.value == cs[LastCycle(cs)].error
    decreases |cs|
  {
    if cs[0] == Completes(true) {
      assert EventuallyStops(cs[1..]) by {
        var i :| 0 <= i < |cs| && Stops(cs[i]);
        assert cs[1..][i - 1] == cs[i];
      }
      CyclesErrorIsLastCycle(cs[1..]);
    }
  }
}
