/**
 * The three-phase state of a frame (load, started, terminated) and the phase guards built
 * on it.  `LATState` is an integer enum whose only operations are "next phase" and "is the
 * immediate successor"; the guard/transition core is the reference design kept next to it.
 */
module LATPhase {
  import opened Wrappers

  datatype LATState = LOAD | STARTED | TERMINATED

  /** The enum's integer value. */
  function Value(s: LATState): (v: nat)
    ensures v < 3
    ensures s == LOAD <==> v == 0
    ensures s == TERMINATED <==> v == 2
  {
    match s
    case LOAD => 0
    case STARTED => 1
    case TERMINATED => 2
  }

  /** `LATState(v)`: the member with value `v`, or None where the enum raises ValueError. */
  function FromValue(v: int): (r: Option<LATState>)
    ensures r.Some? <==> 0 <= v < 3
    ensures r.Some? ==> Value(r.value) == v
  {
    if v == 0 then Some(LOAD)
    else if v == 1 then Some(STARTED)
    else if v == 2 then Some(TERMINATED)
    else None
  }

  /** `get_next`: the member whose value is one more, None after the last. */
  function GetNext(s: LATState): (r: Option<LATState>)
    ensures r.None? <==> s == TERMINATED
    ensures r.Some? ==> Value(r.value) == Value(s) + 1
  {
    FromValue(Value(s) + 1)
  }

  /** `transitionable(to)`: `to` is the immediate successor. */
  function Transitionable(s: LATState, to: LATState): (r: bool)
    ensures r <==> Value(to) == Value(s) + 1
    ensures r ==> s != to && s != TERMINATED && to != LOAD
  {
    GetNext(s) == Some(to)
  }

  lemma ValueIsInjective(s: LATState, t: LATState)
    ensures Value(s) == Value(t) <==> s == t
  {
  }

  /** A sequence of phases each transitionable to the next. */
  predicate IsChain(ps: seq<LATState>) {
    forall i | 0 <= i < |ps| - 1 :: Transitionable(ps[i], ps[i + 1])
  }

  /**
   * Every chain of transitions goes up one value per step, so it has at most two steps, and
   * a chain that reaches TERMINATED ends there.
   */
  lemma {:induction false} ChainShape(ps: seq<LATState>)
    requires |ps| > 0 && IsChain(ps)
    ensures forall i | 0 <= i < |ps| :: Value(ps[i]) == Value(ps[0]) + i
    ensures forall i, j | 0 <= i < j < |ps| :: Value(ps[i]) < Value(ps[j])
    ensures |ps| <= 3 - Value(ps[0]) && |ps| - 1 <= 2
    ensures forall i | 0 <= i < |ps| :: ps[i] == TERMINATED ==> i == |ps| - 1
  {
    if |ps| > 1 {
      var tail := ps[1..];
      assert IsChain(tail) by {
        forall i | 0 <= i < |tail| - 1 ensures Transitionable(tail[i], tail[i + 1]) {
          assert tail[i] == ps[i + 1] && tail[i + 1] == ps[i + 2];
        }
      }
      ChainShape(tail);
      assert Transitionable(ps[0], ps[1]);
      forall i | 1 <= i < |ps| ensures Value(ps[i]) == Value(ps[0]) + i {
        assert ps[i] == tail[i - 1];
      }
    }
  }

  /** TERMINATED has no successor, so no phase is ever revisited. */
  lemma TerminatedIsFinal(to: LATState)
    ensures !Transitionable(TERMINATED, to)
    ensures GetNext(TERMINATED).None?
  {
  }

  /** The error raised by a guard or a transition that does not fit the current phase. */
  datatype StateError = NotInPhase(current: LATState, expected: LATState) | InvalidTransition(current: LATState, to: LATState)

  /** `maintain`: runs `fn` only in the kept phase, and raises otherwise. */
  function Maintain<R>(current: LATState, keep: LATState, fn: () -> R): (r: Result<R, StateError>)
    ensures r.Success? <==> current == keep
    ensures r.Success? ==> r.value == fn()
    ensures r.Failure? ==> r.error == NotInPhase(current, keep)
  {
    if keep == current then Success(fn()) else Failure(NotInPhase(current, keep))
  }

  /** `if_on`: runs `fn` only on a match, and otherwise does nothing. */
  function IfOn<R>(current: LATState, on: LATState, fn: () -> R): (r: Option<R>)
    ensures r.Some? <==> current == on
    ensures r.Some? ==> r.value == fn()
  {
    if on == current then Some(fn()) else None
  }

  /** `transit_state`: the new phase, or the error for a move that is not transitionable. */
  function TransitState(current: LATState, to: LATState): (r: Result<LATState, StateError>)
    ensures r.Success? <==> Value(to) == Value(current) + 1
    ensures r.Success? ==> r.value == to
    ensures r.Failure? ==> r.error == InvalidTransition(current, to)
  {
    if !Transitionable(current, to) then Failure(InvalidTransition(current, to)) else Success(to)
  }

  /** `transit_state_with`: the transition first, then `fn` in the new phase. */
  function TransitStateWith<R>(current: LATState, to: LATState, fn: () -> R): (r: Result<(LATState, R), StateError>)
    ensures r.Success? <==> TransitState(current, to).Success?
    ensures r.Success? ==> r.value == (to, fn())
    ensures r.Failure? ==> r.error == InvalidTransition(current, to)
  {
    match TransitState(current, to)
    case Failure(e) => Failure(e)
    case Success(p) => Success((p, fn()))
  }

  /** A call of the phase manager's interface, with the callback abstracted away. */
  datatype Call = OnLoad | ToStarted | OnStarted | ToTerminated | OnTerminated | IfTerminated | OnAny

  /** The phase after a call and whether the callback ran, or the error the call raises. */
  datatype Reply = Reply(phase: LATState, ran: bool)

  function Perform(current: LATState, c: Call): (r: Result<Reply, StateError>)
    ensures c == ToStarted ==> (r.Success? <==> current == LOAD)
    ensures c == ToTerminated ==> (r.Success? <==> current == STARTED)
    ensures r.Success? && r.value.phase != current ==> Transitionable(current, r.value.phase)
    ensures c == IfTerminated || c == OnAny ==> r.Success? && r.value.phase == current
    ensures c == IfTerminated ==> (r.value.ran <==> current == TERMINATED)
  {
    var fn := () => true;
    match c
    case OnLoad => if Maintain(current, LOAD, fn).Success? then Success(Reply(current, true)) else Failure(NotInPhase(current, LOAD))
    case ToStarted => if TransitStateWith(current, STARTED, fn).Success? then Success(Reply(STARTED, true)) else Failure(InvalidTransition(current, STARTED))
    case OnStarted => if Maintain(current, STARTED, fn).Success? then Success(Reply(current, true)) else Failure(NotInPhase(current, STARTED))
    case ToTerminated => if TransitStateWith(current, TERMINATED, fn).Success? then Success(Reply(TERMINATED, true)) else Failure(InvalidTransition(current, TERMINATED))
    case OnTerminated => if Maintain(current, TERMINATED, fn).Success? then Success(Reply(current, true)) else Failure(NotInPhase(current, TERMINATED))
    case IfTerminated => Success(Reply(current, IfOn(current, TERMINATED, fn).Some?))
    case OnAny => Success(Reply(current, true))
  }

  /** The phase after a series of calls; a call that raises leaves the phase as it was. */
  function RunCalls(current: LATState, calls: seq<Call>): LATState
    decreases |calls|
  {
    if calls == [] then current
    else
      var r := Perform(current, calls[0]);
      RunCalls(if r.Success? then r.value.phase else current, calls[1..])
  }

  /** The number of calls in a series that moved the phase. */
  function Transitions(current: LATState, calls: seq<Call>): nat
    decreases |calls|
  {
    if calls == [] then 0
    else
      var r := Perform(current, calls[0]);
      var next := if r.Success? then r.value.phase else current;
      (if next != current then 1 else 0) + Transitions(next, calls[1..])
  }

  /** Only a `to_*` call into the immediate successor moves the phase; the guards never do. */
  lemma PerformMovesOnlyForward(current: LATState, c: Call)
    ensures Perform(current, c).Success? && Perform(current, c).value.phase != current ==>
      (c == ToStarted || c == ToTerminated) && Transitionable(current, Perform(current, c).value.phase)
    ensures (c == OnLoad || c == OnStarted || c == OnTerminated) ==>
      (Perform(current, c).Success? <==> current == (if c == OnLoad then LOAD else if c == OnStarted then STARTED else TERMINATED))
  {
  }

  /**
   * Across any series of calls the phase only moves forward, one step per successful
   * transition, so at most two calls ever move it and TERMINATED is never left.
   */
  lemma {:induction false} PhaseIsMonotone(current: LATState, calls: seq<Call>)
    ensures Value(RunCalls(current, calls)) == Value(current) + Transitions(current, calls)
    ensures Transitions(current, calls) <= 2
    ensures current == TERMINATED ==> RunCalls(current, calls) == TERMINATED
    decreases |calls|
  {
    if calls != [] {
      var r := Perform(current, calls[0]);
      var next := if r.Success? then r.value.phase else current;
      PerformMovesOnlyForward(current, calls[0]);
      PhaseIsMonotone(next, calls[1..]);
    }
  }
}
