/**
 * Error bookkeeping of a session (`_HasFrameCoordinating`).  For every frame the session knows,
 * it records whether the frame is running, the error it ended with, and three one-way flags:
 * the error has been checked, it has been thrown by `reraise`, the frame has been returned by
 * `gather`.  A session-wide flag records that unchecked errors were abandoned.
 */
module SessionModel {
  import opened Wrappers
  import opened Errors

  datatype FrameRecord = FrameRecord(running: bool, error: Option<Exc>, checked: bool, thrown: bool, returned: bool)

  /** The flags describe an ended frame: checked/thrown need an error, returned needs none. */
  predicate RecordOk(f: FrameRecord) {
    && (f.running ==> f.error.None? && !f.returned)
    && (f.checked ==> f.error.Some?)
    && (f.thrown ==> f.error.Some?)
    && (f.returned ==> f.error.None?)
  }

  type Frames = map<string, FrameRecord>

  predicate WellFormed(fs: Frames) {
    forall n | n in fs :: RecordOk(fs[n])
  }

  datatype Session = Session(frames: Frames, abandoned: bool, abandonLog: bool)

  datatype SessionError = KeyError(name: string) | FrameStillRunningError(name: string)

  /** What a session call throws: a wrapped error, the frame's own error, or a collection. */
  datatype Raised =
    | UncheckedError(frameName: string, cause: Exc)
    | Unwrapped(frameName: string, cause: Exc)
    | CollectedError(errors: map<string, Exc>)

  /** A warning and a log line that a call may emit about unchecked errors. */
  datatype Diagnostics = Diagnostics(warned: bool, logged: bool)

  predicate IsUnchecked(f: FrameRecord) {
    f.error.Some? && !f.checked
  }

  /** The unchecked errors, keyed by the name of the frame that raised them. */
  function UncheckedErrors(fs: Frames): (r: map<string, Exc>)
    ensures forall n :: n in r <==> n in fs && IsUnchecked(fs[n])
    ensures forall n | n in r :: fs[n].error == Some(r[n])
  {
    map n | n in fs && IsUnchecked(fs[n]) :: fs[n].error.value
  }

  /** `faulted()`: some error is still unchecked. */
  function Faulted(fs: Frames): (r: bool)
    ensures r <==> UncheckedErrors(fs) != map[]
  {
    exists n | n in fs :: IsUnchecked(fs[n])
  }

  /** Frames `gather` may still return: ended, without error, not returned before. */
  function Gatherable(fs: Frames): set<string> {
    set n | n in fs && !fs[n].running && fs[n].error.None? && !fs[n].returned
  }

  /** Frames whose error `reraise` may still throw: unchecked and never thrown. */
  function Eligible(fs: Frames): set<string> {
    set n | n in fs && IsUnchecked(fs[n]) && !fs[n].thrown
  }

  /** Every error becomes checked; nothing else changes. */
  function CheckAll(fs: Frames): (r: Frames)
    ensures r.Keys == fs.Keys
    ensures forall n | n in fs :: r[n] == fs[n].(checked := fs[n].checked || fs[n].error.Some?)
    ensures !Faulted(r)
  {
    map n | n in fs :: fs[n].(checked := fs[n].checked || fs[n].error.Some?)
  }

  /** The named frames are marked as returned by `gather`. */
  function MarkReturned(fs: Frames, names: set<string>): (r: Frames)
    ensures r.Keys == fs.Keys
    ensures forall n | n in fs :: r[n] == fs[n].(returned := fs[n].returned || n in names)
  {
    map n | n in fs :: fs[n].(returned := fs[n].returned || n in names)
  }

  /** `reraise` throws the error of `n`: thrown from now on, and checked when unwrapped. */
  function Throw(fs: Frames, n: string, unwrap: bool): (r: Frames)
    requires n in fs
    ensures r.Keys == fs.Keys && forall m | m in fs && m != n :: r[m] == fs[m]
    ensures r[n].error == fs[n].error && r[n].thrown && n !in Eligible(r)
    ensures unwrap ==> !IsUnchecked(r[n])
    ensures !unwrap ==> IsUnchecked(r[n]) == IsUnchecked(fs[n])
  {
    fs[n := fs[n].(thrown := true, checked := fs[n].checked || unwrap)]
  }

  /** `UncheckedError.check()`: the wrapped cause becomes checked if its frame still holds it. */
  function CheckCause(fs: Frames, frameName: string, cause: Exc): (r: Frames)
    ensures r.Keys == fs.Keys && forall m | m in fs && m != frameName :: r[m] == fs[m]
    ensures frameName in fs && fs[frameName].error == Some(cause) ==> !IsUnchecked(r[frameName])
    ensures frameName in fs && fs[frameName].error != Some(cause) ==> r == fs
    ensures UncheckedErrors(r).Keys <= UncheckedErrors(fs).Keys
  {
    if frameName in fs && fs[frameName].error == Some(cause) then
      fs[frameName := fs[frameName].(checked := true)]
    else
      fs
  }

  /** `get_frame_status`: the running flag and the error, without checking it. */
  function GetFrameStatus(fs: Frames, name: string): (r: Result<(bool, Option<Exc>), SessionError>)
    ensures r.Failure? <==> name !in fs
    ensures r.Failure? ==> r.error == KeyError(name)
    ensures r.Success? ==> r.value == (fs[name].running, fs[name].error)
  {
    if name !in fs then Failure(KeyError(name)) else Success((fs[name].running, fs[name].error))
  }

  /** `clear_ended_frame`: the new frames and the reply. */
  function ClearEndedFrame(fs: Frames, name: string, suppress: bool, log: bool): (r: (Frames, Result<Diagnostics, SessionError>))
    ensures r.1 == Failure(KeyError(name)) <==> name !in fs
    ensures r.1 == Failure(FrameStillRunningError(name)) <==> name in fs && fs[name].running
    ensures r.1.Failure? ==> r.0 == fs
    ensures r.1.Success? ==> r.0 == fs - {name} && name !in r.0
    ensures r.1.Success? ==> (r.1.value.warned <==> IsUnchecked(fs[name]) && !suppress)
    ensures r.1.Success? ==> (r.1.value.logged <==> IsUnchecked(fs[name]) && log)
  {
    if name !in fs then (fs, Failure(KeyError(name)))
    else if fs[name].running then (fs, Failure(FrameStillRunningError(name)))
    else
      var unchecked := IsUnchecked(fs[name]);
      (fs - {name}, Success(Diagnostics(unchecked && !suppress, unchecked && log)))
  }

  /** Leaving the session's `with` block: warn about unchecked errors unless abandoned. */
  function CloseScope(s: Session): (d: Diagnostics)
    ensures d.warned <==> Faulted(s.frames) && !s.abandoned
    ensures d.logged <==> Faulted(s.frames) && s.abandoned && s.abandonLog
    ensures !(d.warned && d.logged)
  {
    var f := Faulted(s.frames);
    Diagnostics(f && !s.abandoned, f && s.abandoned && s.abandonLog)
  }

  /** One thing that can happen to a session: a frame starting or ending, or a session call. */
  datatype Event =
    | Started(name: string)
    | Ended(name: string, error: Option<Exc>)
    | ReadOnly           // running, get_frame_status, faulted, peek_drain, wait_done(_and_raise)
    | Clear(name: string, suppress: bool, log: bool)
    | Gather
    | Reraise(pick: string, unwrap: bool)
    | Check(frameName: string, cause: Exc)
    | RaiseIfFaulted
    | Drain
    | Abandon(log: bool)

  /** The state after one event. */
  function Next(s: Session, e: Event): (r: Session)
    ensures r.abandoned == (s.abandoned || e.Abandon?)
    ensures e.Started? ==> r.frames.Keys == s.frames.Keys + {e.name}
    ensures e.Clear? ==> r.frames.Keys <= s.frames.Keys
    ensures !e.Started? && !e.Clear? ==> r.frames.Keys == s.frames.Keys
    ensures forall n | n in s.frames && n in r.frames && !(e.Ended? && e.name == n) :: r.frames[n].error == s.frames[n].error
  {
    match e
    case Started(n) =>
      if n in s.frames then s else s.(frames := s.frames[n := FrameRecord(true, None, false, false, false)])
    case Ended(n, err) =>
      if n in s.frames && s.frames[n].running then s.(frames := s.frames[n := FrameRecord(false, err, false, false, false)]) else s
    case ReadOnly => s
    case Clear(n, suppress, log) => s.(frames := ClearEndedFrame(s.frames, n, suppress, log).0)
    case Gather => s.(frames := MarkReturned(s.frames, Gatherable(s.frames)))
    case Reraise(n, unwrap) => if n in Eligible(s.frames) then s.(frames := Throw(s.frames, n, unwrap)) else s
    case Check(n, cause) => s.(frames := CheckCause(s.frames, n, cause))
    case RaiseIfFaulted => s.(frames := CheckAll(s.frames))
    case Drain => s.(frames := CheckAll(s.frames))
    case Abandon(log) => s.(abandoned := true, abandonLog := log)
  }

  function Run(s: Session, evs: seq<Event>): Session
    decreases |evs|
  {
    if evs == [] then s else Run(Next(s, evs[0]), evs[1..])
  }

  predicate NoClearOf(evs: seq<Event>, n: string) {
    forall e | e in evs :: !(e.Clear? && e.name == n)
  }

  lemma NextKeepsWellFormed(s: Session, e: Event)
    requires WellFormed(s.frames)
    ensures WellFormed(Next(s, e).frames)
  {
  }

  /** Whatever happens to a session, every frame record stays well formed. */
  lemma {:induction false} RunKeepsWellFormed(s: Session, evs: seq<Event>)
    requires WellFormed(s.frames)
    ensures WellFormed(Run(s, evs).frames)
    decreases |evs|
  {
    if evs != [] {
      NextKeepsWellFormed(s, evs[0]);
      RunKeepsWellFormed(Next(s, evs[0]), evs[1..]);
    }
  }

  /**
   * A frame's error starts unchecked, and it leaves the unchecked state only through
   * `reraise(unwrap=True)` on that frame, `check()` on its wrapper, `drain()` or
   * `raise_if_faulted()`.
   */
  lemma CheckedOnlyThrough(s: Session, e: Event, n: string)
    requires WellFormed(s.frames)
    requires n in s.frames && IsUnchecked(s.frames[n])
    requires n in Next(s, e).frames && !IsUnchecked(Next(s, e).frames[n])
    ensures e == Reraise(n, true) || (e.Check? && e.frameName == n) || e == Drain || e == RaiseIfFaulted
  {
  }

  lemma EndedErrorStartsUnchecked(s: Session, n: string, err: Exc)
    requires n in s.frames && s.frames[n].running
    ensures IsUnchecked(Next(s, Ended(n, Some(err))).frames[n])
    ensures !Next(s, Ended(n, Some(err))).frames[n].thrown
  {
  }

  /** Marking one more gatherable frame as returned extends the set already marked. */
  lemma MarkOneMore(fs: Frames, pending: set<string>, n: string)
    requires n in pending && pending <= Gatherable(fs)
    ensures var before := MarkReturned(fs, Gatherable(fs) - pending);
      before[n := before[n].(returned := true)] == MarkReturned(fs, Gatherable(fs) - (pending - {n}))
  {
    var before := MarkReturned(fs, Gatherable(fs) - pending);
    var after := MarkReturned(fs, Gatherable(fs) - (pending - {n}));
    assert before[n := before[n].(returned := true)].Keys == after.Keys;
  }

  /** Marking every gatherable frame returned keeps the records well formed. */
  lemma GatherKeepsWellFormed(fs: Frames)
    requires WellFormed(fs)
    ensures WellFormed(MarkReturned(fs, Gatherable(fs)))
  {
  }

  /** One event other than clearing an ended frame keeps its error and never resets its flags. */
  lemma NextKeepsFlags(s: Session, e: Event, n: string)
    requires n in s.frames && !s.frames[n].running
    requires !(e.Clear? && e.name == n)
    ensures n in Next(s, e).frames
    ensures var f, g := s.frames[n], Next(s, e).frames[n];
      && !g.running && g.error == f.error
      && (f.checked ==> g.checked) && (f.thrown ==> g.thrown) && (f.returned ==> g.returned)
  {
  }

  /**
   * Until it is cleared, an ended frame keeps its error, and its checked, thrown and returned
   * flags are never reset.
   */
  lemma {:induction false} FlagsArePermanent(s: Session, evs: seq<Event>, n: string)
    requires n in s.frames && !s.frames[n].running
    requires NoClearOf(evs, n)
    ensures n in Run(s, evs).frames
    ensures var f, g := s.frames[n], Run(s, evs).frames[n];
      && !g.running && g.error == f.error
      && (f.checked ==> g.checked) && (f.thrown ==> g.thrown) && (f.returned ==> g.returned)
    decreases |evs|
  {
    if evs != [] {
      assert evs[0] in evs;
      assert NoClearOf(evs[1..], n) by {
        forall e | e in evs[1..] ensures !(e.Clear? && e.name == n) {
          assert e in evs;
        }
      }
      NextKeepsFlags(s, evs[0], n);
      FlagsArePermanent(Next(s, evs[0]), evs[1..], n);
    }
  }

  /** No event of the series starts a frame called `n`. */
  predicate NoStartOf(evs: seq<Event>, n: string) {
    forall e | e in evs :: !(e.Started? && e.name == n)
  }

  lemma NoStartOfTail(evs: seq<Event>, n: string)
    requires evs != [] && NoStartOf(evs, n)
    ensures !(evs[0].Started? && evs[0].name == n) && NoStartOf(evs[1..], n)
  {
    assert evs[0] in evs;
    forall e | e in evs[1..] ensures !(e.Started? && e.name == n) {
      assert e in evs;
    }
  }

  /** Unless `n` is started again, one event keeps `n` absent or keeps its flag `thrown`/`returned`. */
  lemma NextKeepsThrownAndReturned(s: Session, e: Event, n: string)
    requires WellFormed(s.frames)
    requires !(e.Started? && e.name == n)
    ensures n !in s.frames ==> n !in Next(s, e).frames
    ensures n in s.frames && s.frames[n].thrown ==> n !in Next(s, e).frames || Next(s, e).frames[n].thrown
    ensures n in s.frames && s.frames[n].returned ==> n !in Next(s, e).frames || Next(s, e).frames[n].returned
  {
    if n in s.frames && !s.frames[n].running && !(e.Clear? && e.name == n) {
      NextKeepsFlags(s, e, n);
    }
  }

  /**
   * `reraise` never throws the same frame's error twice, even when it stays unchecked and even
   * across `clear_ended_frame`, as long as the name is not started again.
   */
  lemma {:induction false} ReraiseNeverRepeats(s: Session, evs: seq<Event>, n: string)
    requires WellFormed(s.frames)
    requires n !in s.frames || s.frames[n].thrown
    requires NoStartOf(evs, n)
    ensures n !in Run(s, evs).frames || Run(s, evs).frames[n].thrown
    ensures n !in Eligible(Run(s, evs).frames)
    decreases |evs|
  {
    if evs != [] {
      NoStartOfTail(evs, n);
      NextKeepsWellFormed(s, evs[0]);
      NextKeepsThrownAndReturned(s, evs[0], n);
      ReraiseNeverRepeats(Next(s, evs[0]), evs[1..], n);
    }
  }

  /**
   * `gather` never returns a frame name twice, and a name removed by `clear_ended_frame` never
   * comes back, as long as the name is not started again.
   */
  lemma {:induction false} GatherNeverRepeats(s: Session, evs: seq<Event>, n: string)
    requires WellFormed(s.frames)
    requires n !in s.frames || s.frames[n].returned
    requires NoStartOf(evs, n)
    ensures n !in Run(s, evs).frames || Run(s, evs).frames[n].returned
    ensures n !in Gatherable(Run(s, evs).frames)
    decreases |evs|
  {
    if evs != [] {
      NoStartOfTail(evs, n);
      NextKeepsWellFormed(s, evs[0]);
      NextKeepsThrownAndReturned(s, evs[0], n);
      GatherNeverRepeats(Next(s, evs[0]), evs[1..], n);
    }
  }

  /** `abandon_unchecked_errors` cannot be undone. */
  lemma {:induction false} AbandonIsPermanent(s: Session, evs: seq<Event>)
    requires s.abandoned
    ensures Run(s, evs).abandoned
    decreases |evs|
  {
    if evs != [] {
      AbandonIsPermanent(Next(s, evs[0]), evs[1..]);
    }
  }

  /** `drain` hands over exactly the unchecked errors; afterwards there are none. */
  lemma DrainEmptiesUnchecked(s: Session)
    ensures var t := Next(s, Drain);
      && t.frames.Keys == s.frames.Keys
      && !Faulted(t.frames) && UncheckedErrors(t.frames) == map[]
      && forall n | n in s.frames :: t.frames[n].error == s.frames[n].error
  {
    var t := Next(s, Drain);
    assert forall n :: n !in UncheckedErrors(t.frames);
  }
}

/** The session object: the bookkeeping state updated in place by its methods. */
module SessionCoordinator {
  import opened Wrappers
  import opened Errors
  import opened SessionModel

  class FrameCoordinator {
    var frames: Frames
    var abandoned: bool
    var abandonLog: bool

    ghost predicate Valid()
      reads this
    {
      WellFormed(frames)
    }

    function State(): Session
      reads this
    {
      Session(frames, abandoned, abandonLog)
    }

    constructor ()
      ensures Valid() && frames == map[] && !abandoned
    {
      frames, abandoned, abandonLog := map[], false, false;
    }

    /** The runtime starts a frame under this session. */
    method FrameStarted(name: string)
      requires Valid() && name !in frames
      modifies this
      ensures Valid() && State() == Next(old(State()), Started(name))
      ensures frames[name].running
    {
      frames := frames[name := FrameRecord(true, None, false, false, false)];
    }

    /** The runtime reports that a frame ended, with its error if it raised one. */
    method FrameEnded(name: string, error: Option<Exc>)
      requires Valid() && name in frames && frames[name].running
      modifies this
      ensures Valid() && State() == Next(old(State()), Ended(name, error))
    {
      frames := frames[name := FrameRecord(false, error, false, false, false)];
    }

    /** `running()`: some frame of the session is still running. */
    method Running() returns (b: bool)
      ensures b <==> exists n | n in frames :: frames[n].running
    {
      b := exists n | n in frames :: frames[n].running;
    }

    /** `get_frame_status`: reading the error does not check it. */
    method GetFrameStatus(name: string) returns (r: Result<(bool, Option<Exc>), SessionError>)
      ensures r == SessionModel.GetFrameStatus(frames, name)
      ensures r.Success? ==> r.value.1 == frames[name].error
    {
      r := SessionModel.GetFrameStatus(frames, name);
    }

    /** `clear_ended_frame`; the warning does not depend on `abandon_unchecked_errors`. */
    method ClearEndedFrame(name: string, suppress: bool, log: bool) returns (r: Result<Diagnostics, SessionError>)
      requires Valid()
      modifies this
      ensures Valid() && State() == Next(old(State()), Clear(name, suppress, log))
      ensures r == SessionModel.ClearEndedFrame(old(frames), name, suppress, log).1
    {
      var step := SessionModel.ClearEndedFrame(frames, name, suppress, log);
      frames, r := step.0, step.1;
    }

    /** `gather`: each ended, error-free frame not returned before, once, in any order. */
    method Gather() returns (names: seq<string>)
      requires Valid()
      modifies this
      ensures Valid() && State() == Next(old(State()), SessionModel.Gather)
      ensures forall n :: n in names <==> n in Gatherable(old(frames))
      ensures forall i, j | 0 <= i < j < |names| :: names[i] != names[j]
    {
      ghost var start := frames;
      var pending := Gatherable(frames);
      names := [];
      while pending != {}
        invariant pending <= Gatherable(start)
        invariant forall n :: n in names <==> n in Gatherable(start) && n !in pending
        invariant forall i, j | 0 <= i < j < |names| :: names[i] != names[j]
        invariant frames == MarkReturned(start, Gatherable(start) - pending)
        invariant abandoned == old(abandoned) && abandonLog == old(abandonLog)
        decreases pending
      {
        var n :| n in pending;
        MarkOneMore(start, pending, n);
        frames := frames[n := frames[n].(returned := true)];
        names := names + [n];
        pending := pending - {n};
      }
      assert Gatherable(start) - pending == Gatherable(start);
      GatherKeepsWellFormed(start);
    }

    /**
     * `reraise`: throws the error of one frame that is unchecked and was never thrown, wrapped
     * in an `UncheckedError` or, with `unwrap`, as itself and then checked.
     */
    method Reraise(unwrap: bool) returns (r: Option<Raised>)
      requires Valid()
      modifies this
      ensures Valid()
      ensures r.None? <==> Eligible(old(frames)) == {}
      ensures r.None? ==> State() == old(State())
      ensures r.Some? ==> !r.value.CollectedError?
      ensures r.Some? && !r.value.CollectedError? ==>
        var n := r.value.frameName;
        && n in Eligible(old(frames))
        && State() == Next(old(State()), SessionModel.Reraise(n, unwrap))
        && r.value == (if unwrap then Unwrapped(n, old(frames)[n].error.value) else UncheckedError(n, old(frames)[n].error.value))
    {
      var eligible := Eligible(frames);
      if eligible == {} {
        r := None;
      } else {
        var n :| n in eligible;
        var cause := frames[n].error.value;
        frames := Throw(frames, n, unwrap);
        r := Some(if unwrap then Unwrapped(n, cause) else UncheckedError(n, cause));
      }
    }

    /** `UncheckedError.check()` on a caught wrapper. */
    method Check(w: Raised)
      requires Valid() && w.UncheckedError?
      modifies this
      ensures Valid() && State() == Next(old(State()), SessionModel.Check(w.frameName, w.cause))
    {
      frames := CheckCause(frames, w.frameName, w.cause);
    }

    /** `faulted()`. */
    method Faulted() returns (b: bool)
      ensures b <==> exists n | n in frames :: IsUnchecked(frames[n])
    {
      b := SessionModel.Faulted(frames);
    }

    /** `raise_if_faulted`: raises the unchecked errors, which are all checked afterwards. */
    method RaiseIfFaulted() returns (r: Option<Raised>)
      requires Valid()
      modifies this
      ensures Valid()
      ensures r.Some? <==> SessionModel.Faulted(old(frames))
      ensures r.Some? ==> r.value == CollectedError(UncheckedErrors(old(frames)))
      ensures State() == Next(old(State()), SessionModel.RaiseIfFaulted)
      ensures !SessionModel.Faulted(frames)
    {
      if SessionModel.Faulted(frames) {
        r := Some(CollectedError(UncheckedErrors(frames)));
      } else {
        r := None;
      }
      frames := CheckAll(frames);
    }

    /** `wait_done_and_raise` once the wait is over: the unchecked errors, left unchecked. */
    method WaitDoneAndRaise() returns (r: Option<Raised>)
      ensures r.Some? <==> SessionModel.Faulted(frames)
      ensures r.Some? ==> r.value == CollectedError(UncheckedErrors(frames))
    {
      if SessionModel.Faulted(frames) {
        r := Some(CollectedError(UncheckedErrors(frames)));
      } else {
        r := None;
      }
    }

    /** `drain`: exactly the unchecked errors, which become checked. */
    method Drain() returns (errors: map<string, Exc>)
      requires Valid()
      modifies this
      ensures Valid()
      ensures errors == UncheckedErrors(old(frames))
      ensures State() == Next(old(State()), SessionModel.Drain)
    {
      errors := UncheckedErrors(frames);
      frames := CheckAll(frames);
    }

    /** `peek_drain`: the unchecked errors, left unchecked. */
    method PeekDrain() returns (errors: map<string, Exc>)
      ensures errors == UncheckedErrors(frames)
      ensures errors == map[] <==> !SessionModel.Faulted(frames)
    {
      errors := UncheckedErrors(frames);
    }

    /** `abandon_unchecked_errors`. */
    method AbandonUncheckedErrors(log: bool)
      requires Valid()
      modifies this
      ensures Valid() && State() == Next(old(State()), Abandon(log))
      ensures abandoned
    {
      abandoned, abandonLog := true, log;
    }

    /** Leaving the `with` block of the session. */
    method Close() returns (d: Diagnostics)
      ensures d == CloseScope(State())
      ensures d.warned <==> SessionModel.Faulted(frames) && !abandoned
    {
      d := CloseScope(State());
    }
  }
}
