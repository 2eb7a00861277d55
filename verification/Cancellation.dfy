/**
 * Cancellation signals of nested operations on one connection. Attaching and detaching a signal takes
 * several steps, between which another thread may cancel any signal.
 */
module Cancellation {
  import opened Options

  /** What the connection's own thread is in the middle of. */
  datatype Phase<S> =
    | Steady                    // executing the innermost operation, or idle
    | Checked(arriving: S)      // the signal was not canceled when the operation looked
    | Counted(arriving: S)      // the native handler is on, the listener is still to be set
    | Uncounted(leaving: S)     // the last attached operation has ended, its listener is still set
    | Unlistened                // the native handler is still to be switched off

  /**
    `frames` has one element for each operation being executed, the outermost first: its signal, if it has one.
    `listening` has the signals that will call the connection when they are canceled.
   */
  datatype State<S(==)> = State(
    count: int,
    handler: bool,
    flag: bool,
    listening: set<S>,
    canceled: set<S>,
    frames: seq<Option<S>>,
    phase: Phase<S>
  )

  function Start<S(==)>(): State<S> {
    State(0, false, false, {}, {}, [], Steady)
  }

  datatype Step<S> =
    | CheckStep(signal: S)
    | CountStep
    | ListenStep
    | EnterStep
    | LeaveStep
    | UnlistenStep
    | ResetStep
    | CancelStep(signal: S)

  predicate Enabled<S(==)>(s: State<S>, step: Step<S>) {
    match step
    case CheckStep(_) => s.phase.Steady?
    case CountStep => s.phase.Checked?
    case ListenStep => s.phase.Counted?
    case EnterStep => s.phase.Steady?
    case LeaveStep => s.phase.Steady? && s.frames != []
    case UnlistenStep => s.phase.Uncounted?
    case ResetStep => s.phase.Unlistened?
    case CancelStep(_) => true
  }

  /** An operation with a signal is about to start; it throws, before anything is counted, if that is canceled. */
  function Check<S(==)>(s: State<S>, signal: S): State<S> {
    if signal in s.canceled then s else s.(phase := Checked(signal))
  }

  function Count<S(==)>(s: State<S>, signal: S): State<S> {
    var t := s.(count := s.count + 1);
    if t.count == 1
    then t.(flag := false, handler := true, phase := Counted(signal))
    else t.(frames := s.frames + [Some(signal)], phase := Steady)
  }

  /** Setting the listener on a signal that is canceled calls the listener at once. */
  function Listen<S(==)>(s: State<S>, signal: S): State<S> {
    s.(listening := s.listening + {signal},
       flag := s.flag || signal in s.canceled,
       frames := s.frames + [Some(signal)],
       phase := Steady)
  }

  /** The innermost operation ends, normally or by an exception. */
  function Leave<S(==)>(s: State<S>): State<S>
    requires s.frames != []
  {
    var n := |s.frames| - 1;
    var t := s.(frames := s.frames[..n]);
    match s.frames[n]
    case None => t
    case Some(signal) =>
      var u := t.(count := s.count - 1);
      if u.count == 0 then u.(phase := Uncounted(signal)) else u
  }

  function Unlisten<S(==)>(s: State<S>, signal: S): State<S> {
    s.(listening := s.listening - {signal}, phase := Unlistened)
  }

  function Cancel<S(==)>(s: State<S>, signal: S): State<S> {
    if signal in s.canceled then s
    else s.(canceled := s.canceled + {signal}, flag := s.flag || signal in s.listening)
  }

  /** All the steps of attaching a signal that is not canceled, with nothing in between. */
  function Attach<S(==)>(s: State<S>, signal: S): State<S> {
    var t := Count(Check(s, signal), signal);
    if t.phase.Counted? then Listen(t, signal) else t
  }

  /** All the steps of ending the innermost operation, with nothing in between. */
  function Detach<S(==)>(s: State<S>): State<S>
    requires s.frames != []
  {
    var t := Leave(s);
    if t.phase.Uncounted? then Unlisten(t, t.phase.leaving).(flag := false, handler := false, phase := Steady) else t
  }

  function Next<S(==)>(s: State<S>, step: Step<S>): State<S>
    requires Enabled(s, step)
  {
    match step
    case CheckStep(signal) => Check(s, signal)
    case CountStep => Count(s, s.phase.arriving)
    case ListenStep => Listen(s, s.phase.arriving)
    case EnterStep => s.(frames := s.frames + [None])
    case LeaveStep => Leave(s)
    case UnlistenStep => Unlisten(s, s.phase.leaving)
    case ResetStep => s.(flag := false, handler := false, phase := Steady)
    case CancelStep(signal) => Cancel(s, signal)
  }

  predicate Legal<S(==)>(s: State<S>, run: seq<Step<S>>)
    decreases |run|
  {
    run != [] ==> Enabled(s, run[0]) && Legal(Next(s, run[0]), run[1..])
  }

  function After<S(==)>(s: State<S>, run: seq<Step<S>>): State<S>
    requires Legal(s, run)
    decreases |run|
  {
    if run == [] then s else After(Next(s, run[0]), run[1..])
  }

  // ---- The invariant ------------------------------------------------------------------------------------------

  /** How many of the operations being executed have a signal. */
  function Attached<S>(frames: seq<Option<S>>): nat {
    if frames == [] then 0
    else Attached(frames[..|frames| - 1]) + if frames[|frames| - 1].Some? then 1 else 0
  }

  /** The signals of the outermost operation that has one; empty if none has. */
  function Outermost<S(==)>(frames: seq<Option<S>>): set<S> {
    if frames == [] then {}
    else if frames[0].Some? then {frames[0].value}
    else Outermost(frames[1..])
  }

  ghost predicate Alarmed<S>(listening: set<S>, canceled: set<S>) {
    exists signal :: signal in listening && signal in canceled
  }

  /** The counter, the native handler and flag, and the listeners, as they follow from the operations and the phase. */
  ghost predicate Inv<S>(s: State<S>) {
    match s.phase
    case Counted(signal) =>
      Attached(s.frames) == 0 && s.count == 1 && s.handler && !s.flag && s.listening == {}
    case Uncounted(signal) =>
      Attached(s.frames) == 0 && s.count == 0 && s.handler && s.listening == {signal} && (s.flag <==> signal in s.canceled)
    case Unlistened =>
      Attached(s.frames) == 0 && s.count == 0 && s.handler && s.listening == {}
    case _ =>
      && s.count == Attached(s.frames)
      && (s.handler <==> s.count > 0)
      && s.listening == Outermost(s.frames)
      && (s.flag <==> Alarmed(s.listening, s.canceled))
  }

  lemma PushAttached<S>(frames: seq<Option<S>>, frame: Option<S>)
    ensures Attached(frames + [frame]) == Attached(frames) + if frame.Some? then 1 else 0
  {
    assert (frames + [frame])[..|frames|] == frames;
  }

  lemma {:induction false} PushOutermost<S>(frames: seq<Option<S>>, frame: Option<S>)
    ensures Outermost(frames + [frame]) ==
            if Attached(frames) > 0 then Outermost(frames) else if frame.Some? then {frame.value} else {}
    ensures Attached(frames) == 0 ==> Outermost(frames) == {}
  {
    if frames != [] {
      var n := |frames| - 1;
      assert (frames + [frame])[1..] == frames[1..] + [frame];
      PushOutermost(frames[1..], frame);
      PopFront(frames);
    }
  }

  lemma {:induction false} PopFront<S>(frames: seq<Option<S>>)
    requires frames != []
    ensures Attached(frames) == Attached(frames[1..]) + if frames[0].Some? then 1 else 0
  {
    var n := |frames| - 1;
    if n > 0 {
      PopFront(frames[..n]);
      assert frames[..n][1..] == frames[1..][..n - 1];
    }
  }

  lemma EnterKeepsInv<S>(s: State<S>, step: Step<S>)
    requires Inv(s) && Enabled(s, step) && (step.CountStep? || step.ListenStep? || step.EnterStep?)
    ensures Inv(Next(s, step))
  {
    hide Outermost, Attached;
    var frame := if step.EnterStep? then None else Some(s.phase.arriving);
    PushAttached(s.frames, frame);
    PushOutermost(s.frames, frame);
  }

  lemma LeaveKeepsInv<S>(s: State<S>)
    requires Inv(s) && s.phase.Steady? && s.frames != []
    ensures Inv(Leave(s))
  {
    hide Outermost, Attached;
    var n := |s.frames| - 1;
    assert s.frames == s.frames[..n] + [s.frames[n]];
    PushAttached(s.frames[..n], s.frames[n]);
    PushOutermost(s.frames[..n], s.frames[n]);
  }

  lemma NextKeepsInv<S>(s: State<S>, step: Step<S>)
    requires Inv(s) && Enabled(s, step)
    ensures Inv(Next(s, step))
  {
    hide Outermost, Attached;
    match step
    case CountStep => EnterKeepsInv(s, step);
    case ListenStep => EnterKeepsInv(s, step);
    case EnterStep => EnterKeepsInv(s, step);
    case LeaveStep => LeaveKeepsInv(s);
    case ResetStep => PushOutermost(s.frames, None);
    case _ =>
  }

  lemma {:induction false} RunKeepsInv<S>(s: State<S>, run: seq<Step<S>>)
    requires Inv(s) && Legal(s, run)
    ensures Inv(After(s, run))
    decreases |run|
  {
    hide Inv, Next, Enabled;
    if run != [] {
      NextKeepsInv(s, run[0]);
      RunKeepsInv(Next(s, run[0]), run[1..]);
    }
  }

  /**
   * Over every run: while operations are executed, the counter is the number of those that have a signal, the
   * native handler is on exactly when there is one, only the outermost one's signal is listened to, and the
   * native flag is up exactly when that signal is canceled.
   */
  lemma CancellationInStep<S>(run: seq<Step<S>>)
    requires Legal(Start<S>(), run)
    ensures var s := After(Start(), run);
      && 0 <= s.count
      && (s.phase.Steady? ==>
            && s.count == Attached(s.frames)
            && (s.handler <==> Attached(s.frames) > 0)
            && s.listening == Outermost(s.frames)
            && (s.flag <==> exists signal :: signal in Outermost(s.frames) && signal in s.canceled))
  {
    hide Legal, After, Outermost;
    ReachableInv(run);
  }

  lemma ReachableInv<S>(run: seq<Step<S>>)
    requires Legal(Start<S>(), run)
    ensures Inv(After(Start(), run))
  {
    hide Legal, After;
    assert Inv(Start<S>()) by { PushOutermost<S>([], None); }
    RunKeepsInv(Start(), run);
  }

  /** Over every run, the signal whose listener is taken away when the counter reaches zero is the only one that has it. */
  lemma ClearsTheListenerItSet<S>(run: seq<Step<S>>)
    requires Legal(Start<S>(), run) && After(Start(), run).phase.Uncounted?
    ensures var s := After(Start(), run);
      s.listening == {s.phase.leaving} && Unlisten(s, s.phase.leaving).listening == {}
  {
    hide Legal, After;
    ReachableInv(run);
  }

  // ---- A cancellation is not erased ---------------------------------------------------------------------------

  /** More than `k` operations are being executed in every state of the run. */
  ghost predicate Inside<S>(s: State<S>, run: seq<Step<S>>, k: nat)
    requires Legal(s, run)
    decreases |run|
  {
    k < |s.frames| && (run != [] ==> Inside(Next(s, run[0]), run[1..], k))
  }

  /** Operation `k` is the outermost one with a signal, and that signal is canceled. */
  ghost predicate CanceledAt<S>(s: State<S>, k: nat) {
    && k < |s.frames| && s.frames[k].Some? && s.frames[k].value in s.canceled
    && (forall i :: 0 <= i < k ==> s.frames[i].None?)
    && !s.phase.Counted? && !s.phase.Uncounted? && !s.phase.Unlistened?
  }

  lemma {:induction false} OutermostIs<S>(frames: seq<Option<S>>, k: nat)
    requires k < |frames| && frames[k].Some? && forall i :: 0 <= i < k ==> frames[i].None?
    ensures Outermost(frames) == {frames[k].value}
  {
    if k > 0 {
      OutermostIs(frames[1..], k - 1);
    }
  }

  lemma {:induction false} AttachedHas<S>(frames: seq<Option<S>>, k: nat)
    requires k < |frames| && frames[k].Some?
    ensures Attached(frames) >= 1
  {
    if k < |frames| - 1 {
      AttachedHas(frames[..|frames| - 1], k);
    }
  }

  lemma NextKeepsCanceled<S>(s: State<S>, step: Step<S>, k: nat)
    requires Inv(s) && Enabled(s, step) && CanceledAt(s, k) && k < |Next(s, step).frames|
    ensures CanceledAt(Next(s, step), k)
  {
    hide Outermost, Attached;
    AttachedHas(s.frames, k);
    if step.LeaveStep? {
      AttachedHas(s.frames[..|s.frames| - 1], k);
      PushAttached(s.frames[..|s.frames| - 1], s.frames[|s.frames| - 1]);
      assert s.frames == s.frames[..|s.frames| - 1] + [s.frames[|s.frames| - 1]];
    }
  }

  /** Once the outermost signal is canceled, the native flag stays up until that operation itself ends. */
  lemma {:induction false} CancelIsNotErased<S>(s: State<S>, run: seq<Step<S>>, k: nat)
    requires Inv(s) && CanceledAt(s, k) && Legal(s, run) && Inside(s, run, k)
    ensures After(s, run).flag && CanceledAt(After(s, run), k)
    decreases |run|
  {
    hide Outermost, Attached, Next, Enabled;
    if run == [] {
      OutermostIs(s.frames, k);
      assert s.frames[k].value in s.listening;
    } else {
      NextKeepsInv(s, run[0]);
      assert k < |Next(s, run[0]).frames| by { assert Inside(Next(s, run[0]), run[1..], k); }
      NextKeepsCanceled(s, run[0], k);
      CancelIsNotErased(Next(s, run[0]), run[1..], k);
    }
  }

  /** Over every run, the signal of a nested operation is not listened to: canceling it alone leaves the flag as it is. */
  lemma NestedCancelIsUnheard<S>(run: seq<Step<S>>, signal: S)
    requires Legal(Start<S>(), run) && After(Start(), run).phase.Steady?
    requires signal !in Outermost(After(Start(), run).frames)
    ensures Cancel(After(Start(), run), signal).flag == After(Start(), run).flag
  {
    hide Legal, After, Outermost;
    ReachableInv(run);
  }

  /** Over every run, canceling the signal of the outermost operation that has one raises the flag at once. */
  lemma OutermostCancelIsHeard<S>(run: seq<Step<S>>, signal: S)
    requires Legal(Start<S>(), run) && After(Start(), run).phase.Steady?
    requires signal in Outermost(After(Start(), run).frames)
    ensures var s := Next(After(Start(), run), CancelStep(signal));
      s.flag && signal in s.canceled && s.frames == After(Start(), run).frames
  {
    hide Legal, After, Outermost;
    ReachableInv(run);
  }

  /** A signal once canceled stays canceled, and from then on no operation with it starts, whatever the run does. */
  lemma CanceledStartsNothing<S>(s: State<S>, run: seq<Step<S>>, signal: S)
    requires Legal(s, [CancelStep(signal)] + run)
    ensures Legal(Next(s, CancelStep(signal)), run)
    ensures var t := After(Next(s, CancelStep(signal)), run);
      signal in t.canceled && (t.phase.Steady? ==> Next(t, CheckStep(signal)) == t)
  {
    assert ([CancelStep(signal)] + run)[1..] == run;
    StaysCanceled(Next(s, CancelStep(signal)), run, signal);
  }

  lemma {:induction false} StaysCanceled<S>(s: State<S>, run: seq<Step<S>>, signal: S)
    requires Legal(s, run) && signal in s.canceled
    ensures signal in After(s, run).canceled
    decreases |run|
  {
    if run != [] {
      StaysCanceled(Next(s, run[0]), run[1..], signal);
    }
  }

  // ---- Steps taken together -------------------------------------------------------------------------------------

  lemma AttachKeepsInv<S>(s: State<S>, signal: S)
    requires Inv(s) && s.phase.Steady? && signal !in s.canceled
    ensures Inv(Attach(s, signal)) && Attach(s, signal).phase.Steady?
  {
    hide Inv;
    NextKeepsInv(s, CheckStep(signal));
    var t := Check(s, signal);
    NextKeepsInv(t, CountStep);
    if Count(t, signal).phase.Counted? {
      NextKeepsInv(Count(t, signal), ListenStep);
    }
  }

  lemma DetachKeepsInv<S>(s: State<S>)
    requires Inv(s) && s.phase.Steady? && s.frames != []
    ensures Inv(Detach(s)) && Detach(s).phase.Steady?
    ensures s.frames[|s.frames| - 1].Some? ==> s.count > 0
  {
    hide Outermost, Attached;
    AttachedTop(s.frames);
    NextKeepsInv(s, LeaveStep);
    var t := Leave(s);
    if t.phase.Uncounted? {
      NextKeepsInv(t, UnlistenStep);
      NextKeepsInv(Unlisten(t, t.phase.leaving), ResetStep);
    }
  }

  lemma AttachedTop<S>(frames: seq<Option<S>>)
    requires frames != []
    ensures frames[|frames| - 1].Some? ==> Attached(frames) >= 1
  {
  }
}
