/** Attaching and detaching cancellation signals as it is coded, seen from the thread that owns the connection. */
module CancelableConnections {
  import opened Options
  import C = Cancellation

  class CancellationSignal {
    var isCanceled: bool
    var listener: CancelableConnection?

    constructor ()
      ensures fresh(this) && !isCanceled && listener == null
    {
      isCanceled, listener := false, null;
    }
  }

  class CancelableConnection {
    var attachCount: int
    /** The native progress handler is installed; it interrupts the statement when the native flag is up. */
    var handler: bool
    var canceled: bool

    /** The signals there are, and those of the operations being executed. */
    ghost var signals: set<CancellationSignal>
    ghost var frames: seq<Option<CancellationSignal>>

    ghost function Abs(): C.State<CancellationSignal>
      reads this, signals
    {
      C.State(attachCount, handler, canceled,
              (set s | s in signals && s.listener == this),
              (set s | s in signals && s.isCanceled),
              frames, C.Steady)
    }

    ghost predicate Valid()
      reads this, signals
    {
      && (forall i :: 0 <= i < |frames| && frames[i].Some? ==> frames[i].value in signals)
      && C.Inv(Abs())
    }

    constructor (ghost signals: set<CancellationSignal>)
      ensures Valid() && fresh(this) && this.signals == signals
      ensures Abs() == C.Start().(canceled := set s | s in signals && s.isCanceled)
    {
      attachCount, handler, canceled, frames := 0, false, false, [];
      this.signals := signals;
    }

    method ResetCancel(cancelable: bool)
      modifies this`canceled, this`handler
      ensures !canceled && handler == cancelable
    {
      canceled := false;
      handler := cancelable;
    }

    method OnCancel()
      modifies this`canceled
      ensures canceled
    {
      canceled := true;
    }

    /** A signal that is canceled already calls a new listener at once. */
    method SetOnCancelListener(signal: CancellationSignal, listen: bool)
      modifies signal`listener, this`canceled
      ensures signal.listener == if listen then this else null
      ensures canceled == (old(canceled) || (listen && signal.listener != old(signal.listener) && signal.isCanceled))
    {
      if listen {
        if signal.listener != this {
          signal.listener := this;
          if signal.isCanceled {
            OnCancel();
          }
        }
      } else {
        signal.listener := null;
      }
    }

    /** Throws if the signal is canceled; the operation has then not started. */
    method AttachCancellationSignal(signal: CancellationSignal?) returns (threw: bool)
      requires Valid() && (signal != null ==> signal in signals)
      modifies this`attachCount, this`handler, this`canceled, this`frames, signals`listener
      ensures Valid()
      ensures threw <==> signal != null && signal.isCanceled
      ensures threw ==> Abs() == old(Abs()) && Abs() == C.Next(old(Abs()), C.CheckStep(signal))
      ensures !threw && signal == null ==> Abs() == C.Next(old(Abs()), C.EnterStep)
      ensures !threw && signal != null ==> Abs() == C.Attach(old(Abs()), signal)
    {
      hide C.Inv;
      ghost var was := Abs();
      C.NextKeepsInv(was, C.EnterStep);
      if signal != null {
        if signal.isCanceled {
          return true;
        }
        C.AttachKeepsInv(was, signal);
        attachCount := attachCount + 1;
        if attachCount == 1 {
          ResetCancel(true);
          SetOnCancelListener(signal, true);
        }
        frames := frames + [Some(signal)];
        assert Abs().canceled == was.canceled;
        assert Abs() == C.Attach(was, signal);
      } else {
        frames := frames + [None];
        assert Abs() == C.Next(was, C.EnterStep);
      }
      threw := false;
    }

    method DetachCancellationSignal(signal: CancellationSignal?)
      requires Valid() && frames != []
      requires frames[|frames| - 1] == if signal == null then None else Some(signal)
      modifies this`attachCount, this`handler, this`canceled, this`frames, signals`listener
      ensures Valid() && Abs() == C.Detach(old(Abs()))
    {
      hide C.Inv;
      ghost var was := Abs();
      C.DetachKeepsInv(was);
      frames := frames[..|frames| - 1];
      if signal != null {
        assert attachCount > 0;
        attachCount := attachCount - 1;
        if attachCount == 0 {
          SetOnCancelListener(signal, false);
          ResetCancel(false);
        }
      }
      assert Abs().canceled == was.canceled;
      assert Abs() == C.Detach(was);
    }

    /** Some thread cancels a signal. */
    method Cancel(signal: CancellationSignal)
      requires Valid() && signal in signals
      modifies signal`isCanceled, this`canceled
      ensures Valid() && Abs() == C.Cancel(old(Abs()), signal)
      ensures signal.isCanceled && (!old(signal.isCanceled) && signal.listener == this ==> canceled)
    {
      hide C.Inv;
      ghost var was := Abs();
      C.NextKeepsInv(was, C.CancelStep(signal));
      if !signal.isCanceled {
        signal.isCanceled := true;
        if signal.listener == this {
          OnCancel();
        }
      }
      assert Abs().listening == was.listening;
      assert Abs() == C.Cancel(was, signal);
    }
  }
}
