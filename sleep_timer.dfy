/*
 * `SleepTimerManager`: a single countdown that, when it runs out, clears
 * itself and then calls the closure it was started with. Starting again
 * replaces the running countdown rather than adding a second one.
 *
 * The wall clock is the `now` argument of each call (`Date()` when the timer
 * starts, the time of the one-second tick otherwise), and calling the
 * closure appends a record of the call to `fired`.
 */
module SleepTimer {
  import opened Foundation

  /** A closure handed to `startTimer`, known by a tag. */
  datatype Callback = Callback(tag: nat)

  /**
   * One call of a closure, with the timer state the closure sees when it
   * runs.
   */
  datatype Firing = Firing(callback: Callback, activeWhenCalled: bool, remainingWhenCalled: real)

  class SleepTimerManager {
    var isActive: bool
    var remainingTime: real
    /** Whether the repeating one-second `timer` exists. */
    var timerScheduled: bool
    var endTime: Option<real>
    var onTimerEnd: Option<Callback>
    /** Every closure call so far, in order. */
    var fired: seq<Firing>

    /** The timer is running exactly when an end time, a closure and a tick are all set. */
    ghost predicate Valid()
      reads this
    {
      && (isActive <==> endTime.Some?)
      && (isActive <==> onTimerEnd.Some?)
      && (isActive <==> timerScheduled)
      && (!isActive ==> remainingTime == 0.0)
    }

    /** Stopped, with nothing left to count down. */
    ghost predicate Idle()
      reads this
    {
      !isActive && remainingTime == 0.0 && !timerScheduled && endTime.None? && onTimerEnd.None?
    }

    constructor()
      ensures Valid() && Idle() && fired == []
    {
      isActive := false;
      remainingTime := 0.0;
      timerScheduled := false;
      endTime := None;
      onTimerEnd := None;
      fired := [];
    }

    /** `startTimer(duration:onEnd:)`: cancels any running countdown, then starts anew. */
    method StartTimer(duration: real, onEnd: Callback, now: real)
      modifies this
      ensures Valid()
      ensures isActive && timerScheduled
      ensures remainingTime == duration && endTime == Some(now + duration) && onTimerEnd == Some(onEnd)
      ensures fired == old(fired)
    {
      CancelTimer();
      endTime := Some(now + duration);
      remainingTime := duration;
      isActive := true;
      onTimerEnd := Some(onEnd);
      timerScheduled := true;
    }

    /** `cancelTimer()`: drops the tick, the end time and the closure without calling it. */
    method CancelTimer()
      modifies this
      ensures Valid() && Idle()
      ensures fired == old(fired)
    {
      timerScheduled := false;
      endTime := None;
      remainingTime := 0.0;
      isActive := false;
      onTimerEnd := None;
    }

    /**
     * `updateRemainingTime()`, the one-second tick. Without an end time it
     * cancels. When the end time has come, it cancels first and then calls the
     * closure it captured, which therefore sees a stopped timer. Otherwise it
     * only refreshes the remaining time.
     */
    method UpdateRemainingTime(now: real)
      requires Valid()
      modifies this
      ensures Valid()
      ensures old(endTime).None? ==> Idle() && fired == old(fired)
      ensures old(endTime).Some? && old(endTime).value - now <= 0.0 ==>
                && Idle()
                && fired == old(fired) + [Firing(old(onTimerEnd).value, false, 0.0)]
      ensures old(endTime).Some? && old(endTime).value - now > 0.0 ==>
                && remainingTime == old(endTime).value - now
                && isActive && timerScheduled
                && endTime == old(endTime) && onTimerEnd == old(onTimerEnd) && fired == old(fired)
    {
      if endTime.None? {
        CancelTimer();
        return;
      }
      var remaining := endTime.value - now;
      if remaining <= 0.0 {
        var callback := onTimerEnd;
        CancelTimer();
        if callback.Some? {
          fired := fired + [Firing(callback.value, isActive, remainingTime)];
        }
      } else {
        remainingTime := remaining;
      }
    }
  }

  /**
   * A countdown started at `start` runs down with the ticks and, at its end
   * time, calls its closure exactly once; later ticks call nothing.
   */
  method CountdownRunsOut(timer: SleepTimerManager, cb: Callback, start: real, duration: real)
    requires duration > 2.0
    modifies timer
    ensures timer.Idle()
    ensures timer.fired == old(timer.fired) + [Firing(cb, false, 0.0)]
  {
    timer.StartTimer(duration, cb, start);
    timer.UpdateRemainingTime(start + 1.0);
    var first := timer.remainingTime;
    timer.UpdateRemainingTime(start + 2.0);
    assert timer.remainingTime < first;
    timer.UpdateRemainingTime(start + duration);
    timer.UpdateRemainingTime(start + duration + 1.0);
  }

  /**
   * Starting a second countdown discards the first closure: only the second
   * one is ever called, and the remaining time is the second duration.
   */
  method RestartReplaces(timer: SleepTimerManager, first: Callback, second: Callback, start: real)
    modifies timer
    ensures timer.fired == old(timer.fired) + [Firing(second, false, 0.0)]
  {
    timer.StartTimer(600.0, first, start);
    timer.StartTimer(300.0, second, start + 10.0);
    assert timer.remainingTime == 300.0;
    timer.UpdateRemainingTime(start + 10.0 + 300.0);
    timer.UpdateRemainingTime(start + 10.0 + 600.0);
  }

  /** Cancelling twice leaves the same stopped state as cancelling once, and calls nothing. */
  method CancelTwice(timer: SleepTimerManager, cb: Callback, start: real)
    modifies timer
    ensures timer.Idle() && timer.fired == old(timer.fired)
  {
    timer.StartTimer(60.0, cb, start);
    timer.CancelTimer();
    timer.CancelTimer();
    timer.UpdateRemainingTime(start + 120.0);
  }
}
