/** mltemplate/utils/timer.py: a stopwatch that accumulates the lengths of its start/stop intervals. */
module Timing {
  import opened Wrappers

  /** `stop` on a timer that was never started subtracts from None. */
  datatype TimerError = TypeError(message: string)

  /** The three fields of a timer; the clock reading is passed in as `now` wherever the source calls `time.time()`. */
  datatype TimerState = TimerState(startTime: Option<int>, stopTime: Option<int>, accumulated: int)

  /** A new or reset timer. */
  const Fresh := TimerState(None, None, 0)

  /** Started and not stopped since. */
  predicate Running(s: TimerState)
  {
    s.startTime.Some? && s.stopTime.None?
  }

  /** `start`: records `now` as the start and clears the stop; an interval in progress is discarded. */
  function Started(s: TimerState, now: int): (r: TimerState)
    ensures Running(r) && r.startTime == Some(now) && r.accumulated == s.accumulated
  {
    TimerState(Some(now), None, s.accumulated)
  }

  /**
   * `stop`: a stopped timer is left alone; otherwise the stop time is recorded and, when there is
   * a start time, the interval is added to the total.
   */
  function Stopped(s: TimerState, now: int): (r: TimerState)
    ensures !Running(r) && r.startTime == s.startTime
    ensures s.stopTime.Some? ==> r == s
    ensures s.stopTime.None? ==> r.stopTime == Some(now)
    ensures Running(s) ==> r.accumulated == DurationAt(s, now)
    ensures !Running(s) ==> r.accumulated == s.accumulated
  {
    if s.stopTime.Some? then s
    else TimerState(s.startTime, Some(now),
                    if s.startTime.Some? then s.accumulated + (now - s.startTime.value) else s.accumulated)
  }

  /** `stop` raises (after recording the stop time) exactly when there is neither a stop nor a start time. */
  predicate StopFails(s: TimerState)
  {
    s.stopTime.None? && s.startTime.None?
  }

  /** `duration`: the total so far, plus the interval in progress while running. */
  function DurationAt(s: TimerState, now: int): (d: int)
    ensures Running(s) ==> d == s.accumulated + (now - s.startTime.value)
    ensures !Running(s) ==> d == s.accumulated
  {
    if Running(s) then s.accumulated + (now - s.startTime.value) else s.accumulated
  }

  /** A fresh timer reports 0 whatever the clock says, and is not running. */
  lemma FreshIsZero(now: int)
    ensures DurationAt(Fresh, now) == 0 && !Running(Fresh)
  {
  }

  /** After `start` the timer runs and reports the time since the start on top of the earlier total. */
  lemma StartedRuns(s: TimerState, t0: int, t1: int)
    ensures Running(Started(s, t0))
    ensures DurationAt(Started(s, t0), t1) == s.accumulated + (t1 - t0)
  {
  }

  /** Stopping freezes the reading: the duration at the stop time is the one reported ever after. */
  lemma StopFreezes(s: TimerState, t0: int, t1: int, t2: int)
    ensures !Running(Stopped(Started(s, t0), t1))
    ensures DurationAt(Stopped(Started(s, t0), t1), t2) == DurationAt(Started(s, t0), t1)
  {
  }

  /** A second stop without a start in between changes nothing. */
  lemma StopIdempotent(s: TimerState, t1: int, t2: int)
    ensures Stopped(Stopped(s, t1), t2) == Stopped(s, t1)
    ensures !StopFails(Stopped(s, t1))
  {
  }

  /** Starting a running timer again discards the interval in progress. */
  lemma RestartDiscards(s: TimerState, t0: int, t1: int)
    ensures Started(Started(s, t0), t1) == Started(s, t1)
  {
  }

  /** Durations accumulate across start/stop cycles. */
  lemma Accumulates(s: TimerState, t0: int, t1: int, t2: int, t3: int, now: int)
    ensures DurationAt(Stopped(Started(Stopped(Started(s, t0), t1), t2), t3), now)
         == s.accumulated + (t1 - t0) + (t3 - t2)
  {
  }

  class Timer {
    var startTime: Option<int>
    var stopTime: Option<int>
    var accumulated: int

    /** The timer's fields as one value. */
    function State(): TimerState
      reads this
    {
      TimerState(startTime, stopTime, accumulated)
    }

    constructor ()
      ensures State() == Fresh
    {
      startTime := None;
      stopTime := None;
      accumulated := 0;
    }

    method Start(now: int)
      modifies this
      ensures State() == Started(old(State()), now)
    {
      startTime := Some(now);
      stopTime := None;
    }

    /** The stop time is written before the subtraction that fails on a timer never started. */
    method Stop(now: int) returns (r: Outcome<TimerError>)
      modifies this
      ensures State() == Stopped(old(State()), now)
      ensures r.Fail? <==> StopFails(old(State()))
    {
      if stopTime.None? {
        stopTime := Some(now);
        if startTime.None? {
          return Fail(TypeError("unsupported operand type(s) for -: 'float' and 'NoneType'"));
        }
        accumulated := accumulated + (now - startTime.value);
      }
      return Pass;
    }

    function Duration(now: int): (d: int)
      reads this
      ensures d == DurationAt(State(), now)
    {
      if startTime.Some? && stopTime.None? then accumulated + (now - startTime.value) else accumulated
    }

    method Reset()
      modifies this
      ensures State() == Fresh
    {
      startTime := None;
      stopTime := None;
      accumulated := 0;
    }
  }

  /** Two start/stop cycles on one timer add up their intervals; a repeated stop counts nothing more. */
  method TwoCycles(t0: int, t1: int, t2: int, t3: int, t4: int) returns (d: int)
    ensures d == (t1 - t0) + (t3 - t2)
  {
    var timer := new Timer();
    timer.Start(t0);
    var _ := timer.Stop(t1);
    timer.Start(t2);
    var _ := timer.Stop(t3);
    var _ := timer.Stop(t4);
    d := timer.Duration(t4);
  }

  /** Stopping a timer that was never started fails, yet leaves the stop time set. */
  method StopBeforeStart(t0: int) returns (failed: bool, stopped: Option<int>)
    ensures failed && stopped == Some(t0)
  {
    var timer := new Timer();
    var r := timer.Stop(t0);
    failed := r.Fail?;
    stopped := timer.stopTime;
  }
}
