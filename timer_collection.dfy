/** mltemplate/utils/timer_collection.py: named timers, created on first start. */
module TimerCollections {
  import opened Wrappers
  import opened Timing

  datatype CollectionError = KeyError(message: string)

  /**
   * Each timer is held by value: the source's Timer objects are private to the collection, so
   * updating the stored state is indistinguishable from updating the object in place.
   */
  class TimerCollection {
    var timers: map<string, TimerState>

    constructor ()
      ensures timers == map[]
    {
      timers := map[];
    }

    /** Creates a fresh timer on the name's first use, then starts it; later starts reuse it. */
    method Start(name: string, now: int)
      modifies this
      ensures timers == old(timers)[name := Started(if name in old(timers) then old(timers)[name] else Fresh, now)]
    {
      if name !in timers {
        timers := timers[name := Fresh];
      }
      timers := timers[name := Started(timers[name], now)];
    }

    /** Stops the named timer; an unknown name raises KeyError and creates nothing. */
    method Stop(name: string, now: int) returns (r: Result<Outcome<TimerError>, CollectionError>)
      modifies this
      ensures r.Failure? <==> name !in old(timers)
      ensures name !in old(timers) ==> timers == old(timers)
      ensures name in old(timers) ==> timers == old(timers)[name := Stopped(old(timers)[name], now)]
      ensures name in old(timers) ==> (r.value.Fail? <==> StopFails(old(timers)[name]))
    {
      if name !in timers {
        return Failure(KeyError("Timer " + name + " does not exist. Unable to stop."));
      }
      var failed := StopFails(timers[name]);
      timers := timers[name := Stopped(timers[name], now)];
      if failed {
        return Success(Fail(TypeError("unsupported operand type(s) for -: 'float' and 'NoneType'")));
      }
      return Success(Pass);
    }

    /** The named timer's duration; an unknown name raises KeyError. */
    function Duration(name: string, now: int): (r: Result<int, CollectionError>)
      reads this
      ensures r.Failure? <==> name !in timers
      ensures r.Success? ==> r.value == DurationAt(timers[name], now)
    {
      if name !in timers then Failure(KeyError("Timer " + name + " does not exist. Unable to get duration."))
      else Success(DurationAt(timers[name], now))
    }

    /** Zeroes the named timer only; an unknown name raises KeyError. */
    method Reset(name: string) returns (r: Outcome<CollectionError>)
      modifies this
      ensures r.Fail? <==> name !in old(timers)
      ensures timers == if name in old(timers) then old(timers)[name := Fresh] else old(timers)
    {
      if name !in timers {
        return Fail(KeyError("Timer " + name + " does not exist. Unable to reset."));
      }
      timers := timers[name := Fresh];
      return Pass;
    }

    /** Zeroes every timer, one at a time; all names stay. */
    method ResetAll()
      modifies this
      ensures timers.Keys == old(timers).Keys
      ensures forall n :: n in timers ==> timers[n] == Fresh
    {
      var pending := timers.Keys;
      while pending != {}
        invariant timers.Keys == old(timers).Keys
        invariant pending <= timers.Keys
        invariant forall n :: n in timers && n !in pending ==> timers[n] == Fresh
        decreases pending
      {
        var n :| n in pending;
        timers := timers[n := Fresh];
        pending := pending - {n};
      }
    }

    /** The names of all timers. */
    function Names(): (r: set<string>)
      reads this
      ensures r == timers.Keys
    {
      timers.Keys
    }
  }

  /** Two timers run side by side: stopping one does not touch the other, which keeps running. */
  method SideBySide(t0: int, t1: int, t2: int) returns (d1: Result<int, CollectionError>, d2: Result<int, CollectionError>)
    ensures d1 == Success(t1 - t0) && d2 == Success(t2 - t0)
  {
    var tc := new TimerCollection();
    tc.Start("Timer 1", t0);
    tc.Start("Timer 2", t0);
    var _ := tc.Stop("Timer 1", t1);
    d1 := tc.Duration("Timer 1", t2);
    d2 := tc.Duration("Timer 2", t2);
  }

  /** Stop, duration and reset on an unknown name all raise KeyError and create no timer. */
  method UnknownName(now: int) returns (stopped: Result<Outcome<TimerError>, CollectionError>,
                                        duration: Result<int, CollectionError>,
                                        reset: Outcome<CollectionError>, names: set<string>)
    ensures stopped.Failure? && duration.Failure? && reset.Fail?
    ensures names == {"Timer 1"}
  {
    var tc := new TimerCollection();
    tc.Start("Timer 1", now);
    stopped := tc.Stop("Timer 3", now);
    duration := tc.Duration("Timer 3", now);
    reset := tc.Reset("Timer 3");
    names := tc.Names();
  }

  /** After reset_all every timer reports 0 and every started name is still listed. */
  method ResetAllKeepsNames(t0: int, t1: int) returns (names: set<string>, d1: Result<int, CollectionError>, d2: Result<int, CollectionError>)
    ensures names == {"Timer 1", "Timer 2"}
    ensures d1 == Success(0) && d2 == Success(0)
  {
    var tc := new TimerCollection();
    tc.Start("Timer 1", t0);
    tc.Start("Timer 2", t0);
    var _ := tc.Stop("Timer 1", t1);
    tc.ResetAll();
    names := tc.Names();
    d1 := tc.Duration("Timer 1", t1);
    d2 := tc.Duration("Timer 2", t1);
  }
}
