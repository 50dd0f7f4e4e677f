/** The run state around the sweeper: when a cycle starts, that only one runs at a time, and that sweeping never stalls. */
module C5Service {
  import opened Prelude

  datatype RunState = Stopped | Sweeping
  datatype Settings = Settings(tradeUrl: string, maxTotalSpend: real, pollIntervalSec: nat)

  /** Why real orders may not be placed yet: no receiver, or no budget. */
  predicate Blocked(settings: Settings) {
    settings.tradeUrl == "" || settings.maxTotalSpend <= 0.0
  }

  /** A receiver and a budget are there. */
  ghost predicate Equipped(settings: Settings) {
    settings.tradeUrl != "" && settings.maxTotalSpend > 0.0
  }

  /** What goes through the serial queue; the first is the one at work. */
  datatype Task = CycleTask(startedAt: int) | OtherTask

  /** What the database holds over a restart; runs of old versions that spent nothing carry a mark. */
  datatype Saved = Saved(run: RunState, legacy: bool, appKey: string, settings: Settings)

  /** How many polling intervals to wait after so many failures in a row. */
  function Patience(errors: nat): (n: nat)
    ensures 1 <= n <= 20
  {
    PowersArePositive(errors);
    Min(PowerOfTwo(errors), 20)
  }

  lemma {:induction false} PowersArePositive(k: nat)
    ensures PowerOfTwo(k) >= 1
  {
    if k > 0 {
      PowersArePositive(k - 1);
    }
  }

  /** Each of the first four failures doubles the wait; from the fifth on it stays at twenty intervals. */
  lemma {:induction false} PatienceGrows(errors: nat, more: nat)
    requires errors <= more
    ensures Patience(0) == 1
    ensures errors < 4 ==> Patience(errors + 1) == 2 * Patience(errors)
    ensures Patience(errors) <= Patience(more)
    ensures more >= 5 ==> Patience(more) == 20
    decreases more
  {
    if errors < more {
      PatienceGrows(errors, more - 1);
    }
    PowersAreLarge(more);
    assert PowerOfTwo(0) == 1 && PowerOfTwo(1) == 2 && PowerOfTwo(2) == 4 && PowerOfTwo(3) == 8 && PowerOfTwo(4) == 16;
  }

  lemma {:induction false} PowersAreLarge(k: nat)
    ensures k >= 5 ==> PowerOfTwo(k) >= 32
  {
    if k > 5 {
      PowersAreLarge(k - 1);
    } else if k == 5 {
      assert PowerOfTwo(5) == 2 * PowerOfTwo(4) && PowerOfTwo(4) == 2 * PowerOfTwo(3) && PowerOfTwo(3) == 2 * PowerOfTwo(2);
    }
  }

  function Cycles(tasks: seq<Task>): nat {
    if tasks == [] then 0 else Cycles(tasks[..|tasks| - 1]) + (if tasks[|tasks| - 1].CycleTask? then 1 else 0)
  }

  lemma {:induction false} CyclesFirst(tasks: seq<Task>)
    requires tasks != []
    ensures Cycles(tasks) == Cycles(tasks[1..]) + (if tasks[0].CycleTask? then 1 else 0)
  {
    var rest := tasks[..|tasks| - 1];
    if |tasks| > 1 {
      CyclesFirst(rest);
      assert rest[1..] == tasks[1..][..|tasks[1..]| - 1];
    }
  }

  class Service {
    var run: RunState
    var appKey: string
    var settings: Settings
    /** The saved run spent nothing; it is not to go on as one that does. */
    const legacy: bool
    var saved: Saved
    var errors: nat
    var timer: Option<int>
    var cycling: bool
    var shutDown: bool
    var tasks: seq<Task>
    var clock: int

    /** As read from the database; nothing runs before the start. */
    constructor (saved: Saved, now: int)
      ensures Consistent() && this.saved == saved && timer == None && !cycling && !shutDown && tasks == [] && errors == 0 && clock == now
      ensures run == (if saved.legacy then Stopped else saved.run) && legacy == saved.legacy
      ensures appKey == saved.appKey && settings == saved.settings
    {
      this.saved, appKey, settings, legacy := saved, saved.appKey, saved.settings, saved.legacy;
      run := if saved.legacy then Stopped else saved.run;
      errors, timer, cycling, shutDown, tasks, clock := 0, None, false, false, [], now;
    }

    predicate Active()
      reads this
    {
      !shutDown && run != Stopped && appKey != ""
    }

    /** A cycle is under way exactly if there is one in the queue, and never two. */
    ghost predicate Consistent()
      reads this
    {
      Cycles(tasks) == if cycling then 1 else 0
    }

    /**
     * From the start on: real orders only with a key, a receiver and a budget; while active, a cycle is under way or
     * a timer is set for the next; the database knows it all.
     */
    ghost predicate Valid()
      reads this
    {
      && Consistent()
      && (run == Sweeping ==> appKey != "" && Equipped(settings))
      && (Active() ==> cycling || timer.Some?)
      && (timer.Some? ==> Active())
      && saved.run == run && saved.appKey == appKey && saved.settings == settings
    }

    method Schedule(delayMs: int)
      modifies `timer
      ensures timer == Some(clock + Max(0, delayMs))
    {
      timer := Some(clock + Max(0, delayMs));
    }

    method Kick()
      modifies `timer
      ensures timer == if Active() && !cycling then Some(clock) else old(timer)
    {
      if Active() && !cycling {
        Schedule(0);
      }
    }

    method SetRunState(next: RunState)
      modifies `run, `saved, `timer
      ensures run == next && saved == old(saved).(run := next)
      ensures timer == if next == Stopped then None else old(timer)
    {
      run := next;
      saved := saved.(run := next);
      if next == Stopped {
        timer := None;
      }
    }

    /** `start`: go on sweeping if the last run was, and nothing is missing. */
    method Start()
      requires Consistent() && timer == None
      requires saved.appKey == appKey && saved.settings == settings && (legacy || saved.run == run)
      modifies this
      ensures clock == old(clock)
      ensures Valid()
      ensures run == if !legacy && old(run) == Sweeping && appKey != "" && Equipped(settings) then Sweeping else Stopped
      ensures run == Sweeping ==> timer == Some(clock) || cycling
    {
      shutDown := false;
      if legacy {
        SetRunState(Stopped);
      } else if run == Sweeping {
        if appKey == "" || Blocked(settings) {
          SetRunState(Stopped);
        } else {
          Kick();
        }
      }
    }

    method Stop()
      requires Valid()
      modifies this
      ensures clock == old(clock)
      ensures Valid() && timer == None && shutDown && run == old(run) && saved == old(saved)
    {
      shutDown := true;
      timer := None;
    }

    /** The timer rings: unless a cycle is under way, the next joins the queue. */
    method TimerRings()
      requires Valid() && timer.Some?
      modifies this
      ensures clock == old(clock)
      ensures Valid() && timer == None && cycling
      ensures tasks == if old(cycling) then old(tasks) else old(tasks) + [CycleTask(clock)]
    {
      timer := None;
      if !Active() || cycling {
        return;
      }
      cycling := true;
      tasks := tasks + [CycleTask(clock)];
      assert tasks[..|tasks| - 1] == old(tasks);
    }

    /** The cycle at work ends. The next is due one polling interval after its start; after failures, many. */
    method CycleEnds(failed: bool)
      requires Valid() && tasks != [] && tasks[0].CycleTask?
      modifies this
      ensures clock == old(clock)
      ensures Valid() && !cycling && tasks == old(tasks)[1..] && errors == if failed then old(errors) + 1 else 0
      ensures Active() ==> timer == Some(Max(clock, old(tasks)[0].startedAt + settings.pollIntervalSec * 1000 * Patience(errors)))
    {
      CyclesFirst(tasks);
      var started := tasks[0].startedAt;
      tasks := tasks[1..];
      errors := if failed then errors + 1 else 0;
      cycling := false;
      if Active() {
        Schedule(settings.pollIntervalSec * 1000 * Patience(errors) - (clock - started));
      }
    }

    /** A reconciliation or a marking by hand, asked for and done. */
    method Ask() returns (accepted: bool)
      requires Valid()
      modifies this
      ensures clock == old(clock)
      ensures Valid() && accepted == (appKey != "") && timer == old(timer)
      ensures tasks == if accepted then old(tasks) + [OtherTask] else old(tasks)
    {
      accepted := appKey != "";
      if accepted {
        tasks := tasks + [OtherTask];
        assert tasks[..|tasks| - 1] == old(tasks);
      }
    }

    method OtherEnds()
      requires Valid() && tasks != [] && tasks[0] == OtherTask
      modifies this
      ensures clock == old(clock)
      ensures Valid() && tasks == old(tasks)[1..] && timer == old(timer)
    {
      CyclesFirst(tasks);
      tasks := tasks[1..];
    }

    /** `setRun`: refused without a key, a receiver or a budget. */
    method SetRun(next: RunState) returns (accepted: bool)
      requires Valid()
      modifies this
      ensures clock == old(clock)
      ensures Valid()
      ensures accepted == (next == Stopped || (appKey != "" && Equipped(settings)))
      ensures run == if accepted then next else old(run)
    {
      accepted := next == Stopped || (appKey != "" && !Blocked(settings));
      if accepted {
        if next != run {
          SetRunState(next);
        }
        Kick();
      }
    }

    /**
     * `saveSettings`, of settings that passed their own checks: while sweeping, receiver and budget may not be emptied,
     * unless the key is deleted, which stops it.
     */
    method SaveSettings(next: Settings, newKey: string, clearKey: bool) returns (accepted: bool)
      requires Valid()
      modifies this
      ensures clock == old(clock)
      ensures Valid()
      ensures accepted == !((newKey != "" && clearKey) || (old(run) == Sweeping && !clearKey && !Equipped(next)))
      ensures !accepted ==> run == old(run) && settings == old(settings) && appKey == old(appKey) && saved == old(saved)
      ensures accepted ==> settings == next && appKey == (if newKey != "" then newKey else if clearKey then "" else old(appKey))
      ensures accepted ==> run == if appKey == "" then Stopped else old(run)
    {
      accepted := !((newKey != "" && clearKey) || (run == Sweeping && !clearKey && Blocked(next)));
      if accepted {
        saved := saved.(settings := next);
        if newKey != "" {
          saved := saved.(appKey := newKey);
          appKey := newKey;
        } else if clearKey && appKey != "" {
          saved := saved.(appKey := "");
          appKey := "";
        }
        settings := next;
        if appKey == "" && run != Stopped {
          SetRunState(Stopped);
        }
        Kick();
      }
    }
  }

  datatype Event =
    | Rings | CycleOver(failed: bool) | OtherOver | Asked | RunSet(next: RunState) | SettingsSaved(settings: Settings, newKey: string, clearKey: bool)
    | ShutDown | StartedAgain

  /** After the start, any events in any order at any times leave the service valid: it never stalls, and never sweeps unfit. */
  method Serve(service: Service, events: seq<(nat, Event)>)
    requires service.Valid()
    modifies service
    ensures service.Valid()
  {
    for i := 0 to |events|
      invariant service.Valid()
    {
      Handle(service, events[i].0, events[i].1);
    }
  }

  method Handle(service: Service, time: nat, event: Event)
    requires service.Valid()
    modifies service
    ensures service.Valid() && service.clock == old(service.clock) + time
  {
    service.clock := service.clock + time;
    match event
    case Rings => if service.timer.Some? { service.TimerRings(); }
    case CycleOver(failed) => if service.tasks != [] && service.tasks[0].CycleTask? { service.CycleEnds(failed); }
    case OtherOver => if service.tasks != [] && service.tasks[0] == OtherTask { service.OtherEnds(); }
    case Asked => var accepted := service.Ask();
    case RunSet(next) => var accepted := service.SetRun(next);
    case SettingsSaved(settings, newKey, clearKey) => var accepted := service.SaveSettings(settings, newKey, clearKey);
    case ShutDown => service.Stop();
    case StartedAgain => if service.timer == None { service.Start(); }
  }
}
