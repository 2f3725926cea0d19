/** The supervisor's objects as the daemon has them: processes that report to their job, jobs
    that report to their manager, and the manager that marks, replaces and drains them. Each
    method is proved equal to the function of `SupervisorSpec` that says what it does. */
module Supervisor {
  import opened Options
  import opened JobConfigs
  import opened Proto
  import opened Events
  import S = SupervisorSpec
  import W = TableWalks
  import Safety = SupervisorSafety
  import Clean = CleanRuns
  import Drain = Shutdown

  /** Who has something registered with the event manager: the server's socket, a client's
      connection, or a process for one of its descriptors. */
  datatype Owner = Listener | Connection(id: nat) | OfProcess(process: Process, handle: S.Handle)

  datatype Callback =
    | ServerAccepts
    | ClientReads(id: nat)
    | ClientWrites(id: nat, cmd: Command)
    | ChildChanged(process: Process)
    | TimerExpired(process: Process)

  type Books = Registry<Owner, Callback>

  function CallbackFor(p: Process, h: S.Handle): Callback {
    if h.PidFd? then ChildChanged(p) else TimerExpired(p)
  }

  /** The process has exactly `watched` registered, for input and with its own callbacks. */
  ghost predicate Shows(r: Books, p: Process, watched: set<S.Handle>) {
    forall h :: At(r, OfProcess(p, h)) ==
                if h in watched then Some(Entry(Some(CallbackFor(p, h)), None)) else None
  }

  /** Nothing but the entries of `ps` differs. */
  ghost predicate Leaves(r: Books, t: Books, ps: set<Process>) {
    forall o :: o in r.interest.Keys + t.interest.Keys ==>
      (o.OfProcess? && o.process in ps) || At(t, o) == At(r, o)
  }

  /** Nothing but the entries of processes differs. */
  ghost predicate SameElsewhere(r: Books, t: Books) {
    forall o :: o in r.interest.Keys + t.interest.Keys ==> o.OfProcess? || At(t, o) == At(r, o)
  }

  /** Nothing but the entry of `mine` differs. */
  ghost predicate SameBut(r: Books, t: Books, mine: Owner) {
    forall o :: o in r.interest.Keys + t.interest.Keys ==> o == mine || At(t, o) == At(r, o)
  }

  /** Nothing but the entries of processes and of `mine` differs. */
  ghost predicate SameApart(r: Books, t: Books, mine: Owner) {
    forall o :: o in r.interest.Keys + t.interest.Keys ==> o.OfProcess? || o == mine || At(t, o) == At(r, o)
  }

  lemma SameApartChain(r: Books, t: Books, u: Books, w: Books, mine: Owner)
    requires SameBut(r, t, mine) && SameElsewhere(t, u) && SameBut(u, w, mine)
    ensures SameApart(r, w, mine)
  {
  }

  lemma SameButChain(r: Books, t: Books, u: Books, mine: Owner)
    requires SameBut(r, t, mine) && SameBut(t, u, mine)
    ensures SameBut(r, u, mine)
  {
  }

  lemma SameButItself(r: Books, mine: Owner)
    ensures SameBut(r, r, mine)
  {
  }

  lemma SameButIsApart(r: Books, t: Books, mine: Owner)
    requires SameBut(r, t, mine)
    ensures SameApart(r, t, mine)
  {
  }

  lemma ChangedMine(r: Books, mine: Owner, c: Change<Callback>)
    ensures SameBut(r, Changed(r, mine, c), mine)
  {
  }

  lemma StaysIn(r: Books, t: Books, mine: Owner)
    requires SameElsewhere(r, t) && !mine.OfProcess? && mine in r.interest
    ensures At(t, mine) == At(r, mine)
  {
  }

  lemma StaysOut(r: Books, t: Books, mine: Owner)
    requires SameElsewhere(r, t) && !mine.OfProcess? && mine !in r.interest && Coherent(t)
    ensures mine !in t.interest
  {
    assert mine in t.interest ==> At(t, mine) == At(r, mine);
  }

  lemma SameItself(r: Books)
    ensures SameElsewhere(r, r)
  {
  }

  lemma SameChain(r: Books, t: Books, u: Books)
    requires SameElsewhere(r, t) && SameElsewhere(t, u)
    ensures SameElsewhere(r, u)
  {
  }

  lemma LeavesInto(r: Books, t: Books, u: Books, p: Process, ps: set<Process>)
    requires Leaves(r, t, ps) && Leaves(t, u, {p}) && p in ps
    ensures Leaves(r, u, ps)
  {
  }

  lemma LeavesMore(r: Books, t: Books, p: Process, ps: set<Process>)
    requires Leaves(r, t, {p}) && p in ps
    ensures Leaves(r, t, ps)
  {
  }

  lemma LeavesIsSame(r: Books, t: Books, ps: set<Process>)
    requires Leaves(r, t, ps)
    ensures SameElsewhere(r, t)
  {
  }

  lemma StaysShown(r: Books, t: Books, ps: set<Process>, q: Process, watched: set<S.Handle>)
    requires Leaves(r, t, ps) && Shows(r, q, watched) && q !in ps
    ensures Shows(t, q, watched)
  {
  }

  lemma LeavesItself(r: Books, ps: set<Process>)
    ensures Leaves(r, r, ps)
  {
  }

  lemma LeavesChain(r: Books, t: Books, u: Books, ps: set<Process>, qs: set<Process>)
    requires Leaves(r, t, ps) && Leaves(t, u, qs)
    ensures Leaves(r, u, ps + qs)
  {
  }

  class Process {
    const index: nat
    const job: Job
    const events: EventManager<Owner, Callback>
    var state: S.ProcState
    var restarts: int
    /** `_timer`: owned by this object alone, hence a value here. */
    var timer: S.Timer
    /** The kernel's side: the child, and this process's entries in the event manager. */
    var os: S.Os

    ghost function View(): S.Proc
      reads this
    {
      S.Proc(state, restarts, timer, os)
    }

    /** This object is where its job expects it. */
    ghost predicate Enlisted()
      reads job
    {
      index < |job.processes| && job.processes[index] == this
    }

    /** What is registered for this process is what it watches. */
    ghost predicate Booked()
      reads this, events
    {
      events.Valid() && Shows(events.View(), this, os.watched)
    }

    constructor (index: nat, job: Job, events: EventManager<Owner, Callback>)
      requires events.Valid()
      ensures View() == S.NEW_PROC && this.index == index && this.job == job && this.events == events
      ensures Booked()
    {
      this.index := index;
      this.job := job;
      this.events := events;
      state := S.ProcState.Stopped;
      restarts := 0;
      timer := S.NoTimer;
      os := S.NEW_OS;
      new;
      assert forall h :: OfProcess(this, h) !in events.interest;
    }

    /** `RegisterEvent` for one of this process's descriptors; a refusal is remembered. */
    method Register(h: S.Handle)
      requires Booked()
      modifies this`os, events
      ensures Booked() && Leaves(old(events.View()), events.View(), {this})
      ensures os == S.Watch(old(os), h)
      ensures h !in old(os.watched) ==>
                events.View() == Entered(old(events.View()), OfProcess(this, h), Some(CallbackFor(this, h)), None)
    {
      var ok := events.RegisterEvent(OfProcess(this, h), Some(CallbackFor(this, h)), None);
      assert At(old(events.View()), OfProcess(this, h)).Some? <==> !ok;
      os := os.(watched := os.watched + {h}, fault := os.fault || !ok);
    }

    method Unregister(h: S.Handle)
      requires Booked()
      modifies this`os, events
      ensures Booked() && Leaves(old(events.View()), events.View(), {this})
      ensures os == S.Unwatch(old(os), h)
      ensures h in old(os.watched) ==> events.View() == Removed(old(events.View()), OfProcess(this, h))
    {
      var ok := events.UnregisterEvent(OfProcess(this, h));
      assert At(old(events.View()), OfProcess(this, h)).Some? <==> ok;
      os := os.(watched := os.watched - {h}, fault := os.fault || !ok);
    }

    method DropTimer()
      requires Booked()
      modifies this, events
      ensures Booked() && Leaves(old(events.View()), events.View(), {this})
      ensures View() == S.DropTimer(old(View()))
    {
      if timer.Timer? && timer.running {
        Unregister(S.TimerFd(os.timers));
      }
      timer := S.NoTimer;
    }

    method ResetTimer(kind: S.TimerKind, interval: int)
      requires Booked()
      modifies this, events
      ensures Booked() && Leaves(old(events.View()), events.View(), {this})
      ensures View() == S.NewTimer(old(View()), kind, interval)
    {
      DropTimer();
      os := os.(timers := os.timers + 1);
      timer := S.Timer(kind, interval, false);
    }

    method ArmTimer()
      requires Booked() && timer.Timer?
      modifies this, events
      ensures Booked() && Leaves(old(events.View()), events.View(), {this})
      ensures View() == S.ArmTimer(old(View()))
    {
      Register(S.TimerFd(os.timers));
      timer := timer.(running := true);
    }

    method Start(config: JobConfig)
      requires Booked()
      modifies this, events
      ensures Booked() && Leaves(old(events.View()), events.View(), {this})
      ensures View() == S.StartProcess(old(View()), config)
    {
      hide Shows;
      ResetTimer(S.StartTime, config.startTime);
      os := S.Fork(os);
      state := S.ProcState.Starting;
      ArmTimer();
      Register(S.PidFd(os.forks));
    }

    method AddRestart()
      modifies this
      ensures View() == old(View()).(restarts := old(restarts) + 1)
    {
      restarts := restarts + 1;
    }

    /** Also starts a new count of the relaunches charged to the counter. */
    method ResetRestarts()
      modifies this
      ensures View() == old(View()).(restarts := 0, os := old(os).(relaunches := 0))
    {
      restarts := 0;
      os := os.(relaunches := 0);
    }

    method Signal(config: JobConfig)
      requires Booked() && os.child.Child?
      modifies this, events
      ensures Booked() && Leaves(old(events.View()), events.View(), {this})
      ensures View() == S.SignalProcess(old(View()), config)
    {
      hide Shows;
      os := os.(child := S.Child(true, os.child.killed || config.stopSignal.KILL?));
      state := S.ProcState.Stopping;
      ResetTimer(S.StopTimeout, config.stopTime);
      ArmTimer();
    }

    /** Sends the stop signal; false when there is no child to take it. */
    method Stop() returns (ok: bool)
      requires job.Valid() && job.Enrolled() && Enlisted()
      modifies this, job, events
      ensures job.Valid() && job.processes == old(job.processes)
      ensures Leaves(old(events.View()), events.View(), {this})
      ensures (job.model, ok) == S.StopOne(old(job.model), index, job.Verdict())
    {
      hide Leaves, Shows, S.SignalProcess;
      ghost var r := events.View();
      if state.Backoff? || state.Exited? {
        state := S.ProcState.Stopped;
        job.model := S.Put(job.model, index, View());
        job.OnStop(this);
        return true;
      }
      if os.child.NoChild? {
        LeavesItself(r, {this});
        return false;
      }
      Signal(job.config);
      job.model := S.Put(job.model, index, View());
      job.OneChanged(index, r);
      ok := true;
    }

    method Kill()
      modifies this
      ensures View() == S.KillProcess(old(View()))
    {
      if os.child.NoChild? {
        os := os.(fault := true);
      } else {
        os := os.(child := os.child.(killed := true));
        state := S.ProcState.Stopping;
      }
    }

    method Reap()
      requires Booked()
      modifies this, events
      ensures Booked() && Leaves(old(events.View()), events.View(), {this})
      ensures View() == S.Reap(old(View()))
    {
      os := os.(child := S.NoChild, reaps := os.reaps + 1);
      DropTimer();
      Unregister(S.PidFd(os.forks));
    }

    /** The pidfd became readable: reap the child and tell the job. */
    method OnStateChange(status: S.ChildEvent)
      requires job.Valid() && job.Enrolled() && Enlisted()
      requires !status.TimerFired? && os.child.Child?
      modifies this, job, events
      ensures job.Valid() && job.processes == old(job.processes)
      ensures Leaves(old(events.View()), events.View(), {this})
      ensures job.model == S.OnChild(old(job.model), index, status, job.Verdict())
    {
      hide Leaves, Shows, S.Reap;
      ghost var r := events.View();
      Reap();
      job.model := S.Put(job.model, index, View());
      job.OneChanged(index, r);
      ghost var t := events.View();
      if status.ExitedWith? {
        OnExit(status.code);
      } else {
        assert forall p :: S.Put(job.model, index, p) == S.Put(old(job.model), index, p);
        OnForcedExit();
      }
      LeavesInto(r, t, events.View(), this, {this});
    }

    method OnExit(code: int)
      requires job.Valid() && job.Enrolled() && Enlisted()
      modifies this, job, events
      ensures job.Valid() && job.processes == old(job.processes)
      ensures Leaves(old(events.View()), events.View(), {this})
      ensures job.model == S.OnProcExit(old(job.model), index, code, job.Verdict())
    {
      hide Leaves, Shows, S.OnExit, S.OnStop;
      LeavesItself(events.View(), {this});
      match state
      case Stopping =>
        state := S.ProcState.Stopped;
        job.model := S.Put(job.model, index, View());
        job.OnStop(this);
      case Starting =>
        state := S.ProcState.Backoff;
        job.model := S.Put(job.model, index, View());
        job.OnExit(this, code);
      case Running =>
        state := S.ProcState.Exited;
        job.model := S.Put(job.model, index, View());
        job.OnExit(this, code);
      case _ =>
    }

    method OnForcedExit()
      requires job.Valid() && job.Enrolled() && Enlisted()
      modifies this, job, events
      ensures job.Valid() && job.processes == old(job.processes)
      ensures Leaves(old(events.View()), events.View(), {this})
      ensures job.model ==
                S.OnStop(S.Put(old(job.model), index, old(View()).(state := S.ProcState.Stopped)), index, job.Verdict())
    {
      state := S.ProcState.Stopped;
      job.model := S.Put(job.model, index, View());
      job.OnStop(this);
    }

    method Expire()
      requires Booked() && timer.Timer?
      modifies this, events
      ensures Booked() && Leaves(old(events.View()), events.View(), {this})
      ensures View() == S.ExpireTimer(old(View()))
    {
      timer := timer.(running := false);
      Unregister(S.TimerFd(os.timers));
    }

    /** The timer's descriptor became readable: unregister it and call back. */
    method OnTimerExpired()
      requires job.Valid() && Enlisted() && timer.Timer? && timer.running
      modifies this, job, events
      ensures job.Valid() && job.processes == old(job.processes)
      ensures Leaves(old(events.View()), events.View(), {this})
      ensures job.model == S.OnTimer(old(job.model), index)
    {
      hide Leaves, Shows;
      ghost var r := events.View();
      Expire();
      job.model := S.Put(job.model, index, View());
      job.OneChanged(index, r);
      assert forall p :: S.Put(job.model, index, p) == S.Put(old(job.model), index, p);
      if timer.kind.StartTime? {
        OnStartTime();
      } else {
        OnStopTime();
      }
    }

    method OnStartTime()
      requires job.Valid() && Enlisted()
      modifies this, job
      ensures job.Valid() && job.processes == old(job.processes)
      ensures job.model ==
                var k := S.Put(old(job.model), index, old(View()).(state := S.ProcState.Running));
                if S.AllRunning(k) then k.(state := S.JobState.Running) else k
    {
      state := S.ProcState.Running;
      job.model := S.Put(job.model, index, View());
      job.OnProcessSurpassedStartTime();
    }

    /** The stop time has passed. */
    method OnStopTime()
      requires job.Valid() && Enlisted()
      modifies this, job
      ensures job.Valid() && job.processes == old(job.processes)
      ensures job.model ==
                S.Put(old(job.model), index,
                      if old(View()).state.Stopping? then S.KillProcess(old(View())) else old(View()))
    {
      if state.Stopping? {
        Kill();
      }
      job.model := S.Put(job.model, index, View());
    }
  }

  class Job {
    const config: JobConfig
    const manager: JobManager
    const events: EventManager<Owner, Callback>
    var state: S.JobState
    var processes: seq<Process>
    ghost var model: S.Job

    /** The value shows this object and its processes. */
    ghost predicate Shaped()
      reads this, processes
    {
      && model.config == config && model.state == state
      && |model.procs| == |processes|
      && forall k :: 0 <= k < |processes| ==>
           && processes[k].job == this && processes[k].index == k && processes[k].events == events
           && processes[k].View() == model.procs[k]
    }

    /** Each process has its own registrations in `r`. */
    ghost predicate BookedIn(r: Books)
      reads this, processes
    {
      forall k :: 0 <= k < |processes| ==> Shows(r, processes[k], processes[k].os.watched)
    }

    lemma BookedStays(r: Books, t: Books, ps: set<Process>)
      requires BookedIn(r) && Leaves(r, t, ps) && forall p :: p in processes ==> p !in ps
      ensures BookedIn(t)
    {
      hide Leaves, Shows;
      forall k | 0 <= k < |processes|
        ensures Shows(t, processes[k], processes[k].os.watched)
      {
        StaysShown(r, t, ps, processes[k], processes[k].os.watched);
      }
    }

    lemma BookedKept(r: Books, t: Books, mine: Owner)
      requires BookedIn(r) && SameBut(r, t, mine) && !mine.OfProcess?
      ensures BookedIn(t)
    {
    }

    /** One process brought its own registrations up to date. */
    lemma OneChanged(i: nat, r: Books)
      requires i < |processes| && forall k :: 0 <= k < |processes| ==> processes[k].index == k
      requires Leaves(r, events.View(), {processes[i]})
      requires Shows(events.View(), processes[i], processes[i].os.watched)
      requires forall k :: 0 <= k < |processes| && k != i ==> Shows(r, processes[k], processes[k].os.watched)
      ensures BookedIn(events.View())
    {
      hide Leaves, Shows;
      forall k | 0 <= k < |processes| && k != i
        ensures Shows(events.View(), processes[k], processes[k].os.watched)
      {
        StaysShown(r, events.View(), {processes[i]}, processes[k], processes[k].os.watched);
      }
    }

    ghost predicate Linked()
      reads this, processes, events
    {
      Shaped() && events.Valid() && BookedIn(events.View())
    }

    ghost predicate Valid()
      reads this, processes, events
    {
      Linked() && (state.Empty? ==> processes == [])
    }

    /** `Valid` when `r` is what is registered. */
    ghost predicate ValidIn(r: Books)
      reads this, processes
    {
      Shaped() && BookedIn(r) && (state.Empty? ==> processes == [])
    }

    lemma ValidIs()
      ensures Valid() <==> ValidIn(events.View()) && events.Valid()
      ensures ValidIn(events.View()) ==>
                && model.config == config && model.state == state && |model.procs| == |processes|
                && (forall k :: 0 <= k < |processes| ==> processes[k].View() == model.procs[k])
                && forall p :: p in processes ==> p.job == this && p.job.config.name == config.name
    {
    }

    /** The manager knows this job under its name. */
    ghost predicate Enrolled()
      reads manager
    {
      config.name in manager.jobs && manager.jobs[config.name] == this
    }

    ghost function Verdict(): S.Verdict
      reads manager
    {
      S.VerdictFor(manager.config, config.name, config)
    }

    constructor (config: JobConfig, manager: JobManager, events: EventManager<Owner, Callback>)
      requires events.Valid()
      ensures Valid() && model == S.Job(config, S.JobState.Empty, []) && processes == []
      ensures this.config == config && this.manager == manager && this.events == events
    {
      this.config := config;
      this.manager := manager;
      this.events := events;
      state := S.JobState.Empty;
      processes := [];
      model := S.Job(config, S.JobState.Empty, []);
    }

    method MarkReplaced()
      requires Valid()
      modifies this
      ensures Valid() && processes == old(processes)
      ensures model == old(model).(state := S.JobState.Replace)
    {
      state := S.JobState.Replace;
      model := model.(state := state);
    }

    method MarkRemoved()
      requires Valid()
      modifies this
      ensures Valid() && processes == old(processes)
      ensures model == old(model).(state := S.JobState.Remove)
    {
      state := S.JobState.Remove;
      model := model.(state := state);
    }

    method AllProcessesInStates(states: seq<S.ProcState>) returns (all: bool)
      requires Valid()
      ensures all <==> forall k :: 0 <= k < |model.procs| ==> model.procs[k].state in states
    {
      for k := 0 to |processes|
        invariant forall i :: 0 <= i < k ==> model.procs[i].state in states
      {
        if processes[k].state !in states {
          assert model.procs[k].state !in states;
          return false;
        }
      }
      all := true;
    }

    /** Starts one of this job's processes again. */
    method Launch(proc: Process)
      requires Valid() && proc.job == this && proc.Enlisted()
      modifies this, proc, events
      ensures Valid() && processes == old(processes)
      ensures Leaves(old(events.View()), events.View(), {proc})
      ensures model == S.Launch(old(model), proc.index)
    {
      hide Leaves, Shows, S.StartProcess;
      ghost var r := events.View();
      proc.Start(config);
      model := S.Put(model, proc.index, proc.View());
      OneChanged(proc.index, r);
    }

    method OnStop(proc: Process)
      requires Valid() && Enrolled() && proc.job == this && proc.Enlisted()
      modifies this, proc, events
      ensures Valid() && processes == old(processes)
      ensures Leaves(old(events.View()), events.View(), {proc})
      ensures model == S.OnStop(old(model), proc.index, Verdict())
    {
      match state
      case Starting =>
        Launch(proc);
      case Stopping =>
        var all := AllProcessesInStates([S.ProcState.Stopped]);
        if all {
          assert S.AllStopped(model);
          state := S.JobState.Stopped;
          model := model.(state := state);
          manager.OnStop(config.name);
        } else {
          assert !S.AllStopped(model);
        }
      case _ =>
    }

    method Settle()
      requires Valid()
      modifies this
      ensures Valid() && processes == old(processes) && model == S.Settle(old(model))
    {
      var all := AllProcessesInStates([S.ProcState.Exited, S.ProcState.Backoff, S.ProcState.Stopped]);
      if all {
        assert S.AllDead(model);
        state := S.JobState.Stopped;
        model := model.(state := state);
      } else {
        assert !S.AllDead(model);
      }
    }

    method CountRestart(proc: Process)
      requires Valid() && proc.job == this && proc.Enlisted()
      modifies this, proc
      ensures Valid() && processes == old(processes)
      ensures model == S.CountRestart(old(model), proc.index)
    {
      proc.AddRestart();
      model := S.Put(model, proc.index, proc.View());
    }

    method Relaunch(proc: Process)
      requires Valid() && proc.job == this && proc.Enlisted()
      modifies this, proc, events
      ensures Valid() && processes == old(processes)
      ensures Leaves(old(events.View()), events.View(), {proc})
      ensures model == S.Relaunch(old(model), proc.index)
    {
      hide Leaves, Shows, S.StartProcess;
      state := S.JobState.Starting;
      proc.os := proc.os.(relaunches := proc.os.relaunches + 1);
      model := S.Put(model, proc.index, proc.View()).(state := state);
      Launch(proc);
    }

    method OnExit(proc: Process, code: int)
      requires Valid() && proc.job == this && proc.Enlisted()
      modifies this, proc, events
      ensures Valid() && processes == old(processes)
      ensures Leaves(old(events.View()), events.View(), {proc})
      ensures model == S.OnExit(old(model), proc.index, code)
    {
      if proc.restarts == config.startRetries {
        Settle();
        return;
      }
      match config.restartPolicy {
        case Never =>
        case Always =>
          CountRestart(proc);
          Relaunch(proc);
          return;
        case OnFailure =>
          CountRestart(proc);
          if code !in config.exitCodes {
            Relaunch(proc);
            return;
          }
      }
      Settle();
    }

    method OnProcessSurpassedStartTime()
      requires Valid()
      modifies this
      ensures Valid() && processes == old(processes)
      ensures model == if S.AllRunning(old(model)) then old(model).(state := S.JobState.Running) else old(model)
    {
      var all := AllProcessesInStates([S.ProcState.Running]);
      if all {
        assert S.AllRunning(model);
        state := S.JobState.Running;
        model := model.(state := state);
      } else {
        assert !S.AllRunning(model);
      }
    }

    method StopProcesses() returns (ok: bool)
      requires Valid() && Enrolled()
      modifies this, processes, events
      ensures Valid() && processes == old(processes)
      ensures Leaves(old(events.View()), events.View(), set p | p in processes)
      ensures (model, ok) == S.StopFrom(old(model), 0, Verdict())
    {
      hide Leaves, Shows, S.StopOne;
      LeavesItself(events.View(), set p | p in processes);
      for i := 0 to |processes|
        invariant Valid() && Enrolled() && processes == old(processes)
        invariant Leaves(old(events.View()), events.View(), set p | p in processes)
        invariant S.StopFrom(model, i, Verdict()) == S.StopFrom(old(model), 0, Verdict())
      {
        ghost var before := events.View();
        ok := processes[i].Stop();
        LeavesInto(old(events.View()), before, events.View(), processes[i], set p | p in processes);
        if !ok {
          return;
        }
      }
      ok := true;
    }

    /** False when a process could not be signalled and the call throws. */
    method Stop() returns (ok: bool)
      requires Valid() && Enrolled()
      modifies this, processes, events
      ensures Valid() && processes == old(processes)
      ensures Leaves(old(events.View()), events.View(), set p | p in processes)
      ensures (model, ok) == S.StopJob(old(model), Verdict())
    {
      ok := true;
      match state {
        case Stopping =>
        case Empty => manager.OnStop(config.name);
        case Stopped => manager.OnStop(config.name);
        case _ =>
          state := S.JobState.Stopping;
          model := model.(state := state);
          ok := StopProcesses();
      }
    }

    method AddProcess()
      requires Linked()
      modifies this, events
      ensures Linked() && state == old(state)
      ensures |processes| == |old(processes)| + 1 && processes[..|old(processes)|] == old(processes)
      ensures fresh(processes[|old(processes)|])
      ensures Leaves(old(events.View()), events.View(), {processes[|old(processes)|]})
      ensures model == old(model).(procs := old(model).procs + [S.StartProcess(S.NEW_PROC, config)])
    {
      hide Leaves, Shows;
      var proc := new Process(|processes|, this, events);
      ghost var before := events.View();
      proc.Start(config);
      forall k | 0 <= k < |processes|
        ensures Shows(events.View(), processes[k], processes[k].os.watched)
      {
        StaysShown(before, events.View(), {proc}, processes[k], processes[k].os.watched);
      }
      processes := processes + [proc];
      model := model.(procs := model.procs + [proc.View()]);
    }

    method StartProcesses()
      requires Valid() && processes == []
      modifies this, events
      ensures Linked() && fresh(processes)
      ensures Leaves(old(events.View()), events.View(), set p | p in processes)
      ensures model == old(model).(procs := S.FreshProcs(config))
    {
      hide Leaves, Shows, S.StartProcess;
      var n := if config.numprocs > 0 then config.numprocs else 0;
      LeavesItself(events.View(), set p | p in processes);
      for i := 0 to n
        invariant Linked() && |processes| == i && fresh(processes)
        invariant Leaves(old(events.View()), events.View(), set p | p in processes)
        invariant model == old(model).(procs := S.FreshProcs(config)[..i])
      {
        ghost var before, ps := events.View(), set p | p in processes;
        AddProcess();
        LeavesChain(old(events.View()), before, events.View(), ps, {processes[i]});
        assert ps + {processes[i]} == set p | p in processes by {
          assert processes == processes[..i] + [processes[i]];
        }
      }
    }

    method RestartAt(i: nat)
      requires Linked() && i < |processes|
      modifies this, processes[i], events
      ensures Linked() && processes == old(processes) && state == old(state)
      ensures Leaves(old(events.View()), events.View(), {processes[i]})
      ensures model == S.Put(old(model), i, S.RestartProcess(old(model).procs[i], config))
    {
      hide Leaves, Shows, S.StartProcess;
      ghost var r := events.View();
      LeavesItself(r, {processes[i]});
      var proc := processes[i];
      proc.ResetRestarts();
      if proc.state.Stopped? || proc.state.Exited? || proc.state.Backoff? {
        proc.Start(config);
      }
      model := S.Put(model, i, proc.View());
      OneChanged(i, r);
    }

    method RestartProcesses()
      requires Linked()
      modifies this, processes, events
      ensures Linked() && processes == old(processes)
      ensures Leaves(old(events.View()), events.View(), set p | p in processes)
      ensures model == old(model).(procs := S.RestartedProcs(old(model)))
    {
      for i := 0 to |processes|
        invariant Linked() && processes == old(processes) && state == old(state)
        invariant Leaves(old(events.View()), events.View(), set p | p in processes)
        invariant forall k :: 0 <= k < i ==> model.procs[k] == S.RestartProcess(old(model).procs[k], config)
        invariant forall k :: i <= k < |processes| ==> model.procs[k] == old(model).procs[k]
      {
        RestartAt(i);
      }
      assert model.procs == S.RestartedProcs(old(model));
    }

    method Start()
      requires Valid()
      modifies this, processes, events
      ensures Valid() && forall p :: p in processes ==> p in old(processes) || fresh(p)
      ensures forall p :: p in old(processes) ==> p in processes
      ensures Leaves(old(events.View()), events.View(), set p | p in processes)
      ensures model == S.StartJob(old(model))
    {
      match state {
        case Stopping => RestartProcesses();
        case Stopped => RestartProcesses();
        case Empty => StartProcesses();
        case _ =>
      }
      state := S.JobState.Starting;
      model := model.(state := state);
    }
  }

  class JobManager {
    var jobs: map<string, Job>
    var config: ConfigMap
    const events: EventManager<Owner, Callback>
    /** The jobs and their processes. */
    ghost var repr: set<object>

    ghost function View(): S.Manager
      reads this, jobs.Values
    {
      S.Manager(map n | n in jobs :: jobs[n].model, config)
    }

    ghost predicate Valid()
      reads this, repr, events
    {
      && this !in repr && events !in repr && events.Valid()
      && (forall n :: n in jobs ==>
            && jobs[n] in repr
            && (forall p :: p in jobs[n].processes ==> p in repr)
            && jobs[n].manager == this && jobs[n].events == events && jobs[n].config.name == n && jobs[n].Valid())
      && forall o :: o in events.interest && o.OfProcess? ==> Tabled(o.process)
    }

    /** `Valid` when `r` is what is registered. */
    ghost predicate ValidIn(r: Books)
      reads this, repr
    {
      && this !in repr && events !in repr
      && (forall n :: n in jobs ==>
            && jobs[n] in repr
            && (forall p :: p in jobs[n].processes ==> p in repr)
            && jobs[n].manager == this && jobs[n].events == events && jobs[n].config.name == n && jobs[n].ValidIn(r))
      && forall o :: o in r.interest && o.OfProcess? ==> Tabled(o.process)
    }

    lemma ValidIs()
      ensures Valid() <==> ValidIn(events.View()) && events.Valid()
      ensures Valid() ==> this !in repr && events !in repr
    {
    }

    /** Changes to entries of others do not concern the table. */
    lemma ValidKept(r: Books, t: Books, mine: Owner)
      requires ValidIn(r) && Coherent(r) && Coherent(t) && SameBut(r, t, mine) && !mine.OfProcess?
      ensures ValidIn(t)
    {
      forall n | n in jobs
        ensures jobs[n].ValidIn(t)
      {
        jobs[n].BookedKept(r, t, mine);
      }
      forall o | o in t.interest && o.OfProcess?
        ensures Tabled(o.process)
      {
        assert At(t, o) == At(r, o);
      }
    }

    /** The process is one of a job of the table. */
    ghost predicate Tabled(p: Process)
      reads this, jobs.Values
    {
      p.job.config.name in jobs && p in jobs[p.job.config.name].processes
    }

    /** A table with an EMPTY job for each configured one. */
    constructor (loaded: ConfigMap, events: EventManager<Owner, Callback>)
      requires forall n :: n in loaded ==> loaded[n].name == n
      requires events.Valid() && forall o :: o in events.interest ==> !o.OfProcess?
      ensures Valid() && fresh(repr) && this.events == events && View() == S.Initial(loaded)
    {
      this.events := events;
      config := loaded;
      jobs := map[];
      repr := {};
      new;
      FillTable();
      assert View().jobs == S.Initial(loaded).jobs;
    }

    method FillTable()
      requires Valid() && jobs == map[] && repr == {} && forall n :: n in config ==> config[n].name == n
      modifies this`repr, this`jobs
      ensures Valid() && fresh(repr) && jobs.Keys == config.Keys
      ensures forall n :: n in jobs ==> jobs[n].model == S.Job(config[n], S.JobState.Empty, [])
    {
      hide Job.Valid;
      var todo := config.Keys;
      while todo != {}
        invariant Valid() && fresh(repr) && todo <= config.Keys && jobs.Keys == config.Keys - todo
        invariant forall n :: n in jobs ==> jobs[n].model == S.Job(config[n], S.JobState.Empty, [])
      {
        var name :| name in todo;
        Emplace(name);
        todo := todo - {name};
      }
    }

    /** A job that stopped for good is marked when the configuration has moved on. */
    method OnStop(name: string)
      requires name in jobs && jobs[name].Valid()
      modifies jobs[name]
      ensures jobs[name].Valid() && jobs[name].processes == old(jobs[name].processes)
      ensures jobs[name].model == S.Mark(old(jobs[name].model), S.VerdictFor(config, name, jobs[name].config))
    {
      var job := jobs[name];
      if name !in config {
        job.MarkRemoved();
        return;
      }
      if config[name] != job.config {
        job.MarkReplaced();
      }
    }

    lemma NoStrays(r: Books, t: Books, ps: set<Process>)
      requires Leaves(r, t, ps) && Coherent(r) && Coherent(t) && forall p :: p in ps ==> Tabled(p)
      requires forall o :: o in r.interest && o.OfProcess? ==> Tabled(o.process)
      ensures forall o :: o in t.interest && o.OfProcess? ==> Tabled(o.process)
    {
      forall o | o in t.interest && o.OfProcess?
        ensures Tabled(o.process)
      {
        assert o.process in ps || At(t, o) == At(r, o);
      }
    }

    /** Only the entries of one job's processes changed: every other job keeps its own. */
    lemma OthersStay(name: string, r: Books)
      requires name in jobs && events.Valid() && Leaves(r, events.View(), set p | p in jobs[name].processes)
      requires forall n :: n in jobs && n != name ==>
                 && jobs[n].ValidIn(r) && jobs[n].events == events
                 && forall p :: p in jobs[n].processes ==> p !in jobs[name].processes
      ensures forall n :: n in jobs && n != name ==> jobs[n].Valid()
    {
      hide Leaves;
      forall n | n in jobs && n != name
        ensures jobs[n].Valid()
      {
        jobs[n].BookedStays(r, events.View(), set p | p in jobs[name].processes);
      }
    }

    /** The owner of each process is known by its job. */
    lemma JobsDoNotShare(name: string)
      requires Valid() && name in jobs
      ensures forall n :: n in jobs && n != name ==>
                && jobs[n] != jobs[name] && jobs[n].ValidIn(events.View())
                && forall p :: p in jobs[n].processes ==> p !in jobs[name].processes
    {
      assert forall n, p :: n in jobs && p in jobs[n].processes ==> p.job == jobs[n];
    }

    lemma Settled(name: string, r: Books)
      requires name in jobs && events.Valid()
      requires Coherent(r) && Leaves(r, events.View(), set p | p in jobs[name].processes)
      requires forall o :: o in r.interest && o.OfProcess? ==> Tabled(o.process)
      requires forall p :: p in jobs[name].processes ==> Tabled(p)
      ensures SameElsewhere(r, events.View())
      ensures forall o :: o in events.interest && o.OfProcess? ==> Tabled(o.process)
    {
      LeavesIsSame(r, events.View(), set p | p in jobs[name].processes);
      NoStrays(r, events.View(), set p | p in jobs[name].processes);
    }

    /** Stopping one job leaves every other job of the table alone. */
    method StopRegistered(name: string) returns (ok: bool)
      requires Valid() && name in jobs
      modifies repr, events
      ensures Valid()
      ensures SameElsewhere(old(events.View()), events.View())
      ensures forall n :: n in jobs && n != name ==> jobs[n].model == old(jobs[n].model)
      ensures (jobs[name].model, ok) == S.StopJob(old(jobs[name].model), S.VerdictFor(config, name, jobs[name].config))
    {
      hide Leaves, SameElsewhere, Shows, Job.Valid;
      ghost var r := events.View();
      JobsDoNotShare(name);
      jobs[name].ValidIs();
      ok := jobs[name].Stop();
      jobs[name].ValidIs();
      OthersStay(name, r);
      Settled(name, r);
    }

    method StartAlone(name: string)
      requires Valid() && name in jobs
      modifies repr, events
      ensures events.Valid() && SameElsewhere(old(events.View()), events.View())
      ensures forall n :: n in jobs ==> jobs[n].Valid()
      ensures forall n :: n in jobs && n != name ==>
                jobs[n].model == old(jobs[n].model) && jobs[n].processes == old(jobs[n].processes)
      ensures jobs[name].model == S.StartJob(old(jobs[name].model))
      ensures forall p :: p in jobs[name].processes ==> p in old(jobs[name].processes) || fresh(p)
      ensures forall o :: o in events.interest && o.OfProcess? ==> Tabled(o.process)
    {
      hide Leaves, SameElsewhere, Shows, Job.Valid, S.StartJob;
      ghost var r := events.View();
      JobsDoNotShare(name);
      jobs[name].ValidIs();
      jobs[name].Start();
      jobs[name].ValidIs();
      OthersStay(name, r);
      Settled(name, r);
    }

    method StartRegistered(name: string)
      requires Valid() && name in jobs
      modifies this`repr, repr, events
      ensures Valid() && fresh(repr - old(repr))
      ensures SameElsewhere(old(events.View()), events.View())
      ensures forall n :: n in jobs && n != name ==> jobs[n].model == old(jobs[n].model)
      ensures jobs[name].model == S.StartJob(old(jobs[name].model))
    {
      hide SameElsewhere, Job.Valid, S.StartJob;
      StartAlone(name);
      repr := repr + set p | p in jobs[name].processes;
    }

    // ------------------------------------------------------------- walking the table

    /** One turn of the stopping loops: of `kill`, or of `reload` that spares up-to-date jobs. */
    method StopNamed(name: string, all: bool) returns (ok: bool)
      requires Valid() && name in jobs
      modifies repr, events
      ensures Valid()
      ensures SameElsewhere(old(events.View()), events.View())
      ensures (View(), ok) == S.StopNamed(old(View()), name, all)
    {
      hide Job.Valid, SameElsewhere, S.StopJob;
      jobs[name].ValidIs();
      SameItself(events.View());
      ok := true;
      if all || name !in config || config[name] != jobs[name].config {
        ok := StopRegistered(name);
      }
      assert View().jobs == S.StopNamed(old(View()), name, all).0.jobs;
    }

    /** Stops the jobs in the order the table is walked; false when one of them throws. */
    method StopAll(order: seq<string>, all: bool) returns (ok: bool)
      requires Valid() && S.IsOrder(order, jobs.Keys)
      modifies repr, events
      ensures Valid()
      ensures SameElsewhere(old(events.View()), events.View())
      ensures (View(), ok) == S.StopInOrder(old(View()), order, all)
    {
      hide Job.Valid, SameElsewhere;
      SameItself(events.View());
      for i := 0 to |order|
        invariant Valid()
        invariant SameElsewhere(old(events.View()), events.View())
        invariant S.StopInOrder(View(), order[i..], all) == S.StopInOrder(old(View()), order, all)
      {
        assert order[i..][1..] == order[i + 1..];
        ghost var before := events.View();
        ok := StopNamed(order[i], all);
        SameChain(old(events.View()), before, events.View());
        if !ok {
          return;
        }
      }
      ok := true;
    }

    /** `Job::start` on the table as a whole. */
    method StartInTable(name: string)
      requires Valid() && name in jobs
      modifies this`repr, repr, events
      ensures Valid() && fresh(repr - old(repr))
      ensures SameElsewhere(old(events.View()), events.View())
      ensures View() == S.SetJob(old(View()), name, S.StartJob(old(View()).jobs[name]))
    {
      hide Job.Valid;
      StartRegistered(name);
      assert View().jobs == old(View()).jobs[name := S.StartJob(old(View()).jobs[name])];
    }

    method StartNamed(name: string)
      requires Valid() && name in jobs
      modifies this`repr, repr, events
      ensures Valid() && fresh(repr - old(repr))
      ensures SameElsewhere(old(events.View()), events.View())
      ensures forall n :: n in jobs && n != name ==> jobs[n].model == old(jobs[n].model)
      ensures jobs[name].model == S.AutoStarted(old(jobs[name].model))
    {
      hide Job.Valid;
      jobs[name].ValidIs();
      if jobs[name].config.autostart {
        StartRegistered(name);
      }
    }

    /** Starts the jobs whose own configuration asks for it. */
    method Start()
      requires Valid()
      modifies this`repr, repr, events
      ensures Valid() && fresh(repr - old(repr))
      ensures SameElsewhere(old(events.View()), events.View())
      ensures View() == S.StartedAll(old(View()))
    {
      hide Job.Valid, SameElsewhere, S.AutoStarted;
      SameItself(events.View());
      var todo := jobs.Keys;
      while todo != {}
        invariant Valid() && fresh(repr - old(repr)) && todo <= jobs.Keys
        invariant SameElsewhere(old(events.View()), events.View())
        invariant forall n :: n in jobs ==>
                    jobs[n].model == if n in todo then old(jobs[n].model) else S.AutoStarted(old(jobs[n].model))
      {
        var name :| name in todo;
        ghost var before := events.View();
        StartNamed(name);
        SameChain(old(events.View()), before, events.View());
        todo := todo - {name};
      }
      assert View().jobs == S.StartedAll(old(View())).jobs;
    }

    /** Enters a new EMPTY job in the table. */
    method Emplace(name: string)
      requires Valid() && name in config && name !in jobs && config[name].name == name
      modifies this`repr, this`jobs
      ensures Valid() && fresh(repr - old(repr)) && jobs.Keys == old(jobs.Keys) + {name}
      ensures forall n :: n in old(jobs) ==> jobs[n] == old(jobs[n])
      ensures jobs[name].model == S.Job(config[name], S.JobState.Empty, [])
    {
      hide Job.Valid, Shows;
      var job := new Job(config[name], this, events);
      jobs := jobs[name := job];
      repr := repr + {job};
    }

    method CreateJob(name: string)
      requires Valid() && name in config && name !in jobs && config[name].name == name
      modifies this`repr, this`jobs, repr, events
      ensures Valid() && fresh(repr - old(repr)) && jobs.Keys == old(jobs.Keys) + {name}
      ensures SameElsewhere(old(events.View()), events.View())
      ensures forall n :: n in old(jobs) ==> jobs[n].model == old(jobs[n].model)
      ensures jobs[name].model == S.CreatedJob(config[name])
    {
      hide Job.Valid;
      Emplace(name);
      StartNamed(name);
    }

    /** `CreateJob` on the table as a whole. */
    method Create(name: string)
      requires Valid() && name in config && name !in jobs && config[name].name == name
      modifies this`repr, this`jobs, repr, events
      ensures Valid() && fresh(repr - old(repr)) && jobs.Keys == old(jobs.Keys) + {name}
      ensures SameElsewhere(old(events.View()), events.View())
      ensures View() == S.SetJob(old(View()), name, S.CreatedJob(config[name]))
    {
      hide Job.Valid, S.CreatedJob, SameElsewhere;
      CreateJob(name);
      assert View().jobs == old(View()).jobs[name := S.CreatedJob(config[name])];
    }

    /** Creates the configured jobs the table lacks. */
    method CreateMissing()
      requires Valid() && forall n :: n in config ==> config[n].name == n
      modifies this`repr, this`jobs, repr, events
      ensures Valid() && fresh(repr - old(repr))
      ensures SameElsewhere(old(events.View()), events.View())
      ensures View() == S.CreatedMissing(old(View()))
    {
      hide Job.Valid, SameElsewhere, S.CreatedJob, S.CreatedMissing;
      SameItself(events.View());
      var todo := config.Keys;
      while todo != {}
        invariant Valid() && fresh(repr - old(repr))
        invariant SameElsewhere(old(events.View()), events.View())
        invariant todo <= config.Keys <= jobs.Keys + todo
        invariant S.CreatedMissing(View()) == S.CreatedMissing(old(View()))
      {
        var name :| name in todo;
        if name !in jobs {
          W.CreateMissingStep(View(), name);
          ghost var before := events.View();
          Create(name);
          SameChain(old(events.View()), before, events.View());
        }
        todo := todo - {name};
      }
      W.NothingMissing(View());
    }

    /** Nothing of the job is registered any more. */
    ghost predicate Quiet(name: string)
      reads this, repr, events
      requires Valid() && name in jobs
    {
      forall p :: p in jobs[name].processes ==> p.os.watched == {}
    }

    lemma QuietIsUnregistered(name: string)
      requires Valid() && name in jobs && Quiet(name)
      ensures forall o :: o in events.interest && o.OfProcess? ==>
                o.process !in jobs[name].processes && o.process.job.config.name != name
    {
      hide Shows;
      forall o | o in events.interest && o.OfProcess?
        ensures o.process !in jobs[name].processes && o.process.job.config.name != name
      {
        if o.process in jobs[name].processes {
          var k :| 0 <= k < |jobs[name].processes| && jobs[name].processes[k] == o.process;
          Unregistered(o.process, o.handle);
        }
      }
    }

    lemma Unregistered(p: Process, h: S.Handle)
      requires events.Valid() && Shows(events.View(), p, {})
      ensures OfProcess(p, h) !in events.interest
    {
      assert At(events.View(), OfProcess(p, h)).None?;
    }

    method Erase(name: string)
      requires Valid() && name in jobs && Quiet(name)
      modifies this`jobs
      ensures Valid() && View() == W.Erased(old(View()), name)
    {
      hide Job.Valid;
      QuietIsUnregistered(name);
      jobs := jobs - {name};
      assert View().jobs == old(View()).jobs - {name};
    }

    lemma MarkedIsQuiet(name: string)
      requires Valid() && name in jobs && Safety.ManagerOk(View()) && S.Marked(jobs[name].model)
      ensures Quiet(name)
    {
      forall k | 0 <= k < |jobs[name].processes|
        ensures jobs[name].processes[k].os.watched == {}
      {
        Safety.ErasedJobIsQuiet(View(), name, k);
        assert jobs[name].processes[k].View() == View().jobs[name].procs[k];
      }
    }

    /** The table's elements in the order the table happens to keep them. */
    method Walk() returns (order: seq<string>)
      ensures S.IsOrder(order, jobs.Keys)
    {
      order := [];
      var todo := jobs.Keys;
      while todo != {}
        invariant todo <= jobs.Keys && S.IsOrder(order, jobs.Keys - todo)
      {
        var name :| name in todo;
        order := order + [name];
        todo := todo - {name};
      }
    }

    /** Erases the jobs marked REMOVE and replaces those marked REPLACE. A job created for a
        replaced one may land ahead of the iterator or behind it; fewer marked jobs, then fewer
        elements ahead, make the walk end. */
    method Update()
      requires Valid() && Safety.ManagerOk(View())
      modifies this`repr, this`jobs, repr, events
      ensures Valid() && fresh(repr - old(repr))
      ensures SameElsewhere(old(events.View()), events.View())
      ensures View() == S.Updated(old(View()))
    {
      hide Job.Valid, SameElsewhere, S.Updated, W.Walking, W.MarkedNames, Safety.ManagerOk, S.IsOrder;
      SameItself(events.View());
      var ahead := Walk();
      W.WalkStarts(View(), ahead);
      while ahead != []
        invariant Valid() && fresh(repr - old(repr)) && W.Walking(View(), ahead) && Safety.ManagerOk(View())
        invariant SameElsewhere(old(events.View()), events.View())
        invariant S.Updated(View()) == S.Updated(old(View()))
        decreases W.MarkedNames(View()), |ahead|
      {
        ghost var before := events.View();
        ahead := UpdateTurn(ahead);
        SameChain(old(events.View()), before, events.View());
      }
      W.WalkEnds(View());
    }

    /** One turn of `update`'s loop; gives the elements ahead of the iterator after it. */
    method UpdateTurn(ahead: seq<string>) returns (rest: seq<string>)
      requires Valid() && W.Walking(View(), ahead) && ahead != [] && Safety.ManagerOk(View())
      modifies this`repr, this`jobs, repr, events
      ensures Valid() && fresh(repr - old(repr))
      ensures SameElsewhere(old(events.View()), events.View())
      ensures W.Walking(View(), rest) && S.Updated(View()) == S.Updated(old(View())) && Safety.ManagerOk(View())
      ensures if W.MarkedNames(View()) == W.MarkedNames(old(View())) then |rest| < |ahead|
              else W.MarkedNames(View()) < W.MarkedNames(old(View()))
    {
      hide Job.Valid;
      var name := ahead[0];
      var job := jobs[name];
      rest := ahead[1..];
      job.ValidIs();
      if job.state.Remove? {
        W.RemoveTurn(View(), ahead);
        W.RemoveKeepsOk(View(), name);
        MarkedIsQuiet(name);
        Erase(name);
      } else if job.state.Replace? {
        var at: nat :| at < |ahead|;
        W.ReplaceTurn(View(), ahead, at);
        W.ReplaceKeepsOk(View(), name);
        MarkedIsQuiet(name);
        Replace(name);
        if * {
          rest := rest[..at] + [name] + rest[at..];
        }
      } else {
        W.SkipTurn(View(), ahead);
      }
    }

    method Replace(name: string)
      requires Valid() && name in jobs && Quiet(name) && name in config && config[name].name == name
      modifies this`repr, this`jobs, repr, events
      ensures Valid() && fresh(repr - old(repr)) && View() == W.Replaced(old(View()), name)
      ensures SameElsewhere(old(events.View()), events.View())
    {
      hide Job.Valid;
      Erase(name);
      Create(name);
      W.EraseThenSet(old(View()), name, S.CreatedJob(config[name]));
    }

    // --------------------------------------------------------------------- commands

    method StartCommand(name: string) returns (status: Status)
      requires Valid()
      modifies this`repr, repr, events
      ensures Valid() && fresh(repr - old(repr))
      ensures SameElsewhere(old(events.View()), events.View())
      ensures View() == S.Handled(old(View()), S.StartCommand(name))
      ensures status == if name in jobs then OK else ARGUMENT_ERROR
    {
      hide Job.Valid;
      if name !in jobs {
        return ARGUMENT_ERROR;
      }
      StartInTable(name);
      status := OK;
    }

    method StopCommand(name: string) returns (status: Status)
      requires Valid()
      modifies repr, events
      ensures Valid()
      ensures SameElsewhere(old(events.View()), events.View())
      ensures View() == S.Handled(old(View()), S.StopCommand(name))
      ensures status == if name !in jobs then ARGUMENT_ERROR
                        else if S.StopNamed(old(View()), name, true).1 then OK else ERROR
    {
      hide Job.Valid;
      if name !in jobs {
        return ARGUMENT_ERROR;
      }
      var ok := StopNamed(name, true);
      status := if ok then OK else ERROR;
    }

    method RestartCommand(name: string) returns (status: Status)
      requires Valid()
      modifies this`repr, repr, events
      ensures Valid() && fresh(repr - old(repr))
      ensures SameElsewhere(old(events.View()), events.View())
      ensures View() == S.Handled(old(View()), S.RestartCommand(name))
      ensures status == if name !in jobs then ARGUMENT_ERROR
                        else if S.StopNamed(old(View()), name, true).1 then OK else ERROR
    {
      hide Job.Valid, SameElsewhere, S.StopJob, S.StartJob;
      ghost var r := events.View();
      SameItself(r);
      if name !in jobs {
        return ARGUMENT_ERROR;
      }
      var ok := StopNamed(name, true);
      if !ok {
        return ERROR;
      }
      ghost var t := events.View();
      ghost var stopped := View().jobs[name];
      StartInTable(name);
      SameChain(r, t, events.View());
      W.SetTwice(old(View()), name, stopped, S.StartJob(stopped));
      status := OK;
    }

    method LoadConfig(c: ConfigMap)
      requires Valid()
      modifies this`config
      ensures Valid() && View() == old(View()).(config := c)
    {
      hide Job.Valid;
      config := c;
    }

    /** The part of a reload that stops what the new configuration changed or dropped. */
    method StopForReload(c: ConfigMap, order: seq<string>) returns (ok: bool)
      requires Valid() && Safety.Safe(View()) && S.IsOrder(order, jobs.Keys) && Safety.ConfigOk(c)
      modifies this`config, repr, events
      ensures Valid() && Safety.ManagerOk(View())
      ensures SameElsewhere(old(events.View()), events.View())
      ensures (View(), ok) == S.StopInOrder(old(View()).(config := c), order, false)
    {
      hide Job.Valid;
      LoadConfig(c);
      Safety.LoadedOk(old(View()), c);
      Safety.StopInOrderOk(View(), order, false);
      ok := StopAll(order, false);
    }

    method StatusCommand(name: string) returns (status: Status)
      ensures status == if name in jobs then OK else ARGUMENT_ERROR
    {
      status := if name in jobs then OK else ARGUMENT_ERROR;
    }

    /** The part of a reload that follows the stops. */
    method Rebuild()
      requires Valid() && Safety.ManagerOk(View())
      modifies this`jobs, this`repr, repr, events
      ensures Valid() && fresh(repr - old(repr))
      ensures SameElsewhere(old(events.View()), events.View())
      ensures View() == S.StartedAll(S.Updated(S.CreatedMissing(old(View()))))
    {
      hide Job.Valid, S.CreatedMissing, S.Updated, S.StartedAll;
      Safety.CreatedMissingOk(View());
      CreateMissing();
      Update();
      Start();
    }

    /** `loaded` is what parsing the file gave, `order` how the table is walked. No status
        means that a stop threw: the exception leaves with the new configuration in place. */
    method Reload(loaded: Option<ConfigMap>, order: seq<string>) returns (status: Option<Status>)
      requires Valid() && Safety.Safe(View()) && S.IsOrder(order, jobs.Keys)
      requires loaded.Some? ==> Safety.ConfigOk(loaded.value)
      modifies this`config, this`jobs, this`repr, repr, events
      ensures Valid() && fresh(repr - old(repr))
      ensures SameElsewhere(old(events.View()), events.View())
      ensures View() == S.Reloaded(old(View()), loaded, order).0
      ensures status == if loaded.None? then Some(ERROR)
                        else if S.Reloaded(old(View()), loaded, order).1 then Some(OK) else None
    {
      hide Job.Valid;
      if loaded.None? {
        return Some(ERROR);
      }
      var ok := StopForReload(loaded.value, order);
      if !ok {
        return None;
      }
      Rebuild();
      status := Some(OK);
    }

    // ----------------------------------------------------------------------- events

    /** Calls back the process whose pidfd or timer became readable. */
    method Dispatch(name: string, i: nat, what: S.ChildEvent)
      requires Valid() && name in jobs && i < |jobs[name].processes|
      requires S.Possible(jobs[name].processes[i].View(), what)
      modifies repr, events
      ensures Valid()
      ensures SameElsewhere(old(events.View()), events.View())
      ensures forall n :: n in jobs && n != name ==> jobs[n].model == old(jobs[n].model)
      ensures jobs[name].model ==
                S.OnChild(old(jobs[name].model), i, what, S.VerdictFor(config, name, jobs[name].config))
      ensures jobs[name].processes == old(jobs[name].processes)
    {
      hide Leaves, SameElsewhere, Shows, Job.Valid, S.OnChild, S.OnTimer;
      ghost var r := events.View();
      JobsDoNotShare(name);
      jobs[name].ValidIs();
      CallBack(jobs[name], i, what);
      jobs[name].ValidIs();
      LeavesMore(r, events.View(), jobs[name].processes[i], set p | p in jobs[name].processes);
      OthersStay(name, r);
      Settled(name, r);
    }

    /** What the event manager calls for an event of a child. */
    method CallBack(job: Job, i: nat, what: S.ChildEvent)
      requires job.Valid() && job.Enrolled() && i < |job.processes|
      requires S.Possible(job.processes[i].View(), what)
      modifies job, job.processes[i], job.events
      ensures job.Valid() && job.processes == old(job.processes)
      ensures Leaves(old(job.events.View()), job.events.View(), {job.processes[i]})
      ensures job.model == S.OnChild(old(job.model), i, what, job.Verdict())
    {
      hide Leaves, Shows;
      var proc := job.processes[i];
      if what.TimerFired? {
        proc.OnTimerExpired();
      } else {
        proc.OnStateChange(what);
      }
    }

    /** `Dispatch` on the table as a whole. */
    method HandleOne(name: string, i: nat, what: S.ChildEvent)
      requires Valid() && S.Enabled(View(), S.ChildDid(name, i, what))
      modifies repr, events
      ensures Valid() && View() == S.Handled(old(View()), S.ChildDid(name, i, what))
      ensures SameElsewhere(old(events.View()), events.View())
    {
      hide Job.Valid, SameElsewhere, S.OnChild;
      jobs[name].ValidIs();
      Dispatch(name, i, what);
      assert View().jobs == old(View()).jobs[name := View().jobs[name]];
    }

    /** Waits for an event of a child. The wait is sure to end when something is bound to happen;
        which of the events that can happen comes first is the kernel's choice. */
    method HandleEvents() returns (ghost e: S.Event)
      requires Valid()
      requires exists n, i: nat ::
                 n in jobs && i < |jobs[n].processes| && Drain.Impending(jobs[n].processes[i].View())
      modifies repr, events
      ensures Valid() && e.ChildDid? && S.Enabled(old(View()), e)
      ensures SameElsewhere(old(events.View()), events.View())
      ensures View() == S.Handled(old(View()), e)
    {
      hide Job.Valid;
      var name, i: nat :| name in jobs && i < |jobs[name].processes| && jobs[name].processes[i].os.child.Child?;
      var proc := jobs[name].processes[i];
      jobs[name].ValidIs();
      var what := S.KilledBySignal;
      if * {
        var code: int := *;
        what := S.ExitedWith(code);
      } else if proc.timer.Timer? && proc.timer.running && proc.timer.interval > 0 {
        if * {
          what := S.TimerFired;
        }
      }
      e := S.ChildDid(name, i, what);
      HandleOne(name, i, what);
    }

    /** The callback or command that an event is, alone. */
    method Handle(e: S.Event)
      requires Valid() && Safety.Safe(View()) && S.Enabled(View(), e) && Safety.LoadsOk(e)
      modifies this`jobs, this`config, this`repr, repr, events
      ensures Valid() && fresh(repr - old(repr)) && View() == S.Handled(old(View()), e)
      ensures SameElsewhere(old(events.View()), events.View())
    {
      hide Job.Valid;
      match e {
        case ChildDid(name, i, what) => HandleOne(name, i, what);
        case StartCommand(name) => var status := StartCommand(name);
        case StopCommand(name) => var status := StopCommand(name);
        case RestartCommand(name) => var status := RestartCommand(name);
        case ReloadCommand(loaded, order) => var status := Reload(loaded, order);
      }
    }

    /** One turn of the main loop on any event, of a child or a command: the callback, then
        `update`. */
    method Turn(e: S.Event)
      requires Valid() && Safety.Safe(View()) && S.Enabled(View(), e) && Safety.LoadsOk(e)
      modifies this`jobs, this`config, this`repr, repr, events
      ensures Valid() && Safety.Safe(View()) && fresh(repr - old(repr))
      ensures SameElsewhere(old(events.View()), events.View())
      ensures View() == S.Step(old(View()), e)
    {
      hide S.Handled, S.Updated, Safety.NoMarks, Safety.JobOk;
      Handle(e);
      Safety.HandledOk(old(View()), e);
      Safety.UpdatedOk(View());
      Update();
    }

    // --------------------------------------------------------------------- shutdown

    /** The destructor waiting for the job under its iterator. */
    method WaitForEvent(name: string, ghost order: seq<string>)
      requires Valid() && Drain.Ending(View()) && S.IsOrder(order, jobs.Keys)
      requires name in jobs && jobs[name].state.Stopping?
      modifies repr, events
      ensures Valid() && Drain.Ending(View()) && Drain.Undisturbed(old(View()), View())
      ensures SameElsewhere(old(events.View()), events.View())
      ensures Drain.OwedBy(View(), order) < Drain.OwedBy(old(View()), order)
    {
      hide Job.Valid, SameElsewhere, Drain.Draining, Drain.Undisturbed, Drain.OwedBy, S.Handled, S.Enabled;
      jobs[name].ValidIs();
      Drain.WaitingIsOwed(View(), name);
      ghost var i :| 0 <= i < |View().jobs[name].procs| && Drain.Impending(View().jobs[name].procs[i]);
      assert Drain.Impending(jobs[name].processes[i].View());
      ghost var e := HandleEvents();
      Drain.DrainEvent(old(View()), e, order);
    }

    lemma DoneHasNoChild(name: string)
      requires Valid() && Drain.Draining(View()) && name in jobs && Drain.Done(View().jobs[name])
      ensures jobs[name].state.Stopped? || jobs[name].state.Empty?
      ensures forall p :: p in jobs[name].processes ==> p.os.child.NoChild?
    {
      forall k | 0 <= k < |jobs[name].processes|
        ensures jobs[name].processes[k].os.child.NoChild?
      {
        assert jobs[name].processes[k].View() == View().jobs[name].procs[k];
      }
    }

    /** One turn of the destructor's loop: step over a job that is done, or wait. */
    method DrainTurn(order: seq<string>, it: nat) returns (next: nat)
      requires Valid() && Drain.DrainPoint(View(), order, it) && it < |order|
      modifies repr, events
      ensures Valid() && Drain.DrainPoint(View(), order, next)
      ensures SameElsewhere(old(events.View()), events.View())
      ensures if next == it then Drain.OwedBy(View(), order) < Drain.OwedBy(old(View()), order)
              else next == it + 1 && View() == old(View())
    {
      hide Job.Valid, SameElsewhere;
      SameItself(events.View());
      Drain.DrainLooks(View(), order, it);
      var job := jobs[order[it]];
      job.ValidIs();
      if job.state.Stopped? || job.state.Empty? {
        return it + 1;
      }
      WaitForEvent(order[it], order);
      Drain.DrainWaits(old(View()), View(), order, it);
      next := it;
    }

    method DrainJobs(order: seq<string>)
      requires Valid() && Drain.DrainPoint(View(), order, 0)
      modifies repr, events
      ensures Valid() && Drain.DrainPoint(View(), order, |order|)
      ensures SameElsewhere(old(events.View()), events.View())
    {
      hide Job.Valid, SameElsewhere;
      var it: nat := 0;
      SameItself(events.View());
      while it < |order|
        invariant Valid() && Drain.DrainPoint(View(), order, it)
        invariant SameElsewhere(old(events.View()), events.View())
        decreases Drain.OwedBy(View(), order), |order| - it
      {
        ghost var before := events.View();
        it := DrainTurn(order, it);
        SameChain(old(events.View()), before, events.View());
      }
    }

    /** The destructor, from every state in which it is sure to finish: it ends, whatever the
        children do with the stop signal, with every job STOPPED or EMPTY and every child
        reaped. */
    method Shutdown(order: seq<string>)
      requires Valid() && Safety.Safe(View()) && Drain.AllSure(View())
      requires S.IsOrder(order, jobs.Keys)
      modifies repr, events
      ensures Valid()
      ensures SameElsewhere(old(events.View()), events.View())
      ensures forall n :: n in jobs ==> jobs[n].state.Stopped? || jobs[n].state.Empty?
      ensures forall n, p :: n in jobs && p in jobs[n].processes ==> p.os.child.NoChild?
    {
      hide Job.Valid;
      Drain.SureIsOrderly(View());
      Drain.DrainStart(View(), order);
      var ok := StopAll(order, true);
      DrainJobs(order);
      forall n | n in jobs
        ensures jobs[n].state.Stopped? || jobs[n].state.Empty?
        ensures forall p :: p in jobs[n].processes ==> p.os.child.NoChild?
      {
        DoneHasNoChild(n);
      }
    }
  }
}
