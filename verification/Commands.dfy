/** What the commands, a created job and a lost child come to, told by what can be seen: the states
    of the jobs and processes, their children, signals and timers. */
module Commands {
  import opened Options
  import opened JobConfigs
  import opened SupervisorSpec
  import opened SupervisorSafety
  import opened CleanRuns
  import opened Termination

  // ----------------------------------------------------------------- what can be seen

  /** One more child: started, sent nothing, with its start timer and a full retry budget. */
  predicate GotChild(p: Proc, q: Proc, c: JobConfig) {
    && q.state.Starting? && q.os.child == Child(false, false) && q.timer == Timer(StartTime, c.startTime, true)
    && q.os.forks == p.os.forks + 1 && q.os.reaps == p.os.reaps && q.restarts == 0
  }

  /** The same child in the same state, with the same timer and no further signal. */
  predicate LeftAsItWas(p: Proc, q: Proc) {
    && q.state == p.state && q.os.child == p.os.child && q.timer == p.timer
    && q.os.forks == p.os.forks && q.os.reaps == p.os.reaps
  }

  /** The same child was sent the stop signal and given its stop time. SIGKILL was sent only if it
      had been before or is the stop signal. */
  predicate ToldToStop(p: Proc, q: Proc, c: JobConfig) {
    && q.state.Stopping? && q.timer == Timer(StopTimeout, c.stopTime, true)
    && p.os.child.Child? && q.os.child == Child(true, p.os.child.killed || c.stopSignal.KILL?)
    && q.os.forks == p.os.forks && q.os.reaps == p.os.reaps
  }

  /** No job but `n` is affected. */
  predicate OnlyJob(m: Manager, r: Manager, n: string) {
    && r.config == m.config && r.jobs.Keys == m.jobs.Keys
    && forall o :: o in m.jobs && o != n ==> r.jobs[o] == m.jobs[o]
  }

  /** Each process on its own, and the job's configuration as it was. */
  predicate Pointwise(j: Job, r: Job) {
    r.config == j.config && |r.procs| == |j.procs|
  }

  /** A job with `numprocs` new children. */
  predicate AllNew(r: Job) {
    && r.state.Starting? && |r.procs| == (if r.config.numprocs > 0 then r.config.numprocs else 0)
    && forall k :: 0 <= k < |r.procs| ==> GotChild(NEW_PROC, r.procs[k], r.config)
  }

  /** A start: new children for an EMPTY job, for the dead processes of a STOPPED or STOPPING one,
      and for nobody in a STARTING or RUNNING one; live children are left alone. */
  predicate StartDid(j: Job, r: Job) {
    && r.config == j.config && r.state.Starting?
    && match j.state
       case Empty => AllNew(r)
       case Stopped => Pointwise(j, r) && DeadGotChildren(j, r)
       case Stopping => Pointwise(j, r) && DeadGotChildren(j, r)
       case _ => r.procs == j.procs
  }

  predicate DeadGotChildren(j: Job, r: Job)
    requires Pointwise(j, r)
  {
    forall k :: 0 <= k < |j.procs| ==>
      && (DeadState(j.procs[k].state) ==> GotChild(j.procs[k], r.procs[k], j.config))
      && (LiveState(j.procs[k].state) ==> LeftAsItWas(j.procs[k], r.procs[k]) && r.procs[k].restarts == 0)
  }

  /** A stop: every live child of a STARTING or RUNNING job is told to stop, and its dead processes
      are STOPPED; a STOPPING job is left alone; a job without children is marked if the loaded
      configuration has dropped or changed it. */
  predicate StopDid(m: Manager, n: string, r: Job)
    requires n in m.jobs
  {
    var j := m.jobs[n];
    match j.state
    case Stopping => r == j
    case Starting => Pointwise(j, r) && r.state.Stopping? && LiveToldToStop(j, r)
    case Running => Pointwise(j, r) && r.state.Stopping? && LiveToldToStop(j, r)
    case _ =>
      r == j.(state := if n !in m.config then JobState.Remove
                       else if m.config[n] != j.config then JobState.Replace else j.state)
  }

  predicate LiveToldToStop(j: Job, r: Job)
    requires Pointwise(j, r)
  {
    forall k :: 0 <= k < |j.procs| ==>
      && (LiveState(j.procs[k].state) ==>
            ToldToStop(j.procs[k], r.procs[k], j.config) && r.procs[k].restarts == j.procs[k].restarts)
      && (DeadState(j.procs[k].state) ==> r.procs[k] == j.procs[k].(state := ProcState.Stopped))
  }

  /** A restart of a STARTING or RUNNING job: every live child is told to stop, and every dead
      process has a new one. The job is STARTING. Any other job is started. */
  predicate RestartDid(j: Job, r: Job) {
    if j.state.Starting? || j.state.Running? then
      && Pointwise(j, r) && r.state.Starting?
      && forall k :: 0 <= k < |j.procs| ==>
           && (LiveState(j.procs[k].state) ==>
                 ToldToStop(j.procs[k], r.procs[k], j.config) && r.procs[k].restarts == 0)
           && (DeadState(j.procs[k].state) ==> GotChild(j.procs[k], r.procs[k], j.config))
    else StartDid(j, r)
  }

  /** A job just created: started if its configuration asks for it, and EMPTY otherwise. */
  predicate JustCreated(r: Job, c: JobConfig) {
    r.config == c && if c.autostart then AllNew(r) else r.state.Empty? && r.procs == []
  }

  // ------------------------------------------------------------------------ commands

  lemma RestartGetsChild(p: Proc, c: JobConfig)
    requires ProcOk(p, c)
    ensures DeadState(p.state) ==> GotChild(p, RestartProcess(p, c), c)
    ensures LiveState(p.state) ==> LeftAsItWas(p, RestartProcess(p, c)) && RestartProcess(p, c).restarts == 0
  {
  }

  lemma StartDoes(j: Job)
    requires JobOk(j) && !Marked(j)
    ensures StartDid(j, StartJob(j))
  {
    hide RestartProcess, GotChild, LeftAsItWas, ProcOk;
    if j.state.Stopped? || j.state.Stopping? {
      forall k | 0 <= k < |j.procs|
        ensures DeadState(j.procs[k].state) ==> GotChild(j.procs[k], StartJob(j).procs[k], j.config)
        ensures LiveState(j.procs[k].state) ==>
                  LeftAsItWas(j.procs[k], StartJob(j).procs[k]) && StartJob(j).procs[k].restarts == 0
      {
        RestartGetsChild(j.procs[k], j.config);
      }
    } else if j.state.Empty? {
      NewGetsChild(j.config);
    }
  }

  lemma NewGetsChild(c: JobConfig)
    ensures GotChild(NEW_PROC, StartProcess(NEW_PROC, c), c)
  {
  }

  lemma SignalTells(p: Proc, c: JobConfig)
    requires ProcOk(p, c)
    ensures LiveState(p.state) ==> ToldToStop(p, StoppedOne(p, c), c) && StoppedOne(p, c).restarts == p.restarts
    ensures DeadState(p.state) ==> StoppedOne(p, c) == p.(state := ProcState.Stopped)
  {
  }

  lemma StopDoes(m: Manager, n: string)
    requires CleanState(m) && n in m.jobs
    ensures StopDid(m, n, StopJob(m.jobs[n], VerdictOf(m, n)).0)
  {
    hide StoppedOne, ToldToStop;
    var j := m.jobs[n];
    if j.state.Starting? || j.state.Running? {
      StopOfLive(j, VerdictOf(m, n));
      forall k | 0 <= k < |j.procs|
        ensures LiveState(j.procs[k].state) ==>
                  ToldToStop(j.procs[k], StoppedOne(j.procs[k], j.config), j.config)
                  && StoppedOne(j.procs[k], j.config).restarts == j.procs[k].restarts
        ensures DeadState(j.procs[k].state) ==>
                  StoppedOne(j.procs[k], j.config) == j.procs[k].(state := ProcState.Stopped)
      {
        SignalTells(j.procs[k], j.config);
      }
    }
  }

  /** `start`, from every state of every run. */
  lemma StartCommandDoes(m: Manager, n: string)
    requires Safe(m)
    ensures var r := Handled(m, StartCommand(n));
            if n in m.jobs then OnlyJob(m, r, n) && StartDid(m.jobs[n], r.jobs[n]) else r == m
  {
    if n in m.jobs {
      StartDoes(m.jobs[n]);
    }
  }

  /** `stop`, in a clean state. `StopLeavesOff` tells what is left when it throws in another. */
  lemma StopCommandDoes(m: Manager, n: string)
    requires CleanState(m)
    ensures var r := Handled(m, StopCommand(n));
            if n in m.jobs then OnlyJob(m, r, n) && StopDid(m, n, r.jobs[n]) else r == m
  {
    if n in m.jobs {
      StopDoes(m, n);
    }
  }

  /** `restart`, in a clean state, of every job that is live or up to date. `RestartAgreesExactlyWhen`
      tells what becomes of the others. */
  lemma RestartCommandDoes(m: Manager, n: string)
    requires CleanState(m)
    ensures var r := Handled(m, RestartCommand(n));
            if n in m.jobs then OnlyJob(m, r, n) && (CleanRestart(m, n) ==> RestartDid(m.jobs[n], r.jobs[n]))
            else r == m
  {
    hide RestartDid, StopJob, StartJob, Agree, JobOk;
    if n in m.jobs && CleanRestart(m, n) {
      RestartDoes(m, n);
    }
  }

  lemma RestartDoes(m: Manager, n: string)
    requires CleanState(m) && n in m.jobs && CleanRestart(m, n)
    ensures StopJob(m.jobs[n], VerdictOf(m, n)).1
    ensures RestartDid(m.jobs[n], StartJob(StopJob(m.jobs[n], VerdictOf(m, n)).0))
  {
    var j, v := m.jobs[n], VerdictOf(m, n);
    StopOfAgreeing(j, v);
    if j.state.Starting? || j.state.Running? {
      LiveIsToldAndStarted(j, v);
    } else {
      StartDoes(j);
    }
  }

  lemma ToldAndStarted(p: Proc, c: JobConfig)
    requires ProcOk(p, c)
    ensures LiveState(p.state) ==>
              var q := RestartProcess(StoppedOne(p, c), c); ToldToStop(p, q, c) && q.restarts == 0
    ensures DeadState(p.state) ==> GotChild(p, RestartProcess(StoppedOne(p, c), c), c)
  {
  }

  lemma LiveIsToldAndStarted(j: Job, v: Verdict)
    requires JobOk(j) && (j.state.Starting? || j.state.Running?) && NoneStopped(j) && SomeLive(j)
    ensures RestartDid(j, StartJob(StopJob(j, v).0))
  {
    hide RestartProcess, StoppedOne, GotChild, ToldToStop, ProcOk;
    StopOfLive(j, v);
    var s := StopJob(j, v).0;
    forall k | 0 <= k < |j.procs|
      ensures LiveState(j.procs[k].state) ==>
                ToldToStop(j.procs[k], StartJob(s).procs[k], j.config) && StartJob(s).procs[k].restarts == 0
      ensures DeadState(j.procs[k].state) ==> GotChild(j.procs[k], StartJob(s).procs[k], j.config)
    {
      ToldAndStarted(j.procs[k], j.config);
    }
  }

  /** The run that follows `restart` on a STARTING or RUNNING job: while an old child is dying the
      job stays STARTING, every old child is replaced at its death, and the manager is not told. */
  lemma RestartCommandCompletes(m: Manager, n: string, states: seq<Job>, events: seq<At>, v: Verdict, k: nat)
    requires CleanState(m) && n in m.jobs && (m.jobs[n].state.Starting? || m.jobs[n].state.Running?)
    requires IsJobRun(states, events, v) && states[0] == Handled(m, RestartCommand(n)).jobs[n]
    requires forall t :: 0 <= t < |events| ==>
               CleanChild(states[t].procs[events[t].index], events[t].what)
    requires k < |states|
    ensures RestartProgress(states[0], states[k])
    ensures k < |events| ==>
              var i := events[k].index;
              states[k].procs[i].state.Stopping? && !events[k].what.TimerFired? ==>
                && states[k + 1].procs[i].state.Starting?
                && states[k + 1].procs[i].os.forks == states[k].procs[i].os.forks + 1
  {
    hide StopJob, StartJob, Handled, RestartProgress;
    RestartedJobIs(m, n, v);
    RestartCompletes(m.jobs[n], states, events, v, k);
  }

  lemma RestartedJobIs(m: Manager, n: string, v: Verdict)
    requires CleanState(m) && n in m.jobs && (m.jobs[n].state.Starting? || m.jobs[n].state.Running?)
    ensures Handled(m, RestartCommand(n)).jobs[n] == StartJob(StopJob(m.jobs[n], v).0)
  {
    hide StopJob, StartJob;
    StopOfAgreeing(m.jobs[n], VerdictOf(m, n));
    StopOfAgreeing(m.jobs[n], v);
  }

  // ---------------------------------------------------------------- jobs that come and go

  lemma CreatedIsNew(c: JobConfig)
    ensures JustCreated(CreatedJob(c), c) && JustCreated(AutoStarted(CreatedJob(c)), c)
  {
    hide GotChild;
    NewGetsChild(c);
  }

  /** `update()`: removed jobs are gone, replaced ones are new, the others are as they were. */
  lemma UpdateDoes(m: Manager)
    requires ManagerOk(m)
    ensures Updated(m).config == m.config
    ensures forall n :: n in Updated(m).jobs <==> n in m.jobs && !m.jobs[n].state.Remove?
    ensures forall n :: n in m.jobs && m.jobs[n].state.Replace? ==>
              n in m.config && JustCreated(Updated(m).jobs[n], m.config[n])
    ensures forall n :: n in m.jobs && !Marked(m.jobs[n]) ==> Updated(m).jobs[n] == m.jobs[n]
  {
    hide CreatedJob, JustCreated, JobOk;
    forall n | n in m.jobs && m.jobs[n].state.Replace?
      ensures n in m.config && JustCreated(CreatedJob(m.config[n]), m.config[n])
    {
      assert MarkFits(m.jobs[n], VerdictOf(m, n));
      CreatedIsNew(m.config[n]);
    }
  }

  /** A reload loads the configuration, and creates the jobs that the table lacks. */
  lemma ReloadCreates(m: Manager, c: ConfigMap, order: seq<string>)
    requires IsOrder(order, m.jobs.Keys)
    ensures var r := Handled(m, ReloadCommand(Some(c), order));
            && r.config == c
            && (Reloaded(m, Some(c), order).1 ==>
                  forall n :: n in c && n !in m.jobs ==> n in r.jobs && JustCreated(r.jobs[n], c[n]))
  {
    var s := StopInOrder(m.(config := c), order, false);
    if s.1 {
      forall n | n in c && n !in m.jobs
        ensures var r := StartedAll(Updated(CreatedMissing(s.0))); n in r.jobs && JustCreated(r.jobs[n], c[n])
      {
        CreatedIsNew(c[n]);
        assert CreatedMissing(s.0).jobs[n] == CreatedJob(c[n]) && !Marked(CreatedJob(c[n]));
      }
    }
  }

  /** No process was launched, and none came or went. */
  predicate NoLaunch(j: Job, r: Job) {
    && r.config == j.config && |r.procs| == |j.procs|
    && forall k :: 0 <= k < |j.procs| ==> r.procs[k].os.forks == j.procs[k].os.forks
  }

  lemma {:induction false} StopFromLaunchesNone(j: Job, i: nat, v: Verdict)
    requires i <= |j.procs| && !j.state.Starting?
    ensures NoLaunch(j, StopFrom(j, i, v).0)
    decreases |j.procs| - i
  {
    if i < |j.procs| && StopOne(j, i, v).1 {
      StopFromLaunchesNone(StopOne(j, i, v).0, i + 1, v);
    }
  }

  lemma StopLaunchesNone(j: Job, v: Verdict)
    ensures NoLaunch(j, StopJob(j, v).0)
  {
    StopFromLaunchesNone(j.(state := JobState.Stopping), 0, v);
  }

  lemma {:induction false} StopsLaunchNone(m: Manager, order: seq<string>, n: string)
    requires (forall o :: o in order ==> o in m.jobs) && n in m.jobs
    ensures var r := StopInOrder(m, order, false).0;
            && NoLaunch(m.jobs[n], r.jobs[n])
            && (VerdictOf(m, n) == KeepJob ==> r.jobs[n] == m.jobs[n])
    decreases |order|
  {
    hide StopJob;
    if order != [] {
      var s := StopNamed(m, order[0], false);
      StopLaunchesNone(m.jobs[order[0]], VerdictOf(m, order[0]));
      if s.1 {
        StopsLaunchNone(s.0, order[1..], n);
      }
    }
  }

  /** A reload that throws has loaded the configuration and stopped some of the jobs that it changed
      or dropped. It created, removed and started none. */
  lemma ThrowingReloadOnlyStops(m: Manager, c: ConfigMap, order: seq<string>)
    requires IsOrder(order, m.jobs.Keys) && !Reloaded(m, Some(c), order).1
    ensures var r := Handled(m, ReloadCommand(Some(c), order));
            && r.config == c && r.jobs.Keys == m.jobs.Keys
            && forall n :: n in m.jobs ==>
                 && NoLaunch(m.jobs[n], r.jobs[n])
                 && (n in c && c[n] == m.jobs[n].config ==> r.jobs[n] == m.jobs[n])
  {
    forall n | n in m.jobs
      ensures var r := StopInOrder(m.(config := c), order, false).0;
              && NoLaunch(m.jobs[n], r.jobs[n])
              && (n in c && c[n] == m.jobs[n].config ==> r.jobs[n] == m.jobs[n])
    {
      StopsLaunchNone(m.(config := c), order, n);
    }
  }

  /** A restart whose stop throws starts nothing: it does what a `stop` does. */
  lemma ThrowingRestartOnlyStops(m: Manager, n: string)
    requires Safe(m) && n in m.jobs && Wounded(m.jobs[n])
    ensures Handled(m, RestartCommand(n)) == Handled(m, StopCommand(n))
    ensures NoLaunch(m.jobs[n], Handled(m, RestartCommand(n)).jobs[n])
  {
    StopThrowsExactlyWhen(m.jobs[n], VerdictOf(m, n));
    StopLaunchesNone(m.jobs[n], VerdictOf(m, n));
  }

  /** A reload of a configuration that does not load changes nothing, in any state. */
  lemma FailedReloadDoesNothing(m: Manager, order: seq<string>)
    requires IsOrder(order, m.jobs.Keys)
    ensures Handled(m, ReloadCommand(None, order)) == m && Reloaded(m, None, order).1
  {
  }

  // ------------------------------------------------------------------ children and signals

  /** Nothing but process i, and perhaps the job's state, is affected. */
  predicate OnlyProcess(j: Job, r: Job, i: nat) {
    && r.config == j.config && |r.procs| == |j.procs|
    && forall k :: 0 <= k < |j.procs| && k != i ==> r.procs[k] == j.procs[k]
  }

  /** The job's state when one of its processes is STOPPED and gets no new child. */
  predicate EndsWith(j: Job, r: Job, v: Verdict) {
    r.state ==
      if !j.state.Stopping? || (exists k :: 0 <= k < |r.procs| && !r.procs[k].state.Stopped?) then j.state
      else
        match v
        case KeepJob => JobState.Stopped
        case RemoveJob => JobState.Remove
        case ReplaceJob => JobState.Replace
  }

  lemma OnStopDoes(j: Job, i: nat, v: Verdict)
    requires i < |j.procs| && j.procs[i].timer.NoTimer? && j.procs[i].os.child.NoChild?
    ensures var p, r := j.procs[i], OnStop(j, i, v);
            && OnlyProcess(j, r, i) && r.procs[i].os.reaps == p.os.reaps && r.procs[i].restarts == p.restarts
            && var q := r.procs[i];
               if j.state.Starting? then
                 && r.state.Starting? && q.state.Starting? && q.os.child == Child(false, false)
                 && q.timer == Timer(StartTime, j.config.startTime, true) && q.os.forks == p.os.forks + 1
               else q == p && EndsWith(j, r, v)
  {
  }

  /** A child dies that was told to stop, or dies by a signal. In a STARTING job the process gets a
      new one, and no restart is counted. In any other it is STOPPED; that leaves a RUNNING job
      RUNNING, and makes a STOPPING one, when this was the last process not STOPPED, STOPPED or
      what the manager's verdict says. */
  lemma LostChildDoes(j: Job, i: nat, e: ChildEvent, v: Verdict)
    requires JobOk(j) && i < |j.procs| && Possible(j.procs[i], e) && !e.TimerFired?
    requires e.KilledBySignal? || j.procs[i].state.Stopping?
    ensures var p, r := j.procs[i], OnChild(j, i, e, v);
            && OnlyProcess(j, r, i) && r.procs[i].os.reaps == p.os.reaps + 1 && r.procs[i].restarts == p.restarts
            && var q := r.procs[i];
               if j.state.Starting? then
                 && r.state.Starting? && q.state.Starting? && q.os.child == Child(false, false)
                 && q.timer == Timer(StartTime, j.config.startTime, true) && q.os.forks == p.os.forks + 1
               else
                 && q.state.Stopped? && q.os.child.NoChild? && q.timer.NoTimer? && q.os.forks == p.os.forks
                 && EndsWith(j, r, v)
  {
    hide OnStop, EndsWith;
    EventsNeedActiveJob(j, i, e);
    var k := Put(j, i, Reap(j.procs[i]).(state := ProcState.Stopped));
    assert k == Put(Put(j, i, Reap(j.procs[i])), i, Reap(j.procs[i]).(state := ProcState.Stopped));
    assert OnChild(j, i, e, v) == OnStop(k, i, v);
    OnStopDoes(k, i, v);
    SameEnd(j, k, OnStop(k, i, v), v);
  }

  lemma SameEnd(j: Job, k: Job, r: Job, v: Verdict)
    requires j.state == k.state
    ensures EndsWith(j, r, v) == EndsWith(k, r, v)
  {
  }

  /** A start time passes: the process is RUNNING, and so is the job when all its processes are. */
  lemma StartTimeDoes(j: Job, i: nat, v: Verdict)
    requires JobOk(j) && i < |j.procs| && Possible(j.procs[i], TimerFired) && j.procs[i].state.Starting?
    ensures var p, r := j.procs[i], OnChild(j, i, TimerFired, v);
            && OnlyProcess(j, r, i)
            && r.state == (if forall k :: 0 <= k < |r.procs| ==> r.procs[k].state.Running?
                           then JobState.Running else j.state)
            && var q := r.procs[i];
               && q.state.Running? && q.os.child == p.os.child && q.os.forks == p.os.forks && q.restarts == p.restarts
               && q.timer.Timer? && !q.timer.running
  {
  }

  /** A stop time passes: the child is sent SIGKILL, and nothing else changes. */
  lemma StopTimeDoes(j: Job, i: nat, v: Verdict)
    requires JobOk(j) && i < |j.procs| && Possible(j.procs[i], TimerFired) && j.procs[i].state.Stopping?
    ensures var p, r := j.procs[i], OnChild(j, i, TimerFired, v);
            && OnlyProcess(j, r, i) && r.state == j.state
            && var q := r.procs[i];
               && q.state.Stopping? && q.os.child == Child(true, true) && q.os.forks == p.os.forks
               && q.restarts == p.restarts && q.timer.Timer? && !q.timer.running
  {
  }

  /** A child that is still the same was sent SIGKILL before, or it is the stop signal. */
  predicate KilledBefore(p: Proc, q: Proc, c: JobConfig) {
    && p.os.forks <= q.os.forks
    && (q.os.child.Child? && q.os.forks == p.os.forks ==>
          p.os.child.Child? && (q.os.child.killed ==> p.os.child.killed || c.stopSignal.KILL?))
  }

  predicate AllKilledBefore(j: Job, r: Job) {
    && r.config == j.config && |j.procs| <= |r.procs|
    && forall k :: 0 <= k < |j.procs| ==> KilledBefore(j.procs[k], r.procs[k], j.config)
  }

  lemma KilledBeforeChain(a: Job, b: Job, c: Job)
    requires AllKilledBefore(a, b) && AllKilledBefore(b, c)
    ensures AllKilledBefore(a, c)
  {
    forall k | 0 <= k < |a.procs|
      ensures KilledBefore(a.procs[k], c.procs[k], a.config)
    {
      assert KilledBefore(b.procs[k], c.procs[k], b.config);
    }
  }

  /** Every event of a child but the stop timer's. */
  lemma EventKillsNone(j: Job, i: nat, e: ChildEvent, v: Verdict)
    requires i < |j.procs| && Possible(j.procs[i], e) && (e.TimerFired? ==> j.procs[i].timer.kind.StartTime?)
    ensures AllKilledBefore(j, OnChild(j, i, e, v))
  {
    EventIsLocal(j, i, e, v);
  }

  /** The stop timer kills its own process only. */
  lemma TimerKillsItsOwn(j: Job, i: nat, v: Verdict, k: nat)
    requires i < |j.procs| && Possible(j.procs[i], TimerFired) && k < |j.procs| && k != i
    ensures OnChild(j, i, TimerFired, v).procs[k] == j.procs[k]
  {
    EventIsLocal(j, i, TimerFired, v);
  }

  lemma StopOneKillsNone(j: Job, i: nat, v: Verdict)
    requires i < |j.procs|
    ensures AllKilledBefore(j, StopOne(j, i, v).0)
  {
  }

  lemma {:induction false} StopFromKillsNone(j: Job, i: nat, v: Verdict)
    requires i <= |j.procs|
    ensures AllKilledBefore(j, StopFrom(j, i, v).0)
    decreases |j.procs| - i
  {
    hide KilledBefore, StopOne;
    if i < |j.procs| {
      StopOneKillsNone(j, i, v);
      var s := StopOne(j, i, v);
      if s.1 {
        StopFromKillsNone(s.0, i + 1, v);
        KilledBeforeChain(j, s.0, StopFrom(s.0, i + 1, v).0);
      }
    } else {
      ItselfKillsNone(j);
    }
  }

  lemma ItselfKillsNone(j: Job)
    ensures AllKilledBefore(j, j)
  {
  }

  lemma StopKillsNone(j: Job, v: Verdict)
    ensures AllKilledBefore(j, StopJob(j, v).0)
  {
    StopFromKillsNone(j.(state := JobState.Stopping), 0, v);
  }

  lemma StartKillsNone(j: Job)
    ensures AllKilledBefore(j, StartJob(j)) && AllKilledBefore(j, AutoStarted(j))
  {
  }

  /** The same job, not another under its name. */
  predicate SameJob(m: Manager, r: Manager, n: string) {
    n in m.jobs && n in r.jobs && r.jobs[n].config == m.jobs[n].config
  }

  lemma UpdateKillsNone(m: Manager, n: string)
    requires ManagerOk(m) && SameJob(m, Updated(m), n)
    ensures Updated(m).jobs[n] == m.jobs[n]
  {
    hide JobOk, CreatedJob;
    if m.jobs[n].state.Replace? {
      assert MarkFits(m.jobs[n], VerdictOf(m, n));
      CreatedHasConfig(m.config[n]);
    }
  }

  lemma CreatedHasConfig(c: JobConfig)
    ensures CreatedJob(c).config == c
  {
  }

  lemma {:induction false} StopsKillNone(m: Manager, order: seq<string>, n: string)
    requires (forall o :: o in order ==> o in m.jobs) && n in m.jobs
    ensures AllKilledBefore(m.jobs[n], StopInOrder(m, order, false).0.jobs[n])
    decreases |order|
  {
    hide AllKilledBefore;
    if order == [] {
      ItselfKillsNone(m.jobs[n]);
    } else {
      var s := StopNamed(m, order[0], false);
      StopKillsNone(m.jobs[order[0]], VerdictOf(m, order[0]));
      ItselfKillsNone(m.jobs[n]);
      if s.1 {
        StopsKillNone(s.0, order[1..], n);
        KilledBeforeChain(m.jobs[n], s.0.jobs[n], StopInOrder(s.0, order[1..], false).0.jobs[n]);
      }
    }
  }

  lemma ReloadKillsNone(m: Manager, c: ConfigMap, order: seq<string>, n: string)
    requires Safe(m) && ConfigOk(c) && IsOrder(order, m.jobs.Keys)
    requires SameJob(m, Reloaded(m, Some(c), order).0, n)
    ensures AllKilledBefore(m.jobs[n], Reloaded(m, Some(c), order).0.jobs[n])
  {
    hide AllKilledBefore, StopInOrder, JobOk;
    var m0 := m.(config := c);
    StopsKillNone(m0, order, n);
    StopInOrderOk(m0, order, false);
    var s := StopInOrder(m0, order, false);
    if s.1 {
      CreatedMissingOk(s.0);
      ConfigsStay(m0, order, n);
      AutoStartedKeepsConfigs(Updated(CreatedMissing(s.0)), n);
      UpdateKillsNone(CreatedMissing(s.0), n);
      StartKillsNone(s.0.jobs[n]);
      KilledBeforeChain(m.jobs[n], s.0.jobs[n], AutoStarted(s.0.jobs[n]));
    }
  }

  lemma ConfigsStay(m: Manager, order: seq<string>, n: string)
    requires (forall o :: o in order ==> o in m.jobs) && n in m.jobs
    ensures StopInOrder(m, order, false).0.jobs[n].config == m.jobs[n].config
  {
    StopsKillNone(m, order, n);
  }

  lemma AutoStartedKeepsConfigs(m: Manager, n: string)
    requires n in StartedAll(m).jobs
    ensures n in m.jobs && StartedAll(m).jobs[n] == AutoStarted(m.jobs[n])
    ensures StartedAll(m).jobs[n].config == m.jobs[n].config
  {
  }

  /** SIGKILL is the stop timer's, or the stop signal. In a step of any run, a child that was not
      sent SIGKILL before and is sent it now belongs to a job that is stopped with KILL, or the step
      is the expiry of its own stop timer while it was STOPPING. */
  lemma SigkillIsTheStopTimers(m: Manager, e: Event, n: string, i: nat)
    requires Safe(m) && Enabled(m, e) && LoadsOk(e)
    requires SameJob(m, Handled(m, e), n) && i < |m.jobs[n].procs|
    ensures i < |Handled(m, e).jobs[n].procs|
    ensures var p, q := m.jobs[n].procs[i], Handled(m, e).jobs[n].procs[i];
            || KilledBefore(p, q, m.jobs[n].config)
            || (e == ChildDid(n, i, TimerFired) && p.state.Stopping? && p.timer.kind.StopTimeout?)
  {
    hide KilledBefore, JobOk, OnChild, StopJob, StartJob;
    var j := m.jobs[n];
    ItselfKillsNone(j);
    match e
    case ChildDid(name, k, what) =>
      if name == n {
        ChildKillsNone(m, e, i);
      }
    case StartCommand(name) => StartKillsNone(j);
    case StopCommand(name) => StopKillsNone(j, VerdictOf(m, n));
    case RestartCommand(name) =>
      StopKillsNone(j, VerdictOf(m, n));
      StartKillsNone(StopJob(j, VerdictOf(m, n)).0);
      KilledBeforeChain(j, StopJob(j, VerdictOf(m, n)).0, StartJob(StopJob(j, VerdictOf(m, n)).0));
    case ReloadCommand(loaded, order) =>
      if loaded.Some? {
        ReloadKillsNone(m, loaded.value, order, n);
      }
  }

  lemma ChildKillsNone(m: Manager, e: Event, i: nat)
    requires Safe(m) && e.ChildDid? && Enabled(m, e) && i < |m.jobs[e.name].procs|
    ensures var r := OnChild(m.jobs[e.name], e.index, e.what, VerdictOf(m, e.name));
            && i < |r.procs|
            && var p, q := m.jobs[e.name].procs[i], r.procs[i];
               || KilledBefore(p, q, m.jobs[e.name].config)
               || (e.index == i && e.what.TimerFired? && p.state.Stopping? && p.timer.kind.StopTimeout?)
  {
    var j, v := m.jobs[e.name], VerdictOf(m, e.name);
    if e.what.TimerFired? && j.procs[e.index].timer.kind.StopTimeout? {
      assert ProcOk(j.procs[e.index], j.config);
      if i != e.index {
        TimerKillsItsOwn(j, e.index, v, i);
      }
    } else {
      EventKillsNone(j, e.index, e.what, v);
    }
  }
}
