/** What every run keeps, whatever children, signals, timers and commands do, including
    signal deaths and stops that throw half way through a job. */
module SupervisorSafety {
  import opened Sums
  import opened Options
  import opened JobConfigs
  import opened SupervisorSpec

  /** The descriptors a process must have in the event manager, and no others. */
  function Owned(p: Proc): set<Handle> {
    (if p.os.child.Child? then {PidFd(p.os.forks)} else {}) +
    (if p.timer.Timer? && p.timer.running then {TimerFd(p.os.timers)} else {})
  }

  /** Stopping a child comes to a SIGKILL in the end; without either its stop timer, set to 0, is
      never armed and nothing but the stop signal is sent. */
  predicate Killable(c: JobConfig) {
    c.stopTime > 0 || c.stopSignal.KILL?
  }

  /** The start timer runs exactly while STARTING; a STOPPING process has its stop timer
      running or was sent SIGKILL; a dead process has no timer. Only a STOPPING process was sent
      a signal, and SIGKILL only if it is the stop signal or a stop time has passed. */
  predicate TimerOk(p: Proc, c: JobConfig) {
    match p.state
    case Starting => p.timer == Timer(StartTime, c.startTime, true) && p.os.child == Child(false, false)
    case Running => p.timer == Timer(StartTime, c.startTime, false) && p.os.child == Child(false, false)
    case Stopping =>
      && p.os.child.Child? && p.os.child.signalled
      && (c.stopSignal.KILL? ==> p.os.child.killed) && (p.os.child.killed ==> Killable(c))
      && (p.timer == Timer(StopTimeout, c.stopTime, true) ||
          (p.timer == Timer(StopTimeout, c.stopTime, false) && p.os.child.killed))
    case _ => p.timer.NoTimer?
  }

  /** Child ownership, timer discipline, retry budget and registrations of one process. */
  predicate ProcOk(p: Proc, c: JobConfig) {
    && (LiveState(p.state) || DeadState(p.state))
    && (LiveState(p.state) <==> p.os.child.Child?)
    && p.os.forks == p.os.reaps + (if p.os.child.Child? then 1 else 0)
    && 0 <= p.os.relaunches <= p.restarts <= c.startRetries
    && TimerOk(p, c)
    && p.os.watched == Owned(p)
    && !p.os.fault
  }

  predicate JobOk(j: Job) {
    && WellFormed(j.config)
    && (forall k :: 0 <= k < |j.procs| ==> ProcOk(j.procs[k], j.config))
    && (|j.procs| == 0 || |j.procs| == j.config.numprocs)
    && (j.state.Empty? ==> j.procs == [])
    && (j.state.Stopped? || Marked(j) ==> AllDead(j))
  }

  // ---------------------------------------------------------------- processes

  lemma StartKeepsOk(p: Proc, c: JobConfig)
    requires WellFormed(c) && ProcOk(p, c) && DeadState(p.state)
    ensures ProcOk(StartProcess(p, c), c)
    ensures StartProcess(p, c).state.Starting? && StartProcess(p, c).os.forks == p.os.forks + 1
  {
    var q := NewTimer(p, StartTime, c.startTime);
    assert q.os.watched == {};
    var r := ArmTimer(q.(state := ProcState.Starting, os := Fork(q.os)));
    assert r.os.watched == {TimerFd(r.os.timers)};
    assert StartProcess(p, c).os.watched == Owned(StartProcess(p, c));
  }

  lemma SignalKeepsOk(p: Proc, c: JobConfig)
    requires ProcOk(p, c) && p.os.child.Child?
    ensures ProcOk(SignalProcess(p, c), c)
    ensures SignalProcess(p, c).state.Stopping? && SignalProcess(p, c).os.child.signalled
  {
    var os := p.os.(child := Child(true, p.os.child.killed || c.stopSignal.KILL?));
    var q := NewTimer(p.(state := ProcState.Stopping, os := os), StopTimeout, c.stopTime);
    assert q.os.watched == {PidFd(q.os.forks)};
    assert SignalProcess(p, c).os.watched == Owned(SignalProcess(p, c));
  }

  lemma ReapKeepsOk(p: Proc, c: JobConfig, s: ProcState)
    requires ProcOk(p, c) && p.os.child.Child? && DeadState(s)
    ensures ProcOk(Reap(p).(state := s), c)
  {
    var q := DropTimer(p.(os := p.os.(child := NoChild, reaps := p.os.reaps + 1)));
    assert q.os.watched == {PidFd(q.os.forks)};
    assert Reap(p).os.watched == {};
  }

  lemma ExpireKeepsOk(p: Proc, c: JobConfig)
    requires ProcOk(p, c) && Possible(p, TimerFired)
    ensures p.timer.kind.StartTime? ==>
              p.state.Starting? && ProcOk(ExpireTimer(p).(state := ProcState.Running), c)
    ensures p.timer.kind.StopTimeout? ==>
              p.state.Stopping? && ProcOk(KillProcess(ExpireTimer(p)), c)
  {
    assert ExpireTimer(p).os.watched == {PidFd(p.os.forks)};
  }

  // --------------------------------------------------------------------- jobs

  lemma LaunchKeepsOk(j: Job, i: nat)
    requires JobOk(j) && i < |j.procs| && DeadState(j.procs[i].state)
    requires j.state.Starting?
    ensures JobOk(Launch(j, i))
  {
    StartKeepsOk(j.procs[i], j.config);
  }

  lemma OnStopKeepsOk(j: Job, i: nat, v: Verdict)
    requires JobOk(j) && i < |j.procs| && j.procs[i].state.Stopped?
    ensures JobOk(OnStop(j, i, v))
  {
    if j.state.Starting? {
      LaunchKeepsOk(j, i);
    }
  }

  lemma RelaunchKeepsOk(j: Job, i: nat)
    requires JobOk(j) && i < |j.procs| && DeadState(j.procs[i].state)
    requires j.procs[i].restarts < j.config.startRetries
    requires j.state.Starting? || j.state.Running? || j.state.Stopping?
    ensures JobOk(Relaunch(CountRestart(j, i), i))
  {
    var j1 := CountRestart(j, i);
    var p := j1.procs[i];
    var q := p.(os := p.os.(relaunches := p.os.relaunches + 1));
    var k := j1.(state := JobState.Starting, procs := j1.procs[i := q]);
    assert ProcOk(q, j.config);
    assert JobOk(k);
    LaunchKeepsOk(k, i);
  }

  lemma OnExitKeepsOk(j: Job, i: nat, code: int)
    requires JobOk(j) && i < |j.procs| && DeadState(j.procs[i].state)
    requires j.state.Starting? || j.state.Running? || j.state.Stopping?
    ensures JobOk(OnExit(j, i, code))
  {
    if j.procs[i].restarts != j.config.startRetries && !j.config.restartPolicy.Never? {
      RelaunchKeepsOk(j, i);
    }
  }

  /** A job that is stopped or marked has nothing left that could cause an event. */
  lemma EventsNeedActiveJob(j: Job, i: nat, e: ChildEvent)
    requires JobOk(j) && i < |j.procs| && Possible(j.procs[i], e)
    ensures j.state.Starting? || j.state.Running? || j.state.Stopping?
    ensures LiveState(j.procs[i].state)
  {
  }

  lemma ChildEventKeepsOk(j: Job, i: nat, e: ChildEvent, v: Verdict)
    requires JobOk(j) && i < |j.procs| && Possible(j.procs[i], e)
    ensures JobOk(OnChild(j, i, e, v))
  {
    EventsNeedActiveJob(j, i, e);
    var p := j.procs[i];
    match e
    case TimerFired =>
      ExpireKeepsOk(p, j.config);
    case KilledBySignal =>
      ReapKeepsOk(p, j.config, ProcState.Stopped);
      var k := Put(Put(j, i, Reap(p)), i, Reap(p).(state := ProcState.Stopped));
      assert k == Put(j, i, Reap(p).(state := ProcState.Stopped));
      OnStopKeepsOk(k, i, v);
    case ExitedWith(code) =>
      var s: ProcState := match p.state
        case Stopping => ProcState.Stopped
        case Starting => ProcState.Backoff
        case _ => ProcState.Exited;
      ReapKeepsOk(p, j.config, s);
      var k := Put(j, i, Reap(p).(state := s));
      assert k == Put(Put(j, i, Reap(p)), i, Reap(p).(state := s));
      if p.state.Stopping? {
        OnStopKeepsOk(k, i, v);
      } else {
        OnExitKeepsOk(k, i, code);
      }
  }

  /** While a stop walks the processes the job is STOPPING, or has stopped altogether. */
  lemma StopOneKeepsOk(j: Job, i: nat, v: Verdict)
    requires JobOk(j) && i < |j.procs|
    requires j.state.Stopping? || (AllStopped(j) && !j.state.Starting?)
    ensures var r := StopOne(j, i, v).0;
            JobOk(r) && (r.state.Stopping? || (AllStopped(r) && !r.state.Starting?))
  {
    var p := j.procs[i];
    if DeadState(p.state) && !p.state.Stopped? {
      OnStopKeepsOk(Put(j, i, p.(state := ProcState.Stopped)), i, v);
    } else if p.os.child.Child? {
      SignalKeepsOk(p, j.config);
    }
  }

  lemma {:induction false} StopFromKeepsOk(j: Job, i: nat, v: Verdict)
    requires JobOk(j) && i <= |j.procs|
    requires j.state.Stopping? || (AllStopped(j) && !j.state.Starting?)
    ensures JobOk(StopFrom(j, i, v).0)
    decreases |j.procs| - i
  {
    if i < |j.procs| {
      StopOneKeepsOk(j, i, v);
      if StopOne(j, i, v).1 {
        StopFromKeepsOk(StopOne(j, i, v).0, i + 1, v);
      }
    }
  }

  lemma StopKeepsOk(j: Job, v: Verdict)
    requires JobOk(j)
    ensures JobOk(StopJob(j, v).0)
  {
    if !j.state.Stopping? && !j.state.Empty? && !j.state.Stopped? {
      StopFromKeepsOk(j.(state := JobState.Stopping), 0, v);
    }
  }

  lemma RestartProcessKeepsOk(p: Proc, c: JobConfig)
    requires WellFormed(c) && ProcOk(p, c)
    ensures ProcOk(RestartProcess(p, c), c) && LiveState(RestartProcess(p, c).state)
  {
    if DeadState(p.state) {
      StartKeepsOk(p.(restarts := 0, os := p.os.(relaunches := 0)), c);
    }
  }

  lemma StartKeepsJobOk(j: Job)
    requires JobOk(j)
    ensures JobOk(StartJob(j)) && StartJob(j).state.Starting?
    ensures j.state.Stopping? || j.state.Stopped? || j.state.Empty? ==>
              forall k :: 0 <= k < |StartJob(j).procs| ==>
                LiveState(StartJob(j).procs[k].state) && StartJob(j).procs[k].restarts == 0
  {
    if j.state.Stopping? || j.state.Stopped? {
      forall k | 0 <= k < |j.procs|
        ensures ProcOk(StartJob(j).procs[k], j.config)
      {
        RestartProcessKeepsOk(j.procs[k], j.config);
      }
    } else if j.state.Empty? {
      StartKeepsOk(NEW_PROC, j.config);
    }
  }

  // ------------------------------------------------------------------ manager

  predicate ConfigOk(config: ConfigMap) {
    forall n :: n in config ==> config[n].name == n && WellFormed(config[n])
  }

  /** Holds at every moment, also between an event and the `update` that follows it. */
  predicate ManagerOk(m: Manager) {
    && ConfigOk(m.config)
    && (forall n :: n in m.jobs ==> JobOk(m.jobs[n]) && m.jobs[n].config.name == n)
    && MarksBacked(m)
  }

  predicate NoMarks(m: Manager) {
    forall n :: n in m.jobs ==> !Marked(m.jobs[n])
  }

  lemma SetJobKeepsOk(m: Manager, name: string, j: Job)
    requires ManagerOk(m) && JobOk(j) && j.config.name == name
    requires MarkFits(j, VerdictFor(m.config, name, j.config))
    ensures ManagerOk(SetJob(m, name, j))
  {
  }

  lemma CreatedJobOk(c: JobConfig)
    requires WellFormed(c)
    ensures JobOk(CreatedJob(c)) && !Marked(CreatedJob(c)) && CreatedJob(c).config == c
  {
    StartKeepsJobOk(Job(c, JobState.Empty, []));
  }

  lemma UpdatedOk(m: Manager)
    requires ManagerOk(m)
    ensures ManagerOk(Updated(m)) && NoMarks(Updated(m))
  {
    forall n | n in m.jobs && m.jobs[n].state.Replace?
      ensures JobOk(CreatedJob(m.config[n])) && !Marked(CreatedJob(m.config[n]))
      ensures CreatedJob(m.config[n]).config == m.config[n]
    {
      CreatedJobOk(m.config[n]);
    }
  }

  lemma StartedAllOk(m: Manager)
    requires ManagerOk(m)
    ensures ManagerOk(StartedAll(m)) && (NoMarks(m) ==> NoMarks(StartedAll(m)))
  {
    forall n | n in m.jobs
      ensures JobOk(StartJob(m.jobs[n])) && StartJob(m.jobs[n]).state.Starting?
      ensures StartJob(m.jobs[n]).config == m.jobs[n].config
    {
      StartKeepsJobOk(m.jobs[n]);
    }
  }

  lemma CreatedMissingOk(m: Manager)
    requires ManagerOk(m)
    ensures ManagerOk(CreatedMissing(m))
  {
    forall n | n in m.config
      ensures JobOk(CreatedJob(m.config[n])) && !Marked(CreatedJob(m.config[n]))
      ensures CreatedJob(m.config[n]).config == m.config[n]
    {
      CreatedJobOk(m.config[n]);
    }
  }

  /** Only the manager's verdict marks a job. */
  lemma {:induction false} StopFromMarks(j: Job, i: nat, v: Verdict)
    requires i <= |j.procs| && MarkFits(j, v)
    ensures MarkFits(StopFrom(j, i, v).0, v)
    decreases |j.procs| - i
  {
    if i < |j.procs| && StopOne(j, i, v).1 {
      StopFromMarks(StopOne(j, i, v).0, i + 1, v);
    }
  }

  lemma StopInManagerOk(m: Manager, name: string)
    requires ManagerOk(m) && name in m.jobs
    ensures ManagerOk(SetJob(m, name, StopJob(m.jobs[name], VerdictOf(m, name)).0))
  {
    var j := m.jobs[name];
    var v := VerdictOf(m, name);
    StopKeepsOk(j, v);
    if !j.state.Stopping? && !j.state.Empty? && !j.state.Stopped? {
      StopFromMarks(j.(state := JobState.Stopping), 0, v);
    }
    SetJobKeepsOk(m, name, StopJob(j, v).0);
  }

  lemma {:induction false} StopInOrderOk(m: Manager, order: seq<string>, all: bool)
    requires ManagerOk(m) && forall n :: n in order ==> n in m.jobs
    ensures ManagerOk(StopInOrder(m, order, all).0)
    decreases |order|
  {
    if order != [] {
      StopInManagerOk(m, order[0]);
      var s := StopNamed(m, order[0], all);
      if s.1 {
        StopInOrderOk(s.0, order[1..], all);
      }
    }
  }

  lemma ChildEventInManagerOk(m: Manager, name: string, i: nat, what: ChildEvent)
    requires ManagerOk(m) && Enabled(m, ChildDid(name, i, what))
    ensures ManagerOk(Handled(m, ChildDid(name, i, what)))
  {
    var j := m.jobs[name];
    EventsNeedActiveJob(j, i, what);
    ChildEventKeepsOk(j, i, what, VerdictOf(m, name));
    SetJobKeepsOk(m, name, OnChild(j, i, what, VerdictOf(m, name)));
  }

  lemma RestartInManagerOk(m: Manager, name: string)
    requires ManagerOk(m) && name in m.jobs
    ensures ManagerOk(Restarted(m, name))
  {
    StopInManagerOk(m, name);
    StopKeepsOk(m.jobs[name], VerdictOf(m, name));
    var s := StopJob(m.jobs[name], VerdictOf(m, name));
    if s.1 {
      StartKeepsJobOk(s.0);
      SetJobKeepsOk(m, name, StartJob(s.0));
    }
  }

  lemma LoadedOk(m: Manager, c: ConfigMap)
    requires ManagerOk(m) && NoMarks(m) && ConfigOk(c)
    ensures ManagerOk(m.(config := c))
  {
  }

  lemma ReloadOk(m: Manager, c: ConfigMap, order: seq<string>)
    requires ManagerOk(m) && NoMarks(m) && ConfigOk(c) && IsOrder(order, m.jobs.Keys)
    ensures ManagerOk(Reloaded(m, Some(c), order).0)
  {
    var m0 := m.(config := c);
    StopInOrderOk(m0, order, false);
    var s := StopInOrder(m0, order, false);
    if s.1 {
      CreatedMissingOk(s.0);
      UpdatedOk(CreatedMissing(s.0));
      StartedAllOk(Updated(CreatedMissing(s.0)));
    }
  }

  /** The configurations a run loads are named by their keys and meet `WellFormed`. */
  predicate LoadsOk(e: Event) {
    e.ReloadCommand? && e.loaded.Some? ==> ConfigOk(e.loaded.value)
  }

  predicate Safe(m: Manager) {
    ManagerOk(m) && NoMarks(m)
  }

  lemma HandledOk(m: Manager, e: Event)
    requires Safe(m) && Enabled(m, e) && LoadsOk(e)
    ensures ManagerOk(Handled(m, e))
  {
    match e
    case ChildDid(name, i, what) => ChildEventInManagerOk(m, name, i, what);
    case StartCommand(name) =>
      if name in m.jobs {
        StartKeepsJobOk(m.jobs[name]);
        SetJobKeepsOk(m, name, StartJob(m.jobs[name]));
      }
    case StopCommand(name) =>
      if name in m.jobs {
        StopInManagerOk(m, name);
      }
    case RestartCommand(name) =>
      if name in m.jobs {
        RestartInManagerOk(m, name);
      }
    case ReloadCommand(loaded, order) =>
      if loaded.Some? {
        ReloadOk(m, loaded.value, order);
      }
  }

  /** The daemon after its constructors ran: every job EMPTY, then the autostart ones started. */
  lemma BootSafe(config: ConfigMap)
    requires ConfigOk(config)
    ensures Safe(StartedAll(Initial(config)))
    ensures StartedAll(Initial(config)).jobs.Keys == config.Keys
    ensures forall n :: n in config ==>
              var j := StartedAll(Initial(config)).jobs[n];
              && j.config == config[n]
              && (if config[n].autostart then j.state.Starting? && |j.procs| == config[n].numprocs
                  else j.state.Empty? && j.procs == [])
  {
    StartedAllOk(Initial(config));
  }

  /** Child ownership, timer discipline, retry budget, registrations and safe erasure hold in
      every state of every run, and also at the moment `update` is about to erase. */
  lemma {:induction false} EveryRunIsSafe(config: ConfigMap, states: seq<Manager>, events: seq<Event>, k: nat)
    requires ConfigOk(config) && IsRun(states, events) && states[0] == StartedAll(Initial(config))
    requires forall i :: 0 <= i < |events| ==> LoadsOk(events[i])
    requires k < |states|
    ensures Safe(states[k])
    ensures k < |events| ==> ManagerOk(Handled(states[k], events[k]))
    decreases k
  {
    if k == 0 {
      BootSafe(config);
    } else {
      EveryRunIsSafe(config, states, events, k - 1);
      UpdatedOk(Handled(states[k - 1], events[k - 1]));
    }
    if k < |events| {
      HandledOk(states[k], events[k]);
    }
  }

  /** A child that was sent the stop signal can expect SIGKILL exactly when it has a stop time: a
      stop time of 0 disarms the stop timer, and no event or command of any run ever sends SIGKILL
      unless it is the stop signal. */
  lemma SigkillFollowsExactlyWhen(config: ConfigMap, states: seq<Manager>, events: seq<Event>,
                                  k: nat, n: string, i: nat)
    requires ConfigOk(config) && IsRun(states, events) && states[0] == StartedAll(Initial(config))
    requires forall t :: 0 <= t < |events| ==> LoadsOk(events[t])
    requires k < |states| && n in states[k].jobs && i < |states[k].jobs[n].procs|
    ensures var p, c := states[k].jobs[n].procs[i], states[k].jobs[n].config;
            && (p.os.child.Child? && p.os.child.killed ==> c.stopTime > 0 || c.stopSignal.KILL?)
            && (p.state.Stopping? && p.os.child.Child? && !p.os.child.killed ==>
                  (Possible(p, TimerFired) <==> c.stopTime > 0))
  {
    EveryRunIsSafe(config, states, events, k);
    assert ProcOk(states[k].jobs[n].procs[i], states[k].jobs[n].config);
  }

  // ------------------------------------------------------------------ consequences

  /** What `update` erases is quiet: no child, no timer, nothing left in the event manager. */
  lemma ErasedJobIsQuiet(m: Manager, name: string, k: nat)
    requires ManagerOk(m) && name in m.jobs && Marked(m.jobs[name]) && k < |m.jobs[name].procs|
    ensures var p := m.jobs[name].procs[k];
            p.os.child.NoChild? && p.timer.NoTimer? && p.os.watched == {} && p.os.forks == p.os.reaps
  {
  }

  /** A process's registrations, by its state: the pidfd while it is STARTING, RUNNING or
      STOPPING, the timer while it is STARTING or waits for its stop time. They are the events
      that can come, but for a stop timer that was set to 0: it is watched for ever. */
  lemma WatchedByState(m: Manager, n: string, i: nat, h: Handle)
    requires ManagerOk(m) && n in m.jobs && i < |m.jobs[n].procs|
    ensures var p := m.jobs[n].procs[i];
            && (h in p.os.watched <==>
                  || (h == PidFd(p.os.forks) && LiveState(p.state))
                  || (h == TimerFd(p.os.timers) &&
                      (p.state.Starting? || (p.state.Stopping? && p.timer.running))))
            && (LiveState(p.state) <==> forall code :: Enabled(m, ChildDid(n, i, ExitedWith(code))))
            && (Enabled(m, ChildDid(n, i, TimerFired)) <==>
                  || (p.state.Starting? && m.jobs[n].config.startTime > 0)
                  || (p.state.Stopping? && p.timer.running && m.jobs[n].config.stopTime > 0))
  {
    var p := m.jobs[n].procs[i];
    assert Enabled(m, ChildDid(n, i, ExitedWith(0))) <==> p.os.child.Child?;
    assert forall code :: Enabled(m, ChildDid(n, i, ExitedWith(code))) <==> p.os.child.Child?;
    assert p.os.watched == Owned(p);
  }

  function ForksOf(p: Proc): nat {
    p.os.forks
  }

  function ReapsOf(p: Proc): nat {
    p.os.reaps
  }

  function Lives(p: Proc): nat {
    if LiveState(p.state) then 1 else 0
  }

  /** Every fork of a job is reaped, except that of a process in a live state. */
  lemma ForksAreAccounted(j: Job)
    requires JobOk(j)
    ensures Sum(ForksOf, j.procs) == Sum(ReapsOf, j.procs) + Sum(Lives, j.procs)
  {
    SumAdds(ForksOf, ReapsOf, Lives, j.procs);
  }

  // ------------------------------------------------------- what the parser lets through

  lemma OneMoreExit(j: Job, i: nat, code: int, v: Verdict)
    requires i < |j.procs| && j.config.restartPolicy.Always? && j.config.startRetries < 0
    requires j.procs[i].state.Starting? && j.procs[i].os.child.Child? && j.procs[i].restarts >= 0
    ensures var q := OnChild(j, i, ExitedWith(code), v).procs[i];
            && q.state.Starting? && q.os.child.Child?
            && q.restarts == j.procs[i].restarts + 1 && q.os.forks == j.procs[i].os.forks + 1
  {
  }

  /** With a negative retry limit the counter never meets it: n exits in a row of an always
      restarted process are n launches, whatever n, and none of them is the last. */
  function ExitsInARow(j: Job, i: nat, code: int, v: Verdict, n: nat): (r: Job)
    requires i < |j.procs| && j.config.restartPolicy.Always? && j.config.startRetries < 0
    requires j.procs[i].state.Starting? && j.procs[i].os.child.Child? && j.procs[i].restarts >= 0
    ensures |r.procs| == |j.procs| && r.config == j.config
    ensures r.procs[i].state.Starting? && r.procs[i].os.child.Child?
    ensures r.procs[i].restarts == j.procs[i].restarts + n
    ensures r.procs[i].os.forks == j.procs[i].os.forks + n
  {
    if n == 0 then j
    else
      var k := ExitsInARow(j, i, code, v, n - 1);
      OneMoreExit(k, i, code, v);
      OnChild(k, i, ExitedWith(code), v)
  }

  /** A started job has a process, and a child, exactly when `numprocs` is positive; without one
      a stop leaves it STOPPING with nothing that could ever happen to it. */
  lemma ProcessesNeeded(c: JobConfig, v: Verdict)
    ensures var j := StartJob(Job(c, JobState.Empty, []));
            && (c.numprocs >= 1 <==> exists k :: 0 <= k < |j.procs| && LiveState(j.procs[k].state))
            && (c.numprocs < 1 ==> StopJob(j, v) == (Job(c, JobState.Stopping, []), true))
  {
    var j := StartJob(Job(c, JobState.Empty, []));
    assert j.procs == FreshProcs(c);
    if c.numprocs >= 1 {
      assert j.procs[0].state.Starting?;
    } else {
      assert StopFrom(Job(c, JobState.Stopping, []), 0, v) == (Job(c, JobState.Stopping, []), true);
    }
  }
}
