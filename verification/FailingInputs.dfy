/** Inputs that lead to the failures whose exact conditions are proved elsewhere: runs of a daemon
    with one job, from its start to the state in which the condition holds. */
module FailingInputs {
  import opened Options
  import opened JobConfigs
  import opened SupervisorSpec
  import opened SupervisorSafety
  import opened CleanRuns
  import opened Reload
  import opened Shutdown

  function Booted(c: JobConfig): Manager {
    StartedAll(Initial(map[c.name := c]))
  }

  /** One job of configuration `c`, in a daemon that has loaded `d` for it. */
  predicate Single(m: Manager, c: JobConfig, d: JobConfig) {
    && m.jobs.Keys == {c.name} && m.config == map[c.name := d]
    && m.jobs[c.name].config == c && |m.jobs[c.name].procs| == 1
  }

  /** A configuration that starts one process with the daemon, and a changed one for the same job. */
  predicate Change(c: JobConfig, d: JobConfig) {
    WellFormed(c) && WellFormed(d) && c.name == d.name && c != d && c.autostart
  }

  lemma BootedIs(c: JobConfig)
    requires WellFormed(c) && c.autostart
    ensures CleanState(Booted(c)) && Booted(c).jobs.Keys == {c.name} && Booted(c).config == map[c.name := c]
    ensures var j := Booted(c).jobs[c.name];
            j.config == c && j.state.Starting? && |j.procs| == c.numprocs && j.procs[0].state.Starting?
  {
    BootClean(map[c.name := c]);
    BootSafe(map[c.name := c]);
    assert Booted(c).jobs[c.name] == StartJob(Job(c, JobState.Empty, []));
  }

  lemma OneName(name: string)
    ensures IsOrder([name], {name})
  {
  }

  // ---------------------------------------------------------- a reload without effect

  /** Right after the start, a reload that changes the job does not take effect. It leaves the job
      out of date and live, so that a shutdown then hangs. */
  lemma ChangedWhileRunning(c: JobConfig, d: JobConfig)
    requires Change(c, d)
    ensures CleanState(Booted(c)) && AnyResurrected(Booted(c), map[c.name := d])
    ensures var e := ReloadCommand(Some(map[c.name := d]), [c.name]);
            && Enabled(Booted(c), e) && LoadsOk(e) && CleanEvent(Booted(c), e)
            && CleanState(Step(Booted(c), e)) && Stuck(Step(Booted(c), e), c.name)
            && AnyStale(Step(Booted(c), e)) && CanHang(Step(Booted(c), e))
  {
    hide Booted, CleanReload, Agree, JobOk, CanHang, Reloaded, Updated, StopInOrder;
    var m, n, loaded := Booted(c), c.name, map[c.name := d];
    BootedIs(c);
    OneName(n);
    assert Resurrected(m, loaded, n);
    ReloadIsClean(m, loaded, [n]);
    CleanReloadIsClean(m, loaded, [n]);
    ResurrectedIsStuck(m, loaded, n);
    UnmarkedStays(CleanReload(m, loaded));
    var r := CleanReload(m, loaded);
    ReloadKeepsTheJob(c, d);
    assert VerdictOf(r, n) != KeepJob;
    DrainFinishesExactlyWhen(r, [n]);
  }

  lemma UnmarkedStays(m: Manager)
    requires NoMarks(m)
    ensures Updated(m) == m
  {
    assert Updated(m).jobs == m.jobs;
  }

  /** A restart of a live job, old children and all. */
  lemma StoppedAndStarted(j: Job, v: Verdict)
    requires JobOk(j) && Agree(j) && j.state.Starting? && j.config.autostart
    ensures StopJob(j, v).0.state.Stopping?
    ensures var r := AutoStarted(StopJob(j, v).0);
            && r.config == j.config && r.state.Starting? && |r.procs| == |j.procs|
            && forall k :: 0 <= k < |j.procs| && LiveState(j.procs[k].state) ==> r.procs[k].state.Stopping?
  {
    StopOfLive(j, v);
    var s := StopJob(j, v).0;
    forall k | 0 <= k < |j.procs| && LiveState(j.procs[k].state)
      ensures RestartProcess(s.procs[k], j.config).state.Stopping?
    {
      assert ProcOk(j.procs[k], j.config);
    }
  }

  lemma ReloadKeepsTheJob(c: JobConfig, d: JobConfig)
    requires Change(c, d)
    ensures var r := CleanReload(Booted(c), map[c.name := d]);
            && r.jobs.Keys == {c.name} && r.config == map[c.name := d] && r.jobs[c.name].config == c
            && r.jobs[c.name].state.Starting? && |r.jobs[c.name].procs| == c.numprocs
            && r.jobs[c.name].procs[0].state.Stopping?
  {
    hide CleanReload, StopJob, AutoStarted, JobOk, Agree, Booted;
    var m, n, loaded := Booted(c), c.name, map[c.name := d];
    BootedIs(c);
    StoppedAndStarted(m.jobs[n], ReplaceJob);
    ReloadedJob(m, loaded, n);
    var r := CleanReload(m, loaded);
    forall o | o in r.jobs
      ensures o == n
    {
      ReloadedJob(m, loaded, o);
    }
  }

  // ---------------------------------------------------------------- a forgotten mark

  lemma SingleStep(m: Manager, c: JobConfig, d: JobConfig, code: int)
    requires CleanState(m) && Single(m, c, d) && LiveState(m.jobs[c.name].procs[0].state)
    ensures var e := ChildDid(c.name, 0, ExitedWith(code));
            && JobOk(m.jobs[c.name])
            && Enabled(m, e) && LoadsOk(e) && CleanEvent(m, e) && CleanState(Step(m, e))
            && var j := OnChild(m.jobs[c.name], 0, ExitedWith(code), VerdictOf(m, c.name));
               !Marked(j) ==> Single(Step(m, e), c, d) && Step(m, e).jobs[c.name] == j
  {
    var e := ChildDid(c.name, 0, ExitedWith(code));
    assert ProcOk(m.jobs[c.name].procs[0], c);
    ChildStep(m, c.name, 0, ExitedWith(code));
    CleanStep(m, e);
  }

  /** The old child dies: the reload left the job STARTING, so it is launched again as it was. */
  lemma OldChildExits(j: Job, v: Verdict)
    requires JobOk(j) && |j.procs| == 1 && j.state.Starting? && j.procs[0].state.Stopping?
    ensures var r := OnChild(j, 0, ExitedWith(0), v);
            r.state.Starting? && r.procs[0].state.Starting?
  {
  }

  /** The new one exits, and is not launched again. */
  lemma NewChildExits(j: Job, v: Verdict)
    requires JobOk(j) && |j.procs| == 1 && j.state.Starting? && j.procs[0].state.Starting?
    requires j.config.restartPolicy.Never?
    ensures OnChild(j, 0, ExitedWith(0), v).state.Stopped?
  {
  }

  /** A clean run to a job that is STOPPED and out of date, which a `restart` leaves STARTING
      without a child: a reload that changes the job, and the exits of its old and new child. */
  lemma ChangedThenExited(c: JobConfig, d: JobConfig) returns (states: seq<Manager>, events: seq<Event>)
    requires Change(c, d) && c.numprocs == 1 && c.restartPolicy.Never?
    ensures IsCleanRun(states, events) && states[0] == Booted(c)
    ensures var last := states[|events|];
            && CleanState(last) && c.name in last.jobs && !CleanRestart(last, c.name)
            && Restarted(last, c.name).jobs[c.name].state.Starting?
            && !SomeLive(Restarted(last, c.name).jobs[c.name])
  {
    hide Booted, Step, CleanState, CleanEvent, Enabled, LoadsOk, Restarted, OnChild;
    var n, exit := c.name, ChildDid(c.name, 0, ExitedWith(0));
    var reload := ReloadCommand(Some(map[n := d]), [n]);
    var m0 := Booted(c);
    var m1 := ReloadedFirst(c, d);
    SingleStep(m1, c, d, 0);
    OldChildExits(m1.jobs[n], VerdictOf(m1, n));
    var m2 := Step(m1, exit);
    SingleStep(m2, c, d, 0);
    NewChildExits(m2.jobs[n], VerdictOf(m2, n));
    var m3 := Step(m2, exit);
    RunOfThree(m0, reload, m1, exit, m2, exit, m3);
    states, events := [m0, m1, m2, m3], [reload, exit, exit];
    RestartAgreesExactlyWhen(m3, n);
  }

  lemma RunOfThree(a: Manager, e: Event, b: Manager, f: Event, c: Manager, g: Event, d: Manager)
    requires Enabled(a, e) && b == Step(a, e) && Enabled(b, f) && c == Step(b, f) && Enabled(c, g) && d == Step(c, g)
    ensures IsRun([a, b, c, d], [e, f, g])
  {
    hide Enabled, Step;
  }

  lemma ReloadedFirst(c: JobConfig, d: JobConfig) returns (m: Manager)
    requires Change(c, d) && c.numprocs == 1
    ensures var e := ReloadCommand(Some(map[c.name := d]), [c.name]);
            Enabled(Booted(c), e) && LoadsOk(e) && CleanEvent(Booted(c), e) && m == Step(Booted(c), e)
    ensures CleanState(m) && Single(m, c, d)
    ensures m.jobs[c.name].state.Starting? && m.jobs[c.name].procs[0].state.Stopping?
  {
    ChangedWhileRunning(c, d);
    m := Step(Booted(c), ReloadCommand(Some(map[c.name := d]), [c.name]));
    BootedIs(c);
    OneName(c.name);
    ReloadIsClean(Booted(c), map[c.name := d], [c.name]);
    CleanReloadIsClean(Booted(c), map[c.name := d], [c.name]);
    UnmarkedStays(CleanReload(Booted(c), map[c.name := d]));
    ReloadKeepsTheJob(c, d);
  }

  // ------------------------------------------------------------ a stop that threw

  /** The child of a running job dies by a signal, and a `stop` of the job throws. */
  lemma DeathThenStop(j: Job, v: Verdict)
    requires JobOk(j) && |j.procs| == 1 && j.state.Starting? && j.procs[0].state.Starting? && j.config.startTime > 0
    ensures Possible(j.procs[0], TimerFired)
    ensures var a := OnChild(j, 0, TimerFired, v);
            && |a.procs| == 1 && !Marked(a) && Possible(a.procs[0], KilledBySignal)
            && var b := OnChild(a, 0, KilledBySignal, v);
               && |b.procs| == 1 && !Marked(b)
               && StopJob(b, v).0.state.Stopping? && AllStopped(StopJob(b, v).0)
  {
    var a := OnChild(j, 0, TimerFired, v);
    assert a.state.Running? && a.procs[0].state.Running?;
    var b := OnChild(a, 0, KilledBySignal, v);
    assert b.state.Running? && b.procs[0].state.Stopped? && b.procs[0].os.child.NoChild?;
    assert StopOne(b.(state := JobState.Stopping), 0, v) == (b.(state := JobState.Stopping), false);
  }

  /** A run, of a job that is up to date and can be killed, to a state in which a shutdown throws
      nothing and hangs: the start time passes, the child dies by a signal, the job is stopped. */
  lemma DiedThenStopped(c: JobConfig) returns (states: seq<Manager>, events: seq<Event>)
    requires WellFormed(c) && c.autostart && c.numprocs == 1 && c.startTime > 0
    ensures IsRun(states, events) && states[0] == Booted(c)
    ensures var last := states[|events|];
            && Safe(last) && !AnyStale(last) && IsOrder([c.name], last.jobs.Keys)
            && StopInOrder(last, [c.name], true).1 && CanHang(last)
  {
    hide Booted, Step, Enabled, Updated, Handled, CanHang, StopInOrder, OnChild, StopJob, JobOk;
    var n := c.name;
    var fires, dies, stop := ChildDid(n, 0, TimerFired), ChildDid(n, 0, KilledBySignal), StopCommand(n);
    BootedIs(c);
    var m0 := Booted(c);
    var j := m0.jobs[n];
    DeathThenStop(j, KeepJob);
    AloneStep(m0, c, TimerFired);
    var m1 := Step(m0, fires);
    AloneStep(m1, c, KilledBySignal);
    var m2 := Step(m1, dies);
    AloneStop(m2, c);
    var m3 := Step(m2, stop);
    RunOfThree(m0, fires, m1, dies, m2, stop, m3);
    states, events := [m0, m1, m2, m3], [fires, dies, stop];
    NothingTellsIt(m3, c);
  }

  /** The daemon's only job, up to date. */
  ghost predicate Alone(m: Manager, c: JobConfig) {
    Safe(m) && Single(m, c, c)
  }

  lemma AloneStep(m: Manager, c: JobConfig, what: ChildEvent)
    requires Alone(m, c) && Possible(m.jobs[c.name].procs[0], what)
    ensures var e := ChildDid(c.name, 0, what);
            && Enabled(m, e)
            && var j := OnChild(m.jobs[c.name], 0, what, KeepJob);
               !Marked(j) ==> Alone(Step(m, e), c) && Step(m, e).jobs[c.name] == j
  {
    var e := ChildDid(c.name, 0, what);
    ChildStep(m, c.name, 0, what);
    HandledOk(m, e);
    UpdatedOk(Handled(m, e));
  }

  lemma AloneStop(m: Manager, c: JobConfig)
    requires Alone(m, c)
    ensures Enabled(m, StopCommand(c.name))
    ensures var j := StopJob(m.jobs[c.name], KeepJob).0;
            !Marked(j) ==> Alone(Step(m, StopCommand(c.name)), c) && Step(m, StopCommand(c.name)).jobs[c.name] == j
  {
    var e := StopCommand(c.name);
    HandledOk(m, e);
    UpdatedOk(Handled(m, e));
    var r := Handled(m, e);
    assert VerdictOf(m, c.name) == KeepJob;
    if !Marked(r.jobs[c.name]) {
      assert NoMarks(r);
      UnmarkedStays(r);
    }
  }

  /** All its processes are STOPPED, and the job is STOPPING. */
  lemma NothingTellsIt(m: Manager, c: JobConfig)
    requires Alone(m, c) && m.jobs[c.name].state.Stopping? && AllStopped(m.jobs[c.name])
    ensures !AnyStale(m) && IsOrder([c.name], m.jobs.Keys)
    ensures StopInOrder(m, [c.name], true).1 && CanHang(m)
  {
    hide CanHang;
    OneName(c.name);
    ShutdownFinishesExactlyWhen(m, [c.name]);
    StopInOrderThrows(m, [c.name], true);
    assert !Orderly(m.jobs[c.name]);
  }
}
