/** What the supervisor's operations do, as functions on values. The classes of `Supervisor`
    are proved equal to these functions; the results about runs are proved about them. */
module SupervisorSpec {
  import opened Options
  import opened JobConfigs

  datatype ProcState = Stopped | Starting | Running | Backoff | Stopping | Exited | Fatal | Unknown

  datatype JobState = Empty | Starting | Running | Stopping | Stopped | Replace | Remove

  datatype TimerKind = StartTime | StopTimeout

  /** `_timer`: null, or a timer whose own state is RUNNING or STOPPED. */
  datatype Timer = NoTimer | Timer(kind: TimerKind, interval: int, running: bool)

  /** The forked, not yet reaped child, and the signals it was sent. */
  datatype Child = NoChild | Child(signalled: bool, killed: bool)

  /** A process's own descriptors: its n-th fork's pidfd, its n-th timer. Never reused. */
  datatype Handle = PidFd(n: nat) | TimerFd(n: nat)

  /** The part of the kernel's state that concerns one process. `watched` is its share of the
      epoll interest set; `fault` records a registration or removal that epoll refused, a fork
      over a live child, or a SIGKILL without a child. `relaunches` counts the forks made by
      `Job::onExit` since the restart counter was last reset. */
  datatype Os = Os(
    child: Child,
    watched: set<Handle>,
    timers: nat,
    forks: nat,
    reaps: nat,
    relaunches: nat,
    fault: bool)

  datatype Proc = Proc(state: ProcState, restarts: int, timer: Timer, os: Os)

  datatype Job = Job(config: JobConfig, state: JobState, procs: seq<Proc>)

  datatype Manager = Manager(jobs: map<string, Job>, config: ConfigMap)

  /** The manager's answer when a job reports that it has stopped. */
  datatype Verdict = KeepJob | RemoveJob | ReplaceJob

  /** What the event loop can deliver for one process. */
  datatype ChildEvent = ExitedWith(code: int) | KilledBySignal | TimerFired

  datatype Event =
    | ChildDid(name: string, index: nat, what: ChildEvent)
    | StartCommand(name: string)
    | StopCommand(name: string)
    | RestartCommand(name: string)
    | ReloadCommand(loaded: Option<ConfigMap>, order: seq<string>)

  // ---------------------------------------------------------------- processes

  const NEW_OS := Os(NoChild, {}, 0, 0, 0, 0, false)

  const NEW_PROC := Proc(ProcState.Stopped, 0, NoTimer, NEW_OS)

  predicate LiveState(s: ProcState) {
    s.Starting? || s.Running? || s.Stopping?
  }

  predicate DeadState(s: ProcState) {
    s.Exited? || s.Backoff? || s.Stopped?
  }

  function Watch(os: Os, h: Handle): Os {
    os.(watched := os.watched + {h}, fault := os.fault || h in os.watched)
  }

  function Unwatch(os: Os, h: Handle): Os {
    os.(watched := os.watched - {h}, fault := os.fault || h !in os.watched)
  }

  /** Destroying a timer that still runs takes it out of the event manager. */
  function DropTimer(p: Proc): Proc {
    if p.timer.Timer? && p.timer.running then
      p.(timer := NoTimer, os := Unwatch(p.os, TimerFd(p.os.timers)))
    else
      p.(timer := NoTimer)
  }

  function NewTimer(p: Proc, kind: TimerKind, interval: int): Proc {
    var q := DropTimer(p);
    q.(timer := Timer(kind, interval, false), os := q.os.(timers := q.os.timers + 1))
  }

  function ArmTimer(p: Proc): Proc {
    if p.timer.Timer? then
      p.(timer := p.timer.(running := true), os := Watch(p.os, TimerFd(p.os.timers)))
    else p
  }

  function Fork(os: Os): Os {
    os.(child := Child(false, false), forks := os.forks + 1, fault := os.fault || os.child.Child?)
  }

  function StartProcess(p: Proc, c: JobConfig): Proc {
    var q := NewTimer(p, StartTime, c.startTime);
    var r := ArmTimer(q.(state := ProcState.Starting, os := Fork(q.os)));
    r.(os := Watch(r.os, PidFd(r.os.forks)))
  }

  /** The stop signal went out: the stop timer replaces the start timer. */
  function SignalProcess(p: Proc, c: JobConfig): Proc
    requires p.os.child.Child?
  {
    var os := p.os.(child := Child(true, p.os.child.killed || c.stopSignal.KILL?));
    ArmTimer(NewTimer(p.(state := ProcState.Stopping, os := os), StopTimeout, c.stopTime))
  }

  function KillProcess(p: Proc): Proc {
    if p.os.child.Child? then
      p.(state := ProcState.Stopping, os := p.os.(child := p.os.child.(killed := true)))
    else
      p.(os := p.os.(fault := true))
  }

  function Reap(p: Proc): Proc {
    var q := DropTimer(p.(os := p.os.(child := NoChild, reaps := p.os.reaps + 1)));
    q.(os := Unwatch(q.os, PidFd(q.os.forks)))
  }

  function ExpireTimer(p: Proc): Proc
    requires p.timer.Timer?
  {
    p.(timer := p.timer.(running := false), os := Unwatch(p.os, TimerFd(p.os.timers)))
  }

  // --------------------------------------------------------------------- jobs

  function Mark(j: Job, v: Verdict): Job {
    match v
    case KeepJob => j
    case RemoveJob => j.(state := JobState.Remove)
    case ReplaceJob => j.(state := JobState.Replace)
  }

  predicate AllStopped(j: Job) {
    forall k :: 0 <= k < |j.procs| ==> j.procs[k].state.Stopped?
  }

  predicate AllRunning(j: Job) {
    forall k :: 0 <= k < |j.procs| ==> j.procs[k].state.Running?
  }

  predicate AllDead(j: Job) {
    forall k :: 0 <= k < |j.procs| ==> DeadState(j.procs[k].state)
  }

  function Launch(j: Job, i: nat): Job
    requires i < |j.procs|
  {
    j.(procs := j.procs[i := StartProcess(j.procs[i], j.config)])
  }

  function OnStop(j: Job, i: nat, v: Verdict): (r: Job)
    requires i < |j.procs|
    ensures |r.procs| == |j.procs| && r.config == j.config
  {
    match j.state
    case Starting => Launch(j, i)
    case Stopping => if AllStopped(j) then Mark(j.(state := JobState.Stopped), v) else j
    case _ => j
  }

  function Settle(j: Job): Job {
    if AllDead(j) then j.(state := JobState.Stopped) else j
  }

  function CountRestart(j: Job, i: nat): Job
    requires i < |j.procs|
  {
    j.(procs := j.procs[i := j.procs[i].(restarts := j.procs[i].restarts + 1)])
  }

  function Relaunch(j: Job, i: nat): Job
    requires i < |j.procs|
  {
    var p := j.procs[i];
    Launch(j.(state := JobState.Starting,
              procs := j.procs[i := p.(os := p.os.(relaunches := p.os.relaunches + 1))]), i)
  }

  function OnExit(j: Job, i: nat, code: int): (r: Job)
    requires i < |j.procs|
    ensures |r.procs| == |j.procs| && r.config == j.config
  {
    if j.procs[i].restarts == j.config.startRetries then Settle(j)
    else
      match j.config.restartPolicy
      case Never => Settle(j)
      case Always => Relaunch(CountRestart(j, i), i)
      case OnFailure =>
        if code in j.config.exitCodes then Settle(CountRestart(j, i))
        else Relaunch(CountRestart(j, i), i)
  }

  function Put(j: Job, i: nat, p: Proc): Job
    requires i < |j.procs|
  {
    j.(procs := j.procs[i := p])
  }

  function OnProcExit(j: Job, i: nat, code: int, v: Verdict): (r: Job)
    requires i < |j.procs|
    ensures |r.procs| == |j.procs| && r.config == j.config
  {
    var p := j.procs[i];
    match p.state
    case Stopping => OnStop(Put(j, i, p.(state := ProcState.Stopped)), i, v)
    case Starting => OnExit(Put(j, i, p.(state := ProcState.Backoff)), i, code)
    case Running => OnExit(Put(j, i, p.(state := ProcState.Exited)), i, code)
    case _ => j
  }

  function OnTimer(j: Job, i: nat): (r: Job)
    requires i < |j.procs| && j.procs[i].timer.Timer?
    ensures |r.procs| == |j.procs| && r.config == j.config
  {
    var p := ExpireTimer(j.procs[i]);
    match p.timer.kind
    case StartTime =>
      var k := Put(j, i, p.(state := ProcState.Running));
      if AllRunning(k) then k.(state := JobState.Running) else k
    case StopTimeout =>
      Put(j, i, if p.state.Stopping? then KillProcess(p) else p)
  }

  /** The event can happen: a child that was not reaped, a timer that runs and has a period. */
  predicate Possible(p: Proc, e: ChildEvent) {
    if e.TimerFired? then p.timer.Timer? && p.timer.running && p.timer.interval > 0
    else p.os.child.Child?
  }

  function OnChild(j: Job, i: nat, e: ChildEvent, v: Verdict): (r: Job)
    requires i < |j.procs| && Possible(j.procs[i], e)
    ensures |r.procs| == |j.procs| && r.config == j.config
  {
    match e
    case TimerFired => OnTimer(j, i)
    case ExitedWith(code) => OnProcExit(Put(j, i, Reap(j.procs[i])), i, code, v)
    case KilledBySignal =>
      OnStop(Put(j, i, Reap(j.procs[i]).(state := ProcState.Stopped)), i, v)
  }

  /** `Process::stop`; false when the signal could not be sent and the call throws. */
  function StopOne(j: Job, i: nat, v: Verdict): (r: (Job, bool))
    requires i < |j.procs|
    ensures |r.0.procs| == |j.procs| && r.0.config == j.config
  {
    var p := j.procs[i];
    if p.state.Backoff? || p.state.Exited? then
      (OnStop(Put(j, i, p.(state := ProcState.Stopped)), i, v), true)
    else if p.os.child.Child? then
      (Put(j, i, SignalProcess(p, j.config)), true)
    else
      (j, false)
  }

  function StopFrom(j: Job, i: nat, v: Verdict): (r: (Job, bool))
    requires i <= |j.procs|
    ensures |r.0.procs| == |j.procs| && r.0.config == j.config
    decreases |j.procs| - i
  {
    if i == |j.procs| then (j, true)
    else
      var s := StopOne(j, i, v);
      if s.1 then StopFrom(s.0, i + 1, v) else s
  }

  function StopJob(j: Job, v: Verdict): (r: (Job, bool))
    ensures |r.0.procs| == |j.procs| && r.0.config == j.config
  {
    match j.state
    case Stopping => (j, true)
    case Empty => (Mark(j, v), true)
    case Stopped => (Mark(j, v), true)
    case _ => StopFrom(j.(state := JobState.Stopping), 0, v)
  }

  function RestartProcess(p: Proc, c: JobConfig): Proc {
    var q := p.(restarts := 0, os := p.os.(relaunches := 0));
    if DeadState(q.state) then StartProcess(q, c) else q
  }

  function FreshProcs(c: JobConfig): seq<Proc> {
    seq(if c.numprocs > 0 then c.numprocs else 0, _ => StartProcess(NEW_PROC, c))
  }

  function RestartedProcs(j: Job): seq<Proc> {
    seq(|j.procs|, k requires 0 <= k < |j.procs| => RestartProcess(j.procs[k], j.config))
  }

  function StartJob(j: Job): Job {
    match j.state
    case Stopping => Job(j.config, JobState.Starting, RestartedProcs(j))
    case Stopped => Job(j.config, JobState.Starting, RestartedProcs(j))
    case Empty => Job(j.config, JobState.Starting, j.procs + FreshProcs(j.config))
    case _ => j.(state := JobState.Starting)
  }

  function AutoStarted(j: Job): Job {
    if j.config.autostart then StartJob(j) else j
  }

  function CreatedJob(c: JobConfig): Job {
    AutoStarted(Job(c, JobState.Empty, []))
  }

  // ------------------------------------------------------------------ manager

  function VerdictFor(config: ConfigMap, name: string, c: JobConfig): Verdict {
    if name !in config then RemoveJob
    else if config[name] != c then ReplaceJob
    else KeepJob
  }

  function SetJob(m: Manager, name: string, j: Job): Manager {
    m.(jobs := m.jobs[name := j])
  }

  function VerdictOf(m: Manager, name: string): Verdict
    requires name in m.jobs
  {
    VerdictFor(m.config, name, m.jobs[name].config)
  }

  predicate Marked(j: Job) {
    j.state.Replace? || j.state.Remove?
  }

  predicate MarkFits(j: Job, v: Verdict) {
    (j.state.Remove? ==> v.RemoveJob?) && (j.state.Replace? ==> v.ReplaceJob?)
  }

  /** A marked job is out of date in the way the mark says; without the new configuration of
      a job marked REPLACE `update` would throw. */
  predicate MarksBacked(m: Manager) {
    forall n :: n in m.jobs ==> MarkFits(m.jobs[n], VerdictOf(m, n))
  }

  /** `update`, whatever order the table is walked in. */
  function Updated(m: Manager): Manager {
    Manager(map n | n in m.jobs && !m.jobs[n].state.Remove? ::
              (if m.jobs[n].state.Replace? && n in m.config then CreatedJob(m.config[n]) else m.jobs[n]),
            m.config)
  }

  function StartedAll(m: Manager): Manager {
    Manager(map n | n in m.jobs :: AutoStarted(m.jobs[n]), m.config)
  }

  function CreatedMissing(m: Manager): Manager {
    Manager(map n | n in m.jobs.Keys + m.config.Keys ::
              (if n in m.jobs then m.jobs[n] else CreatedJob(m.config[n])),
            m.config)
  }

  /** Every key once: an order in which a hash table may be walked. */
  predicate IsOrder(order: seq<string>, keys: set<string>) {
    && (forall i, j :: 0 <= i < j < |order| ==> order[i] != order[j])
    && (forall n :: n in keys ==> n in order)
    && (forall n :: n in order ==> n in keys)
  }

  /** One turn of a loop that stops jobs: all of them, or only the stale ones. */
  function StopNamed(m: Manager, name: string, all: bool): (r: (Manager, bool))
    requires name in m.jobs
    ensures r.0.jobs.Keys == m.jobs.Keys && r.0.config == m.config
  {
    if all || VerdictOf(m, name) != KeepJob then
      var s := StopJob(m.jobs[name], VerdictOf(m, name));
      (SetJob(m, name, s.0), s.1)
    else
      (m, true)
  }

  /** The loop over `order`. Ends early, with false, at a job whose stop throws. */
  function StopInOrder(m: Manager, order: seq<string>, all: bool): (r: (Manager, bool))
    requires forall n :: n in order ==> n in m.jobs
    ensures r.0.jobs.Keys == m.jobs.Keys && r.0.config == m.config
    decreases |order|
  {
    if order == [] then (m, true)
    else
      var s := StopNamed(m, order[0], all);
      if s.1 then StopInOrder(s.0, order[1..], all) else s
  }

  function Restarted(m: Manager, name: string): Manager
    requires name in m.jobs
  {
    var s := StopJob(m.jobs[name], VerdictOf(m, name));
    SetJob(m, name, if s.1 then StartJob(s.0) else s.0)
  }

  /** False when a stop threw: then nothing is created, updated or started. A configuration
      that fails to load leaves everything as it was. */
  function Reloaded(m: Manager, loaded: Option<ConfigMap>, order: seq<string>): (Manager, bool)
    requires IsOrder(order, m.jobs.Keys)
  {
    if loaded.None? then (m, true)
    else
      var s := StopInOrder(m.(config := loaded.value), order, false);
      if s.1 then (StartedAll(Updated(CreatedMissing(s.0))), true) else s
  }

  predicate Enabled(m: Manager, e: Event) {
    match e
    case ChildDid(name, i, what) =>
      name in m.jobs && i < |m.jobs[name].procs| && Possible(m.jobs[name].procs[i], what)
    case ReloadCommand(loaded, order) => IsOrder(order, m.jobs.Keys)
    case _ => true
  }

  /** The callback or command alone. */
  function Handled(m: Manager, e: Event): Manager
    requires Enabled(m, e)
  {
    match e
    case ChildDid(name, i, what) =>
      SetJob(m, name, OnChild(m.jobs[name], i, what, VerdictOf(m, name)))
    case StartCommand(name) =>
      if name in m.jobs then SetJob(m, name, StartJob(m.jobs[name])) else m
    case StopCommand(name) =>
      if name in m.jobs then SetJob(m, name, StopJob(m.jobs[name], VerdictOf(m, name)).0) else m
    case RestartCommand(name) =>
      if name in m.jobs then Restarted(m, name) else m
    case ReloadCommand(loaded, order) => Reloaded(m, loaded, order).0
  }

  /** One turn of the main loop: one event, then `update`. */
  function Step(m: Manager, e: Event): Manager
    requires Enabled(m, e)
  {
    Updated(Handled(m, e))
  }

  /** A run of the main loop: `states[k]` becomes `states[k + 1]` by `events[k]`. */
  ghost predicate IsRun(states: seq<Manager>, events: seq<Event>) {
    && |states| == |events| + 1
    && forall k :: 0 <= k < |events| ==>
         Enabled(states[k], events[k]) && states[k + 1] == Step(states[k], events[k])
  }

  function Initial(config: ConfigMap): Manager {
    Manager(map n | n in config :: Job(config[n], JobState.Empty, []), config)
  }
}
