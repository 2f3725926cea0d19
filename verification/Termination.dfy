/** How long a job can stay busy without commands: every event pays for itself out of a
    budget of restarts and phases, with one exact exception. */
module Termination {
  import opened Sums
  import opened JobConfigs
  import opened SupervisorSpec
  import opened SupervisorSafety
  import opened CleanRuns

  function Phase(p: Proc): nat {
    match p.state
    case Running => 1
    case Starting => 2
    case Stopping => if p.timer.Timer? && p.timer.running then 4 else 3
    case _ => 0
  }

  /** Each remaining restart is worth a start and a run. */
  function Fuel(p: Proc, c: JobConfig): nat {
    (if p.restarts <= c.startRetries then 2 * (c.startRetries - p.restarts) else 0) + Phase(p)
  }

  function FuelUnder(c: JobConfig): Proc -> nat {
    p => Fuel(p, c)
  }

  ghost function JobFuel(j: Job): nat {
    Sum(FuelUnder(j.config), j.procs)
  }

  /** A starting or running child dies by a signal while its job is STARTING: it is launched
      again at no charge. */
  predicate FreeRelaunch(j: Job, i: nat, e: ChildEvent)
    requires i < |j.procs|
  {
    e.KilledBySignal? && j.state.Starting? && !j.procs[i].state.Stopping?
  }

  /** An event changes one process only. */
  lemma EventIsLocal(j: Job, i: nat, e: ChildEvent, v: Verdict)
    requires i < |j.procs| && Possible(j.procs[i], e)
    ensures OnChild(j, i, e, v).procs == j.procs[i := OnChild(j, i, e, v).procs[i]]
  {
  }

  lemma EventFuel(j: Job, i: nat, e: ChildEvent, v: Verdict)
    requires JobOk(j) && i < |j.procs| && Possible(j.procs[i], e)
    ensures FreeRelaunch(j, i, e) <==>
              Fuel(OnChild(j, i, e, v).procs[i], j.config) >= Fuel(j.procs[i], j.config)
  {
    EventsNeedActiveJob(j, i, e);
    assert ProcOk(j.procs[i], j.config);
    match e
    case TimerFired => TimerFuel(j, i);
    case KilledBySignal => SignalFuel(j, i, v);
    case ExitedWith(code) => ExitFuel(j, i, code, v);
  }

  lemma TimerFuel(j: Job, i: nat)
    requires i < |j.procs| && ProcOk(j.procs[i], j.config) && Possible(j.procs[i], TimerFired)
    ensures Fuel(OnTimer(j, i).procs[i], j.config) < Fuel(j.procs[i], j.config)
  {
    ExpireKeepsOk(j.procs[i], j.config);
  }

  lemma SignalFuel(j: Job, i: nat, v: Verdict)
    requires i < |j.procs| && ProcOk(j.procs[i], j.config) && LiveState(j.procs[i].state)
    ensures var k := OnChild(j, i, KilledBySignal, v);
            FreeRelaunch(j, i, KilledBySignal) <==> Fuel(k.procs[i], j.config) >= Fuel(j.procs[i], j.config)
  {
  }

  /** An exit in a state other than STOPPING uses up a restart or ends in a dead state. */
  lemma OnExitFuel(j: Job, i: nat, code: int)
    requires i < |j.procs| && DeadState(j.procs[i].state) && j.procs[i].restarts <= j.config.startRetries
    ensures Fuel(OnExit(j, i, code).procs[i], j.config) <= Fuel(j.procs[i], j.config)
  {
  }

  lemma ExitFuel(j: Job, i: nat, code: int, v: Verdict)
    requires i < |j.procs| && ProcOk(j.procs[i], j.config) && LiveState(j.procs[i].state)
    ensures Fuel(OnChild(j, i, ExitedWith(code), v).procs[i], j.config) < Fuel(j.procs[i], j.config)
  {
    hide OnExit;
    var p := j.procs[i];
    var s: ProcState := match p.state
      case Stopping => ProcState.Stopped
      case Starting => ProcState.Backoff
      case _ => ProcState.Exited;
    var k := Put(j, i, Reap(p).(state := s));
    assert k == Put(Put(j, i, Reap(p)), i, Reap(p).(state := s));
    if !p.state.Stopping? {
      OnExitFuel(k, i, code);
    }
  }

  /** In any run, with no assumption about clean deaths: the measure falls on every event
      except the free relaunch, and there it does not fall. */
  lemma MeasureFallsExactlyUnless(j: Job, i: nat, e: ChildEvent, v: Verdict)
    requires JobOk(j) && i < |j.procs| && Possible(j.procs[i], e)
    ensures JobOk(OnChild(j, i, e, v))
    ensures JobFuel(OnChild(j, i, e, v)) < JobFuel(j) <==> !FreeRelaunch(j, i, e)
  {
    ChildEventKeepsOk(j, i, e, v);
    EventIsLocal(j, i, e, v);
    EventFuel(j, i, e, v);
    SumAt(FuelUnder(j.config), j.procs, i, OnChild(j, i, e, v).procs[i]);
  }

  datatype At = At(index: nat, what: ChildEvent)

  /** A job left alone: only its own children and timers act. */
  ghost predicate IsJobRun(states: seq<Job>, events: seq<At>, v: Verdict) {
    && |states| == |events| + 1
    && forall k :: 0 <= k < |events| ==>
         && events[k].index < |states[k].procs|
         && Possible(states[k].procs[events[k].index], events[k].what)
         && states[k + 1] == OnChild(states[k], events[k].index, events[k].what, v)
  }

  ghost predicate NoFreeRelaunch(states: seq<Job>, events: seq<At>, v: Verdict)
    requires IsJobRun(states, events, v)
  {
    forall k :: 0 <= k < |events| ==> !FreeRelaunch(states[k], events[k].index, events[k].what)
  }

  lemma {:induction false} RunsAreBounded(states: seq<Job>, events: seq<At>, v: Verdict, k: nat)
    requires IsJobRun(states, events, v) && NoFreeRelaunch(states, events, v)
    requires JobOk(states[0]) && k < |states|
    ensures JobOk(states[k]) && k + JobFuel(states[k]) <= JobFuel(states[0])
    decreases k
  {
    if k > 0 {
      RunsAreBounded(states, events, v, k - 1);
      MeasureFallsExactlyUnless(states[k - 1], events[k - 1].index, events[k - 1].what, v);
    }
  }

  lemma FreshFuel(c: JobConfig)
    requires WellFormed(c)
    ensures var j := StartJob(Job(c, JobState.Empty, []));
            JobOk(j) && JobFuel(j) == c.numprocs * (2 * c.startRetries + 2)
  {
    var j := StartJob(Job(c, JobState.Empty, []));
    StartKeepsJobOk(Job(c, JobState.Empty, []));
    var each := 2 * c.startRetries + 2;
    assert |j.procs| == c.numprocs;
    assert forall k :: 0 <= k < |j.procs| ==> FuelUnder(c)(j.procs[k]) == each;
    SumUniform(FuelUnder(c), j.procs, each);
  }

  /** A freshly started job of n processes handles at most n * (2 * retries + 2) events. */
  lemma FreshJobIsBounded(c: JobConfig, states: seq<Job>, events: seq<At>, v: Verdict)
    requires WellFormed(c) && IsJobRun(states, events, v) && NoFreeRelaunch(states, events, v)
    requires states[0] == StartJob(Job(c, JobState.Empty, []))
    ensures |events| <= c.numprocs * (2 * c.startRetries + 2)
  {
    hide JobFuel, StartJob, JobOk, NoFreeRelaunch;
    FreshFuel(c);
    RunsAreBounded(states, events, v, |events|);
  }

  /** The bound needs the exception: with it a single process outlives any bound. Here a
      started job is hit by n signal deaths in a row and is as it was but for its history. */
  function SignalDeaths(j: Job, n: nat): (r: Job)
    requires |j.procs| > 0 && JobOk(j) && j.state.Starting? && j.procs[0].state.Starting?
    ensures |r.procs| == |j.procs| && JobOk(r) && r.state.Starting? && r.procs[0].state.Starting?
    ensures JobFuel(r) == JobFuel(j) && r.procs[0].os.forks == j.procs[0].os.forks + n
  {
    if n == 0 then j
    else
      var k := SignalDeaths(j, n - 1);
      ChildEventKeepsOk(k, 0, KilledBySignal, KeepJob);
      EventIsLocal(k, 0, KilledBySignal, KeepJob);
      SumAt(FuelUnder(k.config), k.procs, 0, OnChild(k, 0, KilledBySignal, KeepJob).procs[0]);
      OnChild(k, 0, KilledBySignal, KeepJob)
  }

  // ------------------------------------------------------------------ restart

  ghost predicate SomeStopping(j: Job) {
    exists k :: 0 <= k < |j.procs| && j.procs[k].state.Stopping?
  }

  /** Process k of `now` is still the child that `then0` was stopping, or was launched since. */
  predicate OldOrRelaunched(then0: Proc, now: Proc) {
    && then0.os.forks <= now.os.forks
    && (then0.state.Stopping? && now.os.forks == then0.os.forks ==>
          now.state.Stopping? && now.os.child.Child? && now.os.child.signalled)
  }

  ghost predicate RestartProgress(start: Job, now: Job) {
    && JobOk(now) && |now.procs| == |start.procs|
    && (SomeStopping(now) ==> now.state.Starting?)
    && forall k :: 0 <= k < |start.procs| ==> OldOrRelaunched(start.procs[k], now.procs[k])
  }

  lemma RestartEventLocal(start: Job, j: Job, i: nat, e: ChildEvent, v: Verdict)
    requires RestartProgress(start, j) && i < |j.procs| && Possible(j.procs[i], e)
    requires CleanChild(j.procs[i], e)
    ensures OldOrRelaunched(start.procs[i], OnChild(j, i, e, v).procs[i])
    ensures OnChild(j, i, e, v).procs[i].state.Stopping? ==> j.procs[i].state.Stopping?
    ensures j.procs[i].state.Stopping? && !e.TimerFired? ==>
              && OnChild(j, i, e, v).procs[i].state.Starting?
              && OnChild(j, i, e, v).procs[i].os.forks == j.procs[i].os.forks + 1
  {
    EventsNeedActiveJob(j, i, e);
  }

  lemma RestartEventState(j: Job, i: nat, e: ChildEvent, v: Verdict)
    requires JobOk(j) && j.state.Starting? && i < |j.procs| && Possible(j.procs[i], e)
    requires CleanChild(j.procs[i], e) && SomeStopping(OnChild(j, i, e, v))
    ensures OnChild(j, i, e, v).state.Starting?
  {
    var r := OnChild(j, i, e, v);
    var k :| 0 <= k < |r.procs| && r.procs[k].state.Stopping?;
    EventIsLocal(j, i, e, v);
    assert k != i ==> r.procs[k] == j.procs[k];
  }

  lemma RestartEvent(start: Job, j: Job, i: nat, e: ChildEvent, v: Verdict)
    requires RestartProgress(start, j) && i < |j.procs| && Possible(j.procs[i], e)
    requires CleanChild(j.procs[i], e)
    ensures RestartProgress(start, OnChild(j, i, e, v))
  {
    var r := OnChild(j, i, e, v);
    ChildEventKeepsOk(j, i, e, v);
    EventIsLocal(j, i, e, v);
    RestartEventLocal(start, j, i, e, v);
    if SomeStopping(r) {
      var k :| 0 <= k < |r.procs| && r.procs[k].state.Stopping?;
      assert j.procs[k].state.Stopping?;
      RestartEventState(j, i, e, v);
    }
  }

  /** `restart` on a starting or running job signals every live child and launches the rest. */
  lemma RestartSignalsAll(j: Job, v: Verdict)
    requires JobOk(j) && Agree(j) && (j.state.Starting? || j.state.Running?)
    ensures StopJob(j, v).1
    ensures var r := StartJob(StopJob(j, v).0);
            && JobOk(r) && r.state.Starting? && |r.procs| == |j.procs|
            && RestartProgress(r, r)
            && (forall k :: 0 <= k < |j.procs| ==>
                  if LiveState(j.procs[k].state)
                  then r.procs[k].state.Stopping? && r.procs[k].os.child.signalled &&
                       r.procs[k].os.forks == j.procs[k].os.forks
                  else r.procs[k].state.Starting? &&
                       r.procs[k].os.forks == j.procs[k].os.forks + 1)
  {
    StopOfAgreeing(j, v);
    StopKeepsOk(j, v);
    var s := StopJob(j, v).0;
    StartKeepsJobOk(s);
    var r := StartJob(s);
    forall k | 0 <= k < |j.procs|
      ensures if LiveState(j.procs[k].state)
              then r.procs[k].state.Stopping? && r.procs[k].os.child.signalled &&
                   r.procs[k].os.forks == j.procs[k].os.forks
              else r.procs[k].state.Starting? &&
                   r.procs[k].os.forks == j.procs[k].os.forks + 1
      ensures OldOrRelaunched(r.procs[k], r.procs[k])
    {
      assert s.procs[k] == StoppedOne(j.procs[k], j.config);
      if j.procs[k].os.child.Child? {
        SignalKeepsOk(j.procs[k], j.config);
      } else {
        StartKeepsOk(s.procs[k].(restarts := 0, os := s.procs[k].os.(relaunches := 0)), j.config);
      }
    }
  }

  /** However the children then die, the job stays STARTING while an old child is dying, every
      old child is replaced by exactly one new one at its death, and the manager is not told. */
  lemma {:induction false} RestartCompletes(j: Job, states: seq<Job>, events: seq<At>, v: Verdict, k: nat)
    requires JobOk(j) && Agree(j) && (j.state.Starting? || j.state.Running?)
    requires IsJobRun(states, events, v) && states[0] == StartJob(StopJob(j, v).0)
    requires forall t :: 0 <= t < |events| ==>
               CleanChild(states[t].procs[events[t].index], events[t].what)
    requires k < |states|
    ensures RestartProgress(states[0], states[k])
    ensures k < |events| ==>
              var i := events[k].index;
              states[k].procs[i].state.Stopping? && !events[k].what.TimerFired? ==>
                && states[k + 1].procs[i].state.Starting?
                && states[k + 1].procs[i].os.forks == states[k].procs[i].os.forks + 1
    decreases k
  {
    if k == 0 {
      RestartSignalsAll(j, v);
    } else {
      RestartCompletes(j, states, events, v, k - 1);
      RestartEvent(states[0], states[k - 1], events[k - 1].index, events[k - 1].what, v);
    }
    if k < |events| {
      RestartEventLocal(states[0], states[k], events[k].index, events[k].what, v);
    }
  }
}
