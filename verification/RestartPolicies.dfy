/** What the restart policy and the start time mean for a job that is left alone: how often a
    process is launched, when it is given up, and when the job is RUNNING. */
module RestartPolicies {
  import opened Sums
  import opened JobConfigs
  import opened SupervisorSpec
  import opened SupervisorSafety
  import opened CleanRuns
  import opened Termination

  predicate WantsRelaunch(c: JobConfig, restarts: int, code: int) {
    restarts < c.startRetries &&
    (c.restartPolicy.Always? || (c.restartPolicy.OnFailure? && code !in c.exitCodes))
  }

  /** A dead process is one that exited, exited too soon, or was stopped. */
  predicate AllGone(j: Job) {
    forall k :: 0 <= k < |j.procs| ==>
      j.procs[k].state.Exited? || j.procs[k].state.Backoff? || j.procs[k].state.Stopped?
  }

  /** What becomes of process i, whose child just went, and of its job. An OnFailure job counts
      every exit while retries are left, also the expected one that is not launched again. */
  predicate Decided(j: Job, r: Job, i: nat, code: int)
    requires i < |j.procs|
  {
    && r.config == j.config && |r.procs| == |j.procs|
    && (forall k :: 0 <= k < |j.procs| && k != i ==> r.procs[k] == j.procs[k])
    && var p, q := j.procs[i], r.procs[i];
       if WantsRelaunch(j.config, p.restarts, code) then
         && r.state.Starting? && q.state.Starting? && q.os.child == Child(false, false)
         && q.timer == Timer(StartTime, j.config.startTime, true)
         && q.os.forks == p.os.forks + 1 && q.restarts == p.restarts + 1
       else
         && q.state == p.state && q.os == p.os && q.timer == p.timer
         && q.restarts == p.restarts +
              (if j.config.restartPolicy.OnFailure? && p.restarts < j.config.startRetries then 1 else 0)
         && r.state == if AllGone(r) then JobState.Stopped else j.state
  }

  lemma ExitDecides(j: Job, i: nat, code: int)
    requires i < |j.procs| && j.procs[i].restarts <= j.config.startRetries
    ensures Decided(j, OnExit(j, i, code), i, code)
  {
  }

  /** An exit nobody asked for launches the process again exactly when a retry is left and the
      policy wants it; otherwise it leaves BACKOFF or EXITED without a child, and a job without
      live processes is STOPPED. No other process is affected. */
  lemma RelaunchedExactlyWhen(j: Job, i: nat, code: int, v: Verdict)
    requires JobOk(j) && i < |j.procs| && Possible(j.procs[i], ExitedWith(code))
    requires !j.procs[i].state.Stopping?
    ensures var p, r := j.procs[i], OnChild(j, i, ExitedWith(code), v);
            && r.config == j.config && |r.procs| == |j.procs|
            && (forall k :: 0 <= k < |j.procs| && k != i ==> r.procs[k] == j.procs[k])
            && var q := r.procs[i];
               && q.os.reaps == p.os.reaps + 1
               && if WantsRelaunch(j.config, p.restarts, code) then
                    && r.state.Starting? && q.state.Starting? && q.os.child == Child(false, false)
                    && q.timer == Timer(StartTime, j.config.startTime, true)
                    && q.os.forks == p.os.forks + 1 && q.restarts == p.restarts + 1
                  else
                    && q.state == (if p.state.Starting? then ProcState.Backoff else ProcState.Exited)
                    && q.os.forks == p.os.forks && q.os.child.NoChild? && q.timer.NoTimer?
                    && q.restarts == p.restarts +
                         (if j.config.restartPolicy.OnFailure? && p.restarts < j.config.startRetries then 1 else 0)
                    && r.state == if AllGone(r) then JobState.Stopped else j.state
  {
    hide OnExit;
    EventsNeedActiveJob(j, i, ExitedWith(code));
    var p := j.procs[i];
    var s := if p.state.Starting? then ProcState.Backoff else ProcState.Exited;
    var k := Put(j, i, Reap(p).(state := s));
    assert k == Put(Put(j, i, Reap(p)), i, Reap(p).(state := s));
    ExitDecides(k, i, code);
    SameReaps(k, i, code);
  }

  lemma SameReaps(j: Job, i: nat, code: int)
    requires i < |j.procs|
    ensures OnExit(j, i, code).procs[i].os.reaps == j.procs[i].os.reaps
  {
  }

  // ------------------------------------------------------------------ launches

  /** A process of a job that was started and not stopped since. */
  predicate Launched(p: Proc, c: JobConfig) {
    && !p.state.Stopped? && !p.state.Stopping?
    && 1 <= p.os.forks <= p.restarts + 1
    && (c.restartPolicy.Never? ==> p.os.forks == 1)
    && (c.restartPolicy.Always? ==> p.os.forks == p.restarts + 1)
    && (c.restartPolicy.Always? && DeadState(p.state) ==> p.restarts == c.startRetries)
  }

  ghost predicate LeftAlone(j: Job) {
    && JobOk(j) && Agree(j) && !j.state.Stopping? && !Marked(j)
    && forall k :: 0 <= k < |j.procs| ==> Launched(j.procs[k], j.config)
  }

  lemma LaunchedStays(j: Job, i: nat, e: ChildEvent, v: Verdict)
    requires LeftAlone(j) && i < |j.procs| && Possible(j.procs[i], e) && CleanChild(j.procs[i], e)
    ensures Launched(OnChild(j, i, e, v).procs[i], j.config)
  {
    EventsNeedActiveJob(j, i, e);
    if e.ExitedWith? {
      RelaunchedExactlyWhen(j, i, e.code, v);
    }
  }

  lemma StaysLeftAlone(j: Job, i: nat, e: ChildEvent, v: Verdict)
    requires LeftAlone(j) && i < |j.procs| && Possible(j.procs[i], e) && CleanChild(j.procs[i], e)
    ensures LeftAlone(OnChild(j, i, e, v))
  {
    ChildEventKeepsOk(j, i, e, v);
    ChildEventAgrees(j, i, e, v);
    EventIsLocal(j, i, e, v);
    LaunchedStays(j, i, e, v);
    if e.ExitedWith? {
      RelaunchedExactlyWhen(j, i, e.code, v);
    }
  }

  ghost predicate IsCleanJobRun(states: seq<Job>, events: seq<At>, v: Verdict) {
    && IsJobRun(states, events, v)
    && forall t :: 0 <= t < |events| ==> CleanChild(states[t].procs[events[t].index], events[t].what)
  }

  lemma FreshIsLeftAlone(c: JobConfig)
    requires WellFormed(c)
    ensures LeftAlone(StartJob(Job(c, JobState.Empty, [])))
  {
    StartKeepsJobOk(Job(c, JobState.Empty, []));
    StartAgrees(Job(c, JobState.Empty, []));
    StartKeepsOk(NEW_PROC, c);
  }

  lemma {:induction false} RunLeavesAlone(c: JobConfig, states: seq<Job>, events: seq<At>, v: Verdict, k: nat)
    requires WellFormed(c) && IsCleanJobRun(states, events, v) && k < |states|
    requires states[0] == StartJob(Job(c, JobState.Empty, []))
    ensures LeftAlone(states[k]) && states[k].config == c && |states[k].procs| == c.numprocs
    decreases k
  {
    if k == 0 {
      FreshIsLeftAlone(c);
    } else {
      RunLeavesAlone(c, states, events, v, k - 1);
      StaysLeftAlone(states[k - 1], events[k - 1].index, events[k - 1].what, v);
    }
  }

  /** What the policies promise of a job that is started and left alone, after any number of its
      events. A process is launched at most once and `startRetries` times again; never again
      under NEVER; under ALWAYS it is given up only after all its launches. The job is STOPPED
      exactly when every process was given up. */
  lemma PoliciesKeepTheirPromise(c: JobConfig, states: seq<Job>, events: seq<At>, v: Verdict, k: nat, i: nat)
    requires WellFormed(c) && IsCleanJobRun(states, events, v) && k < |states| && i < c.numprocs
    requires states[0] == StartJob(Job(c, JobState.Empty, []))
    ensures i < |states[k].procs|
    ensures var p := states[k].procs[i];
            && 1 <= p.os.forks <= 1 + c.startRetries
            && (c.restartPolicy.Never? ==> p.os.forks == 1)
            && (c.restartPolicy.Always? && DeadState(p.state) ==> p.os.forks == 1 + c.startRetries)
    ensures states[k].state.Stopped? <==> AllDead(states[k])
  {
    RunLeavesAlone(c, states, events, v, k);
    assert ProcOk(states[k].procs[i], c);
  }

  // ------------------------------------------------------------------ starting up

  function Runs(p: Proc): nat {
    if p.state.Running? then 1 else 0
  }

  function StillStarts(p: Proc): nat {
    if p.state.Running? then 0 else 1
  }

  function One(p: Proc): nat {
    1
  }

  lemma AllAreCounted(ps: seq<Proc>)
    ensures Sum(Runs, ps) <= |ps|
    ensures Sum(Runs, ps) == |ps| <==> forall k :: 0 <= k < |ps| ==> ps[k].state.Running?
    ensures (forall k :: 0 <= k < |ps| ==> !ps[k].state.Running?) ==> Sum(Runs, ps) == 0
  {
    SumAdds(One, Runs, StillStarts, ps);
    SumUniform(One, ps, 1);
    SumZero(StillStarts, ps);
    SumZero(Runs, ps);
    assert forall k :: 0 <= k < |ps| ==> (StillStarts(ps[k]) == 0 <==> ps[k].state.Running?);
  }

  /** Every process is starting or running, and the job knows which. */
  ghost predicate StartingUp(j: Job) {
    && JobOk(j) && j.procs != []
    && (forall k :: 0 <= k < |j.procs| ==> j.procs[k].state.Starting? || j.procs[k].state.Running?)
    && j.state == if AllRunning(j) then JobState.Running else JobState.Starting
  }

  lemma StartTimerFires(j: Job, i: nat, v: Verdict)
    requires StartingUp(j) && i < |j.procs| && Possible(j.procs[i], TimerFired)
    ensures StartingUp(OnChild(j, i, TimerFired, v))
    ensures Sum(Runs, OnChild(j, i, TimerFired, v).procs) == Sum(Runs, j.procs) + 1
  {
    ChildEventKeepsOk(j, i, TimerFired, v);
    EventIsLocal(j, i, TimerFired, v);
    ExpireKeepsOk(j.procs[i], j.config);
    SumAt(Runs, j.procs, i, OnChild(j, i, TimerFired, v).procs[i]);
  }

  /** A job whose children outlive the start time becomes RUNNING with the last start timer: not
      before, and after as many timers as it has processes. */
  lemma {:induction false} RunningWithTheLastTimer(c: JobConfig, states: seq<Job>, events: seq<At>, v: Verdict, k: nat)
    requires WellFormed(c) && IsJobRun(states, events, v) && k < |states|
    requires states[0] == StartJob(Job(c, JobState.Empty, []))
    requires forall t :: 0 <= t < |events| ==> events[t].what.TimerFired?
    ensures StartingUp(states[k]) && |states[k].procs| == c.numprocs
    ensures k == Sum(Runs, states[k].procs) <= c.numprocs
    ensures states[k].state.Running? <==> k == c.numprocs
    decreases k
  {
    if k == 0 {
      StartKeepsJobOk(Job(c, JobState.Empty, []));
      AllAreCounted(states[0].procs);
      assert states[0].procs[0].state.Starting?;
    } else {
      RunningWithTheLastTimer(c, states, events, v, k - 1);
      StartTimerFires(states[k - 1], events[k - 1].index, v);
    }
    AllAreCounted(states[k].procs);
  }
}
