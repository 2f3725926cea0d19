/** Runs in which a starting or running child ends by exiting, and nobody restarts a stopped
    job whose configuration is out of date: there a job's state tells the truth about its
    processes, and stopping never throws. */
module CleanRuns {
  import opened Sums
  import opened Options
  import opened JobConfigs
  import opened SupervisorSpec
  import opened SupervisorSafety

  ghost predicate SomeLive(j: Job) {
    exists k :: 0 <= k < |j.procs| && LiveState(j.procs[k].state)
  }

  predicate NoneStopped(j: Job) {
    forall k :: 0 <= k < |j.procs| ==> !j.procs[k].state.Stopped?
  }

  predicate AllGoing(j: Job) {
    forall k :: 0 <= k < |j.procs| ==> j.procs[k].state.Running? || j.procs[k].state.Exited?
  }

  predicate AllGoingDown(j: Job) {
    forall k :: 0 <= k < |j.procs| ==> j.procs[k].state.Stopping? || j.procs[k].state.Stopped?
  }

  /** What a job's state says about its processes. */
  ghost predicate Agree(j: Job) {
    match j.state
    case Empty => j.procs == []
    case Starting => NoneStopped(j) && SomeLive(j)
    case Running => AllGoing(j) && SomeLive(j)
    case Stopping => AllGoingDown(j) && SomeLive(j)
    case Stopped => AllDead(j) && j.procs != []
    case _ => AllDead(j)
  }

  predicate Active(j: Job) {
    j.state.Starting? || j.state.Running? || j.state.Stopping?
  }

  predicate CleanChild(p: Proc, e: ChildEvent) {
    e.KilledBySignal? ==> p.state.Stopping?
  }

  // --------------------------------------------------------------- one child event

  lemma OnStopAgrees(j: Job, i: nat, v: Verdict)
    requires JobOk(j) && i < |j.procs| && j.procs[i].state.Stopped?
    requires j.state.Starting? || j.state.Stopping?
    requires forall k :: 0 <= k < |j.procs| && k != i ==>
               if j.state.Starting? then !j.procs[k].state.Stopped?
               else j.procs[k].state.Stopping? || j.procs[k].state.Stopped?
    ensures Agree(OnStop(j, i, v))
  {
    if j.state.Starting? {
      StartKeepsOk(j.procs[i], j.config);
      assert LiveState(Launch(j, i).procs[i].state);
    } else if !AllStopped(j) {
      var k :| 0 <= k < |j.procs| && !j.procs[k].state.Stopped?;
      assert LiveState(j.procs[k].state);
    }
  }

  lemma RelaunchAgrees(j: Job, i: nat)
    requires JobOk(j) && i < |j.procs| && DeadState(j.procs[i].state) && NoneStopped(j)
    requires j.procs[i].restarts < j.config.startRetries
    ensures Agree(Relaunch(CountRestart(j, i), i))
  {
    assert LiveState(Relaunch(CountRestart(j, i), i).procs[i].state);
  }

  lemma SettleAgrees(j: Job)
    requires JobOk(j) && j.procs != []
    requires (j.state.Starting? && NoneStopped(j)) || (j.state.Running? && AllGoing(j))
    ensures Agree(Settle(j))
  {
    if !AllDead(j) {
      var k :| 0 <= k < |j.procs| && !DeadState(j.procs[k].state);
      assert LiveState(j.procs[k].state);
    }
  }

  lemma OnExitAgrees(j: Job, i: nat, code: int)
    requires JobOk(j) && i < |j.procs| && DeadState(j.procs[i].state)
    requires (j.state.Starting? && NoneStopped(j)) || (j.state.Running? && AllGoing(j))
    ensures Agree(OnExit(j, i, code))
  {
    if j.procs[i].restarts == j.config.startRetries || j.config.restartPolicy.Never? {
      SettleAgrees(j);
    } else if j.config.restartPolicy.OnFailure? && code in j.config.exitCodes {
      SettleAgrees(CountRestart(j, i));
    } else {
      RelaunchAgrees(j, i);
    }
  }

  lemma TimerAgrees(j: Job, i: nat)
    requires JobOk(j) && Agree(j) && i < |j.procs| && Possible(j.procs[i], TimerFired)
    ensures Agree(OnTimer(j, i))
  {
    EventsNeedActiveJob(j, i, TimerFired);
    ExpireKeepsOk(j.procs[i], j.config);
    assert LiveState(OnTimer(j, i).procs[i].state);
  }

  lemma ChildEventAgrees(j: Job, i: nat, e: ChildEvent, v: Verdict)
    requires JobOk(j) && Agree(j) && i < |j.procs|
    requires Possible(j.procs[i], e) && CleanChild(j.procs[i], e)
    ensures Agree(OnChild(j, i, e, v))
  {
    EventsNeedActiveJob(j, i, e);
    var p := j.procs[i];
    if e.TimerFired? {
      TimerAgrees(j, i);
      return;
    }
    var s: ProcState := match p.state
      case Stopping => ProcState.Stopped
      case Starting => ProcState.Backoff
      case _ => ProcState.Exited;
    ReapKeepsOk(p, j.config, s);
    var k := Put(j, i, Reap(p).(state := s));
    assert k == Put(Put(j, i, Reap(p)), i, Reap(p).(state := s));
    if p.state.Stopping? {
      OnStopAgrees(k, i, v);
    } else {
      OnExitAgrees(k, i, e.code);
    }
  }

  // ------------------------------------------------------------------------- stop

  /** The process after its job's stop reached it. */
  function StoppedOne(p: Proc, c: JobConfig): Proc {
    if p.state.Backoff? || p.state.Exited? then p.(state := ProcState.Stopped)
    else if p.os.child.Child? then SignalProcess(p, c)
    else p
  }

  function StoppedTail(j: Job, i: nat): Job {
    j.(procs := seq(|j.procs|, k requires 0 <= k < |j.procs| =>
                      if k < i then j.procs[k] else StoppedOne(j.procs[k], j.config)))
  }

  /** Every process is dealt with once, in place, as long as one of them stays alive. */
  lemma {:induction false} StopFromIsPointwise(j: Job, i: nat, l: nat, v: Verdict)
    requires JobOk(j) && j.state.Stopping? && i <= |j.procs|
    requires forall k :: i <= k < |j.procs| ==> !j.procs[k].state.Stopped?
    requires l < |j.procs| && LiveState(j.procs[l].state)
    ensures StopFrom(j, i, v) == (StoppedTail(j, i), true)
    decreases |j.procs| - i
  {
    if i == |j.procs| {
      assert StoppedTail(j, i).procs == j.procs;
    } else {
      var s := StopOne(j, i, v);
      if j.procs[i].os.child.Child? {
        SignalKeepsOk(j.procs[i], j.config);
      } else {
        assert !Put(j, i, j.procs[i].(state := ProcState.Stopped)).procs[l].state.Stopped?;
      }
      assert s == (Put(j, i, StoppedOne(j.procs[i], j.config)), true);
      StopOneKeepsOk(j, i, v);
      StopFromIsPointwise(s.0, i + 1, l, v);
      assert StoppedTail(s.0, i + 1).procs == StoppedTail(j, i).procs;
    }
  }

  /** The exact condition under which stopping a job throws, in any run. */
  lemma {:induction false} StopFromThrows(j: Job, i: nat, v: Verdict)
    requires JobOk(j) && i <= |j.procs|
    requires j.state.Stopping? || (AllStopped(j) && !j.state.Starting?)
    ensures StopFrom(j, i, v).1 <==> (forall k :: i <= k < |j.procs| ==> !j.procs[k].state.Stopped?)
    decreases |j.procs| - i
  {
    if i < |j.procs| {
      var s := StopOne(j, i, v);
      StopOneKeepsOk(j, i, v);
      assert forall k :: i < k < |j.procs| ==> s.0.procs[k] == j.procs[k];
      if s.1 {
        StopFromThrows(s.0, i + 1, v);
      }
    }
  }

  lemma StopThrowsExactlyWhen(j: Job, v: Verdict)
    requires JobOk(j)
    ensures !StopJob(j, v).1 <==>
              (!j.state.Stopping? && !j.state.Empty? && !j.state.Stopped? && !NoneStopped(j))
  {
    if !j.state.Stopping? && !j.state.Empty? && !j.state.Stopped? {
      StopFromThrows(j.(state := JobState.Stopping), 0, v);
    }
  }

  /** With a live child, and no process that is STOPPED, a stop signals every live child once and
      throws nothing. */
  lemma StopOfLive(j: Job, v: Verdict)
    requires JobOk(j) && (j.state.Starting? || j.state.Running?) && NoneStopped(j) && SomeLive(j)
    ensures StopJob(j, v) == (StoppedTail(j, 0).(state := JobState.Stopping), true)
    ensures Agree(StopJob(j, v).0)
  {
    var l :| 0 <= l < |j.procs| && LiveState(j.procs[l].state);
    StopFromIsPointwise(j.(state := JobState.Stopping), 0, l, v);
    var r := StopJob(j, v).0;
    forall k | 0 <= k < |j.procs|
      ensures r.procs[k].state.Stopping? || r.procs[k].state.Stopped?
      ensures LiveState(j.procs[k].state) ==> r.procs[k].state.Stopping?
    {
      if j.procs[k].os.child.Child? {
        SignalKeepsOk(j.procs[k], j.config);
      }
    }
    assert LiveState(r.procs[l].state);
  }

  /** With none, the last process to settle hands the job to the manager at once. */
  lemma {:induction false} StopFromAllDead(j: Job, i: nat, v: Verdict)
    requires JobOk(j) && j.state.Stopping? && i < |j.procs|
    requires forall k :: 0 <= k < i ==> j.procs[k].state.Stopped?
    requires forall k :: i <= k < |j.procs| ==> DeadState(j.procs[k].state) && !j.procs[k].state.Stopped?
    ensures StopFrom(j, i, v) == (Mark(StoppedTail(j, i).(state := JobState.Stopped), v), true)
    decreases |j.procs| - i
  {
    var k := Put(j, i, j.procs[i].(state := ProcState.Stopped));
    assert StopOne(j, i, v) == (OnStop(k, i, v), true);
    if i + 1 < |j.procs| {
      assert !k.procs[i + 1].state.Stopped?;
      StopFromAllDead(k, i + 1, v);
      assert StoppedTail(k, i + 1).procs == StoppedTail(j, i).procs;
    } else {
      assert StoppedTail(j, i).procs == k.procs;
      assert AllStopped(k);
    }
  }

  /** Stopping a job that is starting or running signals every live child, once, and throws
      nothing; a job with no live child is handed to the manager at once. */
  lemma StopOfAgreeing(j: Job, v: Verdict)
    requires JobOk(j) && Agree(j) && !Marked(j)
    ensures StopJob(j, v).1 && Agree(StopJob(j, v).0)
    ensures j.state.Starting? || j.state.Running? ==>
              StopJob(j, v).0 == StoppedTail(j, 0).(state := JobState.Stopping)
  {
    if j.state.Starting? || j.state.Running? {
      StopOfLive(j, v);
    }
  }

  /** The processes when a stop threw at the w-th, the first that was STOPPED. */
  function LeftOff(j: Job, i: nat, w: nat): seq<Proc> {
    seq(|j.procs|, k requires 0 <= k < |j.procs| =>
          if i <= k < w then StoppedOne(j.procs[k], j.config) else j.procs[k])
  }

  lemma {:induction false} StopFromLeavesOff(j: Job, i: nat, w: nat, v: Verdict)
    requires JobOk(j) && j.state.Stopping? && i <= w < |j.procs| && j.procs[w].state.Stopped?
    requires forall k :: i <= k < w ==> !j.procs[k].state.Stopped?
    ensures var r := j.(procs := LeftOff(j, i, w));
            StopFrom(j, i, v) ==
              (if i < w && AllStopped(r) then Mark(r.(state := JobState.Stopped), v) else r, false)
    decreases w - i
  {
    if i == w {
      assert LeftOff(j, i, w) == j.procs;
    } else {
      var p := StoppedOne(j.procs[i], j.config);
      var k := Put(j, i, p);
      assert LeftOff(k, i + 1, w) == LeftOff(j, i, w);
      if j.procs[i].os.child.Child? {
        SignalKeepsOk(j.procs[i], j.config);
        assert StopOne(j, i, v) == (k, true);
        assert !LeftOff(j, i, w)[i].state.Stopped?;
      } else {
        assert StopOne(j, i, v) == (OnStop(k, i, v), true);
      }
      if i + 1 < w {
        assert !k.procs[i + 1].state.Stopped?;
      }
      if i + 1 == w && AllStopped(k) {
        assert LeftOff(k, w, w) == k.procs;
      } else {
        StopOneKeepsOk(j, i, v);
        StopFromLeavesOff(k, i + 1, w, v);
      }
    }
  }

  /** What a stop that throws leaves behind. The processes before the first STOPPED one were
      signalled or settled; that one and all behind it are as they were, running on unsignalled.
      The job is STOPPING, unless every process is now STOPPED and the last one to settle said
      so; and while it is STOPPING a further stop does nothing. */
  lemma StopLeavesOff(j: Job, w: nat, v: Verdict, again: Verdict)
    requires JobOk(j) && (j.state.Starting? || j.state.Running?)
    requires w < |j.procs| && j.procs[w].state.Stopped? && forall k :: 0 <= k < w ==> !j.procs[k].state.Stopped?
    ensures var r := StopJob(j, v).0;
            && !StopJob(j, v).1 && |r.procs| == |j.procs|
            && (forall k :: 0 <= k < w ==> r.procs[k] == StoppedOne(j.procs[k], j.config))
            && (forall k :: w <= k < |j.procs| ==> r.procs[k] == j.procs[k])
            && (if w > 0 && AllStopped(r) then r == Mark(r.(state := JobState.Stopped), v)
                else r.state.Stopping? && StopJob(r, again) == (r, true))
  {
    StopFromLeavesOff(j.(state := JobState.Stopping), 0, w, v);
  }

  /** A loop over the table throws exactly when the stop of one of its jobs does. */
  lemma {:induction false} StopInOrderThrows(m: Manager, order: seq<string>, all: bool)
    requires Distinct(order) && forall n :: n in order ==> n in m.jobs
    ensures StopInOrder(m, order, all).1 <==>
              forall n :: n in order && (all || VerdictOf(m, n) != KeepJob) ==>
                StopJob(m.jobs[n], VerdictOf(m, n)).1
    decreases |order|
  {
    if order != [] {
      var o, tail := order[0], order[1..];
      assert order == [o] + tail && o !in tail;
      var s := StopNamed(m, o, all);
      if s.1 {
        assert forall n :: n in tail ==> s.0.jobs[n] == m.jobs[n];
        StopInOrderThrows(s.0, tail, all);
      }
    }
  }

  /** Starting or running with a process that is not: one of its children died by a signal. */
  predicate Wounded(j: Job) {
    (j.state.Starting? || j.state.Running?) && !NoneStopped(j)
  }

  /** The exact condition for `kill()` to throw, in any run: there is such a job. */
  lemma KillThrowsExactlyWhen(m: Manager, order: seq<string>)
    requires Safe(m) && IsOrder(order, m.jobs.Keys)
    ensures StopInOrder(m, order, true).1 <==> forall n :: n in m.jobs ==> !Wounded(m.jobs[n])
  {
    StopInOrderThrows(m, order, true);
    forall n | n in m.jobs
      ensures StopJob(m.jobs[n], VerdictOf(m, n)).1 <==> !Wounded(m.jobs[n])
    {
      StopThrowsExactlyWhen(m.jobs[n], VerdictOf(m, n));
    }
  }

  /** And for a reload: there is such a job among those that are changed or dropped. */
  lemma ReloadThrowsExactlyWhen(m: Manager, c: ConfigMap, order: seq<string>)
    requires Safe(m) && IsOrder(order, m.jobs.Keys)
    ensures Reloaded(m, Some(c), order).1 <==>
              forall n :: n in m.jobs && VerdictFor(c, n, m.jobs[n].config) != KeepJob ==> !Wounded(m.jobs[n])
  {
    var m0 := m.(config := c);
    StopInOrderThrows(m0, order, false);
    forall n | n in m.jobs
      ensures StopJob(m.jobs[n], VerdictOf(m0, n)).1 <==> !Wounded(m.jobs[n])
    {
      StopThrowsExactlyWhen(m.jobs[n], VerdictOf(m0, n));
    }
  }

  /** A child of a running job that dies by a signal is such a wound: the next stop throws. */
  lemma SignalDeathWounds(j: Job, i: nat, v: Verdict, w: Verdict)
    requires JobOk(j) && j.state.Running? && i < |j.procs| && Possible(j.procs[i], KilledBySignal)
    ensures Wounded(OnChild(j, i, KilledBySignal, v)) && !StopJob(OnChild(j, i, KilledBySignal, v), w).1
  {
    ChildEventKeepsOk(j, i, KilledBySignal, v);
    var r := OnChild(j, i, KilledBySignal, v);
    assert r.procs[i].state.Stopped?;
    StopThrowsExactlyWhen(r, w);
  }

  // ------------------------------------------------------------------------ start

  lemma StartAgrees(j: Job)
    requires JobOk(j) && Agree(j) && !Marked(j)
    ensures Agree(StartJob(j))
  {
    var r := StartJob(j);
    StartKeepsJobOk(j);
    if j.state.Stopping? || j.state.Stopped? {
      forall k | 0 <= k < |j.procs|
        ensures LiveState(r.procs[k].state)
      {
        RestartProcessKeepsOk(j.procs[k], j.config);
      }
      assert LiveState(r.procs[0].state);
    } else if j.state.Empty? {
      StartKeepsOk(NEW_PROC, j.config);
      assert LiveState(r.procs[0].state);
    }
  }

  // ---------------------------------------------------------------------- manager

  ghost predicate AllAgree(m: Manager) {
    forall n :: n in m.jobs ==> Agree(m.jobs[n])
  }

  /** The state of a clean run between two events. */
  ghost predicate CleanState(m: Manager) {
    Safe(m) && AllAgree(m) && m.config.Keys <= m.jobs.Keys
  }

  /** A restart is clean unless the job is both out of date and without children: then the
      stop half marks it and the start half overwrites the mark. */
  predicate CleanRestart(m: Manager, name: string)
    requires name in m.jobs
  {
    Active(m.jobs[name]) || VerdictOf(m, name) == KeepJob
  }

  predicate CleanEvent(m: Manager, e: Event)
    requires Enabled(m, e)
  {
    match e
    case ChildDid(name, i, what) => CleanChild(m.jobs[name].procs[i], what)
    case RestartCommand(name) => name in m.jobs ==> CleanRestart(m, name)
    case _ => true
  }

  /** The jobs of `names`, all of them or only the stale ones, stopped independently. */
  function StoppedAmong(m: Manager, names: set<string>, all: bool): Manager {
    Manager(map n | n in m.jobs ::
              (if n in names && (all || VerdictOf(m, n) != KeepJob)
               then StopJob(m.jobs[n], VerdictOf(m, n)).0 else m.jobs[n]),
            m.config)
  }

  predicate Stoppable(m: Manager, order: seq<string>) {
    forall n :: n in order ==> n in m.jobs && StopJob(m.jobs[n], VerdictOf(m, n)).1
  }

  lemma StoppedAmongStep(m: Manager, o: string, rest: set<string>, all: bool)
    requires o in m.jobs && o !in rest
    ensures StoppedAmong(StopNamed(m, o, all).0, rest, all) == StoppedAmong(m, {o} + rest, all)
  {
    var a := StoppedAmong(StopNamed(m, o, all).0, rest, all);
    var b := StoppedAmong(m, {o} + rest, all);
    forall n | n in m.jobs
      ensures a.jobs[n] == b.jobs[n]
    {
      if n == o {
        assert n !in rest;
      }
    }
    assert a.jobs.Keys == b.jobs.Keys;
    assert a.jobs == b.jobs;
  }

  lemma StopNamedKeepsStoppable(m: Manager, o: string, rest: seq<string>, all: bool)
    requires o in m.jobs && StopJob(m.jobs[o], VerdictOf(m, o)).1 && Stoppable(m, rest) && o !in rest
    ensures StopNamed(m, o, all).1 && Stoppable(StopNamed(m, o, all).0, rest)
  {
    assert forall n :: n in rest ==> StopNamed(m, o, all).0.jobs[n] == m.jobs[n];
  }

  /** When no stop throws, the order of the table does not matter. */
  lemma {:induction false} StopInAnyOrder(m: Manager, order: seq<string>, all: bool)
    requires Stoppable(m, order)
    requires forall i, j :: 0 <= i < j < |order| ==> order[i] != order[j]
    ensures StopInOrder(m, order, all) == (StoppedAmong(m, (set n | n in order), all), true)
    decreases |order|
  {
    if order == [] {
      assert (set n | n in order) == {};
      assert StoppedAmong(m, {}, all).jobs == m.jobs;
    } else {
      var o, tail := order[0], order[1..];
      var rest := set n | n in tail;
      assert (set n | n in order) == {o} + rest by {
        assert order == [o] + tail;
      }
      assert o !in tail;
      StopNamedKeepsStoppable(m, o, tail, all);
      StoppedAmongStep(m, o, rest, all);
      StopInAnyOrder(StopNamed(m, o, all).0, tail, all);
    }
  }

  /** What a reload of a clean daemon does, without mentioning the table's order. */
  function CleanReload(m: Manager, c: ConfigMap): Manager {
    StartedAll(Updated(CreatedMissing(StoppedAmong(m.(config := c), m.jobs.Keys, false))))
  }

  lemma StoppedAmongAgrees(m: Manager, all: bool)
    requires ManagerOk(m) && NoMarks(m) && AllAgree(m)
    ensures AllAgree(StoppedAmong(m, m.jobs.Keys, all))
  {
    forall n | n in m.jobs && (all || VerdictOf(m, n) != KeepJob)
      ensures Agree(StopJob(m.jobs[n], VerdictOf(m, n)).0)
    {
      StopOfAgreeing(m.jobs[n], VerdictOf(m, n));
    }
  }

  lemma StopLoopIsClean(m: Manager, order: seq<string>, all: bool)
    requires ManagerOk(m) && NoMarks(m) && AllAgree(m) && IsOrder(order, m.jobs.Keys)
    ensures StopInOrder(m, order, all) == (StoppedAmong(m, m.jobs.Keys, all), true)
    ensures ManagerOk(StoppedAmong(m, m.jobs.Keys, all)) && AllAgree(StoppedAmong(m, m.jobs.Keys, all))
  {
    forall n | n in m.jobs
      ensures StopJob(m.jobs[n], VerdictOf(m, n)).1
    {
      StopOfAgreeing(m.jobs[n], VerdictOf(m, n));
    }
    StopInAnyOrder(m, order, all);
    StopInOrderOk(m, order, all);
    assert (set n | n in order) == m.jobs.Keys;
    StoppedAmongAgrees(m, all);
  }

  lemma ReloadIsClean(m: Manager, c: ConfigMap, order: seq<string>)
    requires Safe(m) && AllAgree(m) && ConfigOk(c) && IsOrder(order, m.jobs.Keys)
    ensures Reloaded(m, Some(c), order) == (CleanReload(m, c), true)
    ensures var s := StoppedAmong(m.(config := c), m.jobs.Keys, false);
            ManagerOk(s) && AllAgree(s)
  {
    StopLoopIsClean(m.(config := c), order, false);
  }

  lemma CreatedJobAgrees(c: JobConfig)
    requires WellFormed(c)
    ensures Agree(CreatedJob(c))
  {
    StartAgrees(Job(c, JobState.Empty, []));
  }

  lemma CreatedMissingAgrees(m: Manager)
    requires ManagerOk(m) && AllAgree(m)
    ensures AllAgree(CreatedMissing(m)) && m.config.Keys <= CreatedMissing(m).jobs.Keys
  {
    forall n | n in m.config
      ensures Agree(CreatedJob(m.config[n]))
    {
      CreatedJobAgrees(m.config[n]);
    }
  }

  lemma UpdatedAgrees(m: Manager)
    requires ManagerOk(m) && AllAgree(m)
    ensures AllAgree(Updated(m))
    ensures m.config.Keys <= m.jobs.Keys ==> m.config.Keys <= Updated(m).jobs.Keys
  {
    forall n | n in m.config
      ensures Agree(CreatedJob(m.config[n]))
    {
      CreatedJobAgrees(m.config[n]);
    }
  }

  lemma StartedAllAgrees(m: Manager)
    requires Safe(m) && AllAgree(m)
    ensures AllAgree(StartedAll(m)) && StartedAll(m).jobs.Keys == m.jobs.Keys
  {
    forall n | n in m.jobs
      ensures Agree(StartJob(m.jobs[n]))
    {
      StartAgrees(m.jobs[n]);
    }
  }

  lemma CleanReloadAgrees(m: Manager, c: ConfigMap, order: seq<string>)
    requires Safe(m) && AllAgree(m) && ConfigOk(c) && IsOrder(order, m.jobs.Keys)
    ensures AllAgree(CleanReload(m, c)) && c.Keys <= CleanReload(m, c).jobs.Keys
  {
    ReloadIsClean(m, c, order);
    var s := StoppedAmong(m.(config := c), m.jobs.Keys, false);
    CreatedMissingOk(s);
    CreatedMissingAgrees(s);
    UpdatedOk(CreatedMissing(s));
    UpdatedAgrees(CreatedMissing(s));
    StartedAllAgrees(Updated(CreatedMissing(s)));
  }

  lemma RestartAgrees(m: Manager, name: string)
    requires CleanState(m) && name in m.jobs && CleanRestart(m, name)
    ensures Agree(Restarted(m, name).jobs[name])
  {
    var j, v := m.jobs[name], VerdictOf(m, name);
    StopOfAgreeing(j, v);
    StopKeepsOk(j, v);
    StartAgrees(StopJob(j, v).0);
  }

  /** The condition of a clean restart is exact: otherwise the job ends up STARTING with no
      child at all, and the pending removal or replacement is forgotten. */
  lemma RestartAgreesExactlyWhen(m: Manager, name: string)
    requires CleanState(m) && name in m.jobs
    ensures Agree(Restarted(m, name).jobs[name]) <==> CleanRestart(m, name)
    ensures !CleanRestart(m, name) ==>
              && Restarted(m, name).jobs[name].state.Starting?
              && !SomeLive(Restarted(m, name).jobs[name])
              && Updated(Restarted(m, name)).jobs[name] == Restarted(m, name).jobs[name]
  {
    if CleanRestart(m, name) {
      RestartAgrees(m, name);
    } else {
      var r := Restarted(m, name).jobs[name];
      assert r.state.Starting? && r.procs == m.jobs[name].procs;
    }
  }

  lemma CleanHandled(m: Manager, e: Event)
    requires CleanState(m) && Enabled(m, e) && LoadsOk(e) && CleanEvent(m, e)
    ensures AllAgree(Handled(m, e)) && Handled(m, e).config.Keys <= Handled(m, e).jobs.Keys
  {
    match e
    case ChildDid(name, i, what) =>
      ChildEventAgrees(m.jobs[name], i, what, VerdictOf(m, name));
    case StartCommand(name) =>
      if name in m.jobs {
        StartAgrees(m.jobs[name]);
      }
    case StopCommand(name) =>
      if name in m.jobs {
        StopOfAgreeing(m.jobs[name], VerdictOf(m, name));
      }
    case RestartCommand(name) =>
      if name in m.jobs {
        RestartAgrees(m, name);
      }
    case ReloadCommand(loaded, order) =>
      if loaded.Some? {
        ReloadIsClean(m, loaded.value, order);
        CleanReloadAgrees(m, loaded.value, order);
      }
  }

  lemma CleanStep(m: Manager, e: Event)
    requires CleanState(m) && Enabled(m, e) && LoadsOk(e) && CleanEvent(m, e)
    ensures CleanState(Step(m, e))
  {
    HandledOk(m, e);
    CleanHandled(m, e);
    UpdatedOk(Handled(m, e));
    UpdatedAgrees(Handled(m, e));
  }

  lemma BootClean(config: ConfigMap)
    requires ConfigOk(config)
    ensures CleanState(StartedAll(Initial(config)))
  {
    BootSafe(config);
    StartedAllAgrees(Initial(config));
  }

  ghost predicate IsCleanRun(states: seq<Manager>, events: seq<Event>) {
    && IsRun(states, events)
    && forall k :: 0 <= k < |events| ==> LoadsOk(events[k]) && CleanEvent(states[k], events[k])
  }

  /** In a clean run every job's state agrees with its processes, so no stop ever throws. */
  lemma {:induction false} EveryCleanRunAgrees(config: ConfigMap, states: seq<Manager>, events: seq<Event>, k: nat)
    requires ConfigOk(config) && IsCleanRun(states, events) && states[0] == StartedAll(Initial(config))
    requires k < |states|
    ensures CleanState(states[k])
    ensures forall n :: n in states[k].jobs ==>
              StopJob(states[k].jobs[n], VerdictOf(states[k], n)).1
    decreases k
  {
    if k == 0 {
      BootClean(config);
    } else {
      EveryCleanRunAgrees(config, states, events, k - 1);
      CleanStep(states[k - 1], events[k - 1]);
    }
    forall n | n in states[k].jobs
      ensures StopJob(states[k].jobs[n], VerdictOf(states[k], n)).1
    {
      StopOfAgreeing(states[k].jobs[n], VerdictOf(states[k], n));
    }
  }
}
