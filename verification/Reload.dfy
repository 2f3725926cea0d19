/** What becomes of a configuration reload once the children it stopped have died. */
module Reload {
  import opened Sums
  import opened Options
  import opened JobConfigs
  import opened SupervisorSpec
  import opened SupervisorSafety
  import opened CleanRuns

  /** The table holds exactly the configured jobs, each with the current configuration. */
  predicate Converged(m: Manager) {
    && m.jobs.Keys == m.config.Keys
    && forall n :: n in m.jobs ==> VerdictOf(m, n) == KeepJob
  }

  /** A job the new configuration changed or dropped, with live children, that asks for
      autostart itself: the reload stops it and then starts it again as it was. */
  predicate Resurrected(m: Manager, c: ConfigMap, n: string)
    requires n in m.jobs
  {
    VerdictFor(c, n, m.jobs[n].config) != KeepJob && Active(m.jobs[n]) && m.jobs[n].config.autostart
  }

  predicate AnyResurrected(m: Manager, c: ConfigMap) {
    exists n :: n in m.jobs && Resurrected(m, c, n)
  }

  /** Every out-of-date job is on its way out. */
  ghost predicate Converging(m: Manager) {
    && CleanState(m)
    && forall n :: n in m.jobs && VerdictOf(m, n) != KeepJob ==> m.jobs[n].state.Stopping?
  }

  function Stops(p: Proc): nat {
    if p.state.Stopping? then 1 else 0
  }

  /** The dying children of one job, if it is out of date. */
  function PendingIn(m: Manager): string -> nat {
    n => if n in m.jobs && VerdictOf(m, n) != KeepJob then Sum(Stops, m.jobs[n].procs) else 0
  }

  /** The dying children of out-of-date jobs among `names`. */
  function Pending(m: Manager, names: seq<string>): nat {
    Sum(PendingIn(m), names)
  }

  /** Nothing pending is the same as having converged. */
  lemma ConvergedExactlyWhen(m: Manager, names: seq<string>)
    requires Converging(m)
    requires forall n :: n in m.jobs && VerdictOf(m, n) != KeepJob ==> n in names
    ensures Pending(m, names) == 0 <==> Converged(m)
  {
    SumZero(PendingIn(m), names);
    assert forall n :: n in names ==> exists k :: 0 <= k < |names| && names[k] == n;
    forall n | n in m.jobs && VerdictOf(m, n) != KeepJob
      ensures PendingIn(m)(n) > 0
    {
      StaleIsPending(m, n);
    }
  }

  lemma StaleIsPending(m: Manager, n: string)
    requires Converging(m) && n in m.jobs && VerdictOf(m, n) != KeepJob
    ensures PendingIn(m)(n) > 0
  {
    var i :| 0 <= i < |m.jobs[n].procs| && LiveState(m.jobs[n].procs[i].state);
    SumZero(Stops, m.jobs[n].procs);
  }

  // ------------------------------------------------------------------- one event

  /** A child's event is a step on its own job only; a mark it causes is acted on at once. */
  lemma ChildStep(m: Manager, n: string, i: nat, e: ChildEvent)
    requires Safe(m) && Enabled(m, ChildDid(n, i, e))
    ensures var j := OnChild(m.jobs[n], i, e, VerdictOf(m, n));
            var r := Step(m, ChildDid(n, i, e));
            && r.config == m.config
            && (forall o :: o in m.jobs && o != n ==> o in r.jobs && r.jobs[o] == m.jobs[o])
            && (forall o :: o in r.jobs && o != n ==> o in m.jobs)
            && (n in r.jobs <==> !j.state.Remove?)
            && (n in r.jobs ==>
                  r.jobs[n] == if j.state.Replace? && n in m.config then CreatedJob(m.config[n]) else j)
  {
  }

  /** In a stopping job an exit takes one child off the count, a timer none. */
  lemma StoppingJobEvent(j: Job, i: nat, e: ChildEvent, v: Verdict)
    requires JobOk(j) && Agree(j) && j.state.Stopping? && i < |j.procs| && Possible(j.procs[i], e)
    ensures var r := OnChild(j, i, e, v);
            && (r.state.Stopping? || r == Mark(r.(state := JobState.Stopped), v))
            && Sum(Stops, r.procs) == Sum(Stops, j.procs) - (if e.TimerFired? then 0 else 1)
            && (!r.state.Stopping? ==> Sum(Stops, r.procs) == 0)
  {
    EventsNeedActiveJob(j, i, e);
    var r := OnChild(j, i, e, v);
    assert r.procs == j.procs[i := r.procs[i]];
    SumAt(Stops, j.procs, i, r.procs[i]);
    if !r.state.Stopping? {
      assert AllStopped(r);
      SumZero(Stops, r.procs);
    }
  }

  lemma StaleNameStep(m: Manager, n: string, i: nat, e: ChildEvent)
    requires Converging(m) && Enabled(m, ChildDid(n, i, e)) && CleanEvent(m, ChildDid(n, i, e))
    requires VerdictOf(m, n) != KeepJob
    ensures var r := Step(m, ChildDid(n, i, e));
            && (n in r.jobs && VerdictOf(r, n) != KeepJob ==> r.jobs[n].state.Stopping?)
            && PendingIn(r)(n) == PendingIn(m)(n) - (if e.TimerFired? then 0 else 1)
  {
    ChildStep(m, n, i, e);
    StoppingJobEvent(m.jobs[n], i, e, VerdictOf(m, n));
    HandledOk(m, ChildDid(n, i, e));
    if n in m.config {
      CreatedJobOk(m.config[n]);
    }
  }

  lemma FreshNameStep(m: Manager, n: string, i: nat, e: ChildEvent)
    requires Converging(m) && Enabled(m, ChildDid(n, i, e)) && CleanEvent(m, ChildDid(n, i, e))
    requires VerdictOf(m, n) == KeepJob
    ensures var r := Step(m, ChildDid(n, i, e));
            n in r.jobs && VerdictOf(r, n) == KeepJob && PendingIn(r)(n) == PendingIn(m)(n)
  {
    ChildStep(m, n, i, e);
    HandledOk(m, ChildDid(n, i, e));
  }

  ghost predicate CleanChildStep(m: Manager, e: Event) {
    e.ChildDid? && Enabled(m, e) && CleanEvent(m, e)
  }

  lemma OthersStep(m: Manager, e: Event, o: string)
    requires Safe(m) && CleanChildStep(m, e) && o != e.name
    ensures o in m.jobs <==> o in Step(m, e).jobs
    ensures o in m.jobs ==> Step(m, e).jobs[o] == m.jobs[o] && VerdictOf(Step(m, e), o) == VerdictOf(m, o)
    ensures PendingIn(Step(m, e))(o) == PendingIn(m)(o)
  {
    ChildStep(m, e.name, e.index, e.what);
  }

  lemma StaysConverging(m: Manager, e: Event)
    requires Converging(m) && CleanChildStep(m, e)
    ensures Converging(Step(m, e)) && Step(m, e).config == m.config
    ensures forall o :: o in Step(m, e).jobs && VerdictOf(Step(m, e), o) != KeepJob ==>
              o in m.jobs && VerdictOf(m, o) != KeepJob
  {
    var r := Step(m, e);
    CleanStep(m, e);
    forall o | o in r.jobs && VerdictOf(r, o) != KeepJob
      ensures o in m.jobs && VerdictOf(m, o) != KeepJob && r.jobs[o].state.Stopping?
    {
      if o != e.name {
        OthersStep(m, e, o);
      } else if VerdictOf(m, o) != KeepJob {
        StaleNameStep(m, o, e.index, e.what);
      } else {
        FreshNameStep(m, o, e.index, e.what);
      }
    }
  }

  /** The exits of out-of-date children count down; everything else leaves the count alone. */
  lemma PendingStep(m: Manager, e: Event, names: seq<string>)
    requires Converging(m) && CleanChildStep(m, e)
    requires forall a, b :: 0 <= a < b < |names| ==> names[a] != names[b]
    requires forall o :: o in m.jobs && VerdictOf(m, o) != KeepJob ==> o in names
    ensures Pending(Step(m, e), names) == Pending(m, names) -
              (if VerdictOf(m, e.name) != KeepJob && !e.what.TimerFired? then 1 else 0)
  {
    var r := Step(m, e);
    forall o | o in names && o != e.name
      ensures PendingIn(m)(o) == PendingIn(r)(o)
    {
      OthersStep(m, e, o);
    }
    if VerdictOf(m, e.name) != KeepJob {
      StaleNameStep(m, e.name, e.index, e.what);
      SumDiffers(PendingIn(m), PendingIn(r), names, e.name);
    } else {
      FreshNameStep(m, e.name, e.index, e.what);
      SumSame(PendingIn(m), PendingIn(r), names);
    }
  }

  // -------------------------------------------------------------- after the reload

  /** A reload, job by job. */
  lemma ReloadedJob(m: Manager, c: ConfigMap, n: string)
    ensures var r := CleanReload(m, c);
            if n in m.jobs then
              var v := VerdictFor(c, n, m.jobs[n].config);
              var j := if v != KeepJob then StopJob(m.jobs[n], v).0 else m.jobs[n];
              if j.state.Remove? then n !in r.jobs
              else n in r.jobs && r.jobs[n] == AutoStarted(if j.state.Replace? && n in c then CreatedJob(c[n]) else j)
            else if n in c then
              n in r.jobs && r.jobs[n] == AutoStarted(CreatedJob(c[n]))
            else n !in r.jobs
    ensures CleanReload(m, c).config == c
  {
    hide StopJob, AutoStarted;
    if n !in m.jobs && n in c {
      NewJobIsUnmarked(c[n]);
    }
  }

  lemma NewJobIsUnmarked(c: JobConfig)
    ensures !Marked(CreatedJob(c)) && AutoStarted(CreatedJob(c)).config == CreatedJob(c).config == c
  {
  }

  /** What the reload leaves of a job the new configuration no longer agrees with. */
  lemma ReloadedStaleJob(m: Manager, c: ConfigMap, n: string)
    requires Safe(m) && AllAgree(m) && ConfigOk(c) && n in m.jobs
    requires VerdictFor(c, n, m.jobs[n].config) != KeepJob
    ensures var r := CleanReload(m, c);
            if Active(m.jobs[n]) then
              && n in r.jobs && r.jobs[n].config == m.jobs[n].config
              && (if m.jobs[n].config.autostart then r.jobs[n].state.Starting? else r.jobs[n].state.Stopping?)
            else
              n in r.jobs ==> n in c && r.jobs[n].config == c[n]
  {
    hide CleanReload, CreatedJob, JobOk;
    var v := VerdictFor(c, n, m.jobs[n].config);
    StopOfAgreeing(m.jobs[n], v);
    ReloadedJob(m, c, n);
    if n in c {
      NewJobIsUnmarked(c[n]);
    }
  }

  lemma ReloadedOtherJob(m: Manager, c: ConfigMap, n: string)
    requires Safe(m) && n in CleanReload(m, c).jobs
    requires n in m.jobs ==> VerdictFor(c, n, m.jobs[n].config) == KeepJob
    ensures n in c && CleanReload(m, c).jobs[n].config == c[n]
  {
    hide CleanReload, CreatedJob, StopJob, JobOk;
    ReloadedJob(m, c, n);
    if n in c {
      NewJobIsUnmarked(c[n]);
    }
  }

  lemma CleanReloadIsClean(m: Manager, c: ConfigMap, order: seq<string>)
    requires CleanState(m) && ConfigOk(c) && IsOrder(order, m.jobs.Keys)
    ensures CleanState(CleanReload(m, c))
  {
    ReloadOk(m, c, order);
    ReloadIsClean(m, c, order);
    CleanReloadAgrees(m, c, order);
    ReloadUnmarked(m, c, order);
  }

  lemma ReloadUnmarked(m: Manager, c: ConfigMap, order: seq<string>)
    requires CleanState(m) && ConfigOk(c) && IsOrder(order, m.jobs.Keys)
    ensures NoMarks(CleanReload(m, c))
  {
    ReloadIsClean(m, c, order);
    var s := StoppedAmong(m.(config := c), m.jobs.Keys, false);
    CreatedMissingOk(s);
    UpdatedOk(CreatedMissing(s));
    StartedAllOk(Updated(CreatedMissing(s)));
  }

  /** Converging towards `c`, with nothing out of date outside `order`. */
  ghost predicate OnTrack(m: Manager, c: ConfigMap, order: seq<string>) {
    && Converging(m) && m.config == c
    && forall n :: n in m.jobs && VerdictOf(m, n) != KeepJob ==> n in order
  }

  lemma ReloadedName(m: Manager, c: ConfigMap, n: string)
    requires CleanState(m) && ConfigOk(c) && !AnyResurrected(m, c)
    ensures n in CleanReload(m, c).jobs && VerdictOf(CleanReload(m, c), n) != KeepJob ==>
              n in m.jobs && CleanReload(m, c).jobs[n].state.Stopping?
  {
    if n in m.jobs && VerdictFor(c, n, m.jobs[n].config) != KeepJob {
      assert !Resurrected(m, c, n);
      ReloadedStaleJob(m, c, n);
    } else if n in CleanReload(m, c).jobs {
      ReloadedOtherJob(m, c, n);
    }
  }

  lemma ReloadStartsOnTrack(m: Manager, c: ConfigMap, order: seq<string>)
    requires CleanState(m) && ConfigOk(c) && IsOrder(order, m.jobs.Keys) && !AnyResurrected(m, c)
    ensures OnTrack(CleanReload(m, c), c, order)
  {
    CleanReloadIsClean(m, c, order);
    var r := CleanReload(m, c);
    forall n | n in r.jobs && VerdictOf(r, n) != KeepJob
      ensures r.jobs[n].state.Stopping? && n in order
    {
      ReloadedName(m, c, n);
    }
  }

  ghost predicate IsChildRun(states: seq<Manager>, events: seq<Event>) {
    && |states| == |events| + 1
    && forall k :: 0 <= k < |events| ==>
         CleanChildStep(states[k], events[k]) && states[k + 1] == Step(states[k], events[k])
  }

  lemma {:induction false} StaysOnTrack(c: ConfigMap, order: seq<string>,
                                        states: seq<Manager>, events: seq<Event>, k: nat)
    requires IsChildRun(states, events) && OnTrack(states[0], c, order) && k < |states|
    ensures OnTrack(states[k], c, order)
    decreases k
  {
    hide Step, CleanState, VerdictOf;
    if k > 0 {
      StaysOnTrack(c, order, states, events, k - 1);
      StaysConverging(states[k - 1], events[k - 1]);
    }
  }

  /** Along the run that follows, the configured jobs are all in the table, the count falls by
      one with each exit of an out-of-date child and otherwise stays, and it is zero exactly
      when the table has converged. */
  lemma ReloadConverges(m: Manager, c: ConfigMap, order: seq<string>,
                        states: seq<Manager>, events: seq<Event>, k: nat)
    requires CleanState(m) && ConfigOk(c) && IsOrder(order, m.jobs.Keys) && !AnyResurrected(m, c)
    requires IsChildRun(states, events) && states[0] == CleanReload(m, c) && k < |states|
    ensures OnTrack(states[k], c, order) && c.Keys <= states[k].jobs.Keys
    ensures Pending(states[k], order) == 0 <==> Converged(states[k])
    ensures k < |events| ==>
              Pending(states[k + 1], order) == Pending(states[k], order) -
                (if VerdictOf(states[k], events[k].name) != KeepJob && !events[k].what.TimerFired? then 1 else 0)
  {
    ReloadStartsOnTrack(m, c, order);
    StaysOnTrack(c, order, states, events, k);
    ConvergedExactlyWhen(states[k], order);
    if k < |events| {
      PendingStep(states[k], events[k], order);
    }
  }

  // ------------------------------------------------------------------- the other side

  /** An out-of-date job that is not stopping: only a command can still get rid of it. */
  predicate Stuck(m: Manager, n: string) {
    n in m.jobs && VerdictOf(m, n) != KeepJob && !m.jobs[n].state.Stopping? && !Marked(m.jobs[n])
  }

  lemma NotStoppedByEvents(j: Job, i: nat, e: ChildEvent, v: Verdict)
    requires i < |j.procs| && Possible(j.procs[i], e) && !j.state.Stopping? && !Marked(j)
    ensures !OnChild(j, i, e, v).state.Stopping? && !Marked(OnChild(j, i, e, v))
  {
  }

  lemma StuckStays(m: Manager, e: Event, n: string)
    requires Safe(m) && CleanChildStep(m, e) && Stuck(m, n)
    ensures Stuck(Step(m, e), n)
  {
    if n == e.name {
      hide OnChild, Step, Safe;
      ChildStep(m, n, e.index, e.what);
      NotStoppedByEvents(m.jobs[n], e.index, e.what, VerdictOf(m, n));
    } else {
      OthersStep(m, e, n);
    }
  }

  lemma {:induction false} StuckForever(states: seq<Manager>, events: seq<Event>, n: string, k: nat)
    requires IsChildRun(states, events) && CleanState(states[0]) && Stuck(states[0], n) && k < |states|
    ensures CleanState(states[k]) && Stuck(states[k], n)
    decreases k
  {
    if k > 0 {
      StuckForever(states, events, n, k - 1);
      CleanStep(states[k - 1], events[k - 1]);
      StuckStays(states[k - 1], events[k - 1], n);
    }
  }

  /** No child of an out-of-date job is still dying. */
  predicate Settled(m: Manager) {
    forall n :: n in m.jobs && VerdictOf(m, n) != KeepJob ==>
      forall i :: 0 <= i < |m.jobs[n].procs| ==> !m.jobs[n].procs[i].state.Stopping?
  }

  lemma SettledConverges(m: Manager)
    requires Converging(m) && Settled(m)
    ensures Converged(m)
  {
    forall n | n in m.jobs
      ensures VerdictOf(m, n) == KeepJob
    {
      if VerdictOf(m, n) != KeepJob {
        assert false;
      }
    }
  }

  lemma ResurrectedIsStuck(m: Manager, c: ConfigMap, n: string)
    requires CleanState(m) && ConfigOk(c) && n in m.jobs && Resurrected(m, c, n)
    ensures Stuck(CleanReload(m, c), n)
  {
    hide CleanReload, Agree, JobOk;
    ReloadedJob(m, c, n);
    ReloadedStaleJob(m, c, n);
  }

  /** The exact condition for a reload to take effect without further commands: no job with
      live children that the new configuration changed or dropped asks for autostart itself. */
  lemma ReloadTakesEffectExactlyWhen(m: Manager, c: ConfigMap, order: seq<string>,
                                     states: seq<Manager>, events: seq<Event>)
    requires CleanState(m) && ConfigOk(c) && IsOrder(order, m.jobs.Keys)
    requires IsChildRun(states, events) && states[0] == CleanReload(m, c)
    requires Settled(states[|events|])
    ensures Converged(states[|events|]) <==> !AnyResurrected(m, c)
  {
    if AnyResurrected(m, c) {
      var n :| n in m.jobs && Resurrected(m, c, n);
      ResurrectedIsStuck(m, c, n);
      CleanReloadIsClean(m, c, order);
      StuckForever(states, events, n, |events|);
    } else {
      ReloadStartsOnTrack(m, c, order);
      StaysOnTrack(c, order, states, events, |events|);
      SettledConverges(states[|events|]);
    }
  }

  // ------------------------------------------------------------------ nothing changed

  predicate AllUpToDate(m: Manager, c: ConfigMap) {
    && m.jobs.Keys == c.Keys
    && forall n :: n in m.jobs ==> VerdictFor(c, n, m.jobs[n].config) == KeepJob
  }

  lemma UnchangedReloadOnlyStarts(m: Manager, c: ConfigMap)
    requires NoMarks(m) && AllUpToDate(m, c)
    ensures CleanReload(m, c) == StartedAll(m.(config := c))
    ensures CleanReload(m, c).jobs.Keys == m.jobs.Keys
    ensures forall n :: n in m.jobs ==> CleanReload(m, c).jobs[n] == AutoStarted(m.jobs[n])
  {
    var m0 := m.(config := c);
    assert StoppedAmong(m0, m.jobs.Keys, false).jobs == m.jobs;
    assert CreatedMissing(m0).jobs == m.jobs;
    assert Updated(m0).jobs == m.jobs;
  }

  /** A live child is left as it is: same child, same timer, no signal. */
  predicate Untouched(p: Proc, q: Proc) {
    LiveState(p.state) ==> q.state == p.state && q.os.child == p.os.child && q.timer == p.timer
  }

  /** The forks a start of the job adds to one of its processes. */
  function Launches(j: Job, p: Proc): nat {
    if DeadState(p.state) && j.config.autostart && (j.state.Stopped? || j.state.Stopping?) then 1 else 0
  }

  lemma AutoStartOnlyLaunches(j: Job, i: nat)
    requires JobOk(j) && Agree(j) && i < |j.procs|
    ensures |AutoStarted(j).procs| == |j.procs|
    ensures AutoStarted(j).state == if j.config.autostart then JobState.Starting else j.state
    ensures var p, q := j.procs[i], AutoStarted(j).procs[i];
            Untouched(p, q) && q.os.reaps == p.os.reaps && q.os.forks == p.os.forks + Launches(j, p)
  {
    RestartProcessKeepsOk(j.procs[i], j.config);
  }

  /** A reload of an unchanged configuration signals, reaps and replaces nothing: every live
      child stays as it is. The dead processes of STOPPED and STOPPING autostart jobs are launched,
      and no others, and every autostart job is STARTING. */
  lemma UnchangedReloadIsHarmless(m: Manager, c: ConfigMap, order: seq<string>, n: string, i: nat)
    requires CleanState(m) && ConfigOk(c) && AllUpToDate(m, c) && IsOrder(order, m.jobs.Keys)
    requires n in m.jobs && i < |m.jobs[n].procs|
    ensures var r := Reloaded(m, Some(c), order);
            && r.1 && r.0.jobs.Keys == m.jobs.Keys && |r.0.jobs[n].procs| == |m.jobs[n].procs|
            && r.0.jobs[n].state == (if m.jobs[n].config.autostart then JobState.Starting else m.jobs[n].state)
            && var p, q := m.jobs[n].procs[i], r.0.jobs[n].procs[i];
               && Untouched(p, q) && q.os.reaps == p.os.reaps
               && q.os.forks == p.os.forks + Launches(m.jobs[n], p)
  {
    hide Reloaded, CleanReload, AutoStarted, Agree, ConfigOk, IsOrder;
    ReloadIsClean(m, c, order);
    UnchangedReloadOnlyStarts(m, c);
    AutoStartOnlyLaunches(m.jobs[n], i);
  }

  lemma AutoStartIsIdleExactlyWhen(j: Job)
    requires JobOk(j) && Agree(j)
    ensures AutoStarted(j) == j <==> (j.config.autostart ==> j.state.Starting?)
  {
  }

  /** The exact condition for the reload of an unchanged configuration to change nothing. */
  lemma UnchangedReloadIsIdleExactlyWhen(m: Manager, c: ConfigMap, order: seq<string>)
    requires CleanState(m) && ConfigOk(c) && AllUpToDate(m, c) && IsOrder(order, m.jobs.Keys)
    ensures Reloaded(m, Some(c), order).0 == m.(config := c) <==>
              forall n :: n in m.jobs && m.jobs[n].config.autostart ==> m.jobs[n].state.Starting?
  {
    hide Reloaded, CleanReload, AutoStarted, Agree, ConfigOk, IsOrder;
    ReloadIsClean(m, c, order);
    UnchangedReloadOnlyStarts(m, c);
    var r := CleanReload(m, c);
    forall n | n in m.jobs
      ensures r.jobs[n] == m.jobs[n] <==> (m.jobs[n].config.autostart ==> m.jobs[n].state.Starting?)
    {
      AutoStartIsIdleExactlyWhen(m.jobs[n]);
    }
    if forall n :: n in m.jobs ==> r.jobs[n] == m.jobs[n] {
      assert r.jobs == m.jobs;
    }
  }

  /** It takes a RUNNING autostart job back to STARTING with every process as it was. No timer is
      left to make it RUNNING again: it stays STARTING until a child dies. */
  lemma RunningGoesBack(m: Manager, c: ConfigMap, order: seq<string>, n: string)
    requires CleanState(m) && ConfigOk(c) && AllUpToDate(m, c) && IsOrder(order, m.jobs.Keys)
    requires n in m.jobs && m.jobs[n].state.Running? && m.jobs[n].config.autostart
    ensures var r := Reloaded(m, Some(c), order).0;
            && n in r.jobs && r.jobs[n] == m.jobs[n].(state := JobState.Starting)
            && forall e :: Enabled(r, e) && e.ChildDid? && e.name == n ==> !e.what.TimerFired?
  {
    hide Reloaded, CleanReload, ConfigOk, IsOrder;
    ReloadIsClean(m, c, order);
    UnchangedReloadOnlyStarts(m, c);
    var j := m.jobs[n];
    assert AutoStarted(j) == j.(state := JobState.Starting);
    forall i | 0 <= i < |j.procs|
      ensures !Possible(j.procs[i], TimerFired)
    {
      assert ProcOk(j.procs[i], j.config);
    }
  }

  /** Two loaded configurations that list the same exit codes in another order, each field being
      what `ParseExitCodes` makes of its list. */
  ghost predicate SameButForOrder(a: ConfigMap, b: ConfigMap) {
    && a.Keys == b.Keys
    && forall n :: n in a ==>
         && a[n] == b[n].(exitCodes := a[n].exitCodes)
         && Sorted(a[n].exitCodes) && Sorted(b[n].exitCodes)
         && multiset(a[n].exitCodes) == multiset(b[n].exitCodes)
  }

  /** Such a reload is one of an unchanged configuration. */
  lemma ReorderedCodesChangeNothing(m: Manager, c: ConfigMap)
    requires AllUpToDate(m, m.config) && SameButForOrder(m.config, c)
    ensures c == m.config && AllUpToDate(m, c)
  {
    forall n | n in c
      ensures c[n] == m.config[n]
    {
      SortedIsCanonical(m.config[n].exitCodes, c[n].exitCodes);
    }
    assert c == m.config;
  }
}
