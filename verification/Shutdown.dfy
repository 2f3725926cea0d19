/** The manager's destructor: stop every job, then handle events until each job of the table,
    taken in turn, is STOPPED or EMPTY. */
module Shutdown {
  import opened Sums
  import opened JobConfigs
  import opened SupervisorSpec
  import opened SupervisorSafety
  import opened CleanRuns
  import opened Termination

  predicate Done(j: Job) {
    j.state.Stopped? || j.state.Empty?
  }

  /** After the destructor's stop of every job. */
  function Killed(m: Manager): Manager {
    StoppedAmong(m, m.jobs.Keys, true)
  }

  /** No process of the job is in a state its stop cannot deal with: none STOPPED before the stop,
      and, once it is STOPPING, none that the stop passed over. */
  ghost predicate Orderly(j: Job) {
    match j.state
    case Stopping => AllGoingDown(j) && SomeLive(j)
    case Starting => NoneStopped(j) && j.procs != []
    case Running => NoneStopped(j) && j.procs != []
    case _ => true
  }

  /** The destructor's stop of this job is sure to come to an end. */
  ghost predicate Sure(j: Job, v: Verdict) {
    v == KeepJob && Orderly(j) && (SomeLive(j) ==> Killable(j.config))
  }

  ghost predicate AllSure(m: Manager) {
    forall n :: n in m.jobs ==> Sure(m.jobs[n], VerdictOf(m, n))
  }

  ghost predicate AllOrderly(m: Manager) {
    forall n :: n in m.jobs ==> Orderly(m.jobs[n])
  }

  /** What holds while the destructor waits, if all jobs were orderly: an up-to-date job is
      stopping or done, a stale one is stopping or marked, and marked jobs are never done. */
  ghost predicate Draining(m: Manager) {
    && ManagerOk(m)
    && forall n :: n in m.jobs ==>
         || (m.jobs[n].state.Stopping? && Agree(m.jobs[n]))
         || (if VerdictOf(m, n) == KeepJob then Done(m.jobs[n]) else Marked(m.jobs[n]))
  }

  /** And if they were sure: a job that is not done can be killed. */
  ghost predicate Ending(m: Manager) {
    && Draining(m)
    && forall n :: n in m.jobs ==>
         VerdictOf(m, n) == KeepJob && (m.jobs[n].state.Stopping? ==> Killable(m.jobs[n].config))
  }

  predicate AnyStale(m: Manager) {
    exists n :: n in m.jobs && VerdictOf(m, n) != KeepJob
  }

  /** A job with live children whose stop may be ignored: nothing but its stop signal, which is
      not KILL, is ever sent. */
  predicate AnyStubborn(m: Manager) {
    exists n :: n in m.jobs && Active(m.jobs[n]) && !Killable(m.jobs[n].config)
  }

  /** Something is bound to happen to the child: it was sent SIGKILL, or a timer will expire. Any
      other child may live for ever. */
  predicate Impending(p: Proc) {
    p.os.child.Child? && (p.os.child.killed || Possible(p, TimerFired))
  }

  /** Nothing is bound to happen: a wait for an event may never end. */
  predicate AtRest(m: Manager) {
    forall n :: n in m.jobs ==> forall i :: 0 <= i < |m.jobs[n].procs| ==> !Impending(m.jobs[n].procs[i])
  }

  predicate AllDone(m: Manager) {
    forall n :: n in m.jobs ==> Done(m.jobs[n])
  }

  /** The events that can still come of a child if it only starts up or dies: its timer's, if it
      runs, and a dying child's exit. */
  function Owes(p: Proc): nat {
    match p.state
    case Starting => 1
    case Stopping => if p.timer.Timer? && p.timer.running then 2 else 1
    case _ => 0
  }

  function OwedIn(m: Manager): string -> nat {
    n => if n in m.jobs then Sum(Owes, m.jobs[n].procs) else 0
  }

  function OwedBy(m: Manager, order: seq<string>): nat {
    Sum(OwedIn(m), order)
  }

  function LivesIn(m: Manager): string -> nat {
    n => if n in m.jobs then Sum(Lives, m.jobs[n].procs) else 0
  }

  lemma OwedAtMostTwice(m: Manager, order: seq<string>)
    requires ManagerOk(m)
    ensures OwedBy(m, order) <= 2 * Sum(LivesIn(m), order)
  {
    forall n | n in m.jobs
      ensures Sum(Owes, m.jobs[n].procs) <= 2 * Sum(Lives, m.jobs[n].procs)
    {
      SumAtMost(Owes, m.jobs[n].procs, 2, Lives);
    }
    SumAtMost(OwedIn(m), order, 2, LivesIn(m));
  }

  // -------------------------------------------------------------- starting to drain

  /** An orderly job is stopped without a throw, and then dies or has died. */
  lemma StopOfOrderly(j: Job, v: Verdict)
    requires JobOk(j) && !Marked(j) && Orderly(j)
    ensures StopJob(j, v).1
    ensures var r := StopJob(j, v).0;
            if SomeLive(j) then r.state.Stopping? && Agree(r) else if v == KeepJob then Done(r) else Marked(r)
  {
    if j.state.Starting? || j.state.Running? {
      if SomeLive(j) {
        StopOfLive(j, v);
      } else {
        StopFromAllDead(j.(state := JobState.Stopping), 0, v);
      }
    }
  }

  lemma KilledIs(m: Manager, order: seq<string>)
    requires ManagerOk(m) && IsOrder(order, m.jobs.Keys) && Stoppable(m, order)
    ensures StopInOrder(m, order, true) == (Killed(m), true) && ManagerOk(Killed(m))
    ensures Killed(m).jobs.Keys == m.jobs.Keys && Killed(m).config == m.config
    ensures forall n :: n in m.jobs ==>
              && Killed(m).jobs[n] == StopJob(m.jobs[n], VerdictOf(m, n)).0
              && VerdictOf(Killed(m), n) == VerdictOf(m, n)
  {
    StopInAnyOrder(m, order, true);
    StopInOrderOk(m, order, true);
    assert (set n | n in order) == m.jobs.Keys;
  }

  /** `kill()` of orderly jobs throws nothing and starts the drain. */
  lemma DrainStart(m: Manager, order: seq<string>)
    requires Safe(m) && AllOrderly(m) && IsOrder(order, m.jobs.Keys)
    ensures StopInOrder(m, order, true) == (Killed(m), true)
    ensures Draining(Killed(m)) && Killed(m).jobs.Keys == m.jobs.Keys && (AllSure(m) ==> Ending(Killed(m)))
  {
    forall n | n in m.jobs
      ensures StopJob(m.jobs[n], VerdictOf(m, n)).1
    {
      StopOfOrderly(m.jobs[n], VerdictOf(m, n));
    }
    KilledIs(m, order);
    forall n | n in m.jobs
      ensures var j, v := Killed(m).jobs[n], VerdictOf(m, n);
              || (j.state.Stopping? && Agree(j) && SomeLive(m.jobs[n]))
              || (if v == KeepJob then Done(j) else Marked(j))
    {
      StopOfOrderly(m.jobs[n], VerdictOf(m, n));
    }
  }

  // ------------------------------------------------------------------- one event

  lemma DrainEventInJob(j: Job, i: nat, e: ChildEvent, v: Verdict)
    requires JobOk(j) && i < |j.procs| && Possible(j.procs[i], e)
    requires (j.state.Stopping? && Agree(j)) || Done(j) || Marked(j)
    ensures j.state.Stopping? && j.procs[i].state.Stopping?
    ensures var r := OnChild(j, i, e, v);
            && JobOk(r) && MarkFits(r, v)
            && ((r.state.Stopping? && Agree(r)) || r == Mark(r.(state := JobState.Stopped), v))
            && Sum(Owes, r.procs) < Sum(Owes, j.procs)
  {
    EventsNeedActiveJob(j, i, e);
    ChildEventKeepsOk(j, i, e, v);
    ChildEventAgrees(j, i, e, v);
    var r := OnChild(j, i, e, v);
    assert r.procs == j.procs[i := r.procs[i]];
    SumAt(Owes, j.procs, i, r.procs[i]);
  }

  /** Replacing a stopping job by what an event made of it. */
  lemma DrainingSet(m: Manager, name: string, j: Job)
    requires Draining(m) && name in m.jobs && m.jobs[name].state.Stopping?
    requires j.config == m.jobs[name].config && JobOk(j)
    requires MarkFits(j, VerdictOf(m, name))
    requires (j.state.Stopping? && Agree(j)) || j == Mark(j.(state := JobState.Stopped), VerdictOf(m, name))
    ensures Draining(SetJob(m, name, j))
  {
    hide JobOk, Agree;
    var r := SetJob(m, name, j);
    assert VerdictOf(r, name) == VerdictOf(m, name);
    assert forall n :: n in m.jobs && n != name ==> r.jobs[n] == m.jobs[n] && VerdictOf(r, n) == VerdictOf(m, n);
  }

  /** Jobs that are done or marked are left alone, and so are the table and the verdicts. */
  ghost predicate Undisturbed(m: Manager, r: Manager) {
    && r.jobs.Keys == m.jobs.Keys && r.config == m.config
    && forall n :: n in m.jobs ==>
         && r.jobs[n].config == m.jobs[n].config
         && (Done(m.jobs[n]) || Marked(m.jobs[n]) ==> r.jobs[n] == m.jobs[n])
  }

  lemma UndisturbedItself(m: Manager)
    ensures Undisturbed(m, m)
  {
  }

  lemma UndisturbedChain(a: Manager, b: Manager, c: Manager)
    requires Undisturbed(a, b) && Undisturbed(b, c)
    ensures Undisturbed(a, c)
  {
  }

  /** The destructor's loop before its iterator reaches `order[it]`. */
  ghost predicate DrainPoint(m: Manager, order: seq<string>, it: nat) {
    && Ending(m) && IsOrder(order, m.jobs.Keys) && it <= |order|
    && forall k :: 0 <= k < it ==> Done(m.jobs[order[k]])
  }

  /** Waiting leaves the iterator where it is and the jobs behind it done. */
  lemma DrainWaits(before: Manager, after: Manager, order: seq<string>, it: nat)
    requires DrainPoint(before, order, it) && Undisturbed(before, after) && Ending(after)
    ensures DrainPoint(after, order, it)
  {
  }

  /** Moving on from a job that is done; a job that is not done is stopping, and can be killed. */
  lemma DrainLooks(m: Manager, order: seq<string>, it: nat)
    requires DrainPoint(m, order, it) && it < |order|
    ensures order[it] in m.jobs
    ensures if Done(m.jobs[order[it]]) then DrainPoint(m, order, it + 1)
            else m.jobs[order[it]].state.Stopping? && Killable(m.jobs[order[it]].config)
  {
    assert order[it] in m.jobs;
  }

  lemma OwedFalls(m: Manager, order: seq<string>, name: string, j: Job)
    requires Distinct(order) && name in order && name in m.jobs
    requires Sum(Owes, j.procs) < Sum(Owes, m.jobs[name].procs)
    ensures OwedBy(SetJob(m, name, j), order) < OwedBy(m, order)
  {
    var r := SetJob(m, name, j);
    forall n | n in order && n != name
      ensures OwedIn(m)(n) == OwedIn(r)(n)
    {
      assert n in r.jobs <==> n in m.jobs;
      assert n in m.jobs ==> r.jobs[n] == m.jobs[n];
    }
    SumDiffers(OwedIn(m), OwedIn(r), order, name);
  }

  /** Every event brings the end nearer, whichever child or timer it comes from. */
  lemma DrainEvent(m: Manager, e: Event, order: seq<string>)
    requires Draining(m) && e.ChildDid? && Enabled(m, e) && IsOrder(order, m.jobs.Keys)
    ensures Draining(Handled(m, e)) && Undisturbed(m, Handled(m, e)) && (Ending(m) ==> Ending(Handled(m, e)))
    ensures OwedBy(Handled(m, e), order) < OwedBy(m, order)
  {
    hide OwedBy, OnChild, JobOk, Agree;
    var name := e.name;
    var v := VerdictOf(m, name);
    DrainEventInJob(m.jobs[name], e.index, e.what, v);
    var j := OnChild(m.jobs[name], e.index, e.what, v);
    DrainingSet(m, name, j);
    OwedFalls(m, order, name, j);
  }

  /** The destructor's wait for a job is sure to end exactly when the job can be killed: then one
      of its children was sent SIGKILL or will be when its stop timer expires. */
  lemma WaitingIsOwed(m: Manager, n: string)
    requires Draining(m) && n in m.jobs && m.jobs[n].state.Stopping?
    ensures (exists i :: 0 <= i < |m.jobs[n].procs| && Impending(m.jobs[n].procs[i])) <==> Killable(m.jobs[n].config)
  {
    var j := m.jobs[n];
    var i :| 0 <= i < |j.procs| && LiveState(j.procs[i].state);
    assert ProcOk(j.procs[i], j.config) && j.procs[i].state.Stopping?;
    assert Killable(j.config) ==> Impending(j.procs[i]);
    forall k | 0 <= k < |j.procs| && !Killable(j.config)
      ensures !Impending(j.procs[k])
    {
      assert ProcOk(j.procs[k], j.config);
    }
  }

  // ------------------------------------------------------------------- whole drains

  ghost predicate IsDrain(states: seq<Manager>, events: seq<Event>) {
    && |states| == |events| + 1
    && forall k :: 0 <= k < |events| ==>
         && events[k].ChildDid? && Enabled(states[k], events[k])
         && states[k + 1] == Handled(states[k], events[k])
  }

  /** A drain takes at most two events for each child alive at its start. */
  lemma {:induction false} DrainRun(states: seq<Manager>, events: seq<Event>, order: seq<string>, k: nat)
    requires IsDrain(states, events) && Draining(states[0]) && IsOrder(order, states[0].jobs.Keys)
    requires k < |states|
    ensures Draining(states[k]) && Undisturbed(states[0], states[k]) && (Ending(states[0]) ==> Ending(states[k]))
    ensures k + OwedBy(states[k], order) <= OwedBy(states[0], order) <= 2 * Sum(LivesIn(states[0]), order)
    decreases k
  {
    hide Handled, OwedBy, LivesIn, VerdictOf, JobOk, Agree;
    OwedAtMostTwice(states[0], order);
    UndisturbedItself(states[0]);
    if k > 0 {
      DrainRun(states, events, order, k - 1);
      DrainEvent(states[k - 1], events[k - 1], order);
      UndisturbedChain(states[0], states[k - 1], states[k]);
    }
  }

  /** A drain can end where nothing is bound to happen and yet a job is not done. */
  ghost predicate CanHang(m: Manager) {
    exists states, events ::
      IsDrain(states, events) && states[0] == Killed(m) && AtRest(states[|events|]) && !AllDone(states[|events|])
  }

  /** Where the drain of sure jobs comes to rest, they are done. */
  lemma RestingIsDone(m: Manager, states: seq<Manager>, events: seq<Event>, order: seq<string>)
    requires Safe(m) && AllSure(m) && IsOrder(order, m.jobs.Keys)
    requires IsDrain(states, events) && states[0] == Killed(m) && AtRest(states[|events|])
    ensures AllDone(states[|events|])
  {
    hide Draining, Killed, Undisturbed, IsOrder, Orderly;
    var last := states[|events|];
    DrainStart(m, order);
    DrainRun(states, events, order, |events|);
    forall n | n in last.jobs
      ensures Done(last.jobs[n])
    {
      RestingJobIsDone(last, n);
    }
  }

  lemma RestingJobIsDone(m: Manager, n: string)
    requires Ending(m) && AtRest(m) && n in m.jobs
    ensures Done(m.jobs[n])
  {
    if m.jobs[n].state.Stopping? {
      WaitingIsOwed(m, n);
    }
  }

  // --------------------------------------------------------------------- hanging

  /** A job during any drain. It is not STARTING any more, so that no death launches anything. */
  ghost predicate Sinks(j: Job) {
    JobOk(j) && !j.state.Starting? && (j.state.Running? ==> AllRunning(j))
  }

  ghost predicate Sinking(m: Manager) {
    ManagerOk(m) && forall n :: n in m.jobs ==> Sinks(m.jobs[n])
  }

  /** Nothing that is bound to happen will make the job done: it is out of date, or has a process
      that its stop passed over, or a child it cannot kill, or nothing left to tell it that all its
      processes are STOPPED. */
  predicate Unending(j: Job, v: Verdict) {
    && !Done(j)
    && (|| v != KeepJob
        || (exists k :: 0 <= k < |j.procs| && !j.procs[k].state.Stopping? && !j.procs[k].state.Stopped?)
        || (exists k :: 0 <= k < |j.procs| && j.procs[k].state.Stopping? && !Killable(j.config))
        || (j.state.Stopping? && AllStopped(j)))
  }

  /** What is bound to happen to a child. */
  function Impends(p: Proc): ChildEvent {
    if p.os.child.Child? && p.os.child.killed then ExitedWith(0) else TimerFired
  }

  lemma ImpendingInJob(j: Job, i: nat, v: Verdict)
    requires Sinks(j) && i < |j.procs| && Impending(j.procs[i])
    ensures Possible(j.procs[i], Impends(j.procs[i]))
    ensures j.state.Stopping? && (j.procs[i].state.Starting? || (j.procs[i].state.Stopping? && Killable(j.config)))
    ensures var r := OnChild(j, i, Impends(j.procs[i]), v);
            && Sinks(r) && r.procs == j.procs[i := r.procs[i]]
            && (if j.procs[i].state.Starting? then r.procs[i].state.Running?
                else r.procs[i].state.Stopping? || r.procs[i].state.Stopped?)
            && (r.state.Stopping? || r.state.Running? || (AllStopped(r) && r == Mark(r.(state := JobState.Stopped), v)))
            && Owes(r.procs[i]) < Owes(j.procs[i])
  {
    var e := Impends(j.procs[i]);
    assert ProcOk(j.procs[i], j.config);
    EventsNeedActiveJob(j, i, e);
    ChildEventKeepsOk(j, i, e, v);
    EventIsLocal(j, i, e, v);
  }

  lemma StaysUnending(j: Job, i: nat, v: Verdict)
    requires Sinks(j) && i < |j.procs| && Impending(j.procs[i]) && Unending(j, v)
    ensures Possible(j.procs[i], Impends(j.procs[i])) && Unending(OnChild(j, i, Impends(j.procs[i]), v), v)
  {
    hide OnChild, Impends, Impending, JobOk;
    ImpendingInJob(j, i, v);
    var r := OnChild(j, i, Impends(j.procs[i]), v);
    if v == KeepJob {
      var k :| 0 <= k < |j.procs| && !j.procs[k].state.Stopped? &&
               (!j.procs[k].state.Stopping? || !Killable(j.config));
      assert k != i ==> r.procs[k] == j.procs[k];
    }
  }

  ghost predicate Hangs(m: Manager, n: string) {
    n in m.jobs && Unending(m.jobs[n], VerdictOf(m, n))
  }

  /** One such event: the drain goes on, has less to come, and leaves the hanging jobs hanging. */
  lemma ImpendingEvent(m: Manager, n: string, i: nat, order: seq<string>) returns (e: Event)
    requires Sinking(m) && IsOrder(order, m.jobs.Keys)
    requires n in m.jobs && i < |m.jobs[n].procs| && Impending(m.jobs[n].procs[i])
    ensures e.ChildDid? && Enabled(m, e) && Handled(m, e).jobs.Keys == m.jobs.Keys
    ensures Sinking(Handled(m, e)) && OwedBy(Handled(m, e), order) < OwedBy(m, order)
    ensures forall o :: Hangs(m, o) ==> Hangs(Handled(m, e), o)
  {
    hide OnChild, OwedBy, Impending, Unending, ManagerOk;
    var j, v := m.jobs[n], VerdictOf(m, n);
    ImpendingInJob(j, i, v);
    e := ChildDid(n, i, Impends(j.procs[i]));
    var r := OnChild(j, i, e.what, v);
    ChildEventInManagerOk(m, n, i, e.what);
    SumAt(Owes, j.procs, i, r.procs[i]);
    OwedFalls(m, order, n, r);
    if Hangs(m, n) {
      StaysUnending(j, i, v);
    }
  }

  /** Every drain comes to rest on its own, and leaves the hanging jobs hanging. */
  lemma {:induction false} ComesToRest(m: Manager, order: seq<string>)
    returns (states: seq<Manager>, events: seq<Event>)
    requires Sinking(m) && IsOrder(order, m.jobs.Keys)
    ensures IsDrain(states, events) && states[0] == m && AtRest(states[|events|])
    ensures forall o :: Hangs(m, o) ==> Hangs(states[|events|], o)
    decreases OwedBy(m, order)
  {
    hide Handled, OwedBy, Hangs, Sinking, Impending;
    if AtRest(m) {
      return [m], [];
    }
    var n :| n in m.jobs && exists i :: 0 <= i < |m.jobs[n].procs| && Impending(m.jobs[n].procs[i]);
    var i :| 0 <= i < |m.jobs[n].procs| && Impending(m.jobs[n].procs[i]);
    var e := ImpendingEvent(m, n, i, order);
    var later, es := ComesToRest(Handled(m, e), order);
    states, events := [m] + later, [e] + es;
    assert states[|events|] == later[|es|];
  }

  /** A stop leaves no job STARTING or RUNNING; one that is out of date it does not make done. */
  lemma {:induction false} StopFromSinks(j: Job, i: nat, v: Verdict)
    requires i <= |j.procs| && (j.state.Stopping? || j == Mark(j.(state := JobState.Stopped), v))
    ensures var r := StopFrom(j, i, v).0; r.state.Stopping? || r == Mark(r.(state := JobState.Stopped), v)
    decreases |j.procs| - i
  {
    if i < |j.procs| && StopOne(j, i, v).1 {
      StopFromSinks(StopOne(j, i, v).0, i + 1, v);
    }
  }

  lemma StopSinks(j: Job, v: Verdict)
    requires JobOk(j) && !Marked(j)
    ensures var r := StopJob(j, v).0;
            Sinks(r) && (r.state.Stopping? || (v == KeepJob && Done(r)) || Marked(r)) && (v != KeepJob ==> !Done(r))
  {
    StopKeepsOk(j, v);
    if j.state.Starting? || j.state.Running? {
      StopFromSinks(j.(state := JobState.Stopping), 0, v);
    }
  }

  /** Whatever its stop does not throw for and is not sure to end, hangs. */
  lemma UnsureIsUnending(j: Job, v: Verdict)
    requires JobOk(j) && !Marked(j) && !Sure(j, v) && StopJob(j, v).1
    ensures Unending(StopJob(j, v).0, v)
  {
    StopSinks(j, v);
    StopThrowsExactlyWhen(j, v);
    if v == KeepJob && (j.state.Starting? || j.state.Running?) && j.procs != [] {
      var l :| 0 <= l < |j.procs| && LiveState(j.procs[l].state);
      StopOfLive(j, v);
      assert ProcOk(StopJob(j, v).0.procs[l], j.config);
      assert StopJob(j, v).0.procs[l].state.Stopping?;
    }
  }

  lemma ComesToHang(m: Manager, order: seq<string>)
    requires Safe(m) && IsOrder(order, m.jobs.Keys) && Stoppable(m, order) && !AllSure(m)
    ensures CanHang(m)
  {
    hide Sure, Unending, AtRest, Sinks, Done;
    KilledIs(m, order);
    var n :| n in m.jobs && !Sure(m.jobs[n], VerdictOf(m, n));
    UnsureIsUnending(m.jobs[n], VerdictOf(m, n));
    forall o | o in m.jobs
      ensures Sinks(Killed(m).jobs[o])
    {
      StopSinks(m.jobs[o], VerdictOf(m, o));
    }
    var states, events := ComesToRest(Killed(m), order);
    assert Hangs(Killed(m), n) && Hangs(states[|events|], n);
    UnendingIsNotDone(states[|events|], n);
  }

  lemma UnendingIsNotDone(m: Manager, n: string)
    requires Hangs(m, n)
    ensures !AllDone(m)
  {
  }

  /** The exact condition for a shutdown to be sure to finish, from every state of every run. It
      neither throws nor can hang if and only if every job is up to date and orderly, and has, when
      it has live children, a stop time or KILL as its stop signal. Otherwise `kill()` throws, or
      there is a drain, in which everything that is bound to happen has happened, that leaves the
      destructor waiting. */
  lemma ShutdownFinishesExactlyWhen(m: Manager, order: seq<string>)
    requires Safe(m) && IsOrder(order, m.jobs.Keys)
    ensures StopInOrder(m, order, true).1 && !CanHang(m) <==> AllSure(m)
  {
    hide Safe, AtRest, AllDone, Killed, Sure, Orderly;
    if AllSure(m) {
      SureIsOrderly(m);
      DrainStart(m, order);
      if CanHang(m) {
        var states, events :| IsDrain(states, events) && states[0] == Killed(m) &&
                              AtRest(states[|events|]) && !AllDone(states[|events|]);
        RestingIsDone(m, states, events, order);
      }
    } else if StopInOrder(m, order, true).1 {
      NoThrowIsStoppable(m, order);
      ComesToHang(m, order);
    }
  }

  lemma SureIsOrderly(m: Manager)
    requires AllSure(m)
    ensures AllOrderly(m)
  {
  }

  lemma NoThrowIsStoppable(m: Manager, order: seq<string>)
    requires IsOrder(order, m.jobs.Keys) && StopInOrder(m, order, true).1
    ensures Stoppable(m, order)
  {
    StopInOrderThrows(m, order, true);
  }

  /** In a clean state nothing throws, and two things are left that can go wrong: a job that is out
      of date, and one with live children that cannot be killed. */
  lemma DrainFinishesExactlyWhen(m: Manager, order: seq<string>)
    requires CleanState(m) && IsOrder(order, m.jobs.Keys)
    ensures StopInOrder(m, order, true).1
    ensures CanHang(m) <==> AnyStale(m) || AnyStubborn(m)
  {
    hide CanHang, StopInOrder;
    StopLoopIsClean(m, order, true);
    ShutdownFinishesExactlyWhen(m, order);
    forall n | n in m.jobs
      ensures Sure(m.jobs[n], VerdictOf(m, n)) <==>
                VerdictOf(m, n) == KeepJob && (Active(m.jobs[n]) ==> Killable(m.jobs[n].config))
    {
      SureWhenClean(m.jobs[n], VerdictOf(m, n));
    }
  }

  lemma SureWhenClean(j: Job, v: Verdict)
    requires JobOk(j) && Agree(j) && !Marked(j)
    ensures Sure(j, v) <==> v == KeepJob && (Active(j) ==> Killable(j.config))
  {
  }

  /** Such an input: one job, started with the daemon, that is stopped by TERM and given no time
      to stop. Its configuration is current, yet a child that ignores TERM keeps the daemon. */
  lemma NoStopTimeCanHang(c: JobConfig)
    requires WellFormed(c) && c.autostart && c.stopTime == 0 && c.stopSignal.TERM?
    ensures var m := StartedAll(Initial(map[c.name := c]));
            CleanState(m) && !AnyStale(m) && CanHang(m)
  {
    var m := StartedAll(Initial(map[c.name := c]));
    BootClean(map[c.name := c]);
    BootSafe(map[c.name := c]);
    assert Active(m.jobs[c.name]) && !Killable(m.jobs[c.name].config);
    DrainFinishesExactlyWhen(m, [c.name]);
  }
}
