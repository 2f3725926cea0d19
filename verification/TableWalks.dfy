/** The loops over the job table, turn by turn: what one turn does not change, and when there
    is nothing left to do. */
module TableWalks {
  import opened Sums
  import opened JobConfigs
  import opened SupervisorSpec
  import opened SupervisorSafety

  lemma CreateMissingStep(m: Manager, name: string)
    requires name in m.config && name !in m.jobs
    ensures CreatedMissing(SetJob(m, name, CreatedJob(m.config[name]))) == CreatedMissing(m)
  {
    var r := SetJob(m, name, CreatedJob(m.config[name]));
    assert CreatedMissing(r).jobs == CreatedMissing(m).jobs;
  }

  lemma NothingMissing(m: Manager)
    requires m.config.Keys <= m.jobs.Keys
    ensures CreatedMissing(m) == m
  {
    assert CreatedMissing(m).jobs == m.jobs;
  }

  function Erased(m: Manager, name: string): Manager {
    m.(jobs := m.jobs - {name})
  }

  function MarkedNames(m: Manager): set<string> {
    set n | n in m.jobs && Marked(m.jobs[n])
  }

  /** The iterator has `ahead` still to visit, and every marked job lies ahead of it. */
  ghost predicate Walking(m: Manager, ahead: seq<string>) {
    && MarksBacked(m) && Distinct(ahead)
    && (forall n :: n in ahead ==> n in m.jobs)
    && (forall n :: n in MarkedNames(m) ==> n in ahead)
  }

  lemma WalkStarts(m: Manager, order: seq<string>)
    requires ManagerOk(m) && IsOrder(order, m.jobs.Keys)
    ensures Walking(m, order)
  {
  }

  lemma TailKeeps(ahead: seq<string>, n: string)
    requires Distinct(ahead) && ahead != []
    ensures n in ahead[1..] <==> n in ahead && n != ahead[0]
  {
    assert ahead == [ahead[0]] + ahead[1..];
  }

  lemma SkipTurn(m: Manager, ahead: seq<string>)
    requires Walking(m, ahead) && ahead != [] && !Marked(m.jobs[ahead[0]])
    ensures Walking(m, ahead[1..])
  {
    forall n | n in MarkedNames(m)
      ensures n in ahead[1..]
    {
      TailKeeps(ahead, n);
    }
  }

  lemma RemoveTurn(m: Manager, ahead: seq<string>)
    requires Walking(m, ahead) && ahead != [] && m.jobs[ahead[0]].state.Remove?
    ensures var r := Erased(m, ahead[0]);
            Walking(r, ahead[1..]) && Updated(r) == Updated(m) && MarkedNames(r) < MarkedNames(m)
  {
    var r := Erased(m, ahead[0]);
    assert Updated(r).jobs == Updated(m).jobs;
    forall n
      ensures n in ahead[1..] <==> n in ahead && n != ahead[0]
    {
      TailKeeps(ahead, n);
    }
    assert MarkedNames(r) == MarkedNames(m) - {ahead[0]};
  }

  function Replaced(m: Manager, name: string): Manager
    requires name in m.config
  {
    SetJob(m, name, CreatedJob(m.config[name]))
  }

  lemma SetTwice(m: Manager, name: string, a: Job, b: Job)
    ensures SetJob(SetJob(m, name, a), name, b) == SetJob(m, name, b)
  {
    assert m.jobs[name := a][name := b] == m.jobs[name := b];
  }

  lemma EraseThenSet(m: Manager, name: string, j: Job)
    ensures SetJob(Erased(m, name), name, j) == SetJob(m, name, j)
  {
    assert (m.jobs - {name})[name := j] == m.jobs[name := j];
  }

  lemma SetUnmarked(m: Manager, name: string, j: Job)
    requires MarksBacked(m) && name in m.jobs && !Marked(j)
    ensures MarksBacked(SetJob(m, name, j))
    ensures MarkedNames(SetJob(m, name, j)) == MarkedNames(m) - {name}
  {
  }

  lemma SetReplaced(m: Manager, name: string, j: Job)
    requires name in m.jobs && m.jobs[name].state.Replace? && name in m.config
    requires j == CreatedJob(m.config[name]) && !Marked(j)
    ensures Updated(SetJob(m, name, j)) == Updated(m)
  {
    var a, b := Updated(SetJob(m, name, j)).jobs, Updated(m).jobs;
    assert a.Keys == b.Keys;
    assert forall n :: n in a ==> a[n] == b[n];
    assert a == b;
  }

  lemma CreatedUnmarked(c: JobConfig)
    ensures !Marked(CreatedJob(c))
  {
  }

  lemma ReplaceKeepsMarks(m: Manager, name: string)
    requires MarksBacked(m) && name in m.jobs && m.jobs[name].state.Replace? && name in m.config
    ensures MarksBacked(Replaced(m, name)) && Updated(Replaced(m, name)) == Updated(m)
    ensures MarkedNames(Replaced(m, name)) == MarkedNames(m) - {name}
  {
    var j := CreatedJob(m.config[name]);
    CreatedUnmarked(m.config[name]);
    SetUnmarked(m, name, j);
    SetReplaced(m, name, j);
  }

  /** The new job lands behind the iterator, or ahead of it at any place. */
  lemma ReplaceTurn(m: Manager, ahead: seq<string>, at: nat)
    requires Walking(m, ahead) && ahead != [] && m.jobs[ahead[0]].state.Replace? && at < |ahead|
    ensures ahead[0] in m.config
    ensures var r, rest := Replaced(m, ahead[0]), ahead[1..];
            && Walking(r, rest) && Walking(r, rest[..at] + [ahead[0]] + rest[at..])
            && Updated(r) == Updated(m) && MarkedNames(r) < MarkedNames(m)
  {
    var name, rest := ahead[0], ahead[1..];
    assert name in m.config by {
      assert MarkFits(m.jobs[name], VerdictOf(m, name));
    }
    var r := Replaced(m, name);
    ReplaceKeepsMarks(m, name);
    forall n
      ensures n in rest <==> n in ahead && n != name
    {
      TailKeeps(ahead, n);
    }
    InsertKeepsDistinct(rest, name, at);
  }

  lemma RemoveKeepsOk(m: Manager, name: string)
    requires ManagerOk(m)
    ensures ManagerOk(Erased(m, name))
  {
  }

  lemma ReplaceKeepsOk(m: Manager, name: string)
    requires ManagerOk(m) && name in m.config
    ensures ManagerOk(Replaced(m, name))
  {
    CreatedJobOk(m.config[name]);
    SetJobKeepsOk(m, name, CreatedJob(m.config[name]));
  }

  lemma InsertKeepsDistinct(rest: seq<string>, name: string, at: nat)
    requires Distinct(rest) && name !in rest && at <= |rest|
    ensures Distinct(rest[..at] + [name] + rest[at..])
    ensures forall n :: n in rest[..at] + [name] + rest[at..] <==> n == name || n in rest
  {
    var s := rest[..at] + [name] + rest[at..];
    assert rest == rest[..at] + rest[at..];
    assert forall i :: 0 <= i < |s| ==> s[i] == if i < at then rest[i] else if i == at then name else rest[i - 1];
  }

  lemma WalkEnds(m: Manager)
    requires Walking(m, [])
    ensures Updated(m) == m
  {
    assert forall n :: n in m.jobs && Marked(m.jobs[n]) ==> n in MarkedNames(m);
    assert Updated(m).jobs == m.jobs;
  }
}
