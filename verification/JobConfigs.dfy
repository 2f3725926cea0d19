/** Job configurations: the parsed record, its equality, and the canonical order of the
    exit codes that makes that equality insensitive to how the file lists them. */
module JobConfigs {
  import opened Options

  datatype RestartPolicy = Never | Always | OnFailure

  datatype Signal = INT | TERM | HUP | QUIT | KILL | USR1 | USR2

  datatype JobConfig = JobConfig(
    name: string,
    cmd: string,
    workingDir: string,
    numprocs: int,
    umask: int,
    autostart: bool,
    restartPolicy: RestartPolicy,
    exitCodes: seq<int>,
    startRetries: int,
    startTime: int,
    stopTime: int,
    stopSignal: Signal,
    out: Option<string>,
    err: Option<string>,
    env: map<string, string>)

  type ConfigMap = map<string, JobConfig>

  /** What the daemon relies on and the parser does not check. */
  predicate WellFormed(c: JobConfig) {
    c.numprocs >= 1 && c.startRetries >= 0 && c.startTime >= 0 && c.stopTime >= 0
  }

  /** The YAML node of the `exitcodes` option. */
  datatype ExitCodesNode = Undefined | Scalar(code: int) | Sequence(codes: seq<int>)

  ghost predicate Sorted(s: seq<int>) {
    forall i, j :: 0 <= i < j < |s| ==> s[i] <= s[j]
  }

  /** Moves the last element of a sorted prefix extended by one to its place. */
  method InsertLast(s: seq<int>) returns (r: seq<int>)
    requires |s| > 0 && Sorted(s[..|s| - 1])
    ensures Sorted(r) && multiset(r) == multiset(s)
  {
    var k := |s| - 1;
    r := s;
    while k > 0 && r[k - 1] > r[k]
      invariant 0 <= k < |r| == |s|
      invariant multiset(r) == multiset(s)
      invariant forall i, j :: 0 <= i < j < |r| && i != k && j != k ==> r[i] <= r[j]
      invariant forall j :: k < j < |r| ==> r[k] <= r[j]
    {
      r := r[k - 1 := r[k]][k := r[k - 1]];
      k := k - 1;
    }
  }

  method SortCodes(codes: seq<int>) returns (r: seq<int>)
    ensures Sorted(r) && multiset(r) == multiset(codes)
  {
    r := [];
    for i := 0 to |codes|
      invariant Sorted(r) && multiset(r) == multiset(codes[..i])
    {
      assert codes[..i + 1] == codes[..i] + [codes[i]];
      assert (r + [codes[i]])[..|r|] == r;
      r := InsertLast(r + [codes[i]]);
    }
    assert codes[..|codes|] == codes;
  }

  method ParseExitCodes(node: ExitCodesNode) returns (r: seq<int>)
    ensures match node
            case Undefined => r == [0]
            case Scalar(code) => r == [code]
            case Sequence(codes) => Sorted(r) && multiset(r) == multiset(codes)
  {
    if node.Undefined? {
      return [0];
    }
    if node.Scalar? {
      r := SortCodes([node.code]);
      SortedIsCanonical(r, [node.code]);
    } else {
      r := SortCodes(node.codes);
    }
  }

  lemma HeadIsLeast(a: seq<int>, b: seq<int>)
    requires Sorted(a) && a != [] && multiset(a) == multiset(b)
    ensures b != [] && a[0] <= b[0]
  {
    assert a[0] in multiset(b);
    assert b[0] in multiset(a);
  }

  lemma TailBag(a: seq<int>)
    requires a != []
    ensures multiset(a[1..]) == multiset(a) - multiset{a[0]}
  {
    assert a == [a[0]] + a[1..];
  }

  /** Sorted sequences with the same elements are equal, so the parsed field is determined by
      the bag of listed codes: two files that list them in another order compare equal. */
  lemma {:induction false} SortedIsCanonical(a: seq<int>, b: seq<int>)
    requires Sorted(a) && Sorted(b) && multiset(a) == multiset(b)
    ensures a == b
  {
    if a == [] {
      assert b == [] by {
        if b != [] {
          HeadIsLeast(b, a);
        }
      }
    } else {
      HeadIsLeast(a, b);
      HeadIsLeast(b, a);
      TailBag(a);
      TailBag(b);
      SortedIsCanonical(a[1..], b[1..]);
      assert a == [a[0]] + a[1..] == b;
    }
  }
}
