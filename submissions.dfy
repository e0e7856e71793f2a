/**
  The workflow engine as the generator sees it. A submitted task is an
  entry of an append-only log; its handle (the future the engine returns)
  is its position in that log. Filter functions read back, in submission
  order, the tasks of one kind.
*/
module Submissions {
  import opened Wrappers

  type Handle = nat

  /** A run of consecutive detectors of one visit, rendered by one CCD job. */
  datatype Chunk = Chunk(visit: int, dets: seq<int>)

  /**
    A submitted task, recorded by the arguments the generator chose for
    it: the visit; for a CCD job also the first and last detector, the
    file count, the detectors themselves and the prerequisite futures;
    for a cleanup task the CCD futures it waits for. The names, command
    lines, reservations and log files passed to the engine are functions
    of these (see `Planner.Render`).
  */
  datatype Submission =
    | PsfJob(visit: int)
    | CcdJob(visit: int, detStart: int, detEnd: int, nfiles: int, dets: seq<int>, inputs: seq<Handle>)
    | RmAtmPsfJob(visit: int, inputs: seq<Handle>)

  /** A reservation in the executor's units: memory in MB, cores, disk. */
  datatype Resources = Resources(memory: int, cores: int, disk: int)

  /**
    One call into the engine: a bash app with its name, executor, command
    line, reservation (`None` when none is passed) and the log file that
    receives stdout and stderr in append mode; or a python app with its
    name and executor.
  */
  datatype AppCall =
    | BashCall(name: string, executor: string, command: string,
               resources: Option<Resources>, logFile: string)
    | PythonCall(name: string, executor: string)

  /** `os.path.join(a, b)` for POSIX paths. */
  function PathJoin(a: string, b: string): (r: string)
    ensures |b| > 0 && b[0] == '/' ==> r == b
    ensures (|b| == 0 || b[0] != '/') && |a| > 0 && a[|a| - 1] != '/' ==> r == a + "/" + b
  {
    if |b| > 0 && b[0] == '/' then b
    else if a == [] || a[|a| - 1] == '/' then a + b
    else a + "/" + b
  }

  /** Joined to one directory, different relative names give different paths. */
  lemma PathJoinInjective(a: string, b1: string, b2: string)
    requires (|b1| == 0 || b1[0] != '/') && (|b2| == 0 || b2[0] != '/')
    requires b1 != b2
    ensures PathJoin(a, b1) != PathJoin(a, b2)
  {
    var p := if a == [] || a[|a| - 1] == '/' then a else a + "/";
    assert PathJoin(a, b1) == p + b1 && PathJoin(a, b2) == p + b2;
    assert (p + b1)[|p|..] == b1 && (p + b2)[|p|..] == b2;
  }

  // ---------------------------------------------------------------------
  // Reading the log back

  /** Which entries a filter keeps. */
  datatype Kind = AnyCcd | CcdOf(v: int) | PsfOf(v: int) | AnyRm

  predicate Keeps(k: Kind, e: Submission) {
    match k
    case AnyCcd => e.CcdJob?
    case CcdOf(v) => e.CcdJob? && e.visit == v
    case PsfOf(v) => e.PsfJob? && e.visit == v
    case AnyRm => e.RmAtmPsfJob?
  }

  /** The handles of the entries `k` keeps, in submission order. */
  function Handles(log: seq<Submission>, k: Kind): (r: seq<Handle>)
    ensures forall h: int :: h in r <==> 0 <= h < |log| && Keeps(k, log[h])
  {
    if log == [] then []
    else
      var n := |log| - 1;
      if Keeps(k, log[n]) then Handles(log[..n], k) + [n] else Handles(log[..n], k)
  }

  /** The chunks of the CCD jobs, in submission order. */
  function CcdPlan(log: seq<Submission>): seq<Chunk> {
    if log == [] then []
    else
      var n := |log| - 1;
      if log[n].CcdJob? then CcdPlan(log[..n]) + [Chunk(log[n].visit, log[n].dets)] else CcdPlan(log[..n])
  }

  /** The visits of the cleanup tasks, in submission order. */
  function RmVisits(log: seq<Submission>): seq<int> {
    if log == [] then []
    else
      var n := |log| - 1;
      if log[n].RmAtmPsfJob? then RmVisits(log[..n]) + [log[n].visit] else RmVisits(log[..n])
  }

  /** Submitting one more task extends each reading by that task alone. */
  lemma SubmitOne(log: seq<Submission>, e: Submission)
    ensures forall k :: Handles(log + [e], k) == if Keeps(k, e) then Handles(log, k) + [|log|] else Handles(log, k)
    ensures CcdPlan(log + [e]) == if e.CcdJob? then CcdPlan(log) + [Chunk(e.visit, e.dets)] else CcdPlan(log)
    ensures RmVisits(log + [e]) == if e.RmAtmPsfJob? then RmVisits(log) + [e.visit] else RmVisits(log)
  {
    assert (log + [e])[..|log|] == log;
  }

  /** Every handle a filter returns names an entry of the log, and the filter keeps entries in order. */
  lemma {:induction false} HandlesAscending(log: seq<Submission>, k: Kind)
    ensures forall i, j :: 0 <= i < j < |Handles(log, k)| ==> Handles(log, k)[i] < Handles(log, k)[j]
  {
    if log != [] {
      var n := |log| - 1;
      HandlesAscending(log[..n], k);
      var init := Handles(log[..n], k);
      forall i | 0 <= i < |init| ensures init[i] < n {
        assert init[i] in init;
      }
    }
  }

  /** As many CCD handles as CCD chunks. */
  lemma {:induction false} CcdHandlesMatchPlan(log: seq<Submission>)
    ensures |Handles(log, AnyCcd)| == |CcdPlan(log)|
  {
    if log != [] {
      CcdHandlesMatchPlan(log[..|log| - 1]);
    }
  }

  /** As many cleanup handles as cleanup visits. */
  lemma {:induction false} RmHandlesMatchVisits(log: seq<Submission>)
    ensures |Handles(log, AnyRm)| == |RmVisits(log)|
  {
    if log != [] {
      RmHandlesMatchVisits(log[..|log| - 1]);
    }
  }
}
