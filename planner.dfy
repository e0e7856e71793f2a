/**
  The job generator as values: its fixed settings (`Config`), its mutable
  bookkeeping (`State`), and one call of `get_job_future` as the function
  `Step`. The class in module Generator performs the same updates in place
  and is proved to agree with `Step`; everything proved about `Step` and
  `Drive` here and in module Invariants therefore holds of the class.
*/
module Planner {
  import opened Wrappers
  import opened Formatting
  import opened PyList
  import opened Catalog
  import opened Submissions

  function Min(a: int, b: int): int {
    if a <= b then a else b
  }

  // ---------------------------------------------------------------------
  // Chunks of a detector list

  /** The runs of `n` consecutive detectors that the cursor emits, the last one possibly shorter. */
  function Chunks(list: seq<int>, n: int): seq<seq<int>>
    requires n >= 1
    decreases |list|
  {
    if list == [] then []
    else [list[..Min(n, |list|)]] + Chunks(list[Min(n, |list|)..], n)
  }

  function Flatten(xss: seq<seq<int>>): seq<int> {
    if xss == [] then [] else xss[0] + Flatten(xss[1..])
  }

  /** Laid end to end, the chunks give back the list. */
  lemma {:induction false} ChunksConcat(list: seq<int>, n: int)
    requires n >= 1
    ensures Flatten(Chunks(list, n)) == list
    decreases |list|
  {
    if list != [] {
      var k := Min(n, |list|);
      ChunksConcat(list[k..], n);
      assert Chunks(list, n)[1..] == Chunks(list[k..], n);
      assert list[..k] + list[k..] == list;
    }
  }

  /** Every chunk holds between 1 and `n` detectors. */
  lemma {:induction false} ChunkSizes(list: seq<int>, n: int)
    requires n >= 1
    ensures forall j :: 0 <= j < |Chunks(list, n)| ==> 1 <= |Chunks(list, n)[j]| <= n
    decreases |list|
  {
    if list != [] {
      var k := Min(n, |list|);
      ChunkSizes(list[k..], n);
      forall j | 1 <= j < |Chunks(list, n)| ensures Chunks(list, n)[j] == Chunks(list[k..], n)[j - 1] {
      }
    }
  }

  /** Where chunk `p` starts: `p * n`, as the cursor reaches it by adding `n` once per chunk (line 189). */
  function Offset(p: nat, n: nat): nat {
    if p == 0 then 0 else Offset(p - 1, n) + n
  }

  lemma {:induction false} OffsetIsProduct(p: nat, n: nat)
    ensures Offset(p, n) == p * n
  {
    if p > 0 {
      OffsetIsProduct(p - 1, n);
      assert p * n == (p - 1) * n + n;
    }
  }

  /** Chunk `p` exists exactly when its offset is still inside the list. */
  lemma {:induction false} ChunkIndex(list: seq<int>, n: nat, p: nat)
    requires n >= 1
    ensures p < |Chunks(list, n)| <==> Offset(p, n) < |list|
    decreases p
  {
    if list != [] && p > 0 {
      var k := Min(n, |list|);
      ChunkIndex(list[k..], n, p - 1);
      OffsetShift(p, n);
    }
  }

  /** Counting from the second chunk on shifts every offset by `n`. */
  lemma {:induction false} OffsetShift(p: nat, n: nat)
    requires p >= 1
    ensures Offset(p, n) == n + Offset(p - 1, n)
  {
  }

  /** Chunk `p` is the slice that starts at its offset, cut at the end of the list. */
  lemma {:induction false} ChunkAt(list: seq<int>, n: nat, p: nat)
    requires n >= 1
    requires Offset(p, n) < |list|
    ensures p < |Chunks(list, n)|
    ensures Chunks(list, n)[p] == list[Offset(p, n)..Min(Offset(p, n) + n, |list|)]
    decreases p
  {
    ChunkIndex(list, n, p);
    if p > 0 {
      ChunkAt(list[n..], n, p - 1);
      assert Chunks(list, n)[p] == Chunks(list[n..], n)[p - 1];
    }
  }

  /** Every chunk but the last holds exactly `n` detectors. */
  lemma ChunkFull(list: seq<int>, n: nat, p: nat)
    requires n >= 1 && p + 1 < |Chunks(list, n)|
    ensures |Chunks(list, n)[p]| == n
  {
    ChunkIndex(list, n, p + 1);
    OffsetShift(p + 1, n);
    ChunkAt(list, n, p);
  }

  /** There are `ceil(len / n)` chunks, hence never more chunks than detectors. */
  lemma ChunkCount(list: seq<int>, n: nat)
    requires n >= 1
    ensures |list| <= |Chunks(list, n)| * n
    ensures |Chunks(list, n)| > 0 ==> (|Chunks(list, n)| - 1) * n < |list|
    ensures |Chunks(list, n)| <= |list|
  {
    var m := |Chunks(list, n)|;
    ChunkIndex(list, n, m);
    OffsetIsProduct(m, n);
    if m > 0 {
      ChunkIndex(list, n, m - 1);
      OffsetIsProduct(m - 1, n);
    }
    ChunkIndex(list, n, |list|);
    OffsetIsProduct(|list|, n);
    assert |list| * n >= |list| * 1;
  }

  lemma {:induction false} InFlatten(xss: seq<seq<int>>, j: int, y: int)
    requires 0 <= j < |xss| && y in xss[j]
    ensures y in Flatten(xss)
  {
    if j > 0 {
      InFlatten(xss[1..], j - 1, y);
    }
  }

  /** Over an ascending list the chunks are disjoint and in order: all of an earlier chunk lies below a later one. */
  lemma {:induction false} ChunksAscending(list: seq<int>, n: int)
    requires n >= 1
    requires StrictlyAscending(list)
    ensures forall i, j, x, y :: 0 <= i < j < |Chunks(list, n)| && x in Chunks(list, n)[i] && y in Chunks(list, n)[j] ==> x < y
    decreases |list|
  {
    if list != [] {
      var k := Min(n, |list|);
      var rest := Chunks(list[k..], n);
      assert StrictlyAscending(list[k..]);
      ChunksAscending(list[k..], n);
      ChunksConcat(list[k..], n);
      forall i, j, x, y | 0 <= i < j < |Chunks(list, n)| && x in Chunks(list, n)[i] && y in Chunks(list, n)[j]
        ensures x < y
      {
        assert Chunks(list, n)[j] == rest[j - 1];
        if i == 0 {
          InFlatten(rest, j - 1, y);
          var a :| 0 <= a < k && list[a] == x;
          var b :| 0 <= b < |list| - k && list[k..][b] == y;
          assert list[k + b] == y;
        } else {
          assert Chunks(list, n)[i] == rest[i - 1];
        }
      }
    }
  }

  // ---------------------------------------------------------------------
  // Settings and bookkeeping

  /**
    The generator's settings, fixed at construction. `detLists` and
    `numJobs` are what `_assemble_det_lists` computed; `atmPsfDir` and
    `atmPsfFiles` give the PSF directory and the names in it.
  */
  datatype Config = Config(
    imsimYaml: string,
    visits: seq<int>,
    nfiles: int,
    nproc: int,
    targetDets: set<int>,
    detLists: map<int, seq<int>>,
    numJobs: nat,
    gbPerCcd: int,
    gbPerPsf: int,
    verbosity: int,
    logDir: string,
    cleanUpAtmPsfs: bool,
    bashAppExecutor: string,
    atmPsfDir: string,
    atmPsfFiles: set<string>)

  /**
    The fields `get_job_future` updates, plus the engine's log of
    submitted tasks. `ccdFutures` is a `defaultdict(list)`: a visit
    without an entry reads as `[]` (see `Lookup`).
  */
  datatype State = State(
    visitIndex: nat,
    currentVisit: int,
    launchedJobs: nat,
    detIndex: int,
    psfFutures: map<int, seq<Handle>>,
    ccdFutures: map<int, seq<Handle>>,
    rmAtmPsfFutures: seq<Handle>,
    log: seq<Submission>)

  /** What one call returns: a CCD job's future, `None`, or the IndexError of line 148. */
  datatype Outcome = Launched(h: Handle) | NoJob | DetIndexError

  datatype StepResult = StepResult(s: State, out: Outcome)

  predicate VisitsListed(c: Config) {
    forall v :: v in c.visits ==> v in c.detLists
  }

  /** What every call needs in order to look up the current visit's list. */
  predicate StateOk(c: Config, s: State) {
    VisitsListed(c) && s.currentVisit in c.detLists
  }

  /** The settings the theorems assume: at least one visit, all of them listed, chunks of at least one detector. */
  predicate ConfigOk(c: Config) {
    c.nfiles >= 1 && |c.visits| >= 1 && VisitsListed(c)
  }

  /** Lines 52-59. */
  function Init(c: Config): State
    requires |c.visits| >= 1
  {
    State(0, c.visits[0], 0, 0, map[], map[], [], [])
  }

  /** A `defaultdict(list)` read. */
  function Lookup(m: map<int, seq<Handle>>, v: int): seq<Handle> {
    if v in m then m[v] else []
  }

  // ---------------------------------------------------------------------
  // The tasks

  /** The CCD job of one chunk: its first and last detector, its size, its detectors. */
  function CcdEntry(visit: int, chunk: seq<int>, inputs: seq<Handle>): Submission
    requires chunk != []
  {
    CcdJob(visit, chunk[0], chunk[|chunk| - 1], |chunk|, chunk, inputs)
  }

  /** Lines 96-97 and 157-161: a reservation is passed only to the "work_queue" executor. */
  function Reservation(c: Config, memory: int): Option<Resources> {
    if c.bashAppExecutor == "work_queue" then Some(Resources(memory, 1, 0)) else None
  }

  /** Line 151: `f"{visit:08d}_{det_start:03d}_{det_end:03d}"`. */
  function JobName(visit: int, detStart: int, detEnd: int): string {
    ZeroPad(visit, 8) + "_" + ZeroPad(detStart, 3) + "_" + ZeroPad(detEnd, 3)
  }

  /** Lines 110-111. */
  function PsfCommand(c: Config, visit: int): string {
    "time galsim -v 2 " + c.imsimYaml + " output.nfiles=0 input.opsim_data.visit=" + IntToString(visit)
  }

  /** Lines 183-187. */
  function CcdCommand(c: Config, visit: int, nfiles: int, nproc: int, detList: string): string {
    "galsim -v " + IntToString(c.verbosity) + " " + c.imsimYaml + " "
    + "input.opsim_data.visit=" + IntToString(visit) + " "
    + "output.nfiles=" + IntToString(nfiles) + " "
    + "output.nproc=" + IntToString(nproc) + " "
    + "output.det_num='{type: List, items: " + detList + "}'"
  }

  /**
    The engine call made for a submitted task. A PSF job (lines 91-112)
    is named `"<visit>_psf"` and reserves `GB_per_PSF * 1024` MB. A CCD
    job (lines 151-187) is named after its visit and detector range,
    reserves `GB_per_CCD * 1024 * nproc` MB and runs `min(nfiles, nproc)`
    processes over its detectors. Both log to `<log_dir>/<name>.log`. A
    cleanup task (lines 125-134) is a python app named
    `"rm_atm_psf_<visit>"` on the "thread_pool" executor.
  */
  function Render(c: Config, e: Submission): AppCall {
    match e
    case PsfJob(v) =>
      var name := IntToString(v) + "_psf";
      BashCall(name, c.bashAppExecutor, PsfCommand(c, v),
               Reservation(c, c.gbPerPsf * 1024), PathJoin(c.logDir, name + ".log"))
    case CcdJob(v, detStart, detEnd, nfiles, dets, _) =>
      var name := JobName(v, detStart, detEnd);
      BashCall(name, c.bashAppExecutor,
               CcdCommand(c, v, nfiles, Min(nfiles, c.nproc), FormatIntList(dets)),
               Reservation(c, c.gbPerCcd * 1024 * c.nproc), PathJoin(c.logDir, name + ".log"))
    case RmAtmPsfJob(v, _) => PythonCall("rm_atm_psf_" + IntToString(v), "thread_pool")
  }

  // ---------------------------------------------------------------------
  // One call of get_job_future, phase by phase

  /** Lines 82-112: `[]` when a PSF file for the visit exists, else the handle of a new PSF job. */
  function AtmPsfFuture(c: Config, log: seq<Submission>, visit: int): (seq<Handle>, seq<Submission>) {
    if PsfPresent(c.atmPsfFiles, visit) then ([], log)
    else ([|log|], log + [PsfJob(visit)])
  }

  /** Lines 121-134: with clean-up on, submit the cleanup task of the visit just handled. */
  function AppendCleanup(c: Config, s: State): State {
    if c.cleanUpAtmPsfs then
      var v := s.currentVisit;
      var inputs := Lookup(s.ccdFutures, v);
      s.(ccdFutures := s.ccdFutures[v := inputs],
         log := s.log + [RmAtmPsfJob(v, inputs)],
         rmAtmPsfFutures := s.rmAtmPsfFutures + [|s.log|])
    else s
  }

  /** Lines 136-141: move to the next visit; past the last one only the index moves. */
  function Advance(c: Config, s: State): State {
    var i := s.visitIndex + 1;
    if i < |c.visits| then s.(visitIndex := i, currentVisit := c.visits[i], detIndex := 0)
    else s.(visitIndex := i)
  }

  /** Lines 143-146: resolve the current visit's PSF prerequisite once. */
  function MemoPsf(c: Config, s: State): State {
    var v := s.currentVisit;
    if v in s.psfFutures then s
    else
      var (handles, log) := AtmPsfFuture(c, s.log, v);
      s.(psfFutures := s.psfFutures[v := handles], log := log)
  }

  /** Lines 147-195: submit the CCD job for the detectors from the cursor on. */
  function EmitChunk(c: Config, s: State): StepResult
    requires StateOk(c, s) && s.currentVisit in s.psfFutures
  {
    var v := s.currentVisit;
    var detList := c.detLists[v];
    var d := s.detIndex;
    var detEndIndex := Min(d + c.nfiles, |detList|) - 1;
    var detStart := PyIndex(detList, d);
    var detEnd := PyIndex(detList, detEndIndex);
    if detStart.Some? && detEnd.Some? then
      var job := CcdJob(v, detStart.value, detEnd.value, detEndIndex - d + 1,
                        PySlice(detList, d, detEndIndex + 1), s.psfFutures[v]);
      var h := |s.log|;
      StepResult(s.(detIndex := d + c.nfiles,
                    launchedJobs := s.launchedJobs + 1,
                    log := s.log + [job],
                    ccdFutures := s.ccdFutures[v := Lookup(s.ccdFutures, v) + [h]]),
                 Launched(h))
    else StepResult(s, DetIndexError)
  }

  /** Lines 114-195: one call of `get_job_future`. */
  function Step(c: Config, s: State): (r: StepResult)
    requires StateOk(c, s)
    ensures StateOk(c, r.s)
  {
    if s.launchedJobs > c.numJobs then StepResult(s, NoJob)
    else if s.detIndex >= |c.detLists[s.currentVisit]| then
      var s1 := Advance(c, AppendCleanup(c, s));
      if s1.visitIndex >= |c.visits| then StepResult(s1, NoJob)
      else EmitChunk(c, MemoPsf(c, s1))
    else EmitChunk(c, MemoPsf(c, s))
  }

  /** The loop of `run` after `k` calls: the state, the futures collected, and whether a call raised. */
  datatype Run = Run(s: State, collected: seq<Handle>, crashed: bool)

  /** Lines 201-203: one more call of the loop; once a call has raised, there is none. */
  function NextRun(c: Config, prev: Run): (r: Run)
    requires StateOk(c, prev.s)
    ensures StateOk(c, r.s)
  {
    if prev.crashed then prev
    else
      var r := Step(c, prev.s);
      Run(r.s, prev.collected + (if r.out.Launched? then [r.out.h] else []), r.out.DetIndexError?)
  }

  /** Lines 200-203: `k` calls of `get_job_future`; an IndexError ends the loop. */
  function Drive(c: Config, s: State, k: nat): (r: Run)
    requires StateOk(c, s)
    ensures StateOk(c, r.s)
  {
    if k == 0 then Run(s, [], false) else NextRun(c, Drive(c, s, k - 1))
  }

  /** Lines 205-210: blocking waits on the cleanup tasks if there are any, else on the CCD jobs. */
  function Awaited(block: bool, rmAtmPsfFutures: seq<Handle>, collected: seq<Handle>): seq<Handle> {
    if !block then []
    else if rmAtmPsfFutures != [] then rmAtmPsfFutures
    else collected
  }

  // ---------------------------------------------------------------------
  // The work plan the cursor walks through

  /** The detector list of visit number `i`. */
  function DetListAt(c: Config, i: nat): seq<int>
    requires VisitsListed(c) && i < |c.visits|
  {
    var v := c.visits[i];
    assert v in c.visits;
    c.detLists[v]
  }

  /** Each detector list of `xss` as a chunk of visit `v`. */
  function Tag(v: int, xss: seq<seq<int>>): (r: seq<Chunk>)
    ensures |r| == |xss|
  {
    if xss == [] then [] else Tag(v, xss[..|xss| - 1]) + [Chunk(v, xss[|xss| - 1])]
  }

  lemma {:induction false} TagAt(v: int, xss: seq<seq<int>>, j: nat)
    requires j < |xss|
    ensures Tag(v, xss)[j] == Chunk(v, xss[j])
    decreases |xss|
  {
    if j < |xss| - 1 {
      TagAt(v, xss[..|xss| - 1], j);
    }
  }

  /** The chunks of visit number `i`, tagged with the visit. */
  function VisitChunks(c: Config, i: nat): seq<Chunk>
    requires ConfigOk(c) && i < |c.visits|
  {
    Tag(c.visits[i], Chunks(DetListAt(c, i), c.nfiles))
  }

  /** The chunks of the first `i` visits, in visit order. */
  function PlanUpTo(c: Config, i: nat): seq<Chunk>
    requires ConfigOk(c) && i <= |c.visits|
  {
    if i == 0 then [] else PlanUpTo(c, i - 1) + VisitChunks(c, i - 1)
  }

  function Plan(c: Config): seq<Chunk>
    requires ConfigOk(c)
  {
    PlanUpTo(c, |c.visits|)
  }

  /** The visit the cursor is on at visit index `j`: past the end it stays on the last visit. */
  function CursorVisit(c: Config, j: nat): int
    requires |c.visits| >= 1
  {
    c.visits[Min(j, |c.visits| - 1)]
  }

  /** The visits of the cleanup tasks after the visit index has been advanced `k` times. */
  function CleanupVisits(c: Config, k: nat): seq<int>
    requires |c.visits| >= 1
  {
    if k == 0 then [] else CleanupVisits(c, k - 1) + [CursorVisit(c, k - 1)]
  }

  function Repeat(x: int, k: nat): (r: seq<int>)
    ensures |r| == k && forall j :: 0 <= j < k ==> r[j] == x
  {
    if k == 0 then [] else Repeat(x, k - 1) + [x]
  }
}
