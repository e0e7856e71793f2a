/**
  What `run` does (lines 197-210): `num_jobs + 1` calls of
  `get_job_future` from the state `__init__` leaves, then the blocking
  wait. Under distinct visits, the calls raise exactly when a visit after
  the first has no detector left; otherwise every chunk of the work plan
  is submitted once, in plan order. For any visits, the guard of line
  115 never fires during `run`.
*/
module Runs {
  import opened Catalog
  import opened Submissions
  import opened Planner
  import opened Invariants

  /** `num_jobs` as `_assemble_det_lists` computes it (line 73): remaining detectors summed over the distinct visits. */
  ghost predicate JobsCounted(c: Config)
    requires ConfigOk(c)
  {
    c.numJobs == SumLengths(c.detLists, Distinct(c.visits))
  }

  /** The chunks of the first `i` visits are no more than their detectors. */
  lemma {:induction false} PlanUpToAtMostDets(c: Config, i: nat)
    requires ConfigOk(c) && i <= |c.visits|
    ensures |PlanUpTo(c, i)| <= SumLengths(c.detLists, c.visits[..i])
  {
    if i > 0 {
      PlanUpToAtMostDets(c, i - 1);
      var list := DetListAt(c, i - 1);
      ChunkCount(list, c.nfiles);
      assert c.visits[..i] == c.visits[..i - 1] + [c.visits[i - 1]];
      assert c.visits[i - 1] in c.visits;
      SumLengthsAppend(c.detLists, c.visits[..i - 1], c.visits[i - 1]);
    }
  }

  /** With distinct visits, the work plan has no more chunks than `num_jobs` counts detectors. */
  lemma PlanAtMostJobs(c: Config)
    requires ConfigOk(c) && NoDuplicates(c.visits) && JobsCounted(c)
    ensures |Plan(c)| <= c.numJobs
  {
    PlanUpToAtMostDets(c, |c.visits|);
    DistinctOfNoDuplicates(c.visits);
    assert c.visits[..|c.visits|] == c.visits;
  }

  /** The cursor never counts more launches than the plan has chunks. */
  lemma LaunchedAtMostPlan(c: Config, s: State)
    requires ConfigOk(c) && CursorOk(c, s)
    ensures s.launchedJobs <= |Plan(c)|
  {
    CursorAtBound(c, s.visitIndex, s.currentVisit, s.launchedJobs, s.detIndex, CcdPlan(s.log), RmVisits(s.log));
  }

  lemma CursorAtBound(c: Config, vi: nat, cur: int, launched: nat, det: int, plan: seq<Chunk>, rm: seq<int>)
    requires ConfigOk(c) && CursorAt(c, vi, cur, launched, det, plan, rm)
    ensures launched <= |Plan(c)|
  {
    var ci := Min(vi, |c.visits| - 1);
    assert |PlanUpTo(c, ci + 1)| == |PlanUpTo(c, ci)| + |VisitChunks(c, ci)|;
    PlanUpToMono(c, ci + 1, |c.visits|);
  }

  /** Past the last visit the cursor has emitted the whole plan, and the cleanup visits are those of every advance. */
  lemma CursorAtComplete(c: Config, vi: nat, cur: int, launched: nat, det: int, plan: seq<Chunk>, rm: seq<int>)
    requires ConfigOk(c) && CursorAt(c, vi, cur, launched, det, plan, rm) && vi >= |c.visits|
    ensures launched == |Plan(c)| && plan == Plan(c)
    ensures rm == (if c.cleanUpAtmPsfs then CleanupVisits(c, vi) else [])
  {
    var n := |c.visits|;
    assert Min(vi, n - 1) == n - 1;
    var vc := VisitChunks(c, n - 1);
    assert Plan(c) == PlanUpTo(c, n - 1) + vc;
    assert vc[..|vc|] == vc;
  }

  /**
    What holds after `k` calls of the loop: the invariant; a call raised
    only if a visit after the first has no detector left; otherwise there
    were `k` calls' worth of progress, every visit reached so far has
    detectors, and the futures collected are the CCD jobs in submission
    order.
  */
  ghost predicate RunOk(c: Config, r: Run, k: nat)
    requires ConfigOk(c)
  {
    Inv(c, r.s)
    && (r.crashed ==> EmptyVisitAfterFirst(c))
    && (!r.crashed ==> Progress(c, r.s) == k && Reached(c, r.s) && r.collected == Handles(r.s.log, AnyCcd))
  }

  lemma {:induction false} DriveFromInit(c: Config, k: nat)
    requires ConfigOk(c) && k <= c.numJobs + 1
    ensures RunOk(c, Drive(c, Init(c), k), k)
  {
    if k == 0 {
      InitRunOk(c);
    } else {
      var prev := Drive(c, Init(c), k - 1);
      DriveFromInit(c, k - 1);
      RunStep(c, prev, k - 1);
      assert Drive(c, Init(c), k) == NextRun(c, prev);
    }
  }

  lemma InitRunOk(c: Config)
    requires ConfigOk(c)
    ensures RunOk(c, Drive(c, Init(c), 0), 0)
  {
    InitOk(c);
  }

  /**
    One more call of the loop of `run` carries `RunOk` from `k` calls to
    `k + 1`. Each call launches at most one job, so before any of the
    `num_jobs + 1` calls the launches are within `num_jobs`.
  */
  lemma RunStep(c: Config, prev: Run, k: nat)
    requires ConfigOk(c) && k <= c.numJobs && RunOk(c, prev, k)
    ensures RunOk(c, NextRun(c, prev), k + 1)
  {
    if !prev.crashed {
      StepPreservesInv(c, prev.s);
      StepProgress(c, prev.s);
    }
  }

  /** A run whose calls did not raise has walked past the last visit and emitted the whole plan. */
  lemma CompletedRun(c: Config, s: State)
    requires ConfigOk(c) && CursorOk(c, s)
    requires Progress(c, s) == c.numJobs + 1 && |Plan(c)| <= c.numJobs
    ensures s.visitIndex == |c.visits| - 1 + c.numJobs + 1 - |Plan(c)|
    ensures CcdPlan(s.log) == Plan(c)
    ensures RmVisits(s.log) == (if c.cleanUpAtmPsfs then CleanupVisits(c, s.visitIndex) else [])
  {
    LaunchedAtMostPlan(c, s);
    CursorAtComplete(c, s.visitIndex, s.currentVisit, s.launchedJobs, s.detIndex, CcdPlan(s.log), RmVisits(s.log));
  }

  /**
    `run` with distinct visits: the calls raise iff some visit after the
    first has no detector left. Otherwise the CCD jobs are exactly the
    plan's chunks in order, `run` collects each one's future once, and
    with clean-up on there is one cleanup task per visit, plus one more
    for the last visit for each call made after the plan ran out.
  */
  lemma RunTheorem(c: Config)
    requires ConfigOk(c) && NoDuplicates(c.visits) && JobsCounted(c)
    ensures var r := Drive(c, Init(c), c.numJobs + 1);
            (r.crashed <==> EmptyVisitAfterFirst(c))
            && (!r.crashed ==>
                  |Plan(c)| <= c.numJobs
                  && CcdPlan(r.s.log) == Plan(c)
                  && r.collected == Handles(r.s.log, AnyCcd) && |r.collected| == |Plan(c)|
                  && RmVisits(r.s.log)
                     == (if c.cleanUpAtmPsfs
                         then c.visits + Repeat(c.visits[|c.visits| - 1], c.numJobs - |Plan(c)|)
                         else []))
  {
    PlanAtMostJobs(c);
    var r := Drive(c, Init(c), c.numJobs + 1);
    DriveFromInit(c, c.numJobs + 1);
    if !r.crashed {
      FinishedRun(c, r);
    }
  }

  /** The conclusions of `RunTheorem` for a run of `num_jobs + 1` calls that did not raise. */
  lemma FinishedRun(c: Config, r: Run)
    requires ConfigOk(c) && |Plan(c)| <= c.numJobs && RunOk(c, r, c.numJobs + 1) && !r.crashed
    ensures !EmptyVisitAfterFirst(c)
    ensures CcdPlan(r.s.log) == Plan(c)
    ensures r.collected == Handles(r.s.log, AnyCcd) && |r.collected| == |Plan(c)|
    ensures RmVisits(r.s.log)
            == (if c.cleanUpAtmPsfs then c.visits + Repeat(c.visits[|c.visits| - 1], c.numJobs - |Plan(c)|) else [])
  {
    CompletedRun(c, r.s);
    CcdHandlesMatchPlan(r.s.log);
    if c.cleanUpAtmPsfs {
      CleanupVisitsPastEnd(c, r.s.visitIndex);
    }
    assert Reached(c, r.s) && r.s.visitIndex >= |c.visits|;
  }

  /**
    The guard of line 115 never fires during `run`, whatever the visits:
    before call number `k + 1` of the loop (`k <= num_jobs`), at most `k`
    jobs have been launched.
  */
  lemma GuardNeverFires(c: Config, k: nat)
    requires ConfigOk(c) && k <= c.numJobs
    ensures Drive(c, Init(c), k).s.launchedJobs <= c.numJobs
  {
    InitOk(c);
    DriveLaunches(c, Init(c), k);
  }

  /** A call launches at most one job. */
  lemma StepLaunchesAtMostOne(c: Config, s: State)
    requires StateOk(c, s)
    ensures Step(c, s).s.launchedJobs <= s.launchedJobs + 1
  {
  }

  /** `k` calls launch at most `k` jobs. */
  lemma {:induction false} DriveLaunches(c: Config, s: State, k: nat)
    requires StateOk(c, s)
    ensures Drive(c, s, k).s.launchedJobs <= s.launchedJobs + k
  {
    if k > 0 {
      DriveLaunches(c, s, k - 1);
      var prev := Drive(c, s, k - 1);
      assert Drive(c, s, k) == NextRun(c, prev);
      if !prev.crashed {
        StepLaunchesAtMostOne(c, prev.s);
      }
    }
  }

  /**
    With distinct visits, the launches stay within `num_jobs` in every
    state the invariant allows, however many calls are made.
  */
  lemma LaunchedWithinJobs(c: Config, s: State)
    requires Inv(c, s) && NoDuplicates(c.visits) && JobsCounted(c)
    ensures s.launchedJobs <= c.numJobs
  {
    LaunchedAtMostPlan(c, s);
    PlanAtMostJobs(c);
  }

  /** Past the last visit the cursor sits at the end of the last visit's list. */
  lemma CursorAtPastEndDone(c: Config, vi: nat, cur: int, launched: nat, det: int, plan: seq<Chunk>, rm: seq<int>)
    requires ConfigOk(c) && CursorAt(c, vi, cur, launched, det, plan, rm) && vi >= |c.visits|
    ensures cur in c.detLists && det >= |c.detLists[cur]|
  {
    var n := |c.visits|;
    assert Min(vi, n - 1) == n - 1;
    var list := DetListAt(c, n - 1);
    assert list == c.detLists[cur];
    ChunkIndex(list, c.nfiles, |Chunks(list, c.nfiles)|);
  }

  /**
    Lines 118-140: once the visit index is past the last visit, a call
    returns `None` and submits no CCD job; it moves only the visit index
    and, with clean-up on, submits one more cleanup of the last visit.
  */
  lemma StepPastEnd(c: Config, s: State)
    requires Inv(c, s) && s.visitIndex >= |c.visits|
    ensures var r := Step(c, s);
            r.out == NoJob && r.s.launchedJobs == s.launchedJobs && r.s.detIndex == s.detIndex
            && CcdPlan(r.s.log) == CcdPlan(s.log)
            && r.s.visitIndex == (if s.launchedJobs > c.numJobs then s.visitIndex else s.visitIndex + 1)
            && RmVisits(r.s.log)
               == RmVisits(s.log)
                  + (if s.launchedJobs <= c.numJobs && c.cleanUpAtmPsfs then [s.currentVisit] else [])
  {
    CursorAtPastEndDone(c, s.visitIndex, s.currentVisit, s.launchedJobs, s.detIndex, CcdPlan(s.log), RmVisits(s.log));
    PastEndStep(c, s);
  }

  lemma PastEndStep(c: Config, s: State)
    requires StateOk(c, s) && s.visitIndex >= |c.visits| && s.detIndex >= |c.detLists[s.currentVisit]|
    ensures var r := Step(c, s);
            r.out == NoJob && r.s.launchedJobs == s.launchedJobs && r.s.detIndex == s.detIndex
            && CcdPlan(r.s.log) == CcdPlan(s.log)
            && r.s.visitIndex == (if s.launchedJobs > c.numJobs then s.visitIndex else s.visitIndex + 1)
            && RmVisits(r.s.log)
               == RmVisits(s.log)
                  + (if s.launchedJobs <= c.numJobs && c.cleanUpAtmPsfs then [s.currentVisit] else [])
  {
    AppendCleanupReadings(c, s);
  }

  /**
    What the log holds in every reachable state: each CCD job takes its
    visit's PSF jobs as inputs, of which there is none when the PSF file
    exists and exactly one otherwise; each cleanup task takes the CCD jobs
    of its visit submitted before it; and no visit has two PSF jobs.
  */
  lemma TasksWellFormed(c: Config, s: State, h: nat)
    requires Inv(c, s) && h < |s.log|
    ensures var e := s.log[h];
            e.CcdJob? ==>
              e.inputs == Handles(s.log, PsfOf(e.visit))
              && |e.inputs| == (if PsfPresent(c.atmPsfFiles, e.visit) then 0 else 1)
              && e.dets != [] && e == CcdEntry(e.visit, e.dets, e.inputs)
    ensures var e := s.log[h];
            e.RmAtmPsfJob? ==> e.inputs == Handles(s.log[..h], CcdOf(e.visit))
    ensures |Handles(s.log, PsfOf(s.log[h].visit))| <= 1
  {
    assert EntryOk(c, s.log, s.psfFutures, h);
    var v := s.log[h].visit;
    assert Handles(s.log, PsfOf(v)) == Lookup(s.psfFutures, v);
  }

  /**
    Lines 205-210 after a run that did not raise: with clean-up on the wait
    is on the cleanup tasks, one per visit plus one per call past the end;
    with clean-up off it is on the CCD jobs.
  */
  lemma RunWaits(c: Config)
    requires ConfigOk(c) && NoDuplicates(c.visits) && JobsCounted(c)
    ensures var r := Drive(c, Init(c), c.numJobs + 1);
            !r.crashed ==>
              |Plan(c)| <= c.numJobs
              && Awaited(true, r.s.rmAtmPsfFutures, r.collected)
                 == (if c.cleanUpAtmPsfs then Handles(r.s.log, AnyRm) else Handles(r.s.log, AnyCcd))
              && (c.cleanUpAtmPsfs ==> |r.s.rmAtmPsfFutures| == |c.visits| + c.numJobs - |Plan(c)|)
  {
    var r := Drive(c, Init(c), c.numJobs + 1);
    RunTheorem(c);
    PlanAtMostJobs(c);
    DriveFromInit(c, c.numJobs + 1);
    if !r.crashed {
      assert Inv(c, r.s);
      assert RmFuturesOk(r.s.rmAtmPsfFutures, r.s.log);
      RmHandlesMatchVisits(r.s.log);
    }
  }
}
