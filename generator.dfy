/**
  The `GalSimJobGenerator` object. Its fields are those `get_job_future`
  updates, plus the log of tasks submitted to the workflow engine; each
  method updates them step by step as the Python code does and is proved
  to leave exactly the state the value-level model (`Planner.Step`,
  `Planner.Drive`) describes.
*/
module Generator {
  import opened Wrappers
  import opened PyList
  import opened Catalog
  import opened Submissions
  import opened Planner

  /** Why `__init__` fails: the assertion of line 19, an unreadable raw file name (line 70), no visit (line 53). */
  datatype InitError = NprocExceedsNfiles | Unreadable(error: CatalogError) | NoVisits

  /** What `run` ends with: the futures collected, those waited on, and whether a call raised. */
  datatype RunResult = RunResult(collected: seq<Handle>, awaited: seq<Handle>, raised: bool)

  class GalSimJobGenerator {
    const config: Config
    var visitIndex: nat
    var currentVisit: int
    var launchedJobs: nat
    var detIndex: int
    var psfFutures: map<int, seq<Handle>>
    var ccdFutures: map<int, seq<Handle>>
    var rmAtmPsfFutures: seq<Handle>
    /** The tasks submitted so far; a future is a position in this log. */
    var submitted: seq<Submission>

    function Snapshot(): State
      reads this
    {
      State(visitIndex, currentVisit, launchedJobs, detIndex, psfFutures, ccdFutures, rmAtmPsfFutures, submitted)
    }

    ghost predicate Valid()
      reads this
    {
      StateOk(config, Snapshot())
    }

    /** Lines 52-59: the cursor on the first visit, nothing submitted. */
    constructor (c: Config)
      requires |c.visits| >= 1
      ensures config == c && Snapshot() == Init(c)
    {
      config := c;
      visitIndex := 0;
      currentVisit := c.visits[0];
      launchedJobs := 0;
      detIndex := 0;
      psfFutures := map[];
      ccdFutures := map[];
      rmAtmPsfFutures := [];
      submitted := [];
    }

    /**
      Lines 12-59: check `nfiles >= nproc`, fix the target detectors,
      assemble the per-visit lists of detectors still to do, and put the
      cursor on the first visit. `outputs` lists each visit's output
      directory and `atmPsfFiles` the PSF directory.
    */
    static method New(imsimYaml: string, visits: seq<int>, nfiles: int, nproc: int,
                      defaultDetList: Option<seq<int>>, gbPerCcd: int, gbPerPsf: int,
                      verbosity: int, logDir: string, cleanUpAtmPsfs: bool, bashAppExecutor: string,
                      outputs: map<int, seq<string>>, atmPsfDir: string, atmPsfFiles: set<string>)
      returns (r: Result<GalSimJobGenerator, InitError>)
      ensures r == Failure(NprocExceedsNfiles) <==> nfiles < nproc
      ensures nfiles >= nproc && (exists i :: 0 <= i < |visits| && Finished(outputs, visits[i]).Failure?) ==>
                r.Failure? && r.error.Unreadable?
      ensures nfiles >= nproc && |visits| == 0 ==> r == Failure(NoVisits)
      ensures r.Success? <==>
                nfiles >= nproc && |visits| >= 1
                && forall i :: 0 <= i < |visits| ==> Finished(outputs, visits[i]).Success?
      ensures r.Failure? && r.error.Unreadable? ==>
                exists i :: 0 <= i < |visits| && Finished(outputs, visits[i]).Failure?
                  && r.error.error == MalformedFilename(visits[i], Finished(outputs, visits[i]).error)
                  && forall j :: 0 <= j < i ==> Finished(outputs, visits[j]).Success?
      ensures r.Success? ==>
                var g := r.value;
                var c := g.config;
                c == Config(imsimYaml, visits, nfiles, nproc, TargetDets(defaultDetList), c.detLists,
                            c.numJobs, gbPerCcd, gbPerPsf, verbosity, logDir, cleanUpAtmPsfs,
                            bashAppExecutor, atmPsfDir, atmPsfFiles)
                && fresh(g) && g.Valid() && g.Snapshot() == Init(c)
                && DetListsOk(visits, c.targetDets, outputs, c.detLists)
                && c.numJobs == SumLengths(c.detLists, Distinct(visits))
    {
      if nfiles < nproc {
        return Failure(NprocExceedsNfiles);
      }
      var targetDets := TargetDets(defaultDetList);
      var lists := AssembleDetLists(visits, targetDets, outputs);
      if lists.Failure? {
        return Failure(Unreadable(lists.error));
      }
      if |visits| == 0 {
        return Failure(NoVisits);
      }
      var (detLists, numJobs) := lists.value;
      var c := Config(imsimYaml, visits, nfiles, nproc, targetDets, detLists, numJobs, gbPerCcd,
                      gbPerPsf, verbosity, logDir, cleanUpAtmPsfs, bashAppExecutor, atmPsfDir, atmPsfFiles);
      var g := new GalSimJobGenerator(c);
      return Success(g);
    }

    /** Hands a task to the engine; its future is its position in the log. */
    method Submit(e: Submission) returns (h: Handle)
      modifies this
      ensures h == |old(submitted)| && submitted == old(submitted) + [e]
      ensures visitIndex == old(visitIndex) && currentVisit == old(currentVisit)
      ensures launchedJobs == old(launchedJobs) && detIndex == old(detIndex)
      ensures psfFutures == old(psfFutures) && ccdFutures == old(ccdFutures)
      ensures rmAtmPsfFutures == old(rmAtmPsfFutures)
    {
      h := |submitted|;
      submitted := submitted + [e];
    }

    /** Lines 75-80: some PSF file of the visit, if the directory holds one. */
    method FindPsfFile(visit: int) returns (r: Option<string>)
      ensures r.Some? <==> PsfPresent(config.atmPsfFiles, visit)
      ensures r.Some? ==>
                exists f :: f in config.atmPsfFiles && MatchesAtmPsfGlob(f, visit)
                  && r.value == PathJoin(config.atmPsfDir, f)
    {
      if PsfPresent(config.atmPsfFiles, visit) {
        var f :| f in config.atmPsfFiles && MatchesAtmPsfGlob(f, visit);
        return Some(PathJoin(config.atmPsfDir, f));
      }
      return None;
    }

    /** Lines 82-112: no prerequisite when the PSF file exists, else a new PSF job. */
    method GetAtmPsfFuture(visit: int) returns (futures: seq<Handle>)
      modifies this
      ensures (futures, submitted) == AtmPsfFuture(config, old(submitted), visit)
      ensures visitIndex == old(visitIndex) && currentVisit == old(currentVisit)
      ensures launchedJobs == old(launchedJobs) && detIndex == old(detIndex)
      ensures psfFutures == old(psfFutures) && ccdFutures == old(ccdFutures)
      ensures rmAtmPsfFutures == old(rmAtmPsfFutures)
    {
      var file := FindPsfFile(visit);
      if file.Some? {
        return [];
      }
      var h := Submit(PsfJob(visit));
      return [h];
    }

    /** Lines 114-195: one call; the result is a CCD job's future, `None`, or the IndexError of line 148. */
    method GetJobFuture() returns (out: Outcome)
      requires Valid()
      modifies this
      ensures Valid()
      ensures StepResult(Snapshot(), out) == Step(config, old(Snapshot()))
    {
      if launchedJobs > config.numJobs {
        return NoJob;
      }
      if detIndex >= |config.detLists[currentVisit]| {
        ScheduleCleanup();
        AdvanceVisit();
        if visitIndex >= |config.visits| {
          return NoJob;
        }
      }
      MemoizePsf();
      out := LaunchChunk();
    }

    /** Lines 118-134: with clean-up on, the cleanup task of the visit just handled, waiting on its CCD jobs. */
    method ScheduleCleanup()
      requires Valid()
      modifies this
      ensures Valid() && Snapshot() == AppendCleanup(config, old(Snapshot()))
    {
      var handledVisit := currentVisit;
      if config.cleanUpAtmPsfs {
        var inputs := Lookup(ccdFutures, handledVisit);
        ccdFutures := ccdFutures[handledVisit := inputs];
        var h := Submit(RmAtmPsfJob(handledVisit, inputs));
        rmAtmPsfFutures := rmAtmPsfFutures + [h];
      }
    }

    /** Lines 136-141: the next visit; past the last one only the index moves. */
    method AdvanceVisit()
      requires Valid()
      modifies this
      ensures Valid() && Snapshot() == Advance(config, old(Snapshot()))
    {
      visitIndex := visitIndex + 1;
      if visitIndex < |config.visits| {
        currentVisit := config.visits[visitIndex];
        assert currentVisit in config.visits;
        detIndex := 0;
      }
    }

    /** Lines 143-146. */
    method MemoizePsf()
      requires Valid()
      modifies this
      ensures Valid() && Snapshot() == MemoPsf(config, old(Snapshot()))
      ensures currentVisit in psfFutures
    {
      if currentVisit !in psfFutures {
        var futures := GetAtmPsfFuture(currentVisit);
        psfFutures := psfFutures[currentVisit := futures];
      }
    }

    /** Lines 146-195: the CCD job of the chunk at the cursor. */
    method LaunchChunk() returns (out: Outcome)
      requires Valid() && currentVisit in psfFutures
      modifies this
      ensures Valid() && StepResult(Snapshot(), out) == EmitChunk(config, old(Snapshot()))
    {
      var psf := psfFutures[currentVisit];
      var detList := config.detLists[currentVisit];
      var detStart := PyIndex(detList, detIndex);
      var detEndIndex := Min(detIndex + config.nfiles, |detList|) - 1;
      var detEnd := PyIndex(detList, detEndIndex);
      if detStart.None? || detEnd.None? {
        return DetIndexError;
      }
      var nfiles := detEndIndex - detIndex + 1;
      var dets := PySlice(detList, detIndex, detEndIndex + 1);
      var job := CcdJob(currentVisit, detStart.value, detEnd.value, nfiles, dets, psf);
      detIndex := detIndex + config.nfiles;
      launchedJobs := launchedJobs + 1;
      var h := Submit(job);
      ccdFutures := ccdFutures[currentVisit := Lookup(ccdFutures, currentVisit) + [h]];
      return Launched(h);
    }

    /**
      Lines 197-210: `num_jobs + 1` calls, collecting every future that is
      not `None`; an IndexError ends the loop and nothing is waited on.
      When blocking, the wait is on the cleanup tasks if there are any,
      else on the CCD jobs.
    */
    method Run(block: bool) returns (r: RunResult)
      requires Valid()
      modifies this
      ensures Valid()
      ensures var d := Drive(config, old(Snapshot()), config.numJobs + 1);
              Snapshot() == d.s && r.collected == d.collected && r.raised == d.crashed
              && r.awaited == (if d.crashed then [] else Awaited(block, rmAtmPsfFutures, d.collected))
    {
      ghost var start := Snapshot();
      var collected: seq<Handle> := [];
      for index := 0 to config.numJobs + 1
        invariant Valid()
        invariant Drive(config, start, index) == Planner.Run(Snapshot(), collected, false)
      {
        ghost var before := Snapshot();
        var out := GetJobFuture();
        DriveNext(config, start, index, before, collected);
        if out.DetIndexError? {
          DriveStopsAfterRaise(config, start, index + 1, config.numJobs + 1);
          return RunResult(collected, [], true);
        }
        if out.Launched? {
          collected := collected + [out.h];
        }
      }
      return RunResult(collected, Awaited(block, rmAtmPsfFutures, collected), false);
    }
  }

  /** One more call of the loop, from a run that has not raised: the step from its state. */
  lemma DriveNext(c: Config, s: State, k: nat, now: State, collected: seq<Handle>)
    requires StateOk(c, s) && StateOk(c, now)
    requires Drive(c, s, k) == Planner.Run(now, collected, false)
    ensures var r := Step(c, now);
            Drive(c, s, k + 1)
            == Planner.Run(r.s, if r.out.Launched? then collected + [r.out.h] else collected, r.out.DetIndexError?)
  {
    assert Drive(c, s, k + 1) == NextRun(c, Drive(c, s, k));
  }

  /** Once a call has raised, further calls of the loop change nothing. */
  lemma {:induction false} DriveStopsAfterRaise(c: Config, s: State, k: nat, m: nat)
    requires StateOk(c, s) && k <= m && Drive(c, s, k).crashed
    ensures Drive(c, s, m) == Drive(c, s, k)
    decreases m - k
  {
    if k < m {
      assert Drive(c, s, k + 1) == NextRun(c, Drive(c, s, k));
      DriveStopsAfterRaise(c, s, k + 1, m);
    }
  }
}
