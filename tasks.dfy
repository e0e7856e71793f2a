/**
  What the engine is asked to run for each submitted task: the names,
  command lines, reservations and log files of the PSF and CCD jobs of
  `get_atm_psf_future` and `get_job_future`, and the cleanup tasks.
  A CCD job's name and its detector list read back as the job's visit and
  detectors, and every full chunk keeps all of its instance's processes busy.
*/
module Tasks {
  import opened Wrappers
  import opened Formatting
  import opened Submissions
  import opened Planner

  /** Reads a name of the form `VVVVVVVV_SSS_EEE` back into visit, first and last detector. */
  function ParseJobName(name: string): Option<(int, int, int)> {
    if |name| == 16 && name[8] == '_' && name[12] == '_' then
      match (ParseDigits(name[..8]), ParseDigits(name[9..12]), ParseDigits(name[13..]))
      case (Some(v), Some(a), Some(b)) => Some((v, a, b))
      case _ => None
    else None
  }

  /**
    Line 151: with the visit below 10^8 and detector ids below 1000 (the
    default targets 0 to 188 are), the job name has 16 characters and reads back.
  */
  lemma JobNameRoundTrip(visit: int, detStart: int, detEnd: int)
    requires 0 <= visit < 100000000 && 0 <= detStart < 1000 && 0 <= detEnd < 1000
    ensures |JobName(visit, detStart, detEnd)| == 16
    ensures ParseJobName(JobName(visit, detStart, detEnd)) == Some((visit, detStart, detEnd))
  {
    assert Pow10(3) == 1000;
    assert Pow10(8) == 100000000 by {
      assert Pow10(6) == 1000000;
    }
    var a := ZeroPad(visit, 8);
    var b := ZeroPad(detStart, 3);
    var e := ZeroPad(detEnd, 3);
    ZeroPadRoundTrip(visit, 8);
    ZeroPadRoundTrip(detStart, 3);
    ZeroPadRoundTrip(detEnd, 3);
    var name := JobName(visit, detStart, detEnd);
    assert name == a + "_" + b + "_" + e;
    assert name[..8] == a && name[9..12] == b && name[13..] == e;
  }

  /** Different visits or detector ranges give different job names, and so different log files. */
  lemma JobNamesDistinct(v1: int, s1: int, e1: int, v2: int, s2: int, e2: int)
    requires 0 <= v1 < 100000000 && 0 <= s1 < 1000 && 0 <= e1 < 1000
    requires 0 <= v2 < 100000000 && 0 <= s2 < 1000 && 0 <= e2 < 1000
    requires (v1, s1, e1) != (v2, s2, e2)
    ensures JobName(v1, s1, e1) != JobName(v2, s2, e2)
    ensures forall logDir: string {:trigger PathJoin(logDir, JobName(v1, s1, e1) + ".log")} ::
              PathJoin(logDir, JobName(v1, s1, e1) + ".log") != PathJoin(logDir, JobName(v2, s2, e2) + ".log")
  {
    JobNameRoundTrip(v1, s1, e1);
    JobNameRoundTrip(v2, s2, e2);
    var n1, n2 := JobName(v1, s1, e1) + ".log", JobName(v2, s2, e2) + ".log";
    assert n1[..16] != n2[..16];
    assert IsDigit(n1[..8][0]) && IsDigit(n2[..8][0]);
    forall logDir: string ensures PathJoin(logDir, n1) != PathJoin(logDir, n2) {
      PathJoinInjective(logDir, n1, n2);
    }
  }

  /**
    Lines 151-187: the CCD job of a chunk is a bash app on the configured
    executor, named after its visit and first and last detector and
    logging to `<log_dir>/<name>.log`. It reserves memory for `nproc`
    processes only on "work_queue"; its command renders `min(size, nproc)`
    processes and the chunk's detectors as a list that reads back as the chunk.
  */
  lemma RenderCcdJob(c: Config, visit: int, chunk: seq<int>, inputs: seq<Handle>)
    requires chunk != []
    ensures var call := Render(c, CcdEntry(visit, chunk, inputs));
            call.BashCall?
            && call.name == JobName(visit, chunk[0], chunk[|chunk| - 1])
            && call.executor == c.bashAppExecutor
            && call.logFile == PathJoin(c.logDir, call.name + ".log")
            && (call.resources.Some? <==> c.bashAppExecutor == "work_queue")
            && (call.resources.Some? ==> call.resources.value == Resources(c.gbPerCcd * 1024 * c.nproc, 1, 0))
            && exists detList :: ParseIntList(detList) == Some(chunk)
                 && call.command == CcdCommand(c, visit, |chunk|, Min(|chunk|, c.nproc), detList)
  {
    FormatIntListRoundTrip(chunk);
    var call := Render(c, CcdEntry(visit, chunk, inputs));
    assert call.command == CcdCommand(c, visit, |chunk|, Min(|chunk|, c.nproc), FormatIntList(chunk));
  }

  /**
    Lines 91-112: the PSF job of a visit is a bash app named `<visit>_psf`,
    whose name reads back as the visit; it reserves `GB_per_PSF` GB only on
    "work_queue" and logs to `<log_dir>/<visit>_psf.log`.
  */
  lemma RenderPsfJob(c: Config, visit: int)
    ensures var call := Render(c, PsfJob(visit));
            call.BashCall?
            && |call.name| >= 5 && call.name[|call.name| - 4..] == "_psf"
            && ParseInt(call.name[..|call.name| - 4]) == Some(visit)
            && call.executor == c.bashAppExecutor
            && call.command == PsfCommand(c, visit)
            && call.logFile == PathJoin(c.logDir, call.name + ".log")
            && (call.resources.Some? <==> c.bashAppExecutor == "work_queue")
            && (call.resources.Some? ==> call.resources.value == Resources(c.gbPerPsf * 1024, 1, 0))
  {
    IntToStringRoundTrip(visit);
    IntToStringHasNoSeparator(visit);
    var call := Render(c, PsfJob(visit));
    assert call.name[..|call.name| - 4] == IntToString(visit);
  }

  /**
    The assertion `nfiles >= nproc` of line 19 at work: every chunk but the
    last of a visit has `nfiles` detectors, so its galsim instance runs all
    `nproc` processes; the last one runs `min(size, nproc)`, at least one
    when `nproc` is.
  */
  lemma ChunkProcesses(c: Config, i: nat, p: nat)
    requires ConfigOk(c) && c.nfiles >= c.nproc && i < |c.visits| && p < |VisitChunks(c, i)|
    ensures var size := |VisitChunks(c, i)[p].dets|;
            1 <= size <= c.nfiles
            && (p + 1 < |VisitChunks(c, i)| ==> size == c.nfiles && Min(size, c.nproc) == c.nproc)
            && (c.nproc >= 1 ==> 1 <= Min(size, c.nproc) <= c.nproc)
  {
    var list := DetListAt(c, i);
    var xss := Chunks(list, c.nfiles);
    TagAt(c.visits[i], xss, p);
    ChunkSizes(list, c.nfiles);
    assert VisitChunks(c, i)[p].dets == xss[p];
    if p + 1 < |xss| {
      ChunkFull(list, c.nfiles, p);
    }
  }
}
