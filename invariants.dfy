/**
  What every call of `get_job_future` keeps true, and what a whole `run`
  does. `Inv` ties the cursor `(visitIndex, detIndex)` to the work plan
  (the chunks of every visit, in visit order) and the futures the
  generator holds to the log of submitted tasks.
*/
module Invariants {
  import opened Wrappers
  import opened Formatting
  import opened PyList
  import opened Catalog
  import opened Submissions
  import opened Planner

  // ---------------------------------------------------------------------
  // The invariant

  /**
    The cursor, over its parts: `launched` chunks have been emitted, and
    `plan` lists them. They are all the chunks of the visits before the
    current one, then the first `p` chunks of the current visit, and `det`
    is the offset `p * nfiles`. Past the last visit the cursor stays on the
    last visit, with all its chunks emitted. `rm` lists one cleanup visit
    per advance of the visit index.
  */
  ghost predicate CursorAt(c: Config, vi: nat, cur: int, launched: nat, det: int, plan: seq<Chunk>, rm: seq<int>)
    requires ConfigOk(c)
  {
    var ci := Min(vi, |c.visits| - 1);
    var done := |PlanUpTo(c, ci)|;
    cur == c.visits[ci]
    && launched == |plan|
    && done <= launched <= done + |VisitChunks(c, ci)|
    && det == Offset(launched - done, c.nfiles)
    && (vi >= |c.visits| ==> launched == done + |VisitChunks(c, ci)|)
    && plan == PlanUpTo(c, ci) + VisitChunks(c, ci)[..launched - done]
    && rm == (if c.cleanUpAtmPsfs then CleanupVisits(c, vi) else [])
  }

  ghost predicate CursorOk(c: Config, s: State)
    requires ConfigOk(c)
  {
    CursorAt(c, s.visitIndex, s.currentVisit, s.launchedJobs, s.detIndex, CcdPlan(s.log), RmVisits(s.log))
  }

  /**
    Entry `h` of the log is well formed: a CCD job is the one of its
    chunk and takes its visit's PSF prerequisite as inputs; a cleanup
    task takes as inputs exactly the CCD jobs of its visit submitted
    before it.
  */
  ghost predicate EntryOk(c: Config, log: seq<Submission>, psf: map<int, seq<Handle>>, h: nat)
    requires h < |log|
  {
    match log[h]
    case PsfJob(_) => true
    case CcdJob(v, _, _, _, dets, inputs) =>
      dets != [] && v in psf && inputs == psf[v] && log[h] == CcdEntry(v, dets, inputs)
    case RmAtmPsfJob(v, inputs) => inputs == Handles(log[..h], CcdOf(v))
  }

  /** Each visit's CCD futures are the CCD jobs of that visit, in submission order. */
  ghost predicate CcdFuturesOk(ccd: map<int, seq<Handle>>, log: seq<Submission>) {
    forall v :: Lookup(ccd, v) == Handles(log, CcdOf(v))
  }

  /** The cleanup futures are the cleanup tasks, in submission order. */
  ghost predicate RmFuturesOk(rm: seq<Handle>, log: seq<Submission>) {
    rm == Handles(log, AnyRm)
  }

  /**
    The memoised PSF prerequisites are the PSF jobs of their visits. A
    memoised prerequisite is empty when the visit's PSF file exists and
    otherwise a single PSF job, the only one of its visit.
  */
  ghost predicate PsfFuturesOk(c: Config, psf: map<int, seq<Handle>>, log: seq<Submission>) {
    (forall v :: Handles(log, PsfOf(v)) == Lookup(psf, v))
    && (forall v :: v in psf ==> |psf[v]| == (if PsfPresent(c.atmPsfFiles, v) then 0 else 1))
  }

  ghost predicate EntriesOk(c: Config, log: seq<Submission>, psf: map<int, seq<Handle>>) {
    forall h :: 0 <= h < |log| ==> EntryOk(c, log, psf, h)
  }

  /** The futures the generator holds are readings of the log, and every entry is well formed. */
  ghost predicate LogAt(c: Config, psf: map<int, seq<Handle>>, ccd: map<int, seq<Handle>>,
                        rm: seq<Handle>, log: seq<Submission>) {
    CcdFuturesOk(ccd, log) && RmFuturesOk(rm, log) && PsfFuturesOk(c, psf, log) && EntriesOk(c, log, psf)
  }

  ghost predicate LogOk(c: Config, s: State) {
    LogAt(c, s.psfFutures, s.ccdFutures, s.rmAtmPsfFutures, s.log)
  }

  ghost predicate Inv(c: Config, s: State) {
    ConfigOk(c) && StateOk(c, s) && CursorOk(c, s) && LogOk(c, s)
  }

  lemma InitOk(c: Config)
    requires ConfigOk(c)
    ensures Inv(c, Init(c))
  {
    assert CleanupVisits(c, 0) == [];
  }

  // ---------------------------------------------------------------------
  // Sequence facts

  /** Past the end, the cleanup visits are all visits, then the last one again for each extra advance. */
  lemma {:induction false} CleanupVisitsPastEnd(c: Config, k: nat)
    requires |c.visits| >= 1 && k >= |c.visits|
    ensures CleanupVisits(c, k) == c.visits + Repeat(c.visits[|c.visits| - 1], k - |c.visits|)
  {
    if k == |c.visits| {
      CleanupVisitsPrefix(c, k);
    } else {
      CleanupVisitsPastEnd(c, k - 1);
    }
  }

  /** Before the end, the cleanup visits are the visits handled so far. */
  lemma {:induction false} CleanupVisitsPrefix(c: Config, k: nat)
    requires 1 <= |c.visits| && k <= |c.visits|
    ensures CleanupVisits(c, k) == c.visits[..k]
  {
    if k > 0 {
      CleanupVisitsPrefix(c, k - 1);
      assert c.visits[..k] == c.visits[..k - 1] + [c.visits[k - 1]];
    }
  }

  lemma {:induction false} PlanUpToMono(c: Config, i: nat, j: nat)
    requires ConfigOk(c) && i <= j <= |c.visits|
    ensures |PlanUpTo(c, i)| <= |PlanUpTo(c, j)|
    decreases j
  {
    if i < j {
      PlanUpToMono(c, i, j - 1);
    }
  }

  // ---------------------------------------------------------------------
  // Appending one entry to the log

  lemma CcdFuturesAppend(ccd: map<int, seq<Handle>>, log: seq<Submission>, e: Submission)
    requires CcdFuturesOk(ccd, log)
    ensures CcdFuturesOk(if e.CcdJob? then ccd[e.visit := Lookup(ccd, e.visit) + [|log|]] else ccd, log + [e])
  {
    SubmitOne(log, e);
  }

  /** Reading a `defaultdict` entry creates it, which changes no reading. */
  lemma CcdFuturesTouch(ccd: map<int, seq<Handle>>, log: seq<Submission>, v: int)
    requires CcdFuturesOk(ccd, log)
    ensures CcdFuturesOk(ccd[v := Lookup(ccd, v)], log)
  {
    forall w ensures Lookup(ccd[v := Lookup(ccd, v)], w) == Lookup(ccd, w) {
    }
  }

  lemma RmFuturesAppend(rm: seq<Handle>, log: seq<Submission>, e: Submission)
    requires RmFuturesOk(rm, log)
    ensures RmFuturesOk(if e.RmAtmPsfJob? then rm + [|log|] else rm, log + [e])
  {
    SubmitOne(log, e);
  }

  lemma PsfFuturesAppendOther(c: Config, psf: map<int, seq<Handle>>, log: seq<Submission>, e: Submission)
    requires PsfFuturesOk(c, psf, log) && !e.PsfJob?
    ensures PsfFuturesOk(c, psf, log + [e])
  {
    SubmitOne(log, e);
  }

  /** Memoising the prerequisite of a visit seen for the first time. */
  lemma PsfFuturesMemo(c: Config, psf: map<int, seq<Handle>>, log: seq<Submission>, v: int)
    requires PsfFuturesOk(c, psf, log) && v !in psf
    ensures PsfFuturesOk(c, psf[v := AtmPsfFuture(c, log, v).0], AtmPsfFuture(c, log, v).1)
  {
    var psf' := psf[v := AtmPsfFuture(c, log, v).0];
    var log' := AtmPsfFuture(c, log, v).1;
    SubmitOne(log, PsfJob(v));
    forall w ensures Handles(log', PsfOf(w)) == Lookup(psf', w) {
      assert Handles(log, PsfOf(w)) == Lookup(psf, w);
    }
  }

  lemma EntriesAppend(c: Config, log: seq<Submission>, psf: map<int, seq<Handle>>, e: Submission)
    requires EntriesOk(c, log, psf) && EntryOk(c, log + [e], psf, |log|)
    ensures EntriesOk(c, log + [e], psf)
  {
    forall h | 0 <= h < |log| ensures EntryOk(c, log + [e], psf, h) {
      assert EntryOk(c, log, psf, h);
      assert (log + [e])[..h] == log[..h];
      assert (log + [e])[h] == log[h];
    }
  }

  lemma EntriesPsfExtend(c: Config, log: seq<Submission>, psf: map<int, seq<Handle>>, v: int, hs: seq<Handle>)
    requires EntriesOk(c, log, psf) && v !in psf
    ensures EntriesOk(c, log, psf[v := hs])
  {
    var psf' := psf[v := hs];
    forall h | 0 <= h < |log| ensures EntryOk(c, log, psf', h) {
      assert EntryOk(c, log, psf, h);
    }
  }

  // ---------------------------------------------------------------------
  // The phases of one call

  /** Lines 121-134 add at most a cleanup task: one more cleanup visit, no CCD job. */
  lemma AppendCleanupReadings(c: Config, s: State)
    ensures var t := AppendCleanup(c, s);
            CcdPlan(t.log) == CcdPlan(s.log)
            && RmVisits(t.log) == (if c.cleanUpAtmPsfs then RmVisits(s.log) + [s.currentVisit] else RmVisits(s.log))
            && Handles(t.log, AnyCcd) == Handles(s.log, AnyCcd)
  {
    SubmitOne(s.log, RmAtmPsfJob(s.currentVisit, Lookup(s.ccdFutures, s.currentVisit)));
  }

  lemma AppendCleanupOk(c: Config, s: State)
    requires LogOk(c, s)
    ensures LogOk(c, AppendCleanup(c, s))
  {
    if c.cleanUpAtmPsfs {
      var v := s.currentVisit;
      var e := RmAtmPsfJob(v, Lookup(s.ccdFutures, v));
      CcdFuturesTouch(s.ccdFutures, s.log, v);
      CcdFuturesAppend(s.ccdFutures[v := Lookup(s.ccdFutures, v)], s.log, e);
      RmFuturesAppend(s.rmAtmPsfFutures, s.log, e);
      PsfFuturesAppendOther(c, s.psfFutures, s.log, e);
      assert (s.log + [e])[..|s.log|] == s.log;
      EntriesAppend(c, s.log, s.psfFutures, e);
    }
  }

  /** Lines 143-146 add at most a PSF job, and change neither the cursor nor the CCD and cleanup readings. */
  lemma MemoPsfReadings(c: Config, s: State)
    ensures var t := MemoPsf(c, s);
            t.visitIndex == s.visitIndex && t.currentVisit == s.currentVisit
            && t.launchedJobs == s.launchedJobs && t.detIndex == s.detIndex
            && t.ccdFutures == s.ccdFutures && t.rmAtmPsfFutures == s.rmAtmPsfFutures
            && s.currentVisit in t.psfFutures
            && CcdPlan(t.log) == CcdPlan(s.log) && RmVisits(t.log) == RmVisits(s.log)
            && Handles(t.log, AnyCcd) == Handles(s.log, AnyCcd)
  {
    SubmitOne(s.log, PsfJob(s.currentVisit));
  }

  lemma MemoPsfOk(c: Config, s: State)
    requires LogOk(c, s)
    ensures LogOk(c, MemoPsf(c, s))
  {
    var v := s.currentVisit;
    if v !in s.psfFutures {
      PsfFuturesMemo(c, s.psfFutures, s.log, v);
      if PsfPresent(c.atmPsfFiles, v) {
        EntriesPsfExtend(c, s.log, s.psfFutures, v, []);
      } else {
        var e := PsfJob(v);
        CcdFuturesAppend(s.ccdFutures, s.log, e);
        RmFuturesAppend(s.rmAtmPsfFutures, s.log, e);
        EntriesPsfExtend(c, s.log, s.psfFutures, v, [|s.log|]);
        EntriesAppend(c, s.log, s.psfFutures[v := [|s.log|]], e);
      }
    }
  }

  /**
    With the cursor inside the current visit's list, the emitted job is
    the CCD job of the chunk `detList[d : min(d + nfiles, len)]`, taking
    the visit's PSF prerequisite as inputs; the cursor moves on by
    `nfiles`, the count by one, and the handle joins the visit's futures.
  */
  lemma EmitChunkSpec(c: Config, s: State)
    requires StateOk(c, s) && s.currentVisit in s.psfFutures && c.nfiles >= 1
    requires 0 <= s.detIndex < |c.detLists[s.currentVisit]|
    ensures var v := s.currentVisit;
            var list := c.detLists[v];
            var chunk := list[s.detIndex..Min(s.detIndex + c.nfiles, |list|)];
            EmitChunk(c, s) == StepResult(
              s.(detIndex := s.detIndex + c.nfiles,
                 launchedJobs := s.launchedJobs + 1,
                 log := s.log + [CcdEntry(v, chunk, s.psfFutures[v])],
                 ccdFutures := s.ccdFutures[v := Lookup(s.ccdFutures, v) + [|s.log|]]),
              Launched(|s.log|))
  {
    var v := s.currentVisit;
    var list := c.detLists[v];
    var d := s.detIndex;
    var e := Min(d + c.nfiles, |list|) - 1;
    assert d <= e < |list|;
    assert PyIndex(list, d) == Some(list[d]);
    assert PyIndex(list, e) == Some(list[e]);
    var chunk := list[d..e + 1];
    assert PySlice(list, d, e + 1) == chunk;
    assert chunk[0] == list[d] && chunk[|chunk| - 1] == list[e] && |chunk| == e - d + 1;
  }

  lemma EmitChunkOk(c: Config, s: State)
    requires StateOk(c, s) && s.currentVisit in s.psfFutures && c.nfiles >= 1
    requires 0 <= s.detIndex < |c.detLists[s.currentVisit]|
    requires LogOk(c, s)
    ensures LogOk(c, EmitChunk(c, s).s)
  {
    EmitChunkSpec(c, s);
    var v := s.currentVisit;
    var list := c.detLists[v];
    var chunk := list[s.detIndex..Min(s.detIndex + c.nfiles, |list|)];
    var e := CcdEntry(v, chunk, s.psfFutures[v]);
    CcdFuturesAppend(s.ccdFutures, s.log, e);
    RmFuturesAppend(s.rmAtmPsfFutures, s.log, e);
    PsfFuturesAppendOther(c, s.psfFutures, s.log, e);
    EntriesAppend(c, s.log, s.psfFutures, e);
  }

  /** Emitting inside the current visit moves the cursor to the next chunk. */
  lemma CursorAtEmit(c: Config, vi: nat, cur: int, launched: nat, det: int, plan: seq<Chunk>, rm: seq<int>)
    requires ConfigOk(c) && CursorAt(c, vi, cur, launched, det, plan, rm)
    requires cur in c.detLists && det < |c.detLists[cur]|
    ensures vi < |c.visits| && 0 <= det
    ensures var list := c.detLists[cur];
            CursorAt(c, vi, cur, launched + 1, det + c.nfiles,
                     plan + [Chunk(cur, list[det..Min(det + c.nfiles, |list|)])], rm)
  {
    var ci := Min(vi, |c.visits| - 1);
    var done := |PlanUpTo(c, ci)|;
    var p := launched - done;
    assert DetListAt(c, ci) == c.detLists[cur];
    VisitChunkNext(c, ci, p);
  }

  /** Chunk number `p` of visit number `i` starts at detector offset `p * nfiles` and holds the next `nfiles` detectors. */
  lemma VisitChunkNext(c: Config, i: nat, p: nat)
    requires ConfigOk(c) && i < |c.visits|
    requires Offset(p, c.nfiles) < |DetListAt(c, i)|
    ensures var list := DetListAt(c, i);
            var det := Offset(p, c.nfiles);
            var vc := VisitChunks(c, i);
            p < |vc| && det + c.nfiles == Offset(p + 1, c.nfiles)
            && vc[..p + 1] == vc[..p] + [Chunk(c.visits[i], list[det..Min(det + c.nfiles, |list|)])]
  {
    var list := DetListAt(c, i);
    var det := Offset(p, c.nfiles);
    ChunkIndex(list, c.nfiles, p);
    ChunkAt(list, c.nfiles, p);
    TagAt(c.visits[i], Chunks(list, c.nfiles), p);
    var vc := VisitChunks(c, i);
    assert vc[..p + 1] == vc[..p] + [vc[p]];
    OffsetShift(p + 1, c.nfiles);
  }

  /** At the end of a visit's list, all its chunks have been emitted. */
  lemma CursorAtEnd(c: Config, vi: nat, cur: int, launched: nat, det: int, plan: seq<Chunk>, rm: seq<int>)
    requires ConfigOk(c) && CursorAt(c, vi, cur, launched, det, plan, rm)
    requires cur in c.detLists && det >= |c.detLists[cur]|
    ensures var ci := Min(vi, |c.visits| - 1);
            launched == |PlanUpTo(c, ci)| + |VisitChunks(c, ci)|
            && plan == PlanUpTo(c, ci) + VisitChunks(c, ci)
  {
    var ci := Min(vi, |c.visits| - 1);
    var p := launched - |PlanUpTo(c, ci)|;
    var list := DetListAt(c, ci);
    assert list == c.detLists[cur];
    ChunkIndex(list, c.nfiles, p);
    assert VisitChunks(c, ci)[..p] == VisitChunks(c, ci);
  }

  /** There, the advance moves the cursor to the start of the next visit; the cleanup adds the visit just handled. */
  lemma CursorAtNextVisit(c: Config, vi: nat, cur: int, launched: nat, det: int, plan: seq<Chunk>, rm: seq<int>)
    requires ConfigOk(c) && CursorAt(c, vi, cur, launched, det, plan, rm)
    requires cur in c.detLists && det >= |c.detLists[cur]|
    requires vi + 1 < |c.visits|
    ensures CursorAt(c, vi + 1, c.visits[vi + 1], launched, 0, plan,
                     if c.cleanUpAtmPsfs then rm + [cur] else rm)
  {
    assert Min(vi, |c.visits| - 1) == vi && Min(vi + 1, |c.visits| - 1) == vi + 1;
    CursorAtEnd(c, vi, cur, launched, det, plan, rm);
    assert CursorVisit(c, vi) == cur;
    var next := PlanUpTo(c, vi + 1);
    assert next == PlanUpTo(c, vi) + VisitChunks(c, vi);
    assert launched == |next| && plan == next;
    assert VisitChunks(c, vi + 1)[..0] == [];
    assert plan == next + VisitChunks(c, vi + 1)[..launched - |next|];
    assert Offset(0, c.nfiles) == 0;
    assert CleanupVisits(c, vi + 1) == CleanupVisits(c, vi) + [cur];
  }

  /** Past the last visit, the advance moves only the visit index; the cleanup adds the last visit again. */
  lemma CursorAtPastEnd(c: Config, vi: nat, cur: int, launched: nat, det: int, plan: seq<Chunk>, rm: seq<int>)
    requires ConfigOk(c) && CursorAt(c, vi, cur, launched, det, plan, rm)
    requires cur in c.detLists && det >= |c.detLists[cur]|
    requires vi + 1 >= |c.visits|
    ensures CursorAt(c, vi + 1, cur, launched, det, plan, if c.cleanUpAtmPsfs then rm + [cur] else rm)
  {
    CursorAtEnd(c, vi, cur, launched, det, plan, rm);
    assert CursorVisit(c, vi) == cur;
  }

  /** The same two steps on the state: `EmitChunk`. */
  lemma CursorEmit(c: Config, s: State)
    requires ConfigOk(c) && StateOk(c, s) && CursorOk(c, s)
    requires s.currentVisit in s.psfFutures
    requires s.detIndex < |c.detLists[s.currentVisit]|
    ensures 0 <= s.detIndex && s.visitIndex < |c.visits|
    ensures CursorOk(c, EmitChunk(c, s).s)
  {
    var v := s.currentVisit;
    var list := c.detLists[v];
    CursorAtEmit(c, s.visitIndex, v, s.launchedJobs, s.detIndex, CcdPlan(s.log), RmVisits(s.log));
    EmitChunkSpec(c, s);
    var chunk := list[s.detIndex..Min(s.detIndex + c.nfiles, |list|)];
    SubmitOne(s.log, CcdEntry(v, chunk, s.psfFutures[v]));
  }

  /** The same on the state: the cleanup of lines 121-134, then the advance of lines 136-141. */
  lemma CursorCleanupAdvance(c: Config, s: State)
    requires ConfigOk(c) && StateOk(c, s) && CursorOk(c, s)
    requires s.detIndex >= |c.detLists[s.currentVisit]|
    ensures CursorOk(c, Advance(c, AppendCleanup(c, s)))
  {
    var t := Advance(c, AppendCleanup(c, s));
    CleanupAdvanceCursor(c, s);
    var vi, cur, launched, det := s.visitIndex, s.currentVisit, s.launchedJobs, s.detIndex;
    var plan, rm0 := CcdPlan(s.log), RmVisits(s.log);
    var rm := if c.cleanUpAtmPsfs then rm0 + [cur] else rm0;
    assert CursorAt(c, vi, cur, launched, det, plan, rm0);
    if vi + 1 < |c.visits| {
      CursorAtNextVisit(c, vi, cur, launched, det, plan, rm0);
      CleanupAdvanceNext(c, s);
      CursorOkIntro(c, t, vi + 1, c.visits[vi + 1], launched, 0, plan, rm);
    } else {
      CursorAtPastEnd(c, vi, cur, launched, det, plan, rm0);
      CleanupAdvancePast(c, s);
      CursorOkIntro(c, t, vi + 1, cur, launched, det, plan, rm);
    }
  }

  /** What the cleanup and the advance leave of the cursor fields and the log readings. */
  lemma CleanupAdvanceCursor(c: Config, s: State)
    ensures var t := Advance(c, AppendCleanup(c, s));
            CcdPlan(t.log) == CcdPlan(s.log)
            && RmVisits(t.log) == (if c.cleanUpAtmPsfs then RmVisits(s.log) + [s.currentVisit] else RmVisits(s.log))
            && t.launchedJobs == s.launchedJobs && t.visitIndex == s.visitIndex + 1
  {
    AppendCleanupReadings(c, s);
  }

  /** Before the last visit, the advance moves to the start of the next one. */
  lemma CleanupAdvanceNext(c: Config, s: State)
    requires s.visitIndex + 1 < |c.visits|
    ensures var t := Advance(c, AppendCleanup(c, s));
            t.currentVisit == c.visits[s.visitIndex + 1] && t.detIndex == 0
  {
  }

  /** From the last visit on, the advance keeps the current visit and its offset. */
  lemma CleanupAdvancePast(c: Config, s: State)
    requires s.visitIndex + 1 >= |c.visits|
    ensures var t := Advance(c, AppendCleanup(c, s));
            t.currentVisit == s.currentVisit && t.detIndex == s.detIndex
  {
  }

  /** `CursorOk` of a state from `CursorAt` of its parts. */
  lemma CursorOkIntro(c: Config, t: State, vi: nat, cur: int, launched: nat, det: int, plan: seq<Chunk>, rm: seq<int>)
    requires ConfigOk(c) && CursorAt(c, vi, cur, launched, det, plan, rm)
    requires t.visitIndex == vi && t.currentVisit == cur && t.launchedJobs == launched && t.detIndex == det
    requires CcdPlan(t.log) == plan && RmVisits(t.log) == rm
    ensures CursorOk(c, t)
  {
  }

  /** `CursorOk` reads only the cursor fields and two readings of the log. */
  lemma CursorFrame(c: Config, s: State, t: State)
    requires ConfigOk(c) && CursorOk(c, s)
    requires t.visitIndex == s.visitIndex && t.currentVisit == s.currentVisit
    requires t.launchedJobs == s.launchedJobs && t.detIndex == s.detIndex
    requires CcdPlan(t.log) == CcdPlan(s.log) && RmVisits(t.log) == RmVisits(s.log)
    ensures CursorOk(c, t)
  {
  }

  // ---------------------------------------------------------------------
  // One call

  /** `MemoPsf` then `EmitChunk` keep the invariant, whether or not the list has a detector at the cursor. */
  lemma EmitFromInv(c: Config, s: State)
    requires Inv(c, s)
    ensures Inv(c, EmitChunk(c, MemoPsf(c, s)).s)
  {
    MemoInv(c, s);
    EmitInv(c, MemoPsf(c, s));
  }

  lemma MemoInv(c: Config, s: State)
    requires Inv(c, s)
    ensures Inv(c, MemoPsf(c, s)) && s.currentVisit in MemoPsf(c, s).psfFutures
    ensures MemoPsf(c, s).currentVisit == s.currentVisit
  {
    MemoPsfReadings(c, s);
    MemoPsfOk(c, s);
    CursorFrame(c, s, MemoPsf(c, s));
  }

  lemma EmitInv(c: Config, s: State)
    requires Inv(c, s) && s.currentVisit in s.psfFutures
    ensures Inv(c, EmitChunk(c, s).s)
  {
    if s.detIndex < |c.detLists[s.currentVisit]| {
      CursorEmit(c, s);
      EmitChunkOk(c, s);
    } else {
      assert EmitChunk(c, s).s == s;
    }
  }

  /** Every call, including one that raises, keeps the invariant. */
  lemma StepPreservesInv(c: Config, s: State)
    requires Inv(c, s)
    ensures Inv(c, Step(c, s).s)
  {
    if s.launchedJobs <= c.numJobs {
      if s.detIndex >= |c.detLists[s.currentVisit]| {
        var s2 := Advance(c, AppendCleanup(c, s));
        InvCleanupAdvance(c, s);
        if s2.visitIndex < |c.visits| {
          EmitFromInv(c, s2);
        }
      } else {
        EmitFromInv(c, s);
      }
    }
  }

  /** The cleanup and the advance at the end of a visit's list keep the invariant. */
  lemma InvCleanupAdvance(c: Config, s: State)
    requires Inv(c, s) && s.detIndex >= |c.detLists[s.currentVisit]|
    ensures Inv(c, Advance(c, AppendCleanup(c, s)))
  {
    var s1 := AppendCleanup(c, s);
    var s2 := Advance(c, s1);
    AppendCleanupOk(c, s);
    CursorCleanupAdvance(c, s);
    AdvanceKeepsLog(c, s1);
  }

  /** The advance of lines 136-141 touches only the cursor. */
  lemma AdvanceKeepsLog(c: Config, s: State)
    ensures var t := Advance(c, s);
            t.psfFutures == s.psfFutures && t.ccdFutures == s.ccdFutures
            && t.rmAtmPsfFutures == s.rmAtmPsfFutures && t.log == s.log
            && (t.visitIndex < |c.visits| ==> t.currentVisit in c.visits)
  {
  }

  /** The calls made so far, as the cursor counts them: one per chunk, plus one per advance past the end. */
  ghost function Progress(c: Config, s: State): nat {
    s.launchedJobs + (if s.visitIndex >= |c.visits| then s.visitIndex - |c.visits| + 1 else 0)
  }

  /** Every visit the cursor has reached after the first has detectors left. */
  ghost predicate Reached(c: Config, s: State)
    requires VisitsListed(c)
  {
    forall j :: 1 <= j < |c.visits| && j <= s.visitIndex ==> DetListAt(c, j) != []
  }

  /** Some visit after the first has no detector left, so advancing to it raises at line 148. */
  ghost predicate EmptyVisitAfterFirst(c: Config)
    requires VisitsListed(c)
  {
    exists j :: 1 <= j < |c.visits| && DetListAt(c, j) == []
  }

  /**
    Below the guard, a call raises only on reaching a visit (after the
    first) with nothing left; otherwise it counts as one more call, and
    it adds its returned future, and no other CCD job, to the log.
  */
  lemma StepProgress(c: Config, s: State)
    requires Inv(c, s) && Reached(c, s)
    requires s.launchedJobs <= c.numJobs
    ensures var r := Step(c, s);
            (r.out.DetIndexError? ==> EmptyVisitAfterFirst(c))
            && (!r.out.DetIndexError? ==>
                  Progress(c, r.s) == Progress(c, s) + 1 && Reached(c, r.s)
                  && Handles(r.s.log, AnyCcd)
                     == Handles(s.log, AnyCcd) + (if r.out.Launched? then [r.out.h] else []))
  {
    CursorBounds(c, s);
    if s.detIndex >= |c.detLists[s.currentVisit]| {
      ProgressAdvance(c, s);
    } else {
      ProgressEmit(c, s);
    }
  }

  /** The cursor is never negative, and it is inside a list only before the end of the visits. */
  lemma CursorBounds(c: Config, s: State)
    requires ConfigOk(c) && StateOk(c, s) && CursorOk(c, s)
    ensures 0 <= s.detIndex
    ensures s.detIndex < |c.detLists[s.currentVisit]| ==> s.visitIndex < |c.visits|
  {
    if s.detIndex < |c.detLists[s.currentVisit]| {
      CursorAtEmit(c, s.visitIndex, s.currentVisit, s.launchedJobs, s.detIndex, CcdPlan(s.log), RmVisits(s.log));
    }
  }

  /** A call at the end of a visit's list (lines 118-141, then 143-195). */
  lemma ProgressAdvance(c: Config, s: State)
    requires ConfigOk(c) && StateOk(c, s) && Reached(c, s)
    requires s.launchedJobs <= c.numJobs && s.detIndex >= |c.detLists[s.currentVisit]|
    ensures var r := Step(c, s);
            (r.out.DetIndexError? ==> EmptyVisitAfterFirst(c))
            && (!r.out.DetIndexError? ==>
                  Progress(c, r.s) == Progress(c, s) + 1 && Reached(c, r.s)
                  && Handles(r.s.log, AnyCcd)
                     == Handles(s.log, AnyCcd) + (if r.out.Launched? then [r.out.h] else []))
  {
    var s2 := Advance(c, AppendCleanup(c, s));
    CleanupAdvanceReadings(c, s);
    if s2.visitIndex < |c.visits| {
      assert Step(c, s) == EmitChunk(c, MemoPsf(c, s2));
      ProgressEnter(c, s, s2);
    } else {
      assert Step(c, s) == StepResult(s2, NoJob);
      ReachedNext(c, s, s2);
    }
  }

  /** What the cleanup and the advance of lines 121-141 leave of the cursor and the CCD jobs. */
  lemma CleanupAdvanceReadings(c: Config, s: State)
    ensures var t := Advance(c, AppendCleanup(c, s));
            Handles(t.log, AnyCcd) == Handles(s.log, AnyCcd)
            && t.launchedJobs == s.launchedJobs && t.visitIndex == s.visitIndex + 1
            && (t.visitIndex < |c.visits| ==> t.currentVisit == c.visits[t.visitIndex] && t.detIndex == 0)
  {
    AppendCleanupReadings(c, s);
  }

  /** Entering the next visit: a launch when it has detectors, the IndexError of line 148 when it has none. */
  lemma ProgressEnter(c: Config, s: State, s2: State)
    requires ConfigOk(c) && Reached(c, s) && StateOk(c, s2)
    requires s2.visitIndex == s.visitIndex + 1 < |c.visits|
    requires s2.currentVisit == c.visits[s2.visitIndex] && s2.detIndex == 0
    requires s2.launchedJobs == s.launchedJobs && Handles(s2.log, AnyCcd) == Handles(s.log, AnyCcd)
    ensures var r := EmitChunk(c, MemoPsf(c, s2));
            (r.out.DetIndexError? ==> EmptyVisitAfterFirst(c))
            && (!r.out.DetIndexError? ==>
                  Progress(c, r.s) == Progress(c, s) + 1 && Reached(c, r.s)
                  && Handles(r.s.log, AnyCcd)
                     == Handles(s.log, AnyCcd) + (if r.out.Launched? then [r.out.h] else []))
  {
    var j := s2.visitIndex;
    var s3 := MemoPsf(c, s2);
    MemoPsfReadings(c, s2);
    var list := c.detLists[s3.currentVisit];
    assert DetListAt(c, j) == list;
    var r := EmitChunk(c, s3);
    if list != [] {
      EmitFrom(c, s3);
      assert r.s.launchedJobs == s.launchedJobs + 1 && r.s.visitIndex == j;
      ReachedNext(c, s, r.s);
    } else {
      assert PyIndex(list, 0).None?;
      assert r.out == DetIndexError;
      assert 1 <= j < |c.visits| && DetListAt(c, j) == [];
    }
  }

  /** Moving the cursor one visit on keeps `Reached` when the new visit, if any, has detectors. */
  lemma ReachedNext(c: Config, s: State, t: State)
    requires VisitsListed(c) && Reached(c, s) && t.visitIndex == s.visitIndex + 1
    requires t.visitIndex < |c.visits| ==> DetListAt(c, t.visitIndex) != []
    ensures Reached(c, t)
  {
  }

  /** A call inside a visit's list (lines 143-195). */
  lemma ProgressEmit(c: Config, s: State)
    requires ConfigOk(c) && StateOk(c, s)
    requires s.launchedJobs <= c.numJobs
    requires 0 <= s.detIndex < |c.detLists[s.currentVisit]| && s.visitIndex < |c.visits|
    ensures var r := Step(c, s);
            r.out.Launched?
            && Progress(c, r.s) == Progress(c, s) + 1 && r.s.visitIndex == s.visitIndex
            && Handles(r.s.log, AnyCcd) == Handles(s.log, AnyCcd) + [r.out.h]
  {
    var s3 := MemoPsf(c, s);
    MemoPsfReadings(c, s);
    EmitFrom(c, s3);
  }

  /** An emitting call adds exactly its returned handle to the CCD jobs. */
  lemma EmitFrom(c: Config, s: State)
    requires StateOk(c, s) && s.currentVisit in s.psfFutures && c.nfiles >= 1
    requires 0 <= s.detIndex < |c.detLists[s.currentVisit]|
    ensures var r := EmitChunk(c, s);
            r.out == Launched(|s.log|) && r.s.launchedJobs == s.launchedJobs + 1
            && r.s.visitIndex == s.visitIndex
            && Handles(r.s.log, AnyCcd) == Handles(s.log, AnyCcd) + [|s.log|]
  {
    EmitChunkSpec(c, s);
    var v := s.currentVisit;
    var list := c.detLists[v];
    var chunk := list[s.detIndex..Min(s.detIndex + c.nfiles, |list|)];
    SubmitOne(s.log, CcdEntry(v, chunk, s.psfFutures[v]));
  }
}
