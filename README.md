# GalSimJobGenerator, modelled in Dafny

`GalSimJobGenerator` (desc_roman_sims/galsim_job_generator.py) plans and
submits the image-rendering work of a simulation campaign to a workflow
engine. When it is constructed, it finds the detectors (CCDs) each visit
still needs. It does this by reading the detector ids from the `amp*` raw
files already in the visit's output directory. It sorts what is left of
the target set and counts the remaining detectors as `num_jobs`.

Each call of `get_job_future` moves a cursor `(visit index, detector index)`
one step through the visits:

- It submits one CCD job for the next chunk of at most `nfiles` detectors.
- Before the visit's first chunk, it submits the visit's atmospheric-PSF job once, unless a PSF file already exists. The job is cached in `_psf_futures`.
- When a visit's list is used up, it moves to the next visit. With `clean_up_atm_psfs` on, it first schedules a cleanup task that waits on all of that visit's CCD jobs.

`run` calls `get_job_future` `num_jobs + 1` times. It collects the returned
futures and, when blocking, waits on the cleanup tasks, or on the CCD jobs
if there are no cleanup tasks.

The project is made of these modules:

- `Wrappers`: `Option` and `Result`.
- `Formatting`, `PyList`: the Python built-ins the code relies on (`str`, `int`, `{:08d}`, `", ".join`, indexing and slicing with negative positions). Each formatter is paired with a parser and a round-trip lemma.
- `Catalog`: the work catalogue of lines 35-38 and 61-80. This covers filename parsing, `sorted(set)` as a loop-built method, the per-visit list assembly loop with its error path, and the PSF file lookup.
- `Submissions`: the engine as an append-only log of submitted tasks. A future is the task's position in the log. Filters read back the CCD, PSF and cleanup tasks in submission order.
- `Planner`: the generator's settings (`Config`) and bookkeeping (`State`). One call of `get_job_future` is the function `Step`, and the `run` loop is `Drive`. This module also holds the chunking of a detector list and the work plan: all chunks of all visits, in visit order.
- `Invariants`: the invariant every call keeps, and the progress every call makes.
- `Runs`: the theorems about a whole `run` from the state `__init__` leaves.
- `Tasks`: the job names, command lines, reservations and log files the engine is asked to run.
- `Generator`: the class `GalSimJobGenerator`. Its fields are updated in place by methods that follow the Python code statement by statement, and each method is proved to leave exactly the state `Step` / `Drive` describe.

Inputs that come from outside the program are explicit:

- The filesystem is a snapshot. A map gives each visit's output-directory entry names; a visit missing from the map has no directory, which `glob` treats as empty. The set of names in the atmospheric-PSF directory is a separate input.
- The YAML file is reduced to the two values the code reads from it: the output directory of each visit and the PSF directory.

## Model

| member | source | states |
|---|---|---|
| Formatting.IntToString | desc_roman_sims/galsim_job_generator.py:180 | `str(n)`: a `-` for a negative number, then the decimal digits; its properties are IntToStringRoundTrip and IntToStringHasNoSeparator |
| Formatting.ZeroPad | desc_roman_sims/galsim_job_generator.py:151 | `{n:0Wd}`: the digits padded with zeros on the left to width `W`, after the sign; its properties are ZeroPadRoundTrip, DigitsLength and LeadingZerosIgnored |
| Formatting.ParseDigits | desc_roman_sims/galsim_job_generator.py:70 | `int()` of a slice succeeds exactly on a non-empty string of decimal digits, and the value is non-negative |
| Formatting.DigitsRoundTrip | desc_roman_sims/galsim_job_generator.py:180 | the decimal digits `str(n)` writes for a natural number read back as `n` |
| Formatting.IntToStringRoundTrip | desc_roman_sims/galsim_job_generator.py:180 | `int(str(n)) == n` for every integer, negative ones included |
| Formatting.IntToStringHasNoSeparator | desc_roman_sims/galsim_job_generator.py:180-182 | `str(n)` is non-empty and holds neither `,` nor `]`, so the list rendering cannot be misread |
| Formatting.DigitsLength | desc_roman_sims/galsim_job_generator.py:151 | a number below `10^k` has at most `k` digits, so a width-`k` zero pad is never exceeded |
| Formatting.LeadingZerosIgnored | desc_roman_sims/galsim_job_generator.py:151 | the zeros a pad adds in front do not change the value read back |
| Formatting.ZeroPadRoundTrip | desc_roman_sims/galsim_job_generator.py:151 | `{n:0Wd}` of `n < 10^W` has exactly `W` characters and reads back as `n` |
| Formatting.JoinInts | desc_roman_sims/galsim_job_generator.py:180-181 | `", ".join(str(x) for x in ids)`: the decimal forms of the ids separated by `, `; its property is ParseItemsRoundTrip |
| Formatting.FormatIntList | desc_roman_sims/galsim_job_generator.py:179-182 | the bracketed detector list `[a, b, ...]` put on a CCD command line; its property is FormatIntListRoundTrip |
| Formatting.ParseItemsRoundTrip | desc_roman_sims/galsim_job_generator.py:179-182 | `", ".join(str(i) for i in ids)` splits back into `ids` for every non-empty list |
| Formatting.FormatIntListRoundTrip | desc_roman_sims/galsim_job_generator.py:179-182 | `"[" + ", ".join(...) + "]"` of a detector list parses back to exactly that list, the empty list included |
| PyList.PyIndex | desc_roman_sims/galsim_job_generator.py:148-150 | `s[i]` is defined exactly for `-len(s) <= i < len(s)`; a negative `i` counts from the end; elsewhere it is the IndexError |
| PyList.PySlice | desc_roman_sims/galsim_job_generator.py:70 | `s[i:j]` is the ordinary slice when `0 <= i <= j <= len(s)`, and is never longer than `s` |
| Catalog.FindFrom | desc_roman_sims/galsim_job_generator.py:69 | `str.find` gives the first occurrence at or after the start, or -1 when there is none |
| Catalog.IsRawFile | desc_roman_sims/galsim_job_generator.py:65 | an entry name matches `amp*` exactly when it starts with `amp`; its property is the ensures of RawFiles |
| Catalog.Listing | desc_roman_sims/galsim_job_generator.py:64-65 | the entry names of a visit's output directory, none when the directory is missing, as `glob` returns for it; AssembleDetLists reads each visit through it |
| Catalog.RawFiles | desc_roman_sims/galsim_job_generator.py:65 | the `amp*` pattern keeps exactly the entry names that start with `amp` |
| Catalog.DetIdOfFilename | desc_roman_sims/galsim_job_generator.py:69-70 | `int(basename[index+3:index+6])` with `index = basename.find("det")`, `None` where `int()` raises; its properties are DetIdOfWellFormedName and RawFileWithoutMarkerRejected |
| Catalog.DetIdOfWellFormedName | desc_roman_sims/galsim_job_generator.py:69-70 | a name whose first `det` is followed by three digits yields the number those digits spell |
| Catalog.RawFileWithoutMarkerRejected | desc_roman_sims/galsim_job_generator.py:69-70 | in an `amp*` name with no `det`, `find` gives -1 and the slice `[2:5]` starts with `p`, so `int()` fails |
| Catalog.FinishedDets | desc_roman_sims/galsim_job_generator.py:66-70 | the ids read from a visit's raw files in listing order, or the first file whose id cannot be read; its properties are FinishedDetsSucceeds, FinishedDetsValues, FinishedDetsFailure and FinishedDetsFailsFrom |
| Catalog.ReadFinishedDets | desc_roman_sims/galsim_job_generator.py:66-70 | the loop over a visit's raw files computes `FinishedDets`: the ids in listing order, or the first unreadable name |
| Catalog.FinishedDetsSucceeds | desc_roman_sims/galsim_job_generator.py:66-70 | the scan succeeds if and only if every raw file name holds a readable id |
| Catalog.FinishedDetsValues | desc_roman_sims/galsim_job_generator.py:66-70 | a successful scan yields one id per file, in order, each the id read from that file's name |
| Catalog.FinishedDetsFailure | desc_roman_sims/galsim_job_generator.py:66-70 | a failed scan reports a file that is unreadable while every file before it is readable |
| Catalog.FinishedDetsFailsFrom | desc_roman_sims/galsim_job_generator.py:67-70 | once a prefix of the listing fails, the files after it do not change the outcome (the exception ends the loop) |
| Catalog.Range | desc_roman_sims/galsim_job_generator.py:36 | `range(n)` has length `n` and holds `i` at position `i` |
| Catalog.TargetDets | desc_roman_sims/galsim_job_generator.py:35-38 | `set(range(189))` without a detector list, else the set of the given ids; its property is DefaultTargetDets |
| Catalog.DefaultTargetDets | desc_roman_sims/galsim_job_generator.py:35-36 | without a detector list, the target set is exactly the ids 0 to 188, 189 of them |
| Catalog.SortedList | desc_roman_sims/galsim_job_generator.py:72 | the selection loop returns a strictly ascending list holding exactly the elements of the set, as many as the set has |
| Catalog.SortedListLength | desc_roman_sims/galsim_job_generator.py:72 | any strictly ascending listing of a set is as long as the set |
| Catalog.SortedListUnique | desc_roman_sims/galsim_job_generator.py:72 | two strictly ascending listings of one set are equal, so `sorted` is determined by the set |
| Catalog.Distinct | desc_roman_sims/galsim_job_generator.py:71-73 | the keys of `_det_lists` are exactly the visits, and each key appears once |
| Catalog.DistinctOfNoDuplicates | desc_roman_sims/galsim_job_generator.py:73 | with distinct visits, the dictionary's keys are the visits themselves, in order |
| Catalog.SumLengths | desc_roman_sims/galsim_job_generator.py:73 | `sum(len(l) for l in _det_lists.values())`: the list lengths summed over the dictionary's keys; its properties are the `num_jobs` clause of AssembleDetLists, SumLengthsAppend and PlanAtMostJobs |
| Catalog.AssembleDetLists | desc_roman_sims/galsim_job_generator.py:61-73 | succeeds if and only if every visit's scan succeeds; on failure it names the first visit that fails and its file; on success every visit maps to the sorted target ids minus its finished ids, and `num_jobs` is the sum of the list lengths over the distinct visits |
| Catalog.MatchesAtmPsfGlob | desc_roman_sims/galsim_job_generator.py:76 | the names `*{visit}*.pkl` matches: ending in `.pkl`, not starting with `.`, with `str(visit)` somewhere before the suffix; its properties are PsfLookupSeesContainingVisit and PsfLookupIsSubstringMatch |
| Catalog.PsfLookupSeesContainingVisit | desc_roman_sims/galsim_job_generator.py:76 | the lookup for visit `v` finds a file whenever a file of some visit `w` is present and the digits of `w` contain the digits of `v` |
| Catalog.PsfLookupIsSubstringMatch | desc_roman_sims/galsim_job_generator.py:76 | the pattern `*{visit}*.pkl` is a substring match: visit 10 sees the PSF file `atm_psf_100.pkl` |
| Submissions.PathJoin | desc_roman_sims/galsim_job_generator.py:93 | `os.path.join(a, b)` is `b` when `b` is absolute, and inserts one `/` when `a` does not end in one |
| Submissions.PathJoinInjective | desc_roman_sims/galsim_job_generator.py:93 | joined to the same directory, two different relative names give two different paths |
| Submissions.Handles | desc_roman_sims/galsim_job_generator.py:192-194 | a filter returns exactly the positions of the log entries it keeps |
| Submissions.HandlesAscending | desc_roman_sims/galsim_job_generator.py:194 | a filter lists its handles in submission order, strictly ascending |
| Submissions.CcdHandlesMatchPlan | desc_roman_sims/galsim_job_generator.py:192-194 | there are as many CCD futures as CCD chunks in the log |
| Planner.ChunksConcat | desc_roman_sims/galsim_job_generator.py:147-150 | the chunks of a detector list, concatenated, give back the list |
| Planner.ChunkSizes | desc_roman_sims/galsim_job_generator.py:149 | every chunk holds between 1 and `nfiles` detectors |
| Planner.ChunkFull | desc_roman_sims/galsim_job_generator.py:149 | every chunk but the last holds exactly `nfiles` detectors |
| Planner.ChunkIndex | desc_roman_sims/galsim_job_generator.py:118 | chunk `p` exists exactly when its offset `p * nfiles` is still inside the list, so the condition of line 118 ends a visit right after its last chunk |
| Planner.ChunkAt | desc_roman_sims/galsim_job_generator.py:148-150 | chunk `p` is `det_list[p*nfiles : min(p*nfiles + nfiles, len)]` |
| Planner.ChunkCount | desc_roman_sims/galsim_job_generator.py:189 | a list has `ceil(len / nfiles)` chunks, never more chunks than detectors |
| Planner.ChunksAscending | desc_roman_sims/galsim_job_generator.py:147-150 | in an ascending list, every detector of an earlier chunk is below every detector of a later one, so the chunks are disjoint and ordered |
| Planner.OffsetIsProduct | desc_roman_sims/galsim_job_generator.py:189 | after `p` emissions the detector index is `p * nfiles` |
| Planner.Init | desc_roman_sims/galsim_job_generator.py:52-59 | the state `__init__` leaves: the cursor on the first visit's first detector, no job launched, empty PSF, CCD and cleanup caches, nothing submitted; its properties are InitOk and the constructor's ensures |
| Planner.Lookup | desc_roman_sims/galsim_job_generator.py:194 | a read of the `defaultdict(list)` `_ccd_futures`, here and at line 134: the stored list, or the empty list for a visit never seen; its properties are CcdFuturesAppend and AppendCleanupReadings |
| Planner.Reservation | desc_roman_sims/galsim_job_generator.py:157-161 | the resource specification (also at lines 96-97) passed only to the `work_queue` executor: the memory, 1 core and 0 disk, and none for any other executor; its properties are RenderCcdJob and RenderPsfJob |
| Planner.AtmPsfFuture | desc_roman_sims/galsim_job_generator.py:82-112 | the PSF prerequisite of a visit: no future and no submission when a PSF file is present, else one new PSF job and its future; its properties are PsfFuturesMemo and the ensures of GetAtmPsfFuture |
| Planner.AppendCleanup | desc_roman_sims/galsim_job_generator.py:121-134 | with clean-up on, one cleanup task for the current visit whose inputs are that visit's CCD futures; with clean-up off, no change; its property is AppendCleanupReadings |
| Planner.Advance | desc_roman_sims/galsim_job_generator.py:136-141 | the visit index grows by one; inside the visits the cursor moves to the next visit's first detector; its property is AdvanceKeepsLog |
| Planner.MemoPsf | desc_roman_sims/galsim_job_generator.py:143-146 | the PSF future of the current visit, looked up once and cached; its property is MemoPsfReadings |
| Planner.EmitChunk | desc_roman_sims/galsim_job_generator.py:147-195 | one CCD job for the chunk at the detector index, or the IndexError of line 148; its property is EmitChunkSpec |
| Planner.Step | desc_roman_sims/galsim_job_generator.py:114-195 | one call of `get_job_future`: the guard, then the cleanup and advance when the list is used up, then the PSF lookup and the chunk; its properties are StepPreservesInv, StepProgress, StepPastEnd and StepLaunchesAtMostOne |
| Planner.NextRun | desc_roman_sims/galsim_job_generator.py:200-203 | one iteration of the loop of `run`: nothing after a raise, else one `Step`, collecting a returned future |
| Planner.Drive | desc_roman_sims/galsim_job_generator.py:200-203 | `k` iterations of the loop of `run`; its properties are DriveFromInit, DriveLaunches, GuardNeverFires and RunTheorem |
| Planner.Awaited | desc_roman_sims/galsim_job_generator.py:205-210 | the futures a blocking `run` waits on: the cleanup tasks when there are any, else the collected CCD futures, none when not blocking; its property is RunWaits |
| Planner.JobName | desc_roman_sims/galsim_job_generator.py:151 | `f"{visit:08d}_{det_start:03d}_{det_end:03d}"`; its properties are JobNameRoundTrip and JobNamesDistinct |
| Planner.PsfCommand | desc_roman_sims/galsim_job_generator.py:110-111 | the `time galsim` command line of a PSF job; its property is RenderPsfJob |
| Planner.CcdCommand | desc_roman_sims/galsim_job_generator.py:183-187 | the `galsim` command line of a CCD job; its property is RenderCcdJob |
| Planner.Render | desc_roman_sims/galsim_job_generator.py:91-187 | what the engine is asked to run for a logged task; its properties are RenderCcdJob and RenderPsfJob |
| Invariants.InitOk | desc_roman_sims/galsim_job_generator.py:52-59 | the state `__init__` leaves satisfies the invariant |
| Invariants.EmitChunkSpec | desc_roman_sims/galsim_job_generator.py:147-195 | inside the list, a call submits the CCD job of `det_list[d : min(d + nfiles, len)]` with the visit's PSF futures as inputs; the detector index grows by `nfiles`, the launch count by one, and the future joins the visit's CCD futures and is returned |
| Invariants.AppendCleanupReadings | desc_roman_sims/galsim_job_generator.py:121-134 | with cleanup on, leaving a visit adds exactly one cleanup task for it; with cleanup off it adds nothing; it never adds a CCD job |
| Invariants.AdvanceKeepsLog | desc_roman_sims/galsim_job_generator.py:136-141 | moving to the next visit touches only the cursor fields |
| Invariants.MemoPsfReadings | desc_roman_sims/galsim_job_generator.py:143-146 | resolving the PSF prerequisite changes only the PSF cache and the log; afterwards the current visit is cached; no CCD or cleanup task is added |
| Invariants.PsfFuturesMemo | desc_roman_sims/galsim_job_generator.py:82-112 | after the lookup, the cached PSF futures of each visit are still exactly its PSF jobs in the log: none if a PSF file exists, one otherwise |
| Invariants.CcdFuturesAppend | desc_roman_sims/galsim_job_generator.py:194 | `_ccd_futures[v]` stays exactly the CCD jobs of visit `v`, in submission order |
| Invariants.RmFuturesAppend | desc_roman_sims/galsim_job_generator.py:132-134 | `_rm_atm_psf_futures` stays exactly the cleanup tasks, in submission order |
| Invariants.CleanupVisitsPrefix | desc_roman_sims/galsim_job_generator.py:136-138 | before the end, the visits cleaned up so far are the visits passed so far |
| Invariants.CleanupVisitsPastEnd | desc_roman_sims/galsim_job_generator.py:118-140 | past the end, every further advance cleans up the last visit again |
| Invariants.CursorAtEmit | desc_roman_sims/galsim_job_generator.py:147-190 | an emission moves the cursor to the next chunk of the work plan |
| Invariants.CursorAtNextVisit | desc_roman_sims/galsim_job_generator.py:118-141 | when a visit's list is used up, the advance puts the cursor at the start of the next visit, and with cleanup on the cleanup list gains the visit just handled |
| Invariants.CursorAtPastEnd | desc_roman_sims/galsim_job_generator.py:136-140 | past the last visit, the advance moves only the visit index, and with cleanup on it cleans up the last visit again |
| Invariants.CursorEmit | desc_roman_sims/galsim_job_generator.py:147-190 | the same as CursorAtEmit, on the whole state |
| Invariants.CursorCleanupAdvance | desc_roman_sims/galsim_job_generator.py:118-141 | the same as CursorAtNextVisit and CursorAtPastEnd, on the whole state |
| Invariants.StepPreservesInv | desc_roman_sims/galsim_job_generator.py:114-195 | every call keeps the invariant. The cursor sits on the work plan and the CCD jobs in the log are the plan's first chunks. The CCD futures of each visit, the cleanup futures and the PSF cache agree with the log. Every logged task is well formed |
| Invariants.StepProgress | desc_roman_sims/galsim_job_generator.py:114-195 | below the guard, a call raises only on reaching a later visit with no detector left; otherwise it counts one more step, and it adds to the log its returned future and no other CCD job |
| Invariants.ProgressEmit | desc_roman_sims/galsim_job_generator.py:147-195 | inside the list, a call returns a new CCD future and stays on the visit |
| Runs.PlanUpToAtMostDets | desc_roman_sims/galsim_job_generator.py:73 | the chunks of the first `i` visits are no more than their detectors |
| Runs.PlanAtMostJobs | desc_roman_sims/galsim_job_generator.py:73 | with distinct visits (see Left out), the work plan has at most `num_jobs` chunks, because `num_jobs` counts detectors |
| Runs.LaunchedAtMostPlan | desc_roman_sims/galsim_job_generator.py:189-190 | `_launched_jobs` never exceeds the number of chunks |
| Runs.GuardNeverFires | desc_roman_sims/galsim_job_generator.py:115-116 | for any visits, before each of the `num_jobs + 1` calls of `run`, `_launched_jobs <= num_jobs`, so the guard of line 115 never returns `None` during `run` |
| Runs.StepLaunchesAtMostOne | desc_roman_sims/galsim_job_generator.py:189 | a call raises `_launched_jobs` by at most one |
| Runs.DriveLaunches | desc_roman_sims/galsim_job_generator.py:189 | `k` calls raise `_launched_jobs` by at most `k` |
| Runs.LaunchedWithinJobs | desc_roman_sims/galsim_job_generator.py:115-116 | with distinct visits, `_launched_jobs <= num_jobs` in every state the invariant allows, however many calls are made |
| Runs.CursorAtComplete | desc_roman_sims/galsim_job_generator.py:136-140 | once past the last visit, every chunk of the plan has been emitted |
| Runs.StepPastEnd | desc_roman_sims/galsim_job_generator.py:114-140 | past the last visit, a call returns `None` and submits no CCD job; below the guard it moves the visit index and, with cleanup on, adds one more cleanup of the last visit |
| Runs.TasksWellFormed | desc_roman_sims/galsim_job_generator.py:125-134 | every CCD job takes as inputs exactly its visit's PSF futures (none when a PSF file exists, one otherwise) and holds a non-empty chunk; every cleanup task takes as inputs exactly its visit's CCD futures submitted before it; a visit has at most one PSF job |
| Runs.DriveFromInit | desc_roman_sims/galsim_job_generator.py:200-203 | for any visits, after `k <= num_jobs + 1` calls from the initial state the invariant holds; a raise means some later visit has no detector left; otherwise the collected list is exactly the CCD futures in the log |
| Runs.CompletedRun | desc_roman_sims/galsim_job_generator.py:200-203 | when the plan has at most `num_jobs` chunks, after `num_jobs + 1` counted steps, every chunk of the plan is in the log, and the cleanup visits are the visits followed by repeats of the last one |
| Runs.FinishedRun | desc_roman_sims/galsim_job_generator.py:200-203 | when the plan has at most `num_jobs` chunks, a `run` that did not raise submitted the whole plan, collected all its futures in order, and cleaned up every visit, then the last one `num_jobs - chunks` times more |
| Runs.RunTheorem | desc_roman_sims/galsim_job_generator.py:197-203 | with distinct visits, `run` raises if and only if a visit after the first has no detector left. Otherwise the CCD jobs are exactly the work plan in order, and the collected list is exactly their futures. With cleanup on, the cleanup tasks are every visit once and then the last visit repeated, one per surplus call; with cleanup off there are none |
| Runs.RunWaits | desc_roman_sims/galsim_job_generator.py:205-210 | with distinct visits, a blocking `run` that did not raise waits on every cleanup task when cleanup is on, and on every CCD job otherwise; there are `len(visits) + num_jobs - chunks` cleanup tasks |
| Tasks.JobNameRoundTrip | desc_roman_sims/galsim_job_generator.py:151 | the job name `{visit:08d}_{start:03d}_{end:03d}` has 16 characters and reads back as the visit and the first and last detector |
| Tasks.JobNamesDistinct | desc_roman_sims/galsim_job_generator.py:151 | distinct (visit, first, last) triples within the widths get distinct job names, and so distinct log files `<log_dir>/<name>.log` for any log directory |
| Tasks.RenderCcdJob | desc_roman_sims/galsim_job_generator.py:151-187 | a CCD job is a bash app named after the chunk, logging to `<log_dir>/<name>.log`. It reserves `GB_per_CCD*1024*nproc` MB, 1 core and 0 disk exactly when the executor is `work_queue`. Its command sets `output.nfiles` to the chunk size and `output.nproc` to `min(size, nproc)`, with a detector list that parses back to the chunk |
| Tasks.RenderPsfJob | desc_roman_sims/galsim_job_generator.py:91-112 | a PSF job is named `<visit>_psf`, and the name reads back as the visit; it logs to `<log_dir>/<name>.log`, runs the PSF command, and reserves `GB_per_PSF*1024` MB, 1 core and 0 disk exactly under `work_queue` |
| Tasks.ChunkProcesses | desc_roman_sims/galsim_job_generator.py:19 | given `nfiles >= nproc`, every chunk but the last has `nfiles` detectors and runs all `nproc` processes; with `nproc >= 1` every chunk runs between 1 and `nproc` processes |
| Generator.GalSimJobGenerator.constructor | desc_roman_sims/galsim_job_generator.py:52-59 | the new object holds the settings and the initial cursor, with empty caches |
| Generator.GalSimJobGenerator.New | desc_roman_sims/galsim_job_generator.py:12-59 | the assertion error is reported exactly when `nfiles < nproc`. Past it, a failed scan of some visit gives the unreadable-file error, naming the first such visit, and an empty visit list gives the missing-visit error. Construction succeeds exactly when every visit's scan succeeds and there is a first visit. It stores the settings and the default or given target set, the assembled lists and `num_jobs`, and starts at the first visit |
| Generator.GalSimJobGenerator.Submit | desc_roman_sims/galsim_job_generator.py:192-193 | a submission appends the task to the log, returns its position, and changes nothing else |
| Generator.GalSimJobGenerator.FindPsfFile | desc_roman_sims/galsim_job_generator.py:75-80 | a path is returned exactly when some file in the PSF directory matches `*{visit}*.pkl`, and it is that file's path |
| Generator.GalSimJobGenerator.GetAtmPsfFuture | desc_roman_sims/galsim_job_generator.py:82-112 | returns `[]` and submits nothing when a PSF file exists; otherwise submits one PSF job and returns its future; the cursor and caches are unchanged |
| Generator.GalSimJobGenerator.ScheduleCleanup | desc_roman_sims/galsim_job_generator.py:121-134 | leaves the state `AppendCleanup` describes (see AppendCleanupReadings) |
| Generator.GalSimJobGenerator.AdvanceVisit | desc_roman_sims/galsim_job_generator.py:136-141 | leaves the state `Advance` describes (see AdvanceKeepsLog) |
| Generator.GalSimJobGenerator.MemoizePsf | desc_roman_sims/galsim_job_generator.py:143-146 | leaves the state `MemoPsf` describes, with the current visit cached |
| Generator.GalSimJobGenerator.LaunchChunk | desc_roman_sims/galsim_job_generator.py:147-195 | leaves the state and returns the outcome `EmitChunk` describes (see EmitChunkSpec), including the IndexError of line 148 |
| Generator.GalSimJobGenerator.GetJobFuture | desc_roman_sims/galsim_job_generator.py:114-195 | one call leaves the state and returns the outcome of `Step`, so StepPreservesInv, StepProgress and StepPastEnd hold of the object |
| Generator.GalSimJobGenerator.Run | desc_roman_sims/galsim_job_generator.py:197-210 | the loop makes the `num_jobs + 1` calls of `Drive`, collecting the non-`None` futures in order. A raise ends it. Otherwise it returns what a blocking run waits on, so RunTheorem and RunWaits hold of the object |
| Generator.DriveStopsAfterRaise | desc_roman_sims/galsim_job_generator.py:200-203 | once a call has raised, no further call happens, so the run's outcome is fixed |

## Left out

- Parsl is not modelled: the decorators, caching, executors and the `__name__` renaming. A submitted task is a log entry and its future is a handle. The `.exception()` waits of lines 205-210 are reduced to the list of handles waited on.
- Filesystem and configuration: `glob`, `os.makedirs`, `ReadConfig` and the YAML file are replaced by explicit inputs, a per-visit listing and a PSF directory listing taken once. Files appearing or vanishing during a run are not modelled.
- The body of the cleanup task (`os.remove` of the PSF file, lines 127-129) runs inside the engine and is not modelled; only its submission and its inputs are.
- `print` output is not modelled.
- Generator.GalSimJobGenerator.FindPsfFile: `glob` order is unspecified, so the model returns some matching file rather than the first one listed.
- Formatting.ParseDigits: `int()` also accepts surrounding whitespace, a sign, `_` separators and non-ASCII digits. The model accepts only ASCII digits, which is all a three-character slice of a detector filename needs.
- Tasks.JobNameRoundTrip, Tasks.JobNamesDistinct: assume non-negative visits below 10^8 and non-negative detector ids below 1000. Wider values overflow the pad widths, and a negative value renders with a `-` sign (`-0000005`) that the digit reader rejects, so the name no longer reads back.
- Runs.RunTheorem: assumes distinct visits. With a repeated visit, `num_jobs` counts its detectors once while the cursor walks it twice, so the plan can have more chunks than `num_jobs`. `run` then stops partway through the plan and may never reach a later empty visit, and the theorem's conclusions do not hold.
- Runs.RunWaits: assumes distinct visits, for the same reason as RunTheorem.
- Runs.PlanAtMostJobs, Runs.LaunchedWithinJobs: assume distinct visits. GuardNeverFires and DriveFromInit hold without this assumption.
- Runs.CompletedRun, Runs.FinishedRun: assume the plan has at most `num_jobs` chunks, which PlanAtMostJobs proves for distinct visits.
- Runs.RunTheorem, Invariants.StepPreservesInv: assume `nfiles >= 1`. With `nfiles <= 0` the chunk end index of line 149 falls before the start and Python's negative indexing takes over. The per-call model still represents that case; the invariant does not cover it.
- Default argument values are not modelled: every constructor argument is an explicit parameter, where the code defaults to `nfiles=10`, `nproc=1`, `default_det_list=None`, `GB_per_CCD=6`, `GB_per_PSF=8`, `verbosity=2`, `log_dir="logging"`, `clean_up_atm_psfs=True` and `bash_app_executor='work_queue'`, and so is `run`'s `block=True`.
- `GB_per_CCD` and `GB_per_PSF` are integers in the model; Python also accepts floats, whose memory products are then floats.

Rough edges of the code that the model reproduces as written:

- a raw filename without a readable `det<NNN>` raises and aborts construction;
- `num_jobs` counts the remaining detectors, not the chunks, so `run` makes surplus calls past the last visit. With cleanup on, each surplus call schedules another cleanup of the last visit;
- the PSF lookup is a substring match, so a visit can pick up the PSF file of another visit whose number contains its digits.
