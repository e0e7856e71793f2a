/**
  The work catalogue: which detectors of each visit still need rendering.
  A visit's output directory is given as the list of its entry names
  (a visit absent from the map has no directory, which `glob` treats as
  empty); the atmospheric-PSF directory is given as the set of its entry
  names.
*/
module Catalog {
  import opened Wrappers
  import opened Formatting
  import opened PyList

  // ---------------------------------------------------------------------
  // Python's str.find

  predicate OccursAt(s: string, sub: string, j: int) {
    0 <= j && j + |sub| <= |s| && s[j..j + |sub|] == sub
  }

  /** `s.find(sub, k)`: the first occurrence at or after `k`, or -1. */
  function FindFrom(s: string, sub: string, k: nat): (i: int)
    ensures i == -1 || (k <= i && OccursAt(s, sub, i))
    ensures forall j :: k <= j && (i == -1 || j < i) ==> !OccursAt(s, sub, j)
    decreases |s| + 1 - k
  {
    if k + |sub| > |s| then -1
    else if OccursAt(s, sub, k) then k
    else FindFrom(s, sub, k + 1)
  }

  function Find(s: string, sub: string): int {
    FindFrom(s, sub, 0)
  }

  // ---------------------------------------------------------------------
  // Finished detectors of one visit

  /** `glob(os.path.join(output_dir, 'amp*'))` keeps the names that start with "amp". */
  predicate IsRawFile(name: string) {
    |name| >= 3 && name[..3] == "amp"
  }

  function RawFiles(names: seq<string>): (r: seq<string>)
    ensures forall f :: f in r <==> f in names && IsRawFile(f)
  {
    if names == [] then []
    else (if IsRawFile(names[0]) then [names[0]] else []) + RawFiles(names[1..])
  }

  function Listing(outputs: map<int, seq<string>>, visit: int): seq<string> {
    if visit in outputs then outputs[visit] else []
  }

  /**
    The detector id of a raw file: the (up to) three characters after the
    first "det", read as a decimal number. Without a "det", `find` gives -1
    and the characters at positions 2 to 4 are read instead.
  */
  function DetIdOfFilename(basename: string): Option<int> {
    var index := Find(basename, "det");
    ParseDigits(PySlice(basename, index + 3, index + 6))
  }

  /** The ids of the raw files, in listing order; the first unreadable name is the error. */
  function FinishedDets(rawFiles: seq<string>): Result<seq<int>, string> {
    if rawFiles == [] then Success([])
    else
      var last := rawFiles[|rawFiles| - 1];
      match FinishedDets(rawFiles[..|rawFiles| - 1])
      case Failure(name) => Failure(name)
      case Success(ids) =>
        match DetIdOfFilename(last)
        case Some(d) => Success(ids + [d])
        case None => Failure(last)
  }

  predicate Readable(name: string) {
    DetIdOfFilename(name).Some?
  }

  /** The scan succeeds exactly when every name holds a readable id. */
  lemma {:induction false} FinishedDetsSucceeds(rawFiles: seq<string>)
    ensures FinishedDets(rawFiles).Success? <==> forall k :: 0 <= k < |rawFiles| ==> Readable(rawFiles[k])
  {
    if rawFiles != [] {
      var n := |rawFiles| - 1;
      var init := rawFiles[..n];
      FinishedDetsSucceeds(init);
      AllReadableSplit(rawFiles);
    }
  }

  /** Every name is readable exactly when every name but the last is and the last is. */
  lemma AllReadableSplit(rawFiles: seq<string>)
    requires rawFiles != []
    ensures var n := |rawFiles| - 1;
            (forall k :: 0 <= k < |rawFiles| ==> Readable(rawFiles[k]))
            <==> (forall k :: 0 <= k < n ==> Readable(rawFiles[..n][k])) && Readable(rawFiles[n])
  {
    var n := |rawFiles| - 1;
    assert forall k :: 0 <= k < n ==> rawFiles[..n][k] == rawFiles[k];
  }

  /** A successful scan yields the id of every name, in listing order. */
  lemma {:induction false} FinishedDetsValues(rawFiles: seq<string>)
    requires FinishedDets(rawFiles).Success?
    ensures |FinishedDets(rawFiles).value| == |rawFiles|
    ensures forall k :: 0 <= k < |rawFiles| ==>
      DetIdOfFilename(rawFiles[k]) == Some(FinishedDets(rawFiles).value[k])
  {
    if rawFiles != [] {
      var n := |rawFiles| - 1;
      var init := rawFiles[..n];
      FinishedDetsValues(init);
      forall k | 0 <= k < n ensures DetIdOfFilename(rawFiles[k]) == Some(FinishedDets(rawFiles).value[k]) {
        assert init[k] == rawFiles[k];
      }
    }
  }

  /** A failed scan names the first unreadable file. */
  lemma {:induction false} FinishedDetsFailure(rawFiles: seq<string>)
    requires FinishedDets(rawFiles).Failure?
    ensures exists k :: 0 <= k < |rawFiles| && rawFiles[k] == FinishedDets(rawFiles).error
                     && !Readable(rawFiles[k]) && forall j :: 0 <= j < k ==> Readable(rawFiles[j])
  {
    var n := |rawFiles| - 1;
    var init := rawFiles[..n];
    assert forall k :: 0 <= k < n ==> init[k] == rawFiles[k];
    if FinishedDets(init).Failure? {
      FinishedDetsFailure(init);
      var k :| 0 <= k < n && init[k] == FinishedDets(init).error
        && !Readable(init[k]) && forall j :: 0 <= j < k ==> Readable(init[j]);
      assert rawFiles[k] == FinishedDets(rawFiles).error;
    } else {
      FinishedDetsSucceeds(init);
      assert rawFiles[n] == FinishedDets(rawFiles).error;
    }
  }

  function Finished(outputs: map<int, seq<string>>, visit: int): Result<seq<int>, string> {
    FinishedDets(RawFiles(Listing(outputs, visit)))
  }

  function ToSet(xs: seq<int>): (r: set<int>)
    ensures forall x :: x in r <==> x in xs
  {
    set x | x in xs
  }

  /** `range(n)`. */
  function Range(n: nat): (r: seq<int>)
    ensures |r| == n && forall i :: 0 <= i < n ==> r[i] == i
  {
    seq(n, i => i)
  }

  /** The target set of detectors: `set(range(189))` by default, else `set(default_det_list)`. */
  function TargetDets(defaultDetList: Option<seq<int>>): set<int> {
    match defaultDetList
    case None => ToSet(Range(189))
    case Some(ids) => ToSet(ids)
  }

  // ---------------------------------------------------------------------
  // Sorted lists of detector ids

  ghost predicate StrictlyAscending(r: seq<int>) {
    forall i, j :: 0 <= i < j < |r| ==> r[i] < r[j]
  }

  /** `r` is `sorted(s)`: ascending, without repeats, holding exactly the elements of `s`. */
  ghost predicate SortedListOf(r: seq<int>, s: set<int>) {
    StrictlyAscending(r) && forall x :: x in r <==> x in s
  }

  predicate IsMinimum(m: int, s: set<int>) {
    m in s && forall y :: y in s ==> m <= y
  }

  lemma HasElement(s: set<int>)
    requires s != {}
    ensures exists x :: x in s
  {
    if forall y :: y !in s {
      assert false;
    }
  }

  lemma {:induction false} HasMinimum(s: set<int>)
    requires s != {}
    ensures exists m :: IsMinimum(m, s)
    decreases |s|
  {
    HasElement(s);
    var x :| x in s;
    var rest := s - {x};
    if rest == {} {
      forall y | y in s ensures x <= y {
        assert y !in rest;
      }
      assert IsMinimum(x, s);
    } else {
      HasMinimum(rest);
      var m :| IsMinimum(m, rest);
      var least := if x < m then x else m;
      forall y | y in s ensures least <= y {
        if y != x {
          assert y in rest;
        }
      }
      assert IsMinimum(least, s);
    }
  }

  /** Python's `sorted` applied to a set of integers. */
  method SortedList(s: set<int>) returns (r: seq<int>)
    ensures SortedListOf(r, s)
    ensures |r| == |s|
  {
    r := [];
    var rest := s;
    while rest != {}
      invariant StrictlyAscending(r)
      invariant forall x :: x in s <==> x in r || x in rest
      invariant forall x, y :: x in r && y in rest ==> x < y
      invariant |r| + |rest| == |s|
      decreases |rest|
    {
      HasMinimum(rest);
      var m :| IsMinimum(m, rest);
      assert forall i :: 0 <= i < |r| ==> r[i] < m by {
        forall i | 0 <= i < |r| ensures r[i] < m {
          assert r[i] in r;
        }
      }
      r := r + [m];
      rest := rest - {m};
    }
  }

  /** A sorted list of a set has one entry per element. */
  lemma SortedListLength(r: seq<int>, s: set<int>)
    requires SortedListOf(r, s)
    ensures |r| == |s|
  {
    assert NoDuplicates(r);
    DistinctElementsCount(r);
    assert ToSet(r) == s;
  }

  /** `sorted` has only one possible result: two sorted lists of the same set are equal. */
  lemma {:induction false} SortedListUnique(a: seq<int>, b: seq<int>, s: set<int>)
    requires SortedListOf(a, s) && SortedListOf(b, s)
    ensures a == b
    decreases |a|
  {
    SortedListLength(a, s);
    SortedListLength(b, s);
    if a != [] {
      assert a[0] in a && b[0] in b;
      assert a[0] == b[0] by {
        var i :| 0 <= i < |a| && a[i] == b[0];
        var j :| 0 <= j < |b| && b[j] == a[0];
        assert a[0] <= a[i] && b[0] <= b[j];
      }
      var s' := s - {a[0]};
      forall x | x in a[1..] ensures x in s' {
        var i :| 1 <= i < |a| && a[i] == x;
        assert a[0] < a[i] && a[i] in a;
      }
      forall x | x in s' ensures x in a[1..] {
        assert x in a;
        var i :| 0 <= i < |a| && a[i] == x;
        assert i != 0;
        assert a[1..][i - 1] == x;
      }
      forall x | x in b[1..] ensures x in s' {
        var i :| 1 <= i < |b| && b[i] == x;
        assert b[0] < b[i] && b[i] in b;
      }
      forall x | x in s' ensures x in b[1..] {
        assert x in b;
        var i :| 0 <= i < |b| && b[i] == x;
        assert i != 0;
        assert b[1..][i - 1] == x;
      }
      SortedListUnique(a[1..], b[1..], s');
      assert a == [a[0]] + a[1..] && b == [b[0]] + b[1..];
    }
  }

  // ---------------------------------------------------------------------
  // Visits seen once each, and the job count

  /** The visits in order of first occurrence: the keys of a dict built over `visits`. */
  function Distinct(vs: seq<int>): (r: seq<int>)
    ensures forall x :: x in r <==> x in vs
    ensures NoDuplicates(r)
  {
    if vs == [] then []
    else
      var init := vs[..|vs| - 1];
      var last := vs[|vs| - 1];
      if last in init then Distinct(init) else Distinct(init) + [last]
  }

  function SumLengths(lists: map<int, seq<int>>, ks: seq<int>): nat
    requires forall k :: k in ks ==> k in lists
  {
    if ks == [] then 0
    else
      var k := ks[|ks| - 1];
      assert k in ks;
      SumLengths(lists, ks[..|ks| - 1]) + |lists[k]|
  }

  ghost predicate NoDuplicates(vs: seq<int>) {
    forall i, j :: 0 <= i < j < |vs| ==> vs[i] != vs[j]
  }

  /** With no repeated visit, the dict's keys are the visits themselves. */
  lemma {:induction false} DistinctOfNoDuplicates(vs: seq<int>)
    requires NoDuplicates(vs)
    ensures Distinct(vs) == vs
  {
    if vs != [] {
      var init := vs[..|vs| - 1];
      assert NoDuplicates(init);
      DistinctOfNoDuplicates(init);
      assert vs[|vs| - 1] !in init;
      assert init + [vs[|vs| - 1]] == vs;
    }
  }

  // ---------------------------------------------------------------------
  // _assemble_det_lists

  datatype CatalogError = MalformedFilename(visit: int, name: string)

  /** What the visit loop produces: for every visit, the sorted remaining detectors. */
  ghost predicate DetListsOk(visits: seq<int>, targetDets: set<int>,
                             outputs: map<int, seq<string>>, lists: map<int, seq<int>>)
  {
    (forall v :: v in lists <==> v in visits)
    && forall v :: v in lists ==>
         Finished(outputs, v).Success?
         && SortedListOf(lists[v], targetDets - ToSet(Finished(outputs, v).value))
  }

  /** Lines 66-70: the ids of a visit's raw files, stopping at the first unreadable name. */
  method ReadFinishedDets(rawFiles: seq<string>) returns (r: Result<seq<int>, string>)
    ensures r == FinishedDets(rawFiles)
  {
    var finishedDets: seq<int> := [];
    for k := 0 to |rawFiles|
      invariant FinishedDets(rawFiles[..k]) == Success(finishedDets)
    {
      var det := DetIdOfFilename(rawFiles[k]);
      assert rawFiles[..k + 1][..k] == rawFiles[..k];
      if det.None? {
        FinishedDetsFailsFrom(rawFiles, k + 1);
        return Failure(rawFiles[k]);
      }
      finishedDets := finishedDets + [det.value];
    }
    assert rawFiles[..|rawFiles|] == rawFiles;
    return Success(finishedDets);
  }

  /** Once a prefix of the listing fails, the whole listing fails the same way. */
  lemma {:induction false} FinishedDetsFailsFrom(rawFiles: seq<string>, k: nat)
    requires k <= |rawFiles| && FinishedDets(rawFiles[..k]).Failure?
    ensures FinishedDets(rawFiles) == FinishedDets(rawFiles[..k])
    decreases |rawFiles| - k
  {
    if k < |rawFiles| {
      assert rawFiles[..k + 1][..k] == rawFiles[..k];
      FinishedDetsFailsFrom(rawFiles, k + 1);
    } else {
      assert rawFiles[..k] == rawFiles;
    }
  }

  /**
    For every visit, the sorted list of target detectors without a raw file
    yet, and the total number of such detectors over the distinct visits.
    The first raw file whose name does not hold a readable id stops the scan.
  */
  method AssembleDetLists(visits: seq<int>, targetDets: set<int>, outputs: map<int, seq<string>>)
    returns (r: Result<(map<int, seq<int>>, nat), CatalogError>)
    ensures r.Success? <==> forall i :: 0 <= i < |visits| ==> Finished(outputs, visits[i]).Success?
    ensures r.Failure? ==>
      (exists i :: 0 <= i < |visits|
         && Finished(outputs, visits[i]).Failure?
         && r.error == MalformedFilename(visits[i], Finished(outputs, visits[i]).error)
         && forall j :: 0 <= j < i ==> Finished(outputs, visits[j]).Success?)
    ensures r.Success? ==> DetListsOk(visits, targetDets, outputs, r.value.0)
    ensures r.Success? ==> r.value.1 == SumLengths(r.value.0, Distinct(visits))
  {
    var detLists: map<int, seq<int>> := map[];
    for i := 0 to |visits|
      invariant forall j :: 0 <= j < i ==> Finished(outputs, visits[j]).Success?
      invariant DetListsOk(visits[..i], targetDets, outputs, detLists)
    {
      var visit := visits[i];
      var finished := ReadFinishedDets(RawFiles(Listing(outputs, visit)));
      if finished.Failure? {
        assert Finished(outputs, visits[i]).Failure?;
        return Failure(MalformedFilename(visit, finished.error));
      }
      var remaining := SortedList(targetDets - ToSet(finished.value));
      DetListsOkExtend(visits, i, targetDets, outputs, detLists, remaining);
      detLists := detLists[visit := remaining];
    }
    assert visits[..|visits|] == visits;
    return Success((detLists, SumLengths(detLists, Distinct(visits))));
  }

  /** One more visit of the loop keeps `DetListsOk` for the visits read so far. */
  lemma DetListsOkExtend(visits: seq<int>, i: nat, targetDets: set<int>,
                         outputs: map<int, seq<string>>, lists: map<int, seq<int>>,
                         remaining: seq<int>)
    requires i < |visits|
    requires DetListsOk(visits[..i], targetDets, outputs, lists)
    requires Finished(outputs, visits[i]).Success?
    requires SortedListOf(remaining, targetDets - ToSet(Finished(outputs, visits[i]).value))
    ensures DetListsOk(visits[..i + 1], targetDets, outputs, lists[visits[i] := remaining])
  {
    assert visits[..i + 1] == visits[..i] + [visits[i]];
  }

  lemma SumLengthsAppend(lists: map<int, seq<int>>, ks: seq<int>, k: int)
    requires forall x :: x in ks ==> x in lists
    requires k in lists
    ensures SumLengths(lists, ks + [k]) == SumLengths(lists, ks) + |lists[k]|
  {
    assert (ks + [k])[..|ks|] == ks;
  }

  // ---------------------------------------------------------------------
  // Properties of the filename reading

  /**
    A name of the form `prefix + "det" + ddd + rest`, with three digits and
    no earlier "det", yields the number `ddd`.
  */
  lemma DetIdOfWellFormedName(prefix: string, digits: string, rest: string)
    requires forall j :: !OccursAt(prefix, "det", j)
    requires |digits| == 3 && AllDigits(digits)
    ensures DetIdOfFilename(prefix + "det" + digits + rest) == Some(DigitsValue(digits))
  {
    var name := prefix + "det" + digits + rest;
    var p := |prefix|;
    assert OccursAt(name, "det", p) by {
      assert name[p..p + 3] == "det";
    }
    forall j | 0 <= j < p ensures !OccursAt(name, "det", j) {
      if j + 3 <= p {
        assert name[j..j + 3] == prefix[j..j + 3];
        assert !OccursAt(prefix, "det", j);
      } else {
        assert name[j..j + 3][p - j] == name[p] == 'd' != "det"[p - j];
      }
    }
    assert Find(name, "det") == p;
    assert PySlice(name, p + 3, p + 6) == digits;
  }

  /** A raw file whose name has no "det" at all is rejected: position 2 holds the 'p' of "amp". */
  lemma RawFileWithoutMarkerRejected(name: string)
    requires IsRawFile(name)
    requires forall j :: !OccursAt(name, "det", j)
    ensures DetIdOfFilename(name) == None
  {
    assert name[2] == "amp"[2];
    assert Find(name, "det") == -1;
    var sl := PySlice(name, 2, 5);
    assert |sl| >= 1 && sl[0] == 'p';
  }

  // ---------------------------------------------------------------------
  // The default target set

  lemma {:induction false} DistinctElementsCount(xs: seq<int>)
    requires NoDuplicates(xs)
    ensures |ToSet(xs)| == |xs|
  {
    if xs != [] {
      var n := |xs| - 1;
      assert NoDuplicates(xs[..n]);
      DistinctElementsCount(xs[..n]);
      assert ToSet(xs) == ToSet(xs[..n]) + {xs[n]};
      assert xs[n] !in ToSet(xs[..n]);
    }
  }

  /** The default target set is exactly the ids 0 to 188: 189 detectors. */
  lemma DefaultTargetDets()
    ensures forall d :: d in TargetDets(None) <==> 0 <= d < 189
    ensures |TargetDets(None)| == 189
  {
    var r := Range(189);
    forall d | 0 <= d < 189 ensures d in TargetDets(None) {
      assert r[d] == d;
    }
    assert NoDuplicates(r);
    DistinctElementsCount(r);
  }

  // ---------------------------------------------------------------------
  // The atmospheric-PSF lookup

  /**
    `glob(os.path.join(atm_psf_dir, f"*{visit}*.pkl"))` matches a name
    that ends in ".pkl", does not start with '.', and holds `str(visit)`
    before that suffix.
  */
  predicate MatchesAtmPsfGlob(name: string, visit: int) {
    |name| >= 4 && name[|name| - 4..] == ".pkl" && name[0] != '.'
    && Contains(name[..|name| - 4], IntToString(visit))
  }

  predicate Contains(s: string, sub: string) {
    exists i :: 0 <= i <= |s| && OccursAt(s, sub, i)
  }

  predicate PsfPresent(atmPsfFiles: set<string>, visit: int) {
    exists f :: f in atmPsfFiles && MatchesAtmPsfGlob(f, visit)
  }

  /**
    The pattern is a substring match: the lookup for `v` finds a file
    whenever one of some visit `w` is present whose digits contain the
    digits of `v`.
  */
  lemma PsfLookupSeesContainingVisit(atmPsfFiles: set<string>, v: int, w: int)
    requires Contains(IntToString(w), IntToString(v)) && PsfPresent(atmPsfFiles, w)
    ensures PsfPresent(atmPsfFiles, v)
  {
    var f :| f in atmPsfFiles && MatchesAtmPsfGlob(f, w);
    var stem := f[..|f| - 4];
    var i :| 0 <= i <= |stem| && OccursAt(stem, IntToString(w), i);
    var j :| 0 <= j <= |IntToString(w)| && OccursAt(IntToString(w), IntToString(v), j);
    OccursWithin(stem, IntToString(w), IntToString(v), i, j);
    assert MatchesAtmPsfGlob(f, v);
  }

  /** An occurrence inside an occurrence is an occurrence. */
  lemma OccursWithin(s: string, a: string, b: string, i: int, j: int)
    requires OccursAt(s, a, i) && OccursAt(a, b, j)
    ensures OccursAt(s, b, i + j)
  {
    forall k | 0 <= k < |b| ensures s[i + j..i + j + |b|][k] == b[k] {
      assert b[k] == a[j + k] == s[i..i + |a|][j + k];
    }
  }

  /** For instance, the lookup for visit 10 picks up the file of visit 100. */
  lemma PsfLookupIsSubstringMatch()
    ensures MatchesAtmPsfGlob("atm_psf_100.pkl", 10)
    ensures PsfPresent({"atm_psf_100.pkl"}, 10)
  {
    var name := "atm_psf_100.pkl";
    assert Digits(1) == "1";
    assert Digits(10) == Digits(1) + [DigitChar(0)];
    assert IntToString(10) == "10";
    assert OccursAt(name[..|name| - 4], "10", 8);
    assert Contains(name[..|name| - 4], IntToString(10));
    assert MatchesAtmPsfGlob(name, 10);
  }
}
