/**
 * The first phase of `convert_to_bids` in `converters.py`: walking the uncompressed Oxygen
 * tree (top-level directory, then session directories, then `mr_` scan directories) and
 * building the nested BIDS mapping with its zero-padded subject, session and run numbers.
 */
module Mapping {
  import opened Wrappers
  import opened Errors
  import opened Text
  import opened Paths
  import opened Numerals
  import opened Ordering
  import opened Dicts

  datatype ScanMeta = ScanMeta(kind: string, modality: string, description: string, run: string)

  /** One converted (or to-be-converted) series. */
  datatype ScanEntry = ScanEntry(seriesDir: string, bidsFpath: string, conversionStatus: bool, meta: ScanMeta,
                                 scannerMeta: Option<Dict<string, string>>)

  datatype SessionEntry = SessionEntry(bidsSession: string, oxygenFile: string, scans: Dict<string, ScanEntry>)

  datatype SubjectEntry = SubjectEntry(bidsSubject: string, sessions: Dict<string, SessionEntry>)

  /** `mapping`: subject key -> subject entry, in insertion order. */
  type BidsMapping = Dict<string, SubjectEntry>

  /** A session directory: its name and the names of its sub-directories, in `glob` order. */
  datatype SessionListing = SessionListing(name: string, scans: seq<string>)

  /** A top-level directory of the Oxygen directory: its name and its session directories. */
  datatype TopListing = TopListing(name: string, sessions: seq<SessionListing>)

  /**
   * The per-scan oracles: `filter(sc_dir)` is the outcome of `filter_series` (`Ok(true)` drops the
   * scan), `scannerMeta` the `scanner_meta` flag and `metaOf(sc_dir)` what `get_scanner_meta` returns.
   */
  datatype Probe = Probe(filter: string -> Result<bool, Error>, scannerMeta: bool, metaOf: string -> Dict<string, string>)

  /** Every dictionary of the mapping lists each of its keys exactly once. */
  ghost predicate WellFormed(m: BidsMapping)
  {
    m.Valid() &&
    forall s :: s in m.entries ==> SessionsWellFormed(m.entries[s].sessions)
  }

  ghost predicate SessionsWellFormed(d: Dict<string, SessionEntry>)
  {
    d.Valid() && forall t :: t in d.entries ==> d.entries[t].scans.Valid()
  }

  /** The truth value of `mapping_guide`: `None` and "" are false. */
  predicate GuideGiven(guide: Option<string>)
  {
    guide.Some? && guide.value != ""
  }

  /** `unc_file.split("/")[-1].split("-")[-1]`: the subject key of a top-level directory. */
  function SubjectKey(uncFile: string): string
  {
    Last(Split(Basename(uncFile), '-'))
  }

  /** `[d for d in glob(join(ses_dir, '*')) if os.path.isdir(d) and "mr_" in d]`. */
  function CandidateScans(sesDir: string, names: seq<string>): (r: seq<string>)
    ensures forall i :: 0 <= i < |r| ==> Contains(r[i], "mr_")
    ensures forall p :: p in r <==> exists n :: n in names && p == PathJoin(sesDir, n) && Contains(p, "mr_")
  {
    if names == [] then []
    else
      var p := PathJoin(sesDir, names[0]);
      if Contains(p, "mr_") then [p] + CandidateScans(sesDir, names[1..]) else CandidateScans(sesDir, names[1..])
  }

  /** The entry a kept scan starts with: nothing converted yet, run number `counter`. */
  function NewScan(scanDir: string, counter: nat, probe: Probe): (e: ScanEntry)
    ensures e.bidsFpath == "" && !e.conversionStatus
    ensures e.meta.run == Pad4(counter) && DigitsValue(e.meta.run) == counter
    ensures e.seriesDir == LastSegments(scanDir, 3)
    ensures e.meta.kind == "func" && e.meta.modality == "bold" && e.meta.description == "task-fmri"
    ensures e.scannerMeta.Some? <==> probe.scannerMeta
    ensures e.scannerMeta.Some? ==> e.scannerMeta.value == probe.metaOf(scanDir)
  {
    Pad4Value(counter);
    ScanEntry(LastSegments(scanDir, 3), "", false, ScanMeta("func", "bold", "task-fmri", Pad4(counter)),
              if probe.scannerMeta then Some(probe.metaOf(scanDir)) else None)
  }

  /**
   * The loop shape the session and scan loops share: each item raises, is skipped, or is stored
   * under its key with the current number, which then advances (`d[key] = value; counter += 1`).
   */
  function InsertNumbered<T, V>(items: seq<T>, counter: nat, d: Dict<string, V>, key: T -> string,
                                value: (T, nat) -> Result<Option<V>, Error>): Result<Dict<string, V>, Error>
    decreases |items|
  {
    if items == [] then Ok(d)
    else
      match value(items[0], counter)
      case Err(e) => Err(e)
      case Ok(None) => InsertNumbered(items[1..], counter, d, key, value)
      case Ok(Some(v)) => InsertNumbered(items[1..], counter + 1, d.Put(key(items[0]), v), key, value)
  }

  /** One scan directory: `filter_series` raises, drops it, or it gets the entry numbered `counter`. */
  function ScanStep(scanDir: string, counter: nat, probe: Probe): (r: Result<Option<ScanEntry>, Error>)
    ensures r.Ok? && r.value.Some? <==> probe.filter(scanDir) == Ok(false)
    ensures r.Ok? && r.value.Some? ==> r.value.value == NewScan(scanDir, counter, probe)
  {
    match probe.filter(scanDir)
    case Err(e) => Err(e)
    case Ok(excluded) => if excluded then Ok(None) else Ok(Some(NewScan(scanDir, counter, probe)))
  }

  /** The scan loop from `scan_dirs[i:]` on, with `scan_counter` and the scans added so far. */
  function ScansFrom(scanDirs: seq<string>, counter: nat, scans: Dict<string, ScanEntry>, probe: Probe)
    : Result<Dict<string, ScanEntry>, Error>
  {
    InsertNumbered(scanDirs, counter, scans, Basename, ScanSteps(probe))
  }

  function ScanSteps(probe: Probe): (string, nat) -> Result<Option<ScanEntry>, Error>
  {
    (dir: string, c: nat) => ScanStep(dir, c, probe)
  }

  /** What `filter_series` keeps. */
  function Keeps(probe: Probe): string -> bool
  {
    (dir: string) => probe.filter(dir) == Ok(false)
  }

  /**
   * The entry of a session directory before its scans are added; `ses_dir.split("/")[-2]`
   * raises IndexError for a path with a single segment.
   */
  function NewSession(sesDir: string, counter: nat): (r: Result<SessionEntry, Error>)
    ensures r.Err? <==> |Split(sesDir, '/')| < 2
    ensures r.Err? ==> r.error == IndexError
    ensures r.Ok? ==> r.value.bidsSession == Pad4(counter) && r.value.scans == Empty()
    ensures r.Ok? ==> var segments := Split(sesDir, '/');
      r.value.oxygenFile == segments[|segments| - 2] + "-" + segments[|segments| - 1] + "-DICOM.tgz"
  {
    var segments := Split(sesDir, '/');
    if |segments| < 2 then Err(IndexError)
    else Ok(SessionEntry(Pad4(counter), segments[|segments| - 2] + "-" + segments[|segments| - 1] + "-DICOM.tgz", Empty()))
  }

  /** One session directory: its entry numbered `counter`, holding the scans of its `mr_` directories. */
  function SessionStep(uncFile: string, session: SessionListing, counter: nat, probe: Probe)
    : (r: Result<Option<SessionEntry>, Error>)
    ensures r.Ok? ==> r.value.Some? && r.value.value.bidsSession == Pad4(counter)
  {
    var sesDir := PathJoin(uncFile, session.name);
    match NewSession(sesDir, counter)
    case Err(e) => Err(e)
    case Ok(entry) =>
      match ScansFrom(CandidateScans(sesDir, session.scans), 1, Empty(), probe)
      case Err(e) => Err(e)
      case Ok(scans) => Ok(Some(entry.(scans := scans)))
  }

  /** `ses_dir.split("/")[-1]`: the key of a session directory. */
  function SessionKey(uncFile: string, session: SessionListing): string
  {
    Basename(PathJoin(uncFile, session.name))
  }

  /** The session loop of one top-level directory from `session_dirs[i:]` on. */
  function SessionsFrom(uncFile: string, sessions: seq<SessionListing>, counter: nat, d: Dict<string, SessionEntry>,
                        probe: Probe): Result<Dict<string, SessionEntry>, Error>
  {
    InsertNumbered(sessions, counter, d, SessionKeyOf(uncFile), SessionSteps(uncFile, probe))
  }

  function SessionKeyOf(uncFile: string): SessionListing -> string
  {
    (s: SessionListing) => SessionKey(uncFile, s)
  }

  function SessionSteps(uncFile: string, probe: Probe): (SessionListing, nat) -> Result<Option<SessionEntry>, Error>
  {
    (s: SessionListing, c: nat) => SessionStep(uncFile, s, c, probe)
  }

  /** The subject loop from `uncompressed_files[i:]` on, with `subject_counter` and the mapping so far. */
  function SubjectsFrom(oxygenDir: string, tops: seq<TopListing>, counter: nat, m: BidsMapping, probe: Probe)
    : Result<BidsMapping, Error>
    decreases |tops|
  {
    if tops == [] then Ok(m)
    else
      var uncFile := PathJoin(oxygenDir, tops[0].name);
      var key := SubjectKey(uncFile);
      var isNew := key !in m.entries;
      var m1 := if isNew then m.Put(key, SubjectEntry(Pad4(counter), Empty())) else m;
      match SessionsFrom(uncFile, tops[0].sessions, 1, m1.entries[key].sessions, probe)
      case Err(e) => Err(e)
      case Ok(sessions) =>
        SubjectsFrom(oxygenDir, tops[1..], if isNew then counter + 1 else counter,
                     m1.Put(key, m1.entries[key].(sessions := sessions)), probe)
  }

  /** The mapping `convert_to_bids` builds from the uncompressed directories. */
  function MappingFor(oxygenDir: string, guide: Option<string>, tops: seq<TopListing>, probe: Probe): Result<BidsMapping, Error>
  {
    if GuideGiven(guide) then Ok(Empty()) else SubjectsFrom(oxygenDir, tops, 1, Empty(), probe)
  }

  /** The scan loop of one session directory (converters.py, the `for sc_dir in scan_dirs` loop). */
  method AddScans(scanDirs: seq<string>, probe: Probe) returns (r: Result<Dict<string, ScanEntry>, Error>)
    ensures r == ScansFrom(scanDirs, 1, Empty(), probe)
  {
    var scans: Dict<string, ScanEntry> := Empty();
    var counter: nat := 1;
    var i := 0;
    while i < |scanDirs|
      invariant 0 <= i <= |scanDirs|
      invariant ScansFrom(scanDirs, 1, Empty(), probe) == ScansFrom(scanDirs[i..], counter, scans, probe)
    {
      assert scanDirs[i..][1..] == scanDirs[i + 1..];
      var excluded := probe.filter(scanDirs[i]);
      if excluded.Err? {
        return Err(excluded.error);
      }
      if !excluded.value {
        scans := scans.Put(Basename(scanDirs[i]), NewScan(scanDirs[i], counter, probe));
        counter := counter + 1;
      }
      i := i + 1;
    }
    return Ok(scans);
  }

  /** The session loop of one top-level directory; `session_counter` starts again at 1. */
  method AddSessions(uncFile: string, sessions: seq<SessionListing>, d: Dict<string, SessionEntry>, probe: Probe)
    returns (r: Result<Dict<string, SessionEntry>, Error>)
    ensures r == SessionsFrom(uncFile, sessions, 1, d, probe)
  {
    var current := d;
    var counter: nat := 1;
    var i := 0;
    while i < |sessions|
      invariant 0 <= i <= |sessions|
      invariant SessionsFrom(uncFile, sessions, 1, d, probe) == SessionsFrom(uncFile, sessions[i..], counter, current, probe)
    {
      assert sessions[i..][1..] == sessions[i + 1..];
      var sesDir := PathJoin(uncFile, sessions[i].name);
      var entry := NewSession(sesDir, counter);
      if entry.Err? {
        return Err(entry.error);
      }
      var scans := AddScans(CandidateScans(sesDir, sessions[i].scans), probe);
      if scans.Err? {
        return Err(scans.error);
      }
      current := current.Put(Basename(sesDir), entry.value.(scans := scans.value));
      counter := counter + 1;
      i := i + 1;
    }
    return Ok(current);
  }

  /** Building the mapping: the `if not mapping_guide` block of `convert_to_bids`. */
  method BuildMapping(oxygenDir: string, guide: Option<string>, tops: seq<TopListing>, probe: Probe)
    returns (r: Result<BidsMapping, Error>)
    ensures r == MappingFor(oxygenDir, guide, tops, probe)
  {
    if GuideGiven(guide) {
      return Ok(Empty());
    }
    var m: BidsMapping := Empty();
    var counter: nat := 1;
    var i := 0;
    while i < |tops|
      invariant 0 <= i <= |tops|
      invariant SubjectsFrom(oxygenDir, tops, 1, Empty(), probe) == SubjectsFrom(oxygenDir, tops[i..], counter, m, probe)
    {
      ghost var before, counterBefore := m, counter;
      var uncFile := PathJoin(oxygenDir, tops[i].name);
      var key := SubjectKey(uncFile);
      if key !in m.entries {
        m := m.Put(key, SubjectEntry(Pad4(counter), Empty()));
        counter := counter + 1;
      }
      SubjectsFromStep(oxygenDir, tops[i..], counterBefore, before, probe, m, counter, key);
      assert tops[i..][1..] == tops[i + 1..];
      var sessions := AddSessions(uncFile, tops[i].sessions, m.entries[key].sessions, probe);
      if sessions.Err? {
        return Err(sessions.error);
      }
      m := m.Put(key, m.entries[key].(sessions := sessions.value));
      i := i + 1;
    }
    return Ok(m);
  }

  /**
   * One subject step of `SubjectsFrom`: a new key is added with the next number, then the top-level
   * directory's sessions are stored under it.
   */
  lemma SubjectsFromStep(oxygenDir: string, tops: seq<TopListing>, counter: nat, m: BidsMapping, probe: Probe,
                         m1: BidsMapping, counter1: nat, key: string)
    requires tops != [] && key == SubjectKey(PathJoin(oxygenDir, tops[0].name))
    requires m1 == (if key !in m.entries then m.Put(key, SubjectEntry(Pad4(counter), Empty())) else m)
    requires counter1 == (if key !in m.entries then counter + 1 else counter)
    ensures key in m1.entries
    ensures var r := SessionsFrom(PathJoin(oxygenDir, tops[0].name), tops[0].sessions, 1, m1.entries[key].sessions, probe);
      r.Err? ==> SubjectsFrom(oxygenDir, tops, counter, m, probe) == Err(r.error)
    ensures var r := SessionsFrom(PathJoin(oxygenDir, tops[0].name), tops[0].sessions, 1, m1.entries[key].sessions, probe);
      r.Ok? ==> (SubjectsFrom(oxygenDir, tops, counter, m, probe) ==
                 SubjectsFrom(oxygenDir, tops[1..], counter1, m1.Put(key, m1.entries[key].(sessions := r.value)), probe))
  {
  }

  /** `xs` with repeats dropped, appended to `seen` after the elements `seen` already has. */
  function AppendNew<T(==)>(seen: seq<T>, xs: seq<T>): seq<T>
    decreases |xs|
  {
    if xs == [] then seen else AppendNew(if xs[0] in seen then seen else seen + [xs[0]], xs[1..])
  }

  /** Appending repeat-free new elements keeps all of them. */
  lemma {:induction false} AppendNewDistinct<T>(seen: seq<T>, xs: seq<T>)
    requires Distinct(seen + xs)
    ensures AppendNew(seen, xs) == seen + xs
    decreases |xs|
  {
    if xs != [] {
      DistinctConcat(seen, xs);
      assert xs[0] !in seen;
      assert seen + [xs[0]] + xs[1..] == seen + xs;
      AppendNewDistinct(seen + [xs[0]], xs[1..]);
    } else {
      assert seen + xs == seen;
    }
  }

  /** The items `InsertNumbered` stores, each with the number it receives, in order. */
  function Stored<T, V>(items: seq<T>, counter: nat, value: (T, nat) -> Result<Option<V>, Error>): (r: seq<(T, nat)>)
    ensures forall j :: 0 <= j < |r| ==> r[j].1 == counter + j
    decreases |items|
  {
    if items == [] then []
    else
      match value(items[0], counter)
      case Ok(Some(_)) => [(items[0], counter)] + Stored(items[1..], counter + 1, value)
      case _ => Stored(items[1..], counter, value)
  }

  function KeysOf<T>(stored: seq<(T, nat)>, key: T -> string): (r: seq<string>)
    ensures |r| == |stored|
    ensures forall j :: 0 <= j < |stored| ==> r[j] == key(stored[j].0)
  {
    if stored == [] then [] else [key(stored[0].0)] + KeysOf(stored[1..], key)
  }

  /** The keys the loop ends with, and the old entries it leaves alone. */
  lemma {:induction false} InsertNumberedKeys<T, V>(items: seq<T>, counter: nat, d: Dict<string, V>, key: T -> string,
                                                    value: (T, nat) -> Result<Option<V>, Error>, r: Dict<string, V>)
    requires d.Valid()
    requires InsertNumbered(items, counter, d, key, value) == Ok(r)
    ensures r.Valid()
    ensures r.keys == AppendNew(d.keys, KeysOf(Stored(items, counter, value), key))
    ensures forall k :: k in d.entries && k !in KeysOf(Stored(items, counter, value), key) ==>
      k in r.entries && r.entries[k] == d.entries[k]
    decreases |items|
  {
    if items != [] {
      var rest := items[1..];
      match value(items[0], counter)
      case Ok(None) =>
        InsertNumberedKeys(rest, counter, d, key, value, r);
      case Ok(Some(v)) =>
        var d1 := d.Put(key(items[0]), v);
        InsertNumberedKeys(rest, counter + 1, d1, key, value, r);
        var stored := Stored(items, counter, value);
        assert stored == [(items[0], counter)] + Stored(rest, counter + 1, value);
        assert KeysOf(stored, key) == [key(items[0])] + KeysOf(Stored(rest, counter + 1, value), key);
        assert key(items[0]) in d.keys <==> key(items[0]) in d.entries;
    }
  }

  /** With repeat-free keys, each stored item ends up under its key with the value it was given. */
  lemma {:induction false} InsertNumberedValues<T, V>(items: seq<T>, counter: nat, d: Dict<string, V>, key: T -> string,
                                                      value: (T, nat) -> Result<Option<V>, Error>, r: Dict<string, V>)
    requires d.Valid()
    requires InsertNumbered(items, counter, d, key, value) == Ok(r)
    requires Distinct(KeysOf(Stored(items, counter, value), key))
    ensures forall j :: 0 <= j < |Stored(items, counter, value)| ==>
      var item := Stored(items, counter, value)[j];
      key(item.0) in r.entries && value(item.0, item.1) == Ok(Some(r.entries[key(item.0)]))
    decreases |items|
  {
    if items != [] {
      var rest := items[1..];
      match value(items[0], counter)
      case Ok(None) =>
        InsertNumberedValues(rest, counter, d, key, value, r);
      case Ok(Some(v)) =>
        var d1 := d.Put(key(items[0]), v);
        var stored := Stored(items, counter, value);
        var later := Stored(rest, counter + 1, value);
        assert stored == [(items[0], counter)] + later;
        assert KeysOf(stored, key) == [key(items[0])] + KeysOf(later, key);
        DistinctConcat([key(items[0])], KeysOf(later, key));
        InsertNumberedValues(rest, counter + 1, d1, key, value, r);
        InsertNumberedKeys(rest, counter + 1, d1, key, value, r);
        forall j | 0 <= j < |stored|
          ensures key(stored[j].0) in r.entries && value(stored[j].0, stored[j].1) == Ok(Some(r.entries[key(stored[j].0)]))
        {
          if j > 0 {
            assert stored[j] == later[j - 1];
          }
        }
    }
  }

  /** The subject keys of the top-level directories, in listing order, repeats included. */
  function SubjectKeys(oxygenDir: string, tops: seq<TopListing>): (r: seq<string>)
    ensures |r| == |tops|
  {
    if tops == [] then [] else [SubjectKey(PathJoin(oxygenDir, tops[0].name))] + SubjectKeys(oxygenDir, tops[1..])
  }

  /** The session keys of one top-level directory's sessions, in listing order. */
  function SessionKeys(uncFile: string, sessions: seq<SessionListing>): (r: seq<string>)
    ensures |r| == |sessions|
    ensures forall i :: 0 <= i < |sessions| ==> r[i] == SessionKey(uncFile, sessions[i])
  {
    if sessions == [] then [] else [SessionKey(uncFile, sessions[0])] + SessionKeys(uncFile, sessions[1..])
  }

  /** The `j`-th subject key in the mapping carries `bids_subject` number `j + 1`. */
  predicate SubjectsNumbered(m: BidsMapping)
  {
    forall j :: 0 <= j < |m.keys| ==> m.keys[j] in m.entries && m.entries[m.keys[j]].bidsSubject == Pad4(j + 1)
  }

  /** The items `keep` accepts, in order. */
  function Filter<T>(items: seq<T>, keep: T -> bool): (r: seq<T>)
    ensures forall j :: 0 <= j < |r| ==> keep(r[j])
    ensures forall x :: x in r ==> x in items
  {
    if items == [] then []
    else if keep(items[0]) then [items[0]] + Filter(items[1..], keep)
    else Filter(items[1..], keep)
  }

  /** The scan directories `filter_series` keeps, in order. */
  function Kept(scanDirs: seq<string>, probe: Probe): (r: seq<string>)
    ensures forall j :: 0 <= j < |r| ==> probe.filter(r[j]) == Ok(false)
  {
    Filter(scanDirs, Keeps(probe))
  }

  function Basenames(paths: seq<string>): (r: seq<string>)
    ensures |r| == |paths|
    ensures forall i :: 0 <= i < |paths| ==> r[i] == Basename(paths[i])
  {
    if paths == [] then [] else [Basename(paths[0])] + Basenames(paths[1..])
  }

  /** Keeping some paths keeps their base names repeat-free. */
  lemma {:induction false} FilterDistinct(paths: seq<string>, keep: string -> bool)
    requires Distinct(Basenames(paths))
    ensures Distinct(Basenames(Filter(paths, keep)))
    ensures forall x :: x in Basenames(Filter(paths, keep)) ==> x in Basenames(paths)
    decreases |paths|
  {
    if paths != [] {
      var rest := paths[1..];
      assert Basenames(paths) == [Basename(paths[0])] + Basenames(rest);
      DistinctConcat([Basename(paths[0])], Basenames(rest));
      FilterDistinct(rest, keep);
      if keep(paths[0]) {
        assert Basenames(Filter(paths, keep)) == [Basename(paths[0])] + Basenames(Filter(rest, keep));
        DistinctCons(Basename(paths[0]), Basenames(Filter(rest, keep)));
      }
    }
  }

  /** When an item is stored exactly when `keep` accepts it, the loop stores `Filter(items, keep)`, numbered on from `counter`. */
  lemma {:induction false} StoredFilter<T, V>(items: seq<T>, counter: nat, value: (T, nat) -> Result<Option<V>, Error>,
                                              keep: T -> bool)
    requires forall x, c :: x in items ==> (keep(x) <==> value(x, c).Ok? && value(x, c).value.Some?)
    ensures |Stored(items, counter, value)| == |Filter(items, keep)|
    ensures forall j :: 0 <= j < |Filter(items, keep)| ==>
      Stored(items, counter, value)[j] == (Filter(items, keep)[j], counter + j)
    decreases |items|
  {
    if items != [] {
      var rest := items[1..];
      assert forall x :: x in rest ==> x in items;
      if keep(items[0]) {
        StoredFilter(rest, counter + 1, value, keep);
        var stored := Stored(items, counter, value);
        assert stored == [(items[0], counter)] + Stored(rest, counter + 1, value);
        assert Filter(items, keep) == [items[0]] + Filter(rest, keep);
      } else {
        StoredFilter(rest, counter, value, keep);
      }
    }
  }

  /**
   * When an item is stored exactly when `keep` accepts it and no key repeats, the loop appends
   * the accepted items' keys, in order, each holding the value given under its running number.
   */
  lemma InsertFiltered<T, V>(items: seq<T>, counter: nat, d: Dict<string, V>, key: T -> string,
                             value: (T, nat) -> Result<Option<V>, Error>, keep: T -> bool, r: Dict<string, V>)
    requires d.Valid()
    requires InsertNumbered(items, counter, d, key, value) == Ok(r)
    requires forall x, c :: x in items ==> (keep(x) <==> value(x, c).Ok? && value(x, c).value.Some?)
    requires Distinct(d.keys + KeysOf(Numbered(Filter(items, keep), counter), key))
    ensures r.Valid()
    ensures r.keys == d.keys + KeysOf(Numbered(Filter(items, keep), counter), key)
    ensures forall j :: 0 <= j < |Filter(items, keep)| ==>
      var x := Filter(items, keep)[j];
      key(x) in r.entries && value(x, counter + j) == Ok(Some(r.entries[key(x)]))
  {
    var stored := Stored(items, counter, value);
    StoredFilter(items, counter, value, keep);
    assert stored == Numbered(Filter(items, keep), counter);
    InsertNumberedKeys(items, counter, d, key, value, r);
    AppendNewDistinct(d.keys, KeysOf(stored, key));
    DistinctConcat(d.keys, KeysOf(stored, key));
    InsertNumberedValues(items, counter, d, key, value, r);
    forall j | 0 <= j < |Filter(items, keep)|
      ensures key(Filter(items, keep)[j]) in r.entries &&
              value(Filter(items, keep)[j], counter + j) == Ok(Some(r.entries[key(Filter(items, keep)[j])]))
    {
      assert stored[j] == (Filter(items, keep)[j], counter + j);
    }
  }

  /** Each item paired with its running number, counting on from `counter`. */
  function Numbered<T>(items: seq<T>, counter: nat): (r: seq<(T, nat)>)
    ensures |r| == |items|
    ensures forall j :: 0 <= j < |items| ==> r[j] == (items[j], counter + j)
  {
    if items == [] then [] else [(items[0], counter)] + Numbered(items[1..], counter + 1)
  }

  /**
   * The scans of a session are its kept `mr_` directories under their own names, in order, with
   * run numbers "0001", "0002", ... and nothing converted yet; a dropped directory leaves no entry
   * and uses no number.
   */
  lemma ScanRuns(scanDirs: seq<string>, probe: Probe, r: Dict<string, ScanEntry>)
    requires Distinct(Basenames(scanDirs))
    requires ScansFrom(scanDirs, 1, Empty(), probe) == Ok(r)
    ensures r.Valid()
    ensures r.keys == Basenames(Kept(scanDirs, probe))
    ensures forall j :: 0 <= j < |r.keys| ==>
      r.entries[r.keys[j]] == NewScan(Kept(scanDirs, probe)[j], j + 1, probe) &&
      r.entries[r.keys[j]].meta.run == Pad4(j + 1) &&
      r.entries[r.keys[j]].bidsFpath == "" && !r.entries[r.keys[j]].conversionStatus
  {
    ScanKeys(scanDirs, probe, r);
    FreshEntries(Kept(scanDirs, probe), probe, r);
  }

  /** The entries the scan step left under the keys are fresh entries, numbered from 1. */
  lemma FreshEntries(kept: seq<string>, probe: Probe, r: Dict<string, ScanEntry>)
    requires |r.keys| <= |kept|
    requires forall j :: 0 <= j < |r.keys| ==>
      r.keys[j] in r.entries && ScanSteps(probe)(kept[j], 1 + j) == Ok(Some(r.entries[r.keys[j]]))
    ensures forall j :: 0 <= j < |r.keys| ==>
      r.entries[r.keys[j]] == NewScan(kept[j], j + 1, probe) &&
      r.entries[r.keys[j]].meta.run == Pad4(j + 1) &&
      r.entries[r.keys[j]].bidsFpath == "" && !r.entries[r.keys[j]].conversionStatus
  {
    forall j | 0 <= j < |r.keys|
      ensures var e := r.entries[r.keys[j]];
        e == NewScan(kept[j], j + 1, probe) && e.meta.run == Pad4(j + 1) && e.bidsFpath == "" && !e.conversionStatus
    {
      var e := r.entries[r.keys[j]];
      assert ScanSteps(probe)(kept[j], 1 + j) == Ok(Some(e));
      StoredScan(probe, kept[j], 1 + j, e);
    }
  }

  /** The scan loop's keys, and the step result each kept directory left under its key. */
  lemma ScanKeys(scanDirs: seq<string>, probe: Probe, r: Dict<string, ScanEntry>)
    requires Distinct(Basenames(scanDirs))
    requires ScansFrom(scanDirs, 1, Empty(), probe) == Ok(r)
    ensures r.Valid()
    ensures r.keys == Basenames(Kept(scanDirs, probe))
    ensures forall j :: 0 <= j < |r.keys| ==>
      r.keys[j] in r.entries && ScanSteps(probe)(Kept(scanDirs, probe)[j], 1 + j) == Ok(Some(r.entries[r.keys[j]]))
  {
    var kept := Filter(scanDirs, Keeps(probe));
    FilterDistinct(scanDirs, Keeps(probe));
    assert KeysOf(Numbered(kept, 1), Basename) == Basenames(kept);
    ScanStepsKeep(scanDirs, probe);
    InsertFilteredFresh(scanDirs, 1, Basename, ScanSteps(probe), Keeps(probe), r);
  }

  /** `InsertFiltered` started on an empty dictionary, stated on the positions of the key list. */
  lemma InsertFilteredFresh<T, V>(items: seq<T>, counter: nat, key: T -> string,
                                  value: (T, nat) -> Result<Option<V>, Error>, keep: T -> bool, r: Dict<string, V>)
    requires InsertNumbered(items, counter, Empty(), key, value) == Ok(r)
    requires forall x, c :: x in items ==> (keep(x) <==> value(x, c).Ok? && value(x, c).value.Some?)
    requires Distinct(KeysOf(Numbered(Filter(items, keep), counter), key))
    ensures r.Valid()
    ensures r.keys == KeysOf(Numbered(Filter(items, keep), counter), key)
    ensures forall j :: 0 <= j < |r.keys| ==>
      r.keys[j] in r.entries && value(Filter(items, keep)[j], counter + j) == Ok(Some(r.entries[r.keys[j]]))
  {
    var names := KeysOf(Numbered(Filter(items, keep), counter), key);
    assert [] + names == names;
    InsertFiltered(items, counter, Empty(), key, value, keep, r);
    forall j | 0 <= j < |r.keys|
      ensures r.keys[j] in r.entries && value(Filter(items, keep)[j], counter + j) == Ok(Some(r.entries[r.keys[j]]))
    {
      assert r.keys[j] == key(Filter(items, keep)[j]);
    }
  }

  /** A scan directory is stored exactly when `filter_series` keeps it. */
  lemma ScanStepsKeep(scanDirs: seq<string>, probe: Probe)
    ensures forall x, c :: x in scanDirs ==>
      (Keeps(probe)(x) <==> ScanSteps(probe)(x, c).Ok? && ScanSteps(probe)(x, c).value.Some?)
  {
  }

  /** A stored scan entry is the fresh entry for its directory and number. */
  lemma StoredScan(probe: Probe, scanDir: string, counter: nat, e: ScanEntry)
    requires ScanSteps(probe)(scanDir, counter) == Ok(Some(e))
    ensures e == NewScan(scanDir, counter, probe) && e.meta.run == Pad4(counter) && e.bidsFpath == "" && !e.conversionStatus
  {
  }

  /** An insertion loop that never skips stores every item, numbered on from `counter`. */
  lemma {:induction false} StoredAll<T, V>(items: seq<T>, counter: nat, d: Dict<string, V>, key: T -> string,
                                           value: (T, nat) -> Result<Option<V>, Error>)
    requires InsertNumbered(items, counter, d, key, value).Ok?
    requires forall x, c :: x in items ==> !(value(x, c).Ok? && value(x, c).value.None?)
    ensures Stored(items, counter, value) == Numbered(items, counter)
    decreases |items|
  {
    if items != [] {
      var rest := items[1..];
      assert forall x :: x in rest ==> x in items;
      var v := value(items[0], counter);
      assert v.Ok? && v.value.Some?;
      StoredAll(rest, counter + 1, d.Put(key(items[0]), v.value.value), key, value);
    }
  }

  /** An insertion loop keeps a property every old value and every new value has. */
  lemma {:induction false} InsertNumberedKeeps<T, V>(items: seq<T>, counter: nat, d: Dict<string, V>, key: T -> string,
                                                     value: (T, nat) -> Result<Option<V>, Error>, p: V -> bool, r: Dict<string, V>)
    requires InsertNumbered(items, counter, d, key, value) == Ok(r)
    requires forall k :: k in d.entries ==> p(d.entries[k])
    requires forall x, c :: x in items && value(x, c).Ok? && value(x, c).value.Some? ==> p(value(x, c).value.value)
    ensures forall k :: k in r.entries ==> p(r.entries[k])
    decreases |items|
  {
    if items != [] {
      var rest := items[1..];
      assert forall x :: x in rest ==> x in items;
      match value(items[0], counter)
      case Ok(None) =>
        InsertNumberedKeeps(rest, counter, d, key, value, p, r);
      case Ok(Some(v)) =>
        InsertNumberedKeeps(rest, counter + 1, d.Put(key(items[0]), v), key, value, p, r);
    }
  }

  /**
   * The session loop of one top-level directory: a session key already present keeps its place, a
   * new one is appended, and the sessions it does not list stay as they were.
   */
  lemma SessionOrder(uncFile: string, sessions: seq<SessionListing>, d: Dict<string, SessionEntry>, probe: Probe,
                     r: Dict<string, SessionEntry>)
    requires d.Valid()
    requires SessionsFrom(uncFile, sessions, 1, d, probe) == Ok(r)
    ensures r.Valid()
    ensures r.keys == AppendNew(d.keys, SessionKeys(uncFile, sessions))
    ensures forall k :: k in d.entries && k !in SessionKeys(uncFile, sessions) ==> k in r.entries && r.entries[k] == d.entries[k]
  {
    var key := SessionKeyOf(uncFile);
    var step := SessionSteps(uncFile, probe);
    StoredAll(sessions, 1, d, key, step);
    assert KeysOf(Numbered(sessions, 1), key) == SessionKeys(uncFile, sessions);
    InsertNumberedKeys(sessions, 1, d, key, step, r);
  }

  /**
   * The sessions of one top-level directory are numbered "0001", "0002", ... in listing order,
   * starting again at "0001" whatever the subject already holds.
   */
  lemma SessionNumbers(uncFile: string, sessions: seq<SessionListing>, d: Dict<string, SessionEntry>, probe: Probe,
                       r: Dict<string, SessionEntry>)
    requires d.Valid()
    requires Distinct(SessionKeys(uncFile, sessions))
    requires SessionsFrom(uncFile, sessions, 1, d, probe) == Ok(r)
    ensures forall i :: 0 <= i < |sessions| ==>
      SessionKeys(uncFile, sessions)[i] in r.entries && r.entries[SessionKeys(uncFile, sessions)[i]].bidsSession == Pad4(i + 1)
  {
    var key := SessionKeyOf(uncFile);
    var step := SessionSteps(uncFile, probe);
    var numbered := (e: SessionEntry, c: nat) => e.bidsSession == Pad4(c);
    SessionsStored(uncFile, sessions, d, probe);
    SessionStepsNumbered(uncFile, probe);
    NumberedHolds(sessions, 1, d, key, step, numbered, r);
  }

  /** Every session entry the session loop makes carries the number it was given. */
  lemma SessionStepsNumbered(uncFile: string, probe: Probe)
    ensures forall s, c :: SessionSteps(uncFile, probe)(s, c).Ok? ==>
      SessionSteps(uncFile, probe)(s, c).value.Some? &&
      SessionSteps(uncFile, probe)(s, c).value.value.bidsSession == Pad4(c)
  {
  }

  /**
   * When every item is stored, the `i`-th item's key holds a value made with number `counter + i`,
   * so it has every property such values have.
   */
  lemma NumberedHolds<T, V>(items: seq<T>, counter: nat, d: Dict<string, V>, key: T -> string,
                            value: (T, nat) -> Result<Option<V>, Error>, p: (V, nat) -> bool, r: Dict<string, V>)
    requires d.Valid()
    requires InsertNumbered(items, counter, d, key, value) == Ok(r)
    requires Stored(items, counter, value) == Numbered(items, counter)
    requires Distinct(KeysOf(Numbered(items, counter), key))
    requires forall x, c :: value(x, c).Ok? && value(x, c).value.Some? ==> p(value(x, c).value.value, c)
    ensures forall i :: 0 <= i < |items| ==> key(items[i]) in r.entries && p(r.entries[key(items[i])], counter + i)
  {
    InsertNumberedValues(items, counter, d, key, value, r);
    forall i | 0 <= i < |items|
      ensures key(items[i]) in r.entries && p(r.entries[key(items[i])], counter + i)
    {
      assert Stored(items, counter, value)[i] == (items[i], counter + i);
    }
  }

  /** A session loop that succeeds stores every session it lists, keyed by its session key. */
  lemma SessionsStored(uncFile: string, sessions: seq<SessionListing>, d: Dict<string, SessionEntry>, probe: Probe)
    requires SessionsFrom(uncFile, sessions, 1, d, probe).Ok?
    ensures Stored(sessions, 1, SessionSteps(uncFile, probe)) == Numbered(sessions, 1)
    ensures KeysOf(Numbered(sessions, 1), SessionKeyOf(uncFile)) == SessionKeys(uncFile, sessions)
  {
    StoredAll(sessions, 1, d, SessionKeyOf(uncFile), SessionSteps(uncFile, probe));
  }

  /** The scans of a new session entry list each of their keys once. */
  lemma SessionStepWellFormed(uncFile: string, session: SessionListing, counter: nat, probe: Probe)
    requires SessionStep(uncFile, session, counter, probe).Ok?
    ensures SessionStep(uncFile, session, counter, probe).value.value.scans.Valid()
  {
    var sesDir := PathJoin(uncFile, session.name);
    var scans := ScansFrom(CandidateScans(sesDir, session.scans), 1, Empty(), probe);
    InsertNumberedKeys(CandidateScans(sesDir, session.scans), 1, Empty(), Basename, ScanSteps(probe), scans.value);
  }

  /** The session loop keeps every dictionary it touches well formed. */
  lemma SessionsWellFormedKept(uncFile: string, sessions: seq<SessionListing>, counter: nat, d: Dict<string, SessionEntry>,
                               probe: Probe, r: Dict<string, SessionEntry>)
    requires SessionsWellFormed(d)
    requires SessionsFrom(uncFile, sessions, counter, d, probe) == Ok(r)
    ensures SessionsWellFormed(r)
  {
    var key := SessionKeyOf(uncFile);
    var step := SessionSteps(uncFile, probe);
    InsertNumberedKeys(sessions, counter, d, key, step, r);
    forall x, c | x in sessions && step(x, c).Ok? && step(x, c).value.Some?
      ensures step(x, c).value.value.scans.Valid()
    {
      SessionStepWellFormed(uncFile, x, c, probe);
    }
    InsertNumberedKeeps(sessions, counter, d, key, step, (e: SessionEntry) => e.scans.Valid(), r);
  }

  /**
   * Subject numbering: the mapping's subject keys are the keys of the top-level directories in
   * first-seen order, and the `j`-th of them has `bids_subject` "000(j+1)"; a repeated key reuses
   * the subject's entry and number.
   */
  lemma {:induction false} SubjectsOrder(oxygenDir: string, tops: seq<TopListing>, counter: nat, m: BidsMapping, probe: Probe,
                                         r: BidsMapping)
    requires m.Valid() && counter == |m.keys| + 1 && SubjectsNumbered(m)
    requires SubjectsFrom(oxygenDir, tops, counter, m, probe) == Ok(r)
    ensures r.Valid() && SubjectsNumbered(r)
    ensures r.keys == AppendNew(m.keys, SubjectKeys(oxygenDir, tops))
    decreases |tops|
  {
    if tops != [] {
      var uncFile := PathJoin(oxygenDir, tops[0].name);
      var key := SubjectKey(uncFile);
      var isNew := key !in m.entries;
      var m1 := if isNew then m.Put(key, SubjectEntry(Pad4(counter), Empty())) else m;
      if isNew {
        PutNewNumbered(m, key, SubjectEntry(Pad4(counter), Empty()));
      }
      var sessions := SessionsFrom(uncFile, tops[0].sessions, 1, m1.entries[key].sessions, probe);
      assert sessions.Ok?;
      var m2 := m1.Put(key, m1.entries[key].(sessions := sessions.value));
      PutKeepsNumbered(m1, key, m1.entries[key].(sessions := sessions.value));
      assert key in m.keys <==> key in m.entries;
      SubjectsOrder(oxygenDir, tops[1..], if isNew then counter + 1 else counter, m2, probe, r);
    }
  }

  /** Storing a new subject numbered one past the last keeps the numbering. */
  lemma PutNewNumbered(m: BidsMapping, key: string, e: SubjectEntry)
    requires m.Valid() && SubjectsNumbered(m)
    requires key !in m.entries && e.bidsSubject == Pad4(|m.keys| + 1)
    ensures m.Put(key, e).Valid() && SubjectsNumbered(m.Put(key, e)) && |m.Put(key, e).keys| == |m.keys| + 1
  {
    var m2 := m.Put(key, e);
    assert m2.keys == m.keys + [key];
    forall j | 0 <= j < |m2.keys| ensures m2.keys[j] in m2.entries && m2.entries[m2.keys[j]].bidsSubject == Pad4(j + 1) {
      if j < |m.keys| {
        var k := m.keys[j];
        assert m2.keys[j] == k && k in m.entries && k != key;
        assert m2.entries[k] == m.entries[k];
      } else {
        assert m2.keys[j] == key && j == |m.keys|;
      }
    }
  }

  /** Replacing a subject's entry by one with the same number keeps the numbering and the key order. */
  lemma PutKeepsNumbered(m: BidsMapping, key: string, e: SubjectEntry)
    requires m.Valid() && SubjectsNumbered(m)
    requires key in m.entries && e.bidsSubject == m.entries[key].bidsSubject
    ensures m.Put(key, e).Valid() && SubjectsNumbered(m.Put(key, e)) && m.Put(key, e).keys == m.keys
  {
  }

  /** The subject loop keeps every dictionary of the mapping well formed. */
  lemma {:induction false} SubjectsWellFormed(oxygenDir: string, tops: seq<TopListing>, counter: nat, m: BidsMapping,
                                              probe: Probe, r: BidsMapping)
    requires WellFormed(m)
    requires SubjectsFrom(oxygenDir, tops, counter, m, probe) == Ok(r)
    ensures WellFormed(r)
    decreases |tops|
  {
    if tops != [] {
      var uncFile := PathJoin(oxygenDir, tops[0].name);
      var key := SubjectKey(uncFile);
      var isNew := key !in m.entries;
      var m1 := if isNew then m.Put(key, SubjectEntry(Pad4(counter), Empty())) else m;
      PutWellFormed(m, key, SubjectEntry(Pad4(counter), Empty()));
      var sessions := SessionsFrom(uncFile, tops[0].sessions, 1, m1.entries[key].sessions, probe);
      assert sessions.Ok?;
      SessionsWellFormedKept(uncFile, tops[0].sessions, 1, m1.entries[key].sessions, probe, sessions.value);
      var m2 := m1.Put(key, m1.entries[key].(sessions := sessions.value));
      PutWellFormed(m1, key, m1.entries[key].(sessions := sessions.value));
      SubjectsWellFormed(oxygenDir, tops[1..], if isNew then counter + 1 else counter, m2, probe, r);
    }
  }

  /** Storing a subject entry whose sessions are well formed keeps the mapping well formed. */
  lemma PutWellFormed(m: BidsMapping, key: string, e: SubjectEntry)
    requires WellFormed(m) && SessionsWellFormed(e.sessions)
    ensures WellFormed(m.Put(key, e))
  {
  }

  /**
   * The mapping `convert_to_bids` builds: well formed, subjects numbered in first-seen order; with
   * a mapping guide it is empty.
   */
  lemma MappingNumbering(oxygenDir: string, guide: Option<string>, tops: seq<TopListing>, probe: Probe, r: BidsMapping)
    requires MappingFor(oxygenDir, guide, tops, probe) == Ok(r)
    ensures WellFormed(r) && SubjectsNumbered(r)
    ensures GuideGiven(guide) ==> r.keys == []
    ensures !GuideGiven(guide) ==> r.keys == AppendNew([], SubjectKeys(oxygenDir, tops))
  {
    if !GuideGiven(guide) {
      SubjectsOrder(oxygenDir, tops, 1, Empty(), probe, r);
      SubjectsWellFormed(oxygenDir, tops, 1, Empty(), probe, r);
    }
  }
}
