/**
 * The last phase of `convert_to_bids` in `converters.py`: converting every work item with
 * `dcm_to_nifti` (in a thread pool, or one after the other) and merging each returned
 * `(series_dir, bids_fpath, success)` triple back into the mapping, plus the guards in front
 * of the whole run (the BIDS directory check and the archive extraction).
 */
module Conversion {
  import opened Wrappers
  import opened Errors
  import opened Text
  import opened Paths
  import opened Dicts
  import opened Utils
  import opened Dcm
  import opened Mapping
  import opened Worklist

  /** Where the merge files a returned triple: `mapping[subject]["sessions"][session]["scans"][scan]`. */
  datatype MergeKey = MergeKey(subject: string, session: string, scan: string)

  /**
   * The key the merge reads off a returned `series_dir`: the token after the first '-' of its first
   * segment, then its second and third segments. Each missing piece raises IndexError.
   */
  function MergeKeyOf(seriesDir: string): (r: Result<MergeKey, Error>)
    ensures r.Err? ==> r.error == IndexError
    ensures r.Ok? <==> |Split(Split(seriesDir, '/')[0], '-')| >= 2 && |Split(seriesDir, '/')| >= 3
  {
    var segments := Split(seriesDir, '/');
    var tokens := Split(segments[0], '-');
    if |tokens| < 2 || |segments| < 3 then Err(IndexError)
    else Ok(MergeKey(tokens[1], segments[1], segments[2]))
  }

  /** The scan entry the mapping files under `k`, if there is one. */
  function Lookup(m: BidsMapping, k: MergeKey): (e: Option<ScanEntry>)
    ensures e.Some? <==> HasScan(m, k.subject, k.session, k.scan)
  {
    if HasScan(m, k.subject, k.session, k.scan) then
      Some(m.entries[k.subject].sessions.entries[k.session].scans.entries[k.scan])
    else None
  }

  /** A scan entry after a successful conversion to `bidsFpath`. */
  function Converted(e: ScanEntry, bidsFpath: string): (c: ScanEntry)
    ensures c.conversionStatus && c.bidsFpath == bidsFpath
    ensures c.seriesDir == e.seriesDir && c.meta == e.meta && c.scannerMeta == e.scannerMeta
  {
    e.(bidsFpath := bidsFpath, conversionStatus := true)
  }

  /**
   * The two assignments of a successful merge. Looking up the subject, the session and then the
   * scan raises KeyError with the first key that is missing.
   */
  function Record(m: BidsMapping, k: MergeKey, bidsFpath: string): (r: Result<BidsMapping, Error>)
    ensures r.Ok? <==> Lookup(m, k).Some?
    ensures k.subject !in m.entries ==> r == Err(KeyError(k.subject))
    ensures k.subject in m.entries && k.session !in m.entries[k.subject].sessions.entries ==> r == Err(KeyError(k.session))
    ensures r.Err? ==> r.error in {KeyError(k.subject), KeyError(k.session), KeyError(k.scan)}
  {
    if k.subject !in m.entries then Err(KeyError(k.subject))
    else
      var subject := m.entries[k.subject];
      if k.session !in subject.sessions.entries then Err(KeyError(k.session))
      else
        var session := subject.sessions.entries[k.session];
        if k.scan !in session.scans.entries then Err(KeyError(k.scan))
        else
          var scan := Converted(session.scans.entries[k.scan], bidsFpath);
          var session' := session.(scans := session.scans.Put(k.scan, scan));
          Ok(m.Put(k.subject, subject.(sessions := subject.sessions.Put(k.session, session'))))
  }

  /** Two scan entries that agree on everything but the conversion fields. */
  predicate SameScan(a: ScanEntry, b: ScanEntry)
  {
    a.seriesDir == b.seriesDir && a.meta == b.meta && a.scannerMeta == b.scannerMeta
  }

  predicate SameSession(a: SessionEntry, b: SessionEntry)
  {
    a.bidsSession == b.bidsSession && a.oxygenFile == b.oxygenFile && a.scans.keys == b.scans.keys &&
    a.scans.entries.Keys == b.scans.entries.Keys &&
    forall c :: c in a.scans.entries && c in b.scans.entries ==> SameScan(a.scans.entries[c], b.scans.entries[c])
  }

  predicate SameSubject(a: SubjectEntry, b: SubjectEntry)
  {
    a.bidsSubject == b.bidsSubject && a.sessions.keys == b.sessions.keys &&
    a.sessions.entries.Keys == b.sessions.entries.Keys &&
    forall t :: t in a.sessions.entries && t in b.sessions.entries ==> SameSession(a.sessions.entries[t], b.sessions.entries[t])
  }

  /**
   * Two mappings with the same subjects, sessions and scans in the same key orders, the same
   * BIDS numbers, oxygen file names, series directories and metadata: at most the conversion
   * fields of scans differ.
   */
  predicate SameMapping(a: BidsMapping, b: BidsMapping)
  {
    a.keys == b.keys &&
    a.entries.Keys == b.entries.Keys &&
    forall s :: s in a.entries && s in b.entries ==> SameSubject(a.entries[s], b.entries[s])
  }

  lemma SameMappingReflexive(m: BidsMapping)
    ensures SameMapping(m, m)
  {
  }

  lemma SameMappingTransitive(a: BidsMapping, b: BidsMapping, c: BidsMapping)
    requires SameMapping(a, b) && SameMapping(b, c)
    ensures SameMapping(a, c)
  {
    forall s | s in a.entries && s in c.entries ensures SameSubject(a.entries[s], c.entries[s]) {
      var x, y, z := a.entries[s], b.entries[s], c.entries[s];
      forall t | t in x.sessions.entries && t in z.sessions.entries
        ensures SameSession(x.sessions.entries[t], z.sessions.entries[t])
      {
        assert SameSession(x.sessions.entries[t], y.sessions.entries[t]);
        assert SameSession(y.sessions.entries[t], z.sessions.entries[t]);
      }
    }
  }

  /** Only the conversion fields differ, so a well-formed mapping stays well formed and keeps its numbering. */
  lemma SameMappingWellFormed(a: BidsMapping, b: BidsMapping)
    requires SameMapping(a, b)
    ensures WellFormed(a) ==> WellFormed(b)
    ensures SubjectsNumbered(a) ==> SubjectsNumbered(b)
    ensures forall k :: Lookup(a, k).Some? <==> Lookup(b, k).Some?
  {
    forall k ensures Lookup(a, k).Some? <==> Lookup(b, k).Some? {
      if k.subject in a.entries && k.session in a.entries[k.subject].sessions.entries {
        assert SameSession(a.entries[k.subject].sessions.entries[k.session], b.entries[k.subject].sessions.entries[k.session]);
      }
    }
    if WellFormed(a) {
      forall s | s in b.entries ensures SessionsWellFormed(b.entries[s].sessions) {
        assert SessionsWellFormed(a.entries[s].sessions);
        forall t | t in b.entries[s].sessions.entries ensures b.entries[s].sessions.entries[t].scans.Valid() {
          assert a.entries[s].sessions.entries[t].scans.Valid();
        }
      }
    }
  }

  /** A successful merge of `k` converts that scan and leaves everything else as it was. */
  lemma RecordEffect(m: BidsMapping, k: MergeKey, bidsFpath: string)
    requires Lookup(m, k).Some?
    ensures Record(m, k, bidsFpath).Ok?
    ensures SameMapping(m, Record(m, k, bidsFpath).value)
    ensures Lookup(Record(m, k, bidsFpath).value, k) == Some(Converted(Lookup(m, k).value, bidsFpath))
    ensures forall j :: j != k ==> Lookup(Record(m, k, bidsFpath).value, j) == Lookup(m, j)
  {
    var r := Record(m, k, bidsFpath).value;
    var subject := m.entries[k.subject];
    var session := subject.sessions.entries[k.session];
    var session' := session.(scans := session.scans.Put(k.scan, Converted(session.scans.entries[k.scan], bidsFpath)));
    var subject' := subject.(sessions := subject.sessions.Put(k.session, session'));
    assert SameSession(session, session');
    assert SameSubject(subject, subject');
    forall j | j != k ensures Lookup(r, j) == Lookup(m, j) {
      RecordElsewhere(m, k, bidsFpath, j);
    }
  }

  lemma RecordElsewhere(m: BidsMapping, k: MergeKey, bidsFpath: string, j: MergeKey)
    requires Lookup(m, k).Some? && j != k
    ensures Record(m, k, bidsFpath).Ok? && Lookup(Record(m, k, bidsFpath).value, j) == Lookup(m, j)
  {
    var r := Record(m, k, bidsFpath).value;
    if j.subject == k.subject && j.session == k.session {
      assert j.scan != k.scan;
    } else if j.subject == k.subject && j.session in m.entries[j.subject].sessions.entries {
      assert r.entries[j.subject].sessions.entries[j.session] == m.entries[j.subject].sessions.entries[j.session];
    }
  }

  /**
   * Merging one returned triple: the key is read off `series_dir` first (IndexError when it is
   * short), and only a successful conversion is recorded.
   */
  function MergeStep(m: BidsMapping, res: ConvResult): (r: Result<BidsMapping, Error>)
    ensures MergeKeyOf(res.seriesDir).Err? ==> r == Err(IndexError)
    ensures MergeKeyOf(res.seriesDir).Ok? && !res.success ==> r == Ok(m)
    ensures res.success && r.Ok? ==> MergeKeyOf(res.seriesDir).Ok? && Lookup(m, MergeKeyOf(res.seriesDir).value).Some?
  {
    match MergeKeyOf(res.seriesDir)
    case Err(e) => Err(e)
    case Ok(k) => if res.success then Record(m, k, res.bidsFpath) else Ok(m)
  }

  /** The result of one conversion succeeded and reported the scan under `k`. */
  predicate Succeeded(res: Result<ConvResult, Error>, k: MergeKey)
  {
    res.Ok? && res.value.success && MergeKeyOf(res.value.seriesDir) == Ok(k)
  }

  /** The loop over `futures`: each `future.result()` re-raises the conversion's error, then the triple is merged. */
  function MergeResults(results: seq<Result<ConvResult, Error>>, m: BidsMapping): Result<BidsMapping, Error>
    decreases |results|
  {
    if results == [] then Ok(m)
    else
      match results[0]
      case Err(e) => Err(e)
      case Ok(res) =>
        match MergeStep(m, res)
        case Err(e) => Err(e)
        case Ok(m') => MergeResults(results[1..], m')
  }

  /** One merge step, entry by entry: the scan it reports is converted when it succeeded; nothing else changes. */
  lemma MergeStepEffect(m: BidsMapping, res: ConvResult, r: BidsMapping)
    requires MergeStep(m, res) == Ok(r)
    ensures SameMapping(m, r)
    ensures forall k :: Succeeded(Ok(res), k) ==>
      Lookup(m, k).Some? && Lookup(r, k) == Some(Converted(Lookup(m, k).value, res.bidsFpath))
    ensures forall k :: !Succeeded(Ok(res), k) ==> Lookup(r, k) == Lookup(m, k)
  {
    var k0 := MergeKeyOf(res.seriesDir).value;
    if res.success {
      RecordEffect(m, k0, res.bidsFpath);
    } else {
      SameMappingReflexive(m);
    }
  }

  /** No result reports a successful conversion of `k`. */
  predicate Untouched(results: seq<Result<ConvResult, Error>>, k: MergeKey)
  {
    forall i :: 0 <= i < |results| ==> !Succeeded(results[i], k)
  }

  /** `results[i]` is the last result that reports a successful conversion of `k`. */
  predicate LastSuccess(results: seq<Result<ConvResult, Error>>, k: MergeKey, i: int)
  {
    0 <= i < |results| && Succeeded(results[i], k) && forall j :: i < j < |results| ==> !Succeeded(results[j], k)
  }

  /**
   * A merge that goes through: every conversion returned, every successful one named a scan of
   * the mapping, the mapping keeps its shape, a scan no success reported is untouched, and a
   * scan reported several times keeps the path of the last report.
   */
  lemma {:induction false} MergeEffect(results: seq<Result<ConvResult, Error>>, m: BidsMapping, r: BidsMapping)
    requires MergeResults(results, m) == Ok(r)
    ensures forall i :: 0 <= i < |results| ==> results[i].Ok?
    ensures forall i :: 0 <= i < |results| && results[i].value.success ==>
      MergeKeyOf(results[i].value.seriesDir).Ok? && Lookup(m, MergeKeyOf(results[i].value.seriesDir).value).Some?
    ensures SameMapping(m, r)
    ensures forall k :: Untouched(results, k) ==> Lookup(r, k) == Lookup(m, k)
    ensures forall k, i :: LastSuccess(results, k, i) ==>
      Lookup(m, k).Some? && Lookup(r, k) == Some(Converted(Lookup(m, k).value, results[i].value.bidsFpath))
    decreases |results|
  {
    if results == [] {
      SameMappingReflexive(m);
    } else {
      var res := results[0].value;
      var m1 := MergeStep(m, res).value;
      var rest := results[1..];
      MergeStepEffect(m, res, m1);
      MergeEffect(rest, m1, r);
      SameMappingTransitive(m, m1, r);
      SameMappingWellFormed(m, m1);
      assert forall i :: 1 <= i < |results| ==> results[i] == rest[i - 1];
      forall i | 0 <= i < |results| && results[i].value.success
        ensures MergeKeyOf(results[i].value.seriesDir).Ok? && Lookup(m, MergeKeyOf(results[i].value.seriesDir).value).Some?
      {
        if i > 0 {
          assert rest[i - 1] == results[i];
        }
      }
      forall k | Untouched(results, k) ensures Lookup(r, k) == Lookup(m, k) {
        assert !Succeeded(results[0], k);
        assert Untouched(rest, k) by {
          forall i | 0 <= i < |rest| ensures !Succeeded(rest[i], k) {
            assert rest[i] == results[i + 1];
          }
        }
      }
      forall k, i | LastSuccess(results, k, i)
        ensures Lookup(m, k).Some? && Lookup(r, k) == Some(Converted(Lookup(m, k).value, results[i].value.bidsFpath))
      {
        LastSuccessStep(results, m, m1, r, k, i);
      }
    }
  }

  lemma LastSuccessStep(results: seq<Result<ConvResult, Error>>, m: BidsMapping, m1: BidsMapping, r: BidsMapping,
                        k: MergeKey, i: int)
    requires results != [] && results[0].Ok? && LastSuccess(results, k, i)
    requires forall j :: Succeeded(results[0], j) ==>
      Lookup(m, j).Some? && Lookup(m1, j) == Some(Converted(Lookup(m, j).value, results[0].value.bidsFpath))
    requires forall j :: !Succeeded(results[0], j) ==> Lookup(m1, j) == Lookup(m, j)
    requires forall j :: Lookup(m, j).Some? <==> Lookup(m1, j).Some?
    requires forall j :: Untouched(results[1..], j) ==> Lookup(r, j) == Lookup(m1, j)
    requires forall j, n :: LastSuccess(results[1..], j, n) ==>
      Lookup(m1, j).Some? && Lookup(r, j) == Some(Converted(Lookup(m1, j).value, results[1..][n].value.bidsFpath))
    ensures Lookup(m, k).Some? && Lookup(r, k) == Some(Converted(Lookup(m, k).value, results[i].value.bidsFpath))
  {
    var rest := results[1..];
    if i == 0 {
      assert Untouched(rest, k) by {
        forall n | 0 <= n < |rest| ensures !Succeeded(rest[n], k) {
          assert rest[n] == results[n + 1];
        }
      }
    } else {
      assert LastSuccess(rest, k, i - 1) by {
        assert rest[i - 1] == results[i];
        forall n | i - 1 < n < |rest| ensures !Succeeded(rest[n], k) {
          assert rest[n] == results[n + 1];
        }
      }
    }
  }

  /** `listdir` gives the listing of a directory after its conversion ran. */
  type Listing = string -> seq<string>

  /**
   * Converting one work item: `out_bdir` is its path without the last segment, `out_fname` its
   * file name up to the first '.', and a BIDS sidecar is always asked for.
   */
  function Convert(item: WorkItem, tool: string, run: Runner, listdir: Listing): (r: Result<ConvResult, Error>)
    ensures r.Ok? ==> r.value.seriesDir == LastSegments(item.seriesDir, 3)
    ensures r.Ok? ==> r.value.bidsFpath == PathJoin(LastSegments(DirPart(item.bidsFpath), 4), Stem(item.bidsFpath) + ".nii.gz")
    ensures tool != "dcm2niix" && tool != "dimon" ==> r == Err(NiftyConversionFailure(tool))
  {
    DcmToNifti(item.seriesDir, Stem(item.bidsFpath), DirPart(item.bidsFpath), tool, true, run, listdir(item.seriesDir))
  }

  /** The futures of the thread pool, in submission order: one conversion per work item. */
  function Conversions(items: seq<WorkItem>, tool: string, run: Runner, listdir: Listing): (r: seq<Result<ConvResult, Error>>)
    ensures |r| == |items|
    ensures forall i :: 0 <= i < |items| ==> r[i] == Convert(items[i], tool, run, listdir)
  {
    if items == [] then [] else [Convert(items[0], tool, run, listdir)] + Conversions(items[1..], tool, run, listdir)
  }

  /** The sequential loop: each item is converted with dcm2niix and merged before the next one starts. */
  function ConvertSequential(items: seq<WorkItem>, m: BidsMapping, run: Runner, listdir: Listing): Result<BidsMapping, Error>
    decreases |items|
  {
    if items == [] then Ok(m)
    else
      match Convert(items[0], "dcm2niix", run, listdir)
      case Err(e) => Err(e)
      case Ok(res) =>
        match MergeStep(m, res)
        case Err(e) => Err(e)
        case Ok(m') => ConvertSequential(items[1..], m', run, listdir)
  }

  /**
   * The two branches agree: running everything first and merging afterwards in submission order
   * gives the same mapping, or the same first error, as converting and merging one item at a time.
   */
  lemma {:induction false} ModesAgree(items: seq<WorkItem>, m: BidsMapping, run: Runner, listdir: Listing)
    ensures ConvertSequential(items, m, run, listdir) == MergeResults(Conversions(items, "dcm2niix", run, listdir), m)
    decreases |items|
  {
    if items != [] {
      var results := Conversions(items, "dcm2niix", run, listdir);
      assert results[1..] == Conversions(items[1..], "dcm2niix", run, listdir);
      match results[0]
      case Err(_) =>
      case Ok(res) =>
        match MergeStep(m, res)
        case Err(_) =>
        case Ok(m') => ModesAgree(items[1..], m', run, listdir);
    }
  }

  /** With a tool `dcm_to_nifti` does not know, the first `future.result()` raises and nothing is merged. */
  lemma UnsupportedTool(items: seq<WorkItem>, tool: string, m: BidsMapping, run: Runner, listdir: Listing)
    requires tool != "dcm2niix" && tool != "dimon" && items != []
    ensures MergeResults(Conversions(items, tool, run, listdir), m) == Err(NiftyConversionFailure(tool))
  {
  }

  /** The thread-pool branch: submit every conversion, then merge the results in submission order. */
  method RunParallel(items: seq<WorkItem>, tool: string, m: BidsMapping, run: Runner, listdir: Listing)
    returns (r: Result<BidsMapping, Error>)
    ensures r == MergeResults(Conversions(items, tool, run, listdir), m)
  {
    var futures := Submit(items, tool, run, listdir);
    r := MergeFutures(futures, m);
  }

  /** The submission loop: one `dcm_to_nifti` call per work item. */
  method Submit(items: seq<WorkItem>, tool: string, run: Runner, listdir: Listing)
    returns (futures: seq<Result<ConvResult, Error>>)
    ensures futures == Conversions(items, tool, run, listdir)
  {
    futures := [];
    var i := 0;
    while i < |items|
      invariant 0 <= i <= |items| && |futures| == i
      invariant forall j :: 0 <= j < i ==> futures[j] == Convert(items[j], tool, run, listdir)
    {
      var outBdir := DirPart(items[i].bidsFpath);
      var outFname := Stem(items[i].bidsFpath);
      var future := DcmToNifti(items[i].seriesDir, outFname, outBdir, tool, true, run, listdir(items[i].seriesDir));
      assert future == Convert(items[i], tool, run, listdir);
      futures := futures + [future];
      i := i + 1;
    }
  }

  /** The loop over the finished futures: the first raised error ends the run, each triple is merged. */
  method MergeFutures(futures: seq<Result<ConvResult, Error>>, m: BidsMapping) returns (r: Result<BidsMapping, Error>)
    ensures r == MergeResults(futures, m)
  {
    var mapping := m;
    var i := 0;
    while i < |futures|
      invariant 0 <= i <= |futures|
      invariant MergeResults(futures, m) == MergeResults(futures[i..], mapping)
    {
      assert futures[i..][1..] == futures[i + 1..];
      match futures[i]
      case Err(e) =>
        return Err(e);
      case Ok(res) =>
        var merged := MergeStep(mapping, res);
        if merged.Err? {
          return Err(merged.error);
        }
        mapping := merged.value;
      i := i + 1;
    }
    return Ok(mapping);
  }

  /** The sequential branch, which converts with dcm2niix whatever tool was asked for. */
  method RunSequential(items: seq<WorkItem>, m: BidsMapping, run: Runner, listdir: Listing)
    returns (r: Result<BidsMapping, Error>)
    ensures r == ConvertSequential(items, m, run, listdir)
  {
    var mapping := m;
    var i := 0;
    while i < |items|
      invariant 0 <= i <= |items|
      invariant ConvertSequential(items, m, run, listdir) == ConvertSequential(items[i..], mapping, run, listdir)
    {
      assert items[i..][1..] == items[i + 1..];
      var outBdir := DirPart(items[i].bidsFpath);
      var outFname := Stem(items[i].bidsFpath);
      var converted := DcmToNifti(items[i].seriesDir, outFname, outBdir, "dcm2niix", true, run, listdir(items[i].seriesDir));
      if converted.Err? {
        return Err(converted.error);
      }
      var merged := MergeStep(mapping, converted.value);
      if merged.Err? {
        return Err(merged.error);
      }
      mapping := merged.value;
      i := i + 1;
    }
    return Ok(mapping);
  }

  /**
   * The round trip of a scan's key: the builder files the scan `oxygen_dir/top/session/scan` under
   * the last '-'-token of `top`, the session's and the scan's own names, and stores its last three
   * segments as `series_dir`; the work item joins that onto `oxygen_dir`, `dcm_to_nifti` returns its
   * last three segments, and the merge reads the key off them. With exactly two '-'-tokens in `top`
   * the merge finds the entry the builder made.
   */
  lemma MergeKeyRoundTrip(oxygenDir: string, top: string, session: string, scan: string)
    requires ValidName(top) && ValidName(session) && ValidName(scan) && |Split(top, '-')| == 2
    ensures var uncFile := PathJoin(oxygenDir, top);
      var sesDir := PathJoin(uncFile, session);
      var scDir := PathJoin(sesDir, scan);
      MergeKeyOf(LastSegments(PathJoin(oxygenDir, LastSegments(scDir, 3)), 3)) ==
        Ok(MergeKey(SubjectKey(uncFile), Basename(sesDir), Basename(scDir)))
  {
    var uncFile := PathJoin(oxygenDir, top);
    var sesDir := PathJoin(uncFile, session);
    ReturnedSeriesDir(oxygenDir, top, session, scan);
    JoinNameSegments(oxygenDir, top);
    JoinNameSegments(uncFile, session);
    JoinNameSegments(sesDir, scan);
  }

  /** What `dcm_to_nifti` hands back for the scan `oxygen_dir/top/session/scan` is `top/session/scan`. */
  lemma ReturnedSeriesDir(oxygenDir: string, top: string, session: string, scan: string)
    requires ValidName(top) && ValidName(session) && ValidName(scan)
    ensures var scDir := PathJoin(PathJoin(PathJoin(oxygenDir, top), session), scan);
      Split(LastSegments(PathJoin(oxygenDir, LastSegments(scDir, 3)), 3), '/') == [top, session, scan]
  {
    SeriesDirRoundTrip(oxygenDir, top, session, scan);
    SeriesDirSegments(oxygenDir, top, session, scan);
    JoinNames([top, session, scan]);
  }

  /**
   * A top-level name with three '-'-tokens breaks the round trip: the builder files the subject
   * under "c", the merge looks it up under "b".
   */
  lemma MergeKeyThreeTokens(oxygenDir: string)
    ensures var uncFile := PathJoin(oxygenDir, "a-b-c");
      var scDir := PathJoin(PathJoin(uncFile, "s"), "mr_1");
      SubjectKey(uncFile) == "c" &&
      MergeKeyOf(LastSegments(PathJoin(oxygenDir, LastSegments(scDir, 3)), 3)) == Ok(MergeKey("b", "s", "mr_1"))
  {
    assert Join(["a", "b", "c"], '-') == "a-b-c";
    JoinThenSplit(["a", "b", "c"], '-');
    ReturnedSeriesDir(oxygenDir, "a-b-c", "s", "mr_1");
    JoinNameSegments(oxygenDir, "a-b-c");
  }

  /** A top-level name without '-' is filed under its whole name, and the merge raises IndexError for it. */
  lemma MergeKeyNoHyphen(oxygenDir: string, top: string, session: string, scan: string)
    requires ValidName(top) && ValidName(session) && ValidName(scan) && '-' !in top
    ensures var uncFile := PathJoin(oxygenDir, top);
      var scDir := PathJoin(PathJoin(uncFile, session), scan);
      SubjectKey(uncFile) == top &&
      MergeKeyOf(LastSegments(PathJoin(oxygenDir, LastSegments(scDir, 3)), 3)) == Err(IndexError)
  {
    SplitWithoutSeparator(top, '-');
    ReturnedSeriesDir(oxygenDir, top, session, scan);
    JoinNameSegments(oxygenDir, top);
  }

  /**
   * The triple a successful conversion of a work item returns: the series as `top/session/scan`
   * and the NIfTI path cut to the BIDS directory's last segment and the three below it, which is
   * what the merge stores as `bids_fpath`.
   */
  lemma ConvertedPaths(oxygenDir: string, bidsDir: string, subject: string, session: string, scan: ScanEntry,
                       tool: string, run: Runner, listdir: Listing)
    requires PlainParts(subject, session, scan.meta) && ValidName(scan.meta.kind) && ParentSegments(bidsDir) != []
    requires Convert(ItemFor(oxygenDir, bidsDir, subject, session, scan), tool, run, listdir).Ok?
    ensures var res := Convert(ItemFor(oxygenDir, bidsDir, subject, session, scan), tool, run, listdir).value;
      res.seriesDir == LastSegments(PathJoin(oxygenDir, scan.seriesDir), 3) &&
      res.bidsFpath == PathJoin(Join([Last(ParentSegments(bidsDir)), "sub-" + subject, "ses-" + session, scan.meta.kind], '/'),
                                BidsFname(subject, session, scan.meta))
  {
    BidsFpathParts(bidsDir, subject, session, scan.meta);
    OutDirLastSegments(bidsDir, subject, session, scan.meta);
  }

  lemma OutDirLastSegments(bidsDir: string, subject: string, session: string, meta: ScanMeta)
    requires PlainParts(subject, session, meta) && ValidName(meta.kind) && ParentSegments(bidsDir) != []
    ensures LastSegments(BidsOutDir(bidsDir, subject, session, meta), 4) ==
      Join([Last(ParentSegments(bidsDir)), "sub-" + subject, "ses-" + session, meta.kind], '/')
  {
    OutDirSegments(bidsDir, subject, session, meta);
    var parent := ParentSegments(bidsDir);
    var below := ["sub-" + subject, "ses-" + session, meta.kind];
    LastNAfter(parent, below);
  }

  /**
   * A compressed Oxygen file: whether it is a tar archive, whether it is gzip-compressed, and the
   * name of its first member.
   */
  datatype Archive = Archive(isTar: bool, isGzip: bool, firstMember: Option<string>)

  /** The first error `extract_tgz` raises over the archives, in order, if any. */
  function ExtractionError(archives: seq<Archive>, outPath: string, cwd: string): (e: Option<Error>)
    ensures e.None? <==>
      forall i :: 0 <= i < |archives| ==> ExtractedDir(archives[i].isTar, archives[i].isGzip, archives[i].firstMember, outPath, cwd).Ok?
    ensures e.Some? ==> e.value == TarError || e.value == ReadError || e.value == AttributeError
  {
    if archives == [] then None
    else
      match ExtractedDir(archives[0].isTar, archives[0].isGzip, archives[0].firstMember, outPath, cwd)
      case Err(x) => Some(x)
      case Ok(_) =>
        var rest := ExtractionError(archives[1..], outPath, cwd);
        assert forall i :: 1 <= i < |archives| ==> archives[i] == archives[1..][i - 1];
        rest
  }

  /** The sequential extraction loop, which stops at the first archive that raises. */
  method ExtractAll(archives: seq<Archive>, outPath: string, cwd: string) returns (e: Option<Error>)
    ensures e == ExtractionError(archives, outPath, cwd)
  {
    var i := 0;
    while i < |archives|
      invariant 0 <= i <= |archives|
      invariant ExtractionError(archives, outPath, cwd) == ExtractionError(archives[i..], outPath, cwd)
    {
      assert archives[i..][1..] == archives[i + 1..];
      var extracted := ExtractedDir(archives[i].isTar, archives[i].isGzip, archives[i].firstMember, outPath, cwd);
      if extracted.Err? {
        return Some(extracted.error);
      }
      i := i + 1;
    }
    return None;
  }

  /** An entry of the BIDS directory: its name, and whether it is a directory (not a link to one). */
  datatype Entry = Entry(name: string, isDir: bool)

  /** The entries `glob(os.path.join(bids_dir, '*'))` finds: those whose name does not start with '.'. */
  function Visible(entries: seq<Entry>): (r: seq<Entry>)
    ensures forall e :: e in r <==> e in entries && (e.name == [] || e.name[0] != '.')
  {
    if entries == [] then []
    else if entries[0].name != [] && entries[0].name[0] == '.' then Visible(entries[1..])
    else [entries[0]] + Visible(entries[1..])
  }

  /**
   * The error `list(map(shutil.rmtree, rm_files))` raises, if any: `rmtree` removes a directory
   * tree and raises OSError on anything else, such as a regular file.
   */
  function RemovalError(entries: seq<Entry>): (e: Option<Error>)
    ensures e.Some? <==> exists i :: 0 <= i < |entries| && !entries[i].isDir
    ensures e.Some? ==> e.value == OSError
  {
    if entries == [] then None
    else if !entries[0].isDir then Some(OSError)
    else
      var rest := RemovalError(entries[1..]);
      assert forall i :: 1 <= i < |entries| ==> entries[i] == entries[1..][i - 1];
      rest
  }

  /** The removal of the visible entries, one `rmtree` after another, stopping at the first that raises. */
  method RemoveTrees(entries: seq<Entry>) returns (e: Option<Error>)
    ensures e == RemovalError(entries)
  {
    var i := 0;
    while i < |entries|
      invariant 0 <= i <= |entries|
      invariant RemovalError(entries) == RemovalError(entries[i..])
    {
      assert entries[i..][1..] == entries[i + 1..];
      if !entries[i].isDir {
        return Some(OSError);
      }
      i := i + 1;
    }
    return None;
  }

  /** The arguments of `convert_to_bids` that shape the run. */
  datatype Request = Request(bidsDir: string, oxygenDir: string, guide: Option<string>, tool: string,
                             nthreads: int, overwrite: bool)

  /**
   * What the run observes: the BIDS directory's listing (`None` when it is not a directory), the
   * compressed files in the Oxygen directory, the working directory, the directory tree after the
   * extraction, the series filter and metadata reader, the conversion tools and the listings of
   * the series directories after their conversion.
   */
  datatype World = World(bidsListing: Option<seq<Entry>>, archives: seq<Archive>, cwd: string,
                         tops: seq<TopListing>, probe: Probe, run: Runner, listdir: Listing)

  /** A BIDS directory that holds something, while overwriting is not allowed. */
  predicate Refused(q: Request, w: World)
  {
    w.bidsListing.Some? && Visible(w.bidsListing.value) != [] && !q.overwrite
  }

  /** Overwriting a BIDS directory that holds something other than directories. */
  predicate RemovalFails(q: Request, w: World)
  {
    w.bidsListing.Some? && q.overwrite && RemovalError(Visible(w.bidsListing.value)).Some?
  }

  /** The tool the run converts with: the requested one in the thread pool, always dcm2niix without it. */
  function EffectiveTool(q: Request): (tool: string)
    ensures q.nthreads > 0 ==> tool == q.tool
    ensures q.nthreads <= 0 ==> tool == "dcm2niix"
  {
    if q.nthreads > 0 then q.tool else "dcm2niix"
  }

  /**
   * `convert_to_bids`: refuse a non-empty BIDS directory unless overwriting; extract the archives
   * (only the sequential extraction lets an error out); build the mapping and the work list;
   * convert and merge.
   */
  function ConvertToBids(q: Request, w: World): (r: Result<BidsMapping, Error>)
    ensures Refused(q, w) ==> r == Err(DuplicateFile)
    ensures RemovalFails(q, w) ==> r == Err(OSError)
    ensures r.Ok? ==> !Refused(q, w) && !RemovalFails(q, w)
    ensures r.Ok? ==> q.nthreads > 0 || ExtractionError(w.archives, q.oxygenDir, w.cwd).None?
    ensures r.Ok? ==> MappingFor(q.oxygenDir, q.guide, w.tops, w.probe).Ok?
  {
    if Refused(q, w) then Err(DuplicateFile)
    else if RemovalFails(q, w) then Err(OSError)
    else if q.nthreads <= 0 && ExtractionError(w.archives, q.oxygenDir, w.cwd).Some? then
      Err(ExtractionError(w.archives, q.oxygenDir, w.cwd).value)
    else
      match MappingFor(q.oxygenDir, q.guide, w.tops, w.probe)
      case Err(e) => Err(e)
      case Ok(m) =>
        var items := ExecList(q.oxygenDir, q.bidsDir, m);
        if q.nthreads > 0 then MergeResults(Conversions(items, q.tool, w.run, w.listdir), m)
        else ConvertSequential(items, m, w.run, w.listdir)
  }

  /** The results the merge sees, in order, for the mapping `m`. */
  function RunResults(q: Request, w: World, m: BidsMapping): (r: seq<Result<ConvResult, Error>>)
    ensures |r| == |ExecList(q.oxygenDir, q.bidsDir, m)|
  {
    Conversions(ExecList(q.oxygenDir, q.bidsDir, m), EffectiveTool(q), w.run, w.listdir)
  }

  /**
   * Both branches are one merge of the run's results in work-list order; they differ only in the
   * tool. With a mapping guide nothing is converted and the result is the empty mapping.
   */
  lemma ConvertToBidsMerge(q: Request, w: World)
    requires !Refused(q, w) && !RemovalFails(q, w)
    requires q.nthreads > 0 || ExtractionError(w.archives, q.oxygenDir, w.cwd).None?
    requires MappingFor(q.oxygenDir, q.guide, w.tops, w.probe).Ok?
    ensures var m := MappingFor(q.oxygenDir, q.guide, w.tops, w.probe).value;
      ConvertToBids(q, w) == MergeResults(RunResults(q, w, m), m)
    ensures GuideGiven(q.guide) ==> ConvertToBids(q, w) == Ok(Empty())
  {
    var m := MappingFor(q.oxygenDir, q.guide, w.tops, w.probe).value;
    ModesAgree(ExecList(q.oxygenDir, q.bidsDir, m), m, w.run, w.listdir);
    if GuideGiven(q.guide) {
      EmptyExecList(q.oxygenDir, q.bidsDir);
    }
  }

  /**
   * The mapping `convert_to_bids` returns is the one it built, with the same subjects, sessions,
   * scans and numbers; a scan whose conversion never succeeded is unchanged (so its status is still
   * false and its path still empty), and a converted scan holds the path its last report gave.
   */
  lemma ConvertToBidsResult(q: Request, w: World, r: BidsMapping)
    requires ConvertToBids(q, w) == Ok(r)
    ensures MappingFor(q.oxygenDir, q.guide, w.tops, w.probe).Ok?
    ensures var m := MappingFor(q.oxygenDir, q.guide, w.tops, w.probe).value;
      SameMapping(m, r) && WellFormed(r) && SubjectsNumbered(r) &&
      (forall k :: Untouched(RunResults(q, w, m), k) ==> Lookup(r, k) == Lookup(m, k)) &&
      (forall k, i :: LastSuccess(RunResults(q, w, m), k, i) ==>
        Lookup(m, k).Some? && Lookup(r, k) == Some(Converted(Lookup(m, k).value, RunResults(q, w, m)[i].value.bidsFpath)))
  {
    var m := MappingFor(q.oxygenDir, q.guide, w.tops, w.probe).value;
    ConvertToBidsMerge(q, w);
    MappingNumbering(q.oxygenDir, q.guide, w.tops, w.probe, m);
    MergeEffect(RunResults(q, w, m), m, r);
    SameMappingWellFormed(m, r);
  }

  /** The whole run, step by step as `convert_to_bids` takes them. */
  method RunConvertToBids(q: Request, w: World) returns (r: Result<BidsMapping, Error>)
    ensures r == ConvertToBids(q, w)
  {
    if w.bidsListing.Some? {
      var bidsFiles := Visible(w.bidsListing.value);
      if bidsFiles != [] && !q.overwrite {
        return Err(DuplicateFile);
      }
      if bidsFiles != [] {
        var failed := RemoveTrees(bidsFiles);
        if failed.Some? {
          return Err(failed.value);
        }
      }
    }
    if q.nthreads <= 0 {
      var failed := ExtractAll(w.archives, q.oxygenDir, w.cwd);
      if failed.Some? {
        return Err(failed.value);
      }
    }
    var mapping := BuildMapping(q.oxygenDir, q.guide, w.tops, w.probe);
    if mapping.Err? {
      return Err(mapping.error);
    }
    MappingNumbering(q.oxygenDir, q.guide, w.tops, w.probe, mapping.value);
    var execList := BuildExecList(q.oxygenDir, q.bidsDir, mapping.value);
    if q.nthreads > 0 {
      r := RunParallel(execList, q.tool, mapping.value, w.run, w.listdir);
    } else {
      r := RunSequential(execList, mapping.value, w.run, w.listdir);
    }
  }
}
