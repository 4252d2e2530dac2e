/**
 * The second phase of `convert_to_bids` in `converters.py`: flattening the BIDS mapping into
 * the list of `(series_dir, bids_fpath)` work items, one per scan, in the mapping's key order,
 * and the BIDS file name and path each item is converted to.
 */
module Worklist {
  import opened Text
  import opened Paths
  import opened Ordering
  import opened Dicts
  import opened Mapping

  /** One element of `exec_list`: the DICOM series directory and the NIfTI file to write. */
  datatype WorkItem = WorkItem(seriesDir: string, bidsFpath: string)

  /** `sub-S_ses-T_desc_run-R`, followed by `_modality` when the modality is not empty. */
  function BidsStem(subject: string, session: string, meta: ScanMeta): string
  {
    var base := "sub-" + subject + "_" + ("ses-" + session) + "_" + meta.description + "_" + ("run-" + meta.run);
    if meta.modality != "" then base + "_" + meta.modality else base
  }

  /** `bids_fname`: the stem with the `.nii.gz` extension. */
  function BidsFname(subject: string, session: string, meta: ScanMeta): string
  {
    BidsStem(subject, session, meta) + ".nii.gz"
  }

  /** The directory `bids_dir/sub-S/ses-T/type` the file goes to. */
  function BidsOutDir(bidsDir: string, subject: string, session: string, meta: ScanMeta): string
  {
    PathJoin(PathJoin(PathJoin(bidsDir, "sub-" + subject), "ses-" + session), meta.kind)
  }

  /** `bids_fpath = os.path.join(bids_dir, bids_subject, bids_session, bids_type, bids_fname)`. */
  function BidsFpath(bidsDir: string, subject: string, session: string, meta: ScanMeta): string
  {
    PathJoin(BidsOutDir(bidsDir, subject, session, meta), BidsFname(subject, session, meta))
  }

  /** The work item of one scan of subject number `subject` and session number `session`. */
  function ItemFor(oxygenDir: string, bidsDir: string, subject: string, session: string, scan: ScanEntry): WorkItem
  {
    WorkItem(PathJoin(oxygenDir, scan.seriesDir), BidsFpath(bidsDir, subject, session, scan.meta))
  }

  /** Every part that goes into the file name is plain. */
  predicate PlainParts(subject: string, session: string, meta: ScanMeta)
  {
    Plain(subject) && Plain(session) && Plain(meta.description) && Plain(meta.run) && Plain(meta.modality)
  }

  lemma StemPlain(subject: string, session: string, meta: ScanMeta)
    requires PlainParts(subject, session, meta)
    ensures Plain(BidsStem(subject, session, meta)) && BidsStem(subject, session, meta) != []
  {
  }

  /** `bids_dir/sub-S/ses-T/type` adds exactly three segments to `bids_dir`. */
  lemma OutDirSegments(bidsDir: string, subject: string, session: string, meta: ScanMeta)
    requires '/' !in subject && '/' !in session && ValidName(meta.kind)
    ensures Split(BidsOutDir(bidsDir, subject, session, meta), '/') ==
      ParentSegments(bidsDir) + ["sub-" + subject, "ses-" + session, meta.kind]
    ensures BidsOutDir(bidsDir, subject, session, meta) != [] && Last(BidsOutDir(bidsDir, subject, session, meta)) != '/'
  {
    var sub := "sub-" + subject;
    var ses := "ses-" + session;
    PrefixedName("sub-", subject);
    PrefixedName("ses-", session);
    JoinThreeNames(bidsDir, sub, ses, meta.kind);
  }

  lemma PrefixedName(prefix: string, x: string)
    requires prefix != [] && '/' !in prefix && '/' !in x
    ensures ValidName(prefix + x)
  {
  }

  /**
   * The destination of a work item, read back the way the conversion loop reads it: its file name is
   * `bids_fname`, `out_fname` (the name up to its first '.') is the stem without `.nii.gz`, and
   * `out_bdir` (the path without its last segment) is `bids_dir/sub-S/ses-T/type`.
   */
  lemma BidsFpathParts(bidsDir: string, subject: string, session: string, meta: ScanMeta)
    requires PlainParts(subject, session, meta) && ValidName(meta.kind)
    ensures Basename(BidsFpath(bidsDir, subject, session, meta)) == BidsFname(subject, session, meta)
    ensures Stem(BidsFpath(bidsDir, subject, session, meta)) == BidsStem(subject, session, meta)
    ensures DirPart(BidsFpath(bidsDir, subject, session, meta)) == BidsOutDir(bidsDir, subject, session, meta)
    ensures Split(BidsOutDir(bidsDir, subject, session, meta), '/') ==
      ParentSegments(bidsDir) + ["sub-" + subject, "ses-" + session, meta.kind]
  {
    var stem := BidsStem(subject, session, meta);
    StemPlain(subject, session, meta);
    FnameParts(stem);
    var dir := BidsOutDir(bidsDir, subject, session, meta);
    OutDirSegments(bidsDir, subject, session, meta);
    JoinNameSegments(dir, stem + ".nii.gz");
    DirPartOfJoin(dir, stem + ".nii.gz");
  }

  /** How a scan becomes a work item, given its subject and session numbers. */
  type ItemMaker = (string, string, ScanEntry) -> WorkItem

  function Maker(oxygenDir: string, bidsDir: string): ItemMaker
  {
    (subject: string, session: string, scan: ScanEntry) => ItemFor(oxygenDir, bidsDir, subject, session, scan)
  }

  /** The items of the scans listed by `keys`, in that order. */
  function ScanItems(make: ItemMaker, subject: string, session: string, scans: Dict<string, ScanEntry>,
                     keys: seq<string>): seq<WorkItem>
  {
    if keys == [] then []
    else if keys[0] !in scans.entries then ScanItems(make, subject, session, scans, keys[1..])
    else [make(subject, session, scans.entries[keys[0]])] + ScanItems(make, subject, session, scans, keys[1..])
  }

  /** The items of the sessions listed by `keys`, session by session. */
  function SessionItems(make: ItemMaker, subject: string, sessions: Dict<string, SessionEntry>, keys: seq<string>)
    : seq<WorkItem>
  {
    if keys == [] then []
    else if keys[0] !in sessions.entries then SessionItems(make, subject, sessions, keys[1..])
    else
      var session := sessions.entries[keys[0]];
      ScanItems(make, subject, session.bidsSession, session.scans, session.scans.keys) +
      SessionItems(make, subject, sessions, keys[1..])
  }

  /** The items of the subjects listed by `keys`, subject by subject. */
  function SubjectItems(make: ItemMaker, m: BidsMapping, keys: seq<string>): seq<WorkItem>
  {
    if keys == [] then []
    else if keys[0] !in m.entries then SubjectItems(make, m, keys[1..])
    else
      var subject := m.entries[keys[0]];
      SessionItems(make, subject.bidsSubject, subject.sessions, subject.sessions.keys) + SubjectItems(make, m, keys[1..])
  }

  /**
   * `exec_list`: every scan of the mapping, in subject, session and scan key order. (The loops
   * walk each dictionary's own keys, so the lookups the definitions guard cannot miss.)
   */
  function ExecList(oxygenDir: string, bidsDir: string, m: BidsMapping): seq<WorkItem>
  {
    SubjectItems(Maker(oxygenDir, bidsDir), m, m.keys)
  }

  /** The scan `c` of session `t` of subject `s` is in the mapping. */
  predicate HasScan(m: BidsMapping, s: string, t: string, c: string)
  {
    s in m.entries && t in m.entries[s].sessions.entries && c in m.entries[s].sessions.entries[t].scans.entries
  }

  /** The work item the mapping's scan `c` of session `t` of subject `s` gives. */
  function ItemAt(make: ItemMaker, m: BidsMapping, s: string, t: string, c: string): WorkItem
    requires HasScan(m, s, t, c)
  {
    var session := m.entries[s].sessions.entries[t];
    make(m.entries[s].bidsSubject, session.bidsSession, session.scans.entries[c])
  }

  /** The work list of an empty mapping (as with a mapping guide) is empty. */
  lemma EmptyExecList(oxygenDir: string, bidsDir: string)
    ensures ExecList(oxygenDir, bidsDir, Empty()) == []
  {
  }

  /** Every scan of the mapping has its item in the work list, and the work list holds nothing else. */
  lemma ExecListCoverage(oxygenDir: string, bidsDir: string, m: BidsMapping)
    requires WellFormed(m)
    ensures forall s, t, c :: HasScan(m, s, t, c) ==> ItemAt(Maker(oxygenDir, bidsDir), m, s, t, c) in ExecList(oxygenDir, bidsDir, m)
    ensures forall w :: w in ExecList(oxygenDir, bidsDir, m) ==>
      exists s, t, c :: HasScan(m, s, t, c) && w == ItemAt(Maker(oxygenDir, bidsDir), m, s, t, c)
  {
    SubjectItemsCoverage(Maker(oxygenDir, bidsDir), m, m.keys);
  }

  lemma {:induction false} SubjectItemsCoverage(make: ItemMaker, m: BidsMapping, keys: seq<string>)
    requires WellFormed(m)
    ensures forall s, t, c :: s in keys && HasScan(m, s, t, c) ==> ItemAt(make, m, s, t, c) in SubjectItems(make, m, keys)
    ensures forall w :: w in SubjectItems(make, m, keys) ==>
      exists s, t, c :: s in keys && HasScan(m, s, t, c) && w == ItemAt(make, m, s, t, c)
    decreases |keys|
  {
    if keys != [] {
      var s := keys[0];
      SubjectItemsCoverage(make, m, keys[1..]);
      assert forall x :: x in keys[1..] ==> x in keys;
      var items := SubjectItems(make, m, keys);
      var rest := SubjectItems(make, m, keys[1..]);
      if s in m.entries {
        var subject := m.entries[s];
        SessionItemsCoverage(make, m, s, subject.sessions.keys);
        var first := ItemsOfSessions(make, m, s, subject.sessions.keys);
        assert items == first + rest;
        forall w | w in items ensures exists s', t, c :: s' in keys && HasScan(m, s', t, c) && w == ItemAt(make, m, s', t, c) {
          if w in first {
            var t, c :| t in subject.sessions.keys && HasScan(m, s, t, c) && w == ItemAt(make, m, s, t, c);
          } else {
            var s', t, c :| s' in keys[1..] && HasScan(m, s', t, c) && w == ItemAt(make, m, s', t, c);
          }
        }
        forall s', t, c | s' in keys && HasScan(m, s', t, c)
          ensures ItemAt(make, m, s', t, c) in SubjectItems(make, m, keys)
        {
          if s' != s {
            assert s' in keys[1..];
          }
        }
      } else {
        assert items == rest;
        forall s', t, c | s' in keys && HasScan(m, s', t, c)
          ensures ItemAt(make, m, s', t, c) in SubjectItems(make, m, keys)
        {
          assert s' in keys[1..];
        }
      }
    }
  }

  /** The items of the sessions `keys` of subject `s`. */
  function ItemsOfSessions(make: ItemMaker, m: BidsMapping, s: string, keys: seq<string>): seq<WorkItem>
    requires s in m.entries
  {
    SessionItems(make, m.entries[s].bidsSubject, m.entries[s].sessions, keys)
  }

  /** The items of the scans `keys` of session `t` of subject `s`. */
  function ItemsOfScans(make: ItemMaker, m: BidsMapping, s: string, t: string, keys: seq<string>): seq<WorkItem>
    requires s in m.entries && t in m.entries[s].sessions.entries
  {
    var session := m.entries[s].sessions.entries[t];
    ScanItems(make, m.entries[s].bidsSubject, session.bidsSession, session.scans, keys)
  }

  lemma {:induction false} SessionItemsCoverage(make: ItemMaker, m: BidsMapping, s: string, keys: seq<string>)
    requires WellFormed(m) && s in m.entries
    ensures forall t, c :: t in keys && HasScan(m, s, t, c) ==> ItemAt(make, m, s, t, c) in ItemsOfSessions(make, m, s, keys)
    ensures forall w :: w in ItemsOfSessions(make, m, s, keys) ==>
              exists t, c :: t in keys && HasScan(m, s, t, c) && w == ItemAt(make, m, s, t, c)
    decreases |keys|
  {
    if keys != [] {
      var t := keys[0];
      SessionItemsCoverage(make, m, s, keys[1..]);
      var items := ItemsOfSessions(make, m, s, keys);
      var rest := ItemsOfSessions(make, m, s, keys[1..]);
      if t in m.entries[s].sessions.entries {
        ScanItemsCoverage(make, m, s, t);
        var first := ItemsOfScans(make, m, s, t, m.entries[s].sessions.entries[t].scans.keys);
        assert items == first + rest;
        forall w | w in items ensures exists t', c :: t' in keys && HasScan(m, s, t', c) && w == ItemAt(make, m, s, t', c) {
          if w in first {
            var c :| HasScan(m, s, t, c) && w == ItemAt(make, m, s, t, c);
            assert t in keys;
          } else {
            var t', c :| t' in keys[1..] && HasScan(m, s, t', c) && w == ItemAt(make, m, s, t', c);
            assert t' in keys;
          }
        }
        forall t', c | t' in keys && HasScan(m, s, t', c) ensures ItemAt(make, m, s, t', c) in items {
          if t' != t {
            assert t' in keys[1..];
          }
        }
      } else {
        assert items == rest;
        forall w | w in items ensures exists t', c :: t' in keys && HasScan(m, s, t', c) && w == ItemAt(make, m, s, t', c) {
          var t', c :| t' in keys[1..] && HasScan(m, s, t', c) && w == ItemAt(make, m, s, t', c);
          assert t' in keys;
        }
        forall t', c | t' in keys && HasScan(m, s, t', c) ensures ItemAt(make, m, s, t', c) in items {
          assert t' in keys[1..];
        }
      }
    }
  }

  /** The items of one session are exactly the items of its scans. */
  lemma ScanItemsCoverage(make: ItemMaker, m: BidsMapping, s: string, t: string)
    requires WellFormed(m) && s in m.entries && t in m.entries[s].sessions.entries
    ensures forall c :: HasScan(m, s, t, c) ==>
              ItemAt(make, m, s, t, c) in ItemsOfScans(make, m, s, t, m.entries[s].sessions.entries[t].scans.keys)
    ensures forall w :: w in ItemsOfScans(make, m, s, t, m.entries[s].sessions.entries[t].scans.keys) ==>
              exists c :: HasScan(m, s, t, c) && w == ItemAt(make, m, s, t, c)
  {
    var session := m.entries[s].sessions.entries[t];
    assert session.scans.Valid();
    ScanKeysCoverage(make, m, s, t, session.scans.keys);
  }

  lemma {:induction false} ScanKeysCoverage(make: ItemMaker, m: BidsMapping, s: string, t: string, keys: seq<string>)
    requires s in m.entries && t in m.entries[s].sessions.entries
    ensures forall c :: c in keys && HasScan(m, s, t, c) ==> ItemAt(make, m, s, t, c) in ItemsOfScans(make, m, s, t, keys)
    ensures forall w :: w in ItemsOfScans(make, m, s, t, keys) ==>
              exists c :: c in keys && HasScan(m, s, t, c) && w == ItemAt(make, m, s, t, c)
    decreases |keys|
  {
    if keys != [] {
      ScanKeysCoverage(make, m, s, t, keys[1..]);
      var items := ItemsOfScans(make, m, s, t, keys);
      var rest := ItemsOfScans(make, m, s, t, keys[1..]);
      var c0 := keys[0];
      if HasScan(m, s, t, c0) {
        assert items == [ItemAt(make, m, s, t, c0)] + rest;
        forall w | w in items ensures exists c :: c in keys && HasScan(m, s, t, c) && w == ItemAt(make, m, s, t, c) {
          if w != ItemAt(make, m, s, t, c0) {
            var c :| c in keys[1..] && HasScan(m, s, t, c) && w == ItemAt(make, m, s, t, c);
            assert c in keys;
          }
        }
      } else {
        assert items == rest;
        forall w | w in items ensures exists c :: c in keys && HasScan(m, s, t, c) && w == ItemAt(make, m, s, t, c) {
          var c :| c in keys[1..] && HasScan(m, s, t, c) && w == ItemAt(make, m, s, t, c);
          assert c in keys;
        }
      }
      forall c | c in keys && HasScan(m, s, t, c) ensures ItemAt(make, m, s, t, c) in items {
        if c != c0 {
          assert c in keys[1..];
        }
      }
    }
  }

  /** The subject loop (converters.py, `for subject in mapping.keys()`): `exec_list` grows subject by subject. */
  method BuildExecList(oxygenDir: string, bidsDir: string, m: BidsMapping) returns (execList: seq<WorkItem>)
    requires WellFormed(m)
    ensures execList == ExecList(oxygenDir, bidsDir, m)
  {
    ghost var make := Maker(oxygenDir, bidsDir);
    execList := [];
    var keys := m.keys;
    var i := 0;
    while i < |keys|
      invariant 0 <= i <= |keys|
      invariant execList + SubjectItems(make, m, keys[i..]) == SubjectItems(make, m, keys)
    {
      SubjectWellFormed(m, i);
      var subject := m.entries[keys[i]];
      ghost var before := execList;
      execList := AppendSessions(oxygenDir, bidsDir, subject.bidsSubject, subject.sessions, execList);
      SubjectStep(make, m, keys, i, before, execList);
      i := i + 1;
    }
    assert keys[i..] == [];
  }

  /** Each listed subject of a well-formed mapping has an entry whose sessions are well formed. */
  lemma SubjectWellFormed(m: BidsMapping, i: nat)
    requires WellFormed(m) && i < |m.keys|
    ensures m.keys[i] in m.entries && SessionsWellFormed(m.entries[m.keys[i]].sessions)
  {
  }

  /** One step of the subject loop: appending key `i`'s items moves the loop on to key `i + 1`. */
  lemma SubjectStep(make: ItemMaker, m: BidsMapping, keys: seq<string>, i: nat, before: seq<WorkItem>,
                    after: seq<WorkItem>)
    requires i < |keys| && keys[i] in m.entries
    requires before + SubjectItems(make, m, keys[i..]) == SubjectItems(make, m, keys)
    requires after == before + SessionItems(make, m.entries[keys[i]].bidsSubject, m.entries[keys[i]].sessions,
                                            m.entries[keys[i]].sessions.keys)
    ensures after + SubjectItems(make, m, keys[i + 1..]) == SubjectItems(make, m, keys)
  {
    assert keys[i..][1..] == keys[i + 1..];
    var subject := m.entries[keys[i]];
    AppendAssoc(before, SessionItems(make, subject.bidsSubject, subject.sessions, subject.sessions.keys),
                SubjectItems(make, m, keys[i + 1..]));
  }

  /** The session loop of one subject: appends the items of each of its sessions in key order. */
  method AppendSessions(oxygenDir: string, bidsDir: string, subject: string, sessions: Dict<string, SessionEntry>,
                        execList: seq<WorkItem>) returns (r: seq<WorkItem>)
    requires SessionsWellFormed(sessions)
    ensures r == execList + SessionItems(Maker(oxygenDir, bidsDir), subject, sessions, sessions.keys)
  {
    ghost var make := Maker(oxygenDir, bidsDir);
    r := execList;
    var keys := sessions.keys;
    var j := 0;
    while j < |keys|
      invariant 0 <= j <= |keys|
      invariant r + SessionItems(make, subject, sessions, keys[j..]) == execList + SessionItems(make, subject, sessions, keys)
    {
      assert keys[j] in sessions.entries;
      var session := sessions.entries[keys[j]];
      ghost var items := ScanItems(make, subject, session.bidsSession, session.scans, session.scans.keys);
      ghost var later := SessionItems(make, subject, sessions, keys[j + 1..]);
      SessionItemsStep(make, subject, sessions, keys, j);
      ghost var before := r;
      r := AppendScans(oxygenDir, bidsDir, subject, session.bidsSession, session.scans, r);
      AppendAssoc(before, items, later);
      j := j + 1;
    }
    assert keys[j..] == [];
  }

  /** One step of the session loop: the items from key `j` on are key `j`'s items, then the rest. */
  lemma SessionItemsStep(make: ItemMaker, subject: string, sessions: Dict<string, SessionEntry>, keys: seq<string>, j: nat)
    requires j < |keys| && keys[j] in sessions.entries
    ensures SessionItems(make, subject, sessions, keys[j..]) ==
      ScanItems(make, subject, sessions.entries[keys[j]].bidsSession, sessions.entries[keys[j]].scans,
                sessions.entries[keys[j]].scans.keys) +
      SessionItems(make, subject, sessions, keys[j + 1..])
  {
    assert keys[j..][1..] == keys[j + 1..];
  }

  /** The scan loop of one session: appends one `(series_dir, bids_fpath)` item per scan. */
  method AppendScans(oxygenDir: string, bidsDir: string, subject: string, session: string, scans: Dict<string, ScanEntry>,
                     execList: seq<WorkItem>) returns (r: seq<WorkItem>)
    requires scans.Valid()
    ensures r == execList + ScanItems(Maker(oxygenDir, bidsDir), subject, session, scans, scans.keys)
  {
    ghost var make := Maker(oxygenDir, bidsDir);
    r := execList;
    var keys := scans.keys;
    var k := 0;
    while k < |keys|
      invariant 0 <= k <= |keys|
      invariant r + ScanItems(make, subject, session, scans, keys[k..]) == execList + ScanItems(make, subject, session, scans, keys)
    {
      assert keys[k] in scans.entries;
      var item := MakeItem(oxygenDir, bidsDir, subject, session, scans.entries[keys[k]]);
      ghost var later := ScanItems(make, subject, session, scans, keys[k + 1..]);
      ScanItemsStep(make, subject, session, scans, keys, k);
      AppendAssoc(r, [item], later);
      r := r + [item];
      k := k + 1;
    }
    assert keys[k..] == [];
  }

  /** One step of the scan loop: the items from key `k` on are key `k`'s item, then the rest. */
  lemma ScanItemsStep(make: ItemMaker, subject: string, session: string, scans: Dict<string, ScanEntry>,
                      keys: seq<string>, k: nat)
    requires k < |keys| && keys[k] in scans.entries
    ensures ScanItems(make, subject, session, scans, keys[k..]) ==
      [make(subject, session, scans.entries[keys[k]])] + ScanItems(make, subject, session, scans, keys[k + 1..])
  {
    assert keys[k..][1..] == keys[k + 1..];
  }

  /** The body of the scan loop: the series directory and the BIDS path of one scan. */
  method MakeItem(oxygenDir: string, bidsDir: string, subject: string, session: string, scan: ScanEntry)
    returns (item: WorkItem)
    ensures item == ItemFor(oxygenDir, bidsDir, subject, session, scan)
    ensures item == Maker(oxygenDir, bidsDir)(subject, session, scan)
  {
    var seriesDir := PathJoin(oxygenDir, scan.seriesDir);
    var bidsSubject := "sub-" + subject;
    var bidsSession := "ses-" + session;
    var bidsRun := "run-" + scan.meta.run;
    var bidsFname := bidsSubject + "_" + bidsSession + "_" + scan.meta.description + "_" + bidsRun;
    if scan.meta.modality != "" {
      bidsFname := bidsFname + "_" + scan.meta.modality;
    }
    bidsFname := bidsFname + ".nii.gz";
    var bidsFpath := PathJoin(PathJoin(PathJoin(PathJoin(bidsDir, bidsSubject), bidsSession), scan.meta.kind), bidsFname);
    item := WorkItem(seriesDir, bidsFpath);
  }
}
