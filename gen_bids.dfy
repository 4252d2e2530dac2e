/**
 * Writing the mapping file at the end of `gen_bids.py`: the mapping is dumped with sorted keys
 * and read back into ordered dictionaries, so every level comes out in key order; the subjects
 * are then re-ordered by their BIDS subject number, keeping the first subject for each number.
 * The JSON text itself (indentation, separators) is not modelled.
 */
module GenBids {
  import opened Wrappers
  import opened Ordering
  import opened Dicts
  import opened Mapping

  // ---------------------------------------------------------------------------
  // json.dumps(..., sort_keys=True) read back with object_pairs_hook=OrderedDict
  // ---------------------------------------------------------------------------

  /** A dictionary with its keys in ascending order and each value passed through `f`. */
  function SortedKeys<V>(d: Dict<string, V>, f: V -> V): (r: Dict<string, V>)
    ensures d.Valid() ==> r.Valid()
    ensures Sorted(r.keys) && multiset(r.keys) == multiset(d.keys)
    ensures r.entries.Keys == d.entries.Keys
    ensures forall k :: k in d.entries ==> r.entries[k] == f(d.entries[k])
  {
    var r := Dict(Sort(d.keys), map k | k in d.entries :: f(d.entries[k]));
    assert d.Valid() ==> r.Valid() by {
      if d.Valid() {
        SortDistinct(d.keys);
      }
    }
    r
  }

  function Same<V>(): V -> V
  {
    (v: V) => v
  }

  /** A scan entry with its scanner metadata (when present) in key order. */
  function SortScan(e: ScanEntry): (r: ScanEntry)
    ensures r.(scannerMeta := e.scannerMeta) == e
    ensures r.scannerMeta.Some? <==> e.scannerMeta.Some?
    ensures r.scannerMeta.Some? ==> Sorted(r.scannerMeta.value.keys)
                                    && r.scannerMeta.value.entries == e.scannerMeta.value.entries
  {
    match e.scannerMeta
    case None => e
    case Some(meta) => e.(scannerMeta := Some(SortedKeys(meta, Same())))
  }

  /** A session entry with its scans in key order, each scan sorted in turn. */
  function SortSession(s: SessionEntry): (r: SessionEntry)
    ensures r.bidsSession == s.bidsSession && r.oxygenFile == s.oxygenFile
    ensures Sorted(r.scans.keys) && r.scans.entries.Keys == s.scans.entries.Keys
    ensures forall c :: c in s.scans.entries ==> r.scans.entries[c] == SortScan(s.scans.entries[c])
    ensures s.scans.Valid() ==> r.scans.Valid()
  {
    s.(scans := SortedKeys(s.scans, SortScan))
  }

  /** A subject entry with its sessions in key order, each session sorted in turn. */
  function SortSubject(s: SubjectEntry): (r: SubjectEntry)
    ensures r.bidsSubject == s.bidsSubject
    ensures Sorted(r.sessions.keys) && r.sessions.entries.Keys == s.sessions.entries.Keys
    ensures forall t :: t in s.sessions.entries ==> r.sessions.entries[t] == SortSession(s.sessions.entries[t])
    ensures SessionsWellFormed(s.sessions) ==> SessionsWellFormed(r.sessions)
  {
    s.(sessions := SortedKeys(s.sessions, SortSession))
  }

  /** `sorted_by_key`: the whole mapping with every level's keys in ascending order. */
  function SortMapping(m: BidsMapping): (r: BidsMapping)
    ensures Sorted(r.keys) && r.entries.Keys == m.entries.Keys
    ensures forall k :: k in m.entries ==> r.entries[k] == SortSubject(m.entries[k])
    ensures WellFormed(m) ==> WellFormed(r)
  {
    SortedKeys(m, SortSubject)
  }

  /** Every dictionary nested in a subject entry lists its keys in ascending order. */
  predicate SubjectSorted(s: SubjectEntry)
  {
    Sorted(s.sessions.keys)
    && forall t :: t in s.sessions.entries ==>
         Sorted(s.sessions.entries[t].scans.keys)
         && forall c :: c in s.sessions.entries[t].scans.entries ==>
              ScanSorted(s.sessions.entries[t].scans.entries[c])
  }

  predicate ScanSorted(e: ScanEntry)
  {
    e.scannerMeta.Some? ==> Sorted(e.scannerMeta.value.keys)
  }

  /** After the round trip every nested level is in key order. */
  lemma SortSubjectSorted(s: SubjectEntry)
    ensures SubjectSorted(SortSubject(s))
  {
    var r := SortSubject(s);
    forall t | t in r.sessions.entries
      ensures Sorted(r.sessions.entries[t].scans.keys)
      ensures forall c :: c in r.sessions.entries[t].scans.entries ==>
                ScanSorted(r.sessions.entries[t].scans.entries[c])
    {
      var ses := s.sessions.entries[t];
      assert r.sessions.entries[t] == SortSession(ses);
      forall c | c in r.sessions.entries[t].scans.entries
        ensures ScanSorted(r.sessions.entries[t].scans.entries[c])
      {
        assert r.sessions.entries[t].scans.entries[c] == SortScan(ses.scans.entries[c]);
      }
    }
  }

  // ---------------------------------------------------------------------------
  // Re-ordering by bids_subject
  // ---------------------------------------------------------------------------

  /** `d[k]["bids_subject"]` (the empty string for a key without an entry, which never occurs). */
  function BidsOf(d: BidsMapping, k: string): string
  {
    if k in d.entries then d.entries[k].bidsSubject else ""
  }

  /** `[d[key]["bids_subject"] for key in d.keys()]`. */
  function BidsIds(d: BidsMapping): (ids: seq<string>)
    ensures |ids| == |d.keys|
    ensures forall i :: 0 <= i < |d.keys| ==> ids[i] == BidsOf(d, d.keys[i])
  {
    seq(|d.keys|, i requires 0 <= i < |d.keys| => BidsOf(d, d.keys[i]))
  }

  /** The position of the first key at or after `i` whose subject number is `id`. */
  function FirstFrom(d: BidsMapping, id: string, i: nat): (r: Option<nat>)
    ensures r.Some? ==> i <= r.value < |d.keys| && BidsOf(d, d.keys[r.value]) == id
    ensures r.Some? ==> forall j :: i <= j < r.value ==> BidsOf(d, d.keys[j]) != id
    ensures r.None? ==> forall j :: i <= j < |d.keys| ==> BidsOf(d, d.keys[j]) != id
    decreases |d.keys| - i
  {
    if i >= |d.keys| then None
    else if BidsOf(d, d.keys[i]) == id then Some(i)
    else FirstFrom(d, id, i + 1)
  }

  /** The first subject key, in the dictionary's order, whose subject number is `id`. */
  function FirstKey(d: BidsMapping, id: string): Option<string>
  {
    match FirstFrom(d, id, 0)
    case None => None
    case Some(i) => Some(d.keys[i])
  }

  /** One pass of the outer loop: the first subject with number `id` is copied into `acc`. */
  function Place(d: BidsMapping, id: string, acc: BidsMapping): BidsMapping
    requires KeysPresent(d)
  {
    match FirstFrom(d, id, 0)
    case None => acc
    case Some(i) => acc.Put(d.keys[i], d.entries[d.keys[i]])
  }

  /** The outer loop over `ids`, starting from `acc`. */
  function Placed(d: BidsMapping, ids: seq<string>, acc: BidsMapping): BidsMapping
    requires KeysPresent(d)
  {
    if ids == [] then acc else Placed(d, ids[1..], Place(d, ids[0], acc))
  }

  /** `sorted_by_bids`, computed from `sorted_by_key`. */
  function ByBids(d: BidsMapping): BidsMapping
    requires KeysPresent(d)
  {
    Placed(d, Sort(BidsIds(d)), Empty())
  }

  /** The nested loops of `gen_bids.py`: for each sorted subject number, copy the first match and stop. */
  method Reorder(sortedByKey: BidsMapping) returns (sortedByBids: BidsMapping)
    requires KeysPresent(sortedByKey)
    ensures sortedByBids == ByBids(sortedByKey)
  {
    var bidsIds := Sort(BidsIds(sortedByKey));
    sortedByBids := Empty();
    var n := 0;
    while n < |bidsIds|
      invariant 0 <= n <= |bidsIds|
      invariant ByBids(sortedByKey) == Placed(sortedByKey, bidsIds[n..], sortedByBids)
    {
      var bidsId := bidsIds[n];
      ghost var before := sortedByBids;
      var j := 0;
      while j < |sortedByKey.keys|
        invariant 0 <= j <= |sortedByKey.keys|
        invariant FirstFrom(sortedByKey, bidsId, j) == FirstFrom(sortedByKey, bidsId, 0)
        invariant sortedByBids == before
      {
        var subject := sortedByKey.keys[j];
        if sortedByKey.entries[subject].bidsSubject == bidsId {
          sortedByBids := sortedByBids.Put(subject, sortedByKey.entries[subject]);
          break;
        }
        j := j + 1;
      }
      assert sortedByBids == Place(sortedByKey, bidsId, before);
      assert bidsIds[n..][1..] == bidsIds[n + 1..];
      n := n + 1;
    }
  }

  /**
   * What the outer loop keeps: a valid dictionary of entries copied from `d`, each the first of its
   * subject number, listed in strictly ascending order of subject number.
   */
  ghost predicate Kept(d: BidsMapping, acc: BidsMapping)
  {
    acc.Valid()
    && (forall k :: k in acc.entries ==>
          k in d.entries && acc.entries[k] == d.entries[k] && FirstKey(d, BidsOf(d, k)) == Some(k))
    && (forall i, j :: 0 <= i < j < |acc.keys| ==> StrLt(BidsOf(d, acc.keys[i]), BidsOf(d, acc.keys[j])))
  }

  /** Placing a number no smaller than any already placed keeps the order. */
  lemma PlaceKept(d: BidsMapping, id: string, acc: BidsMapping)
    requires KeysPresent(d) && Kept(d, acc)
    requires forall k :: k in acc.entries ==> StrLe(BidsOf(d, k), id)
    ensures Kept(d, Place(d, id, acc))
    ensures forall k :: k in Place(d, id, acc).entries ==> StrLe(BidsOf(d, k), id)
  {
    var f := FirstFrom(d, id, 0);
    if f.Some? {
      var k := d.keys[f.value];
      var r := Place(d, id, acc);
      assert FirstKey(d, id) == Some(k);
      if k !in acc.entries {
        forall i | 0 <= i < |acc.keys| ensures StrLt(BidsOf(d, acc.keys[i]), id) {
          assert acc.keys[i] in acc.entries;
        }
        assert r.keys == acc.keys + [k];
        forall i, j | 0 <= i < j < |r.keys| ensures StrLt(BidsOf(d, r.keys[i]), BidsOf(d, r.keys[j])) {
          if j == |acc.keys| {
            assert r.keys[i] == acc.keys[i];
          } else {
            assert r.keys[i] == acc.keys[i] && r.keys[j] == acc.keys[j];
          }
        }
      }
    }
  }

  lemma {:induction false} PlacedKept(d: BidsMapping, ids: seq<string>, acc: BidsMapping)
    requires KeysPresent(d) && Sorted(ids) && Kept(d, acc)
    requires ids != [] ==> forall k :: k in acc.entries ==> StrLe(BidsOf(d, k), ids[0])
    ensures Kept(d, Placed(d, ids, acc))
    decreases |ids|
  {
    if ids != [] {
      PlaceKept(d, ids[0], acc);
      var next := Place(d, ids[0], acc);
      if |ids| > 1 {
        forall k | k in next.entries ensures StrLe(BidsOf(d, k), ids[1]) {
          StrLeTransitive(BidsOf(d, k), ids[0], ids[1]);
        }
      }
      PlacedKept(d, ids[1..], next);
    }
  }

  /** A key ends up in the result exactly when it is the first match of one of the numbers. */
  lemma {:induction false} PlacedKeys(d: BidsMapping, ids: seq<string>, acc: BidsMapping)
    requires KeysPresent(d)
    ensures forall k :: k in Placed(d, ids, acc).entries <==>
              (k in acc.entries || exists j :: 0 <= j < |ids| && FirstKey(d, ids[j]) == Some(k))
    decreases |ids|
  {
    if ids != [] {
      PlacedKeys(d, ids[1..], Place(d, ids[0], acc));
      forall k ensures (exists j :: 0 <= j < |ids| && FirstKey(d, ids[j]) == Some(k)) <==>
                       (FirstKey(d, ids[0]) == Some(k)
                        || exists j :: 0 <= j < |ids[1..]| && FirstKey(d, ids[1..][j]) == Some(k)) {
        if exists j :: 0 <= j < |ids| && FirstKey(d, ids[j]) == Some(k) {
          var j :| 0 <= j < |ids| && FirstKey(d, ids[j]) == Some(k);
          if j > 0 {
            assert ids[1..][j - 1] == ids[j];
          }
        }
        if exists j :: 0 <= j < |ids[1..]| && FirstKey(d, ids[1..][j]) == Some(k) {
          var j :| 0 <= j < |ids[1..]| && FirstKey(d, ids[1..][j]) == Some(k);
          assert ids[j + 1] == ids[1..][j];
        }
      }
    }
  }

  /** The output lists each kept subject once, copied unchanged, in strictly ascending subject number. */
  lemma ByBidsOrdered(d: BidsMapping)
    requires d.Valid()
    ensures ByBids(d).Valid()
    ensures forall k :: k in ByBids(d).entries ==> k in d.entries && ByBids(d).entries[k] == d.entries[k]
    ensures forall i, j :: 0 <= i < j < |ByBids(d).keys| ==>
              StrLt(BidsOf(d, ByBids(d).keys[i]), BidsOf(d, ByBids(d).keys[j]))
  {
    PlacedKept(d, Sort(BidsIds(d)), Empty());
  }

  /** The first key holding number `BidsOf(d, d.keys[i])` is `d.keys[i]` exactly when no earlier key holds it. */
  lemma FirstKeyAt(d: BidsMapping, i: int)
    requires d.Valid() && 0 <= i < |d.keys|
    ensures FirstKey(d, BidsOf(d, d.keys[i])) == Some(d.keys[i]) <==>
              forall j :: 0 <= j < i ==> BidsOf(d, d.keys[j]) != BidsOf(d, d.keys[i])
  {
    var f := FirstFrom(d, BidsOf(d, d.keys[i]), 0);
    assert f.Some?;
    if d.keys[f.value] == d.keys[i] {
      assert f.value == i;
    }
  }

  /**
   * A subject is kept exactly when no subject before it (in the input's key order) has the same
   * number: of subjects sharing a number only the first survives the `break`.
   */
  lemma ByBidsKeepsFirst(d: BidsMapping)
    requires d.Valid()
    ensures forall i :: 0 <= i < |d.keys| ==>
              (d.keys[i] in ByBids(d).entries <==>
               forall j :: 0 <= j < i ==> BidsOf(d, d.keys[j]) != BidsOf(d, d.keys[i]))
  {
    var ids := Sort(BidsIds(d));
    PlacedKeys(d, ids, Empty());
    forall i | 0 <= i < |d.keys|
      ensures d.keys[i] in ByBids(d).entries <==>
              forall j :: 0 <= j < i ==> BidsOf(d, d.keys[j]) != BidsOf(d, d.keys[i])
    {
      var k := d.keys[i];
      FirstKeyAt(d, i);
      if exists j :: 0 <= j < |ids| && FirstKey(d, ids[j]) == Some(k) {
        var j :| 0 <= j < |ids| && FirstKey(d, ids[j]) == Some(k);
        var f := FirstFrom(d, ids[j], 0);
        assert BidsOf(d, k) == ids[j];
      }
      if FirstKey(d, BidsOf(d, k)) == Some(k) {
        assert BidsIds(d)[i] == BidsOf(d, k);
        assert BidsOf(d, k) in multiset(BidsIds(d));
        assert BidsOf(d, k) in multiset(ids);
        var j :| 0 <= j < |ids| && ids[j] == BidsOf(d, k);
      }
    }
  }

  /** With distinct subject numbers no subject is dropped. */
  lemma ByBidsDistinct(d: BidsMapping)
    requires d.Valid()
    requires forall i, j :: 0 <= i < j < |d.keys| ==> BidsOf(d, d.keys[i]) != BidsOf(d, d.keys[j])
    ensures ByBids(d).entries.Keys == d.entries.Keys
  {
    ByBidsKeepsFirst(d);
    ByBidsOrdered(d);
    forall k | k in d.entries ensures k in ByBids(d).entries {
      var i :| 0 <= i < |d.keys| && d.keys[i] == k;
    }
  }

  /** The mapping file's subject order: `ByBids` over the key-sorted round trip of the mapping. */
  function MappingFile(m: BidsMapping): BidsMapping
    requires m.Valid()
  {
    ByBids(SortMapping(m))
  }

  /** In a strictly ascending key list, "earlier" and "smaller" agree. */
  lemma EarlierIsSmaller(keys: seq<string>, i: int, j: int)
    requires StrictlySorted(keys) && 0 <= i < |keys| && 0 <= j < |keys|
    ensures j < i <==> StrLt(keys[j], keys[i])
  {
    if j == i {
      StrLtIrreflexive(keys[i]);
    } else if j > i {
      StrLtAsymmetric(keys[i], keys[j]);
    }
  }

  /** The round trip keeps every subject number. */
  lemma SortMappingBids(m: BidsMapping)
    ensures forall k :: BidsOf(SortMapping(m), k) == BidsOf(m, k)
  {
  }

  /**
   * The mapping file of `gen_bids.py`, stated on the mapping itself: subjects in strictly ascending
   * subject number, each one sorted at every level and otherwise unchanged.
   */
  lemma MappingFileOrder(m: BidsMapping)
    requires m.Valid()
    ensures forall i, j :: 0 <= i < j < |MappingFile(m).keys| ==>
              StrLt(BidsOf(m, MappingFile(m).keys[i]), BidsOf(m, MappingFile(m).keys[j]))
    ensures forall k :: k in MappingFile(m).entries ==>
              k in m.entries && MappingFile(m).entries[k] == SortSubject(m.entries[k])
              && SubjectSorted(MappingFile(m).entries[k])
  {
    var r := MappingFile(m);
    ByBidsOrdered(SortMapping(m));
    SortMappingBids(m);
    forall k | k in r.entries ensures SubjectSorted(r.entries[k]) {
      SortSubjectSorted(m.entries[k]);
    }
  }

  /** A subject is kept exactly when no subject with a smaller key has the same number. */
  lemma MappingFileKeepsFirst(m: BidsMapping)
    requires m.Valid()
    ensures forall k :: k in m.entries ==>
              (k in MappingFile(m).entries <==>
               forall k' :: k' in m.entries && StrLt(k', k) ==> BidsOf(m, k') != BidsOf(m, k))
  {
    forall k | k in m.entries
      ensures k in MappingFile(m).entries <==>
              forall k' :: k' in m.entries && StrLt(k', k) ==> BidsOf(m, k') != BidsOf(m, k)
    {
      KeptAt(m, k);
    }
  }

  lemma KeptAt(m: BidsMapping, k: string)
    requires m.Valid() && k in m.entries
    ensures k in MappingFile(m).entries <==>
            forall k' :: k' in m.entries && StrLt(k', k) ==> BidsOf(m, k') != BidsOf(m, k)
  {
    var s := SortMapping(m);
    SortedMappingFacts(m);
    var i :| 0 <= i < |s.keys| && s.keys[i] == k;
    ByBidsKeepsFirst(s);
    assert k in ByBids(s).entries <==> forall j :: 0 <= j < i ==> BidsOf(s, s.keys[j]) != BidsOf(s, s.keys[i]);
    KeptBySmaller(m, s, i);
  }

  /** The sorted mapping lists the same subjects, once each and in ascending order, with the same numbers. */
  lemma SortedMappingFacts(m: BidsMapping)
    requires m.Valid()
    ensures SortMapping(m).keys == Sort(m.keys) && StrictlySorted(SortMapping(m).keys)
    ensures SortMapping(m).Valid() && SortMapping(m).entries.Keys == m.entries.Keys
    ensures forall k :: BidsOf(SortMapping(m), k) == BidsOf(m, k)
  {
    SortDistinct(m.keys);
    SortMappingBids(m);
  }

  lemma KeptBySmaller(m: BidsMapping, s: BidsMapping, i: int)
    requires s.keys == Sort(m.keys) && StrictlySorted(s.keys) && s.entries.Keys == m.entries.Keys
    requires m.Valid() && s.Valid() && 0 <= i < |s.keys|
    requires forall k :: BidsOf(s, k) == BidsOf(m, k)
    ensures (forall j :: 0 <= j < i ==> BidsOf(s, s.keys[j]) != BidsOf(s, s.keys[i])) <==>
            (forall k' :: k' in m.entries && StrLt(k', s.keys[i]) ==> BidsOf(m, k') != BidsOf(m, s.keys[i]))
  {
    forall k' | k' in m.entries && StrLt(k', s.keys[i]) ensures exists j :: 0 <= j < i && s.keys[j] == k' {
      var j :| 0 <= j < |s.keys| && s.keys[j] == k';
      EarlierIsSmaller(s.keys, i, j);
    }
    forall j | 0 <= j < i ensures s.keys[j] in m.entries && StrLt(s.keys[j], s.keys[i]) {
      EarlierIsSmaller(s.keys, i, j);
    }
  }
}
