/**
 * The driver of `run_analysis.py`: one TSNR analysis per NIfTI image of the BIDS tree, each in a
 * work directory named after the image; the results are gathered by clean file name and written
 * to `TSNR_summaries.csv` in ascending name order, under the header line `Image,TSNR`.
 */
module RunAnalysis {
  import opened Wrappers
  import opened Errors
  import opened Text
  import opened Paths
  import opened Ordering
  import opened Dicts
  import Workflows

  /** What `get_tsnr` returns: the image's clean file name and its TSNR value, or None. */
  datatype TsnrResult = TsnrResult(cleanFname: string, tsnrVal: Option<real>)

  /** `get_tsnr(img, out_dir, ...)`, whose code is not part of this model: its result or the exception it raises. */
  type GetTsnr = (string, string) -> Result<TsnrResult, Error>

  /** `analysis_results`: clean file name -> TSNR value. */
  type Results = Dict<string, Option<real>>

  const SummaryName: string := "TSNR_summaries.csv"
  const HeaderLine: string := "Image,TSNR"

  function SummaryFile(outputDir: string): string
  {
    PathJoin(outputDir, SummaryName)
  }

  // ---------------------------------------------------------------------------
  // Work directories
  // ---------------------------------------------------------------------------

  /** `os.path.join(output_dir, os.path.basename(img).split(".")[0])`. */
  function WorkDir(outputDir: string, img: string): string
  {
    PathJoin(outputDir, Stem(img))
  }

  /** The image `dir/stem.nii.gz` is analysed in `output_dir/stem`. */
  lemma WorkDirOfImage(outputDir: string, dir: string, stem: string)
    requires stem != [] && Plain(stem)
    ensures WorkDir(outputDir, PathJoin(dir, stem + ".nii.gz")) == PathJoin(outputDir, stem)
  {
    Workflows.CleanNameOf(dir, stem);
  }

  /** The work directory is named after the clean name the workflow gives the same image. */
  lemma WorkDirIsCleanName(outputDir: string, img: string)
    requires Workflows.CleanName(img).Ok?
    ensures WorkDir(outputDir, img) == PathJoin(outputDir, Workflows.CleanName(img).value)
  {
  }

  // ---------------------------------------------------------------------------
  // Gathering the results
  // ---------------------------------------------------------------------------

  /** The analyses in submission order, one per image. */
  function Analyses(imgs: seq<string>, outputDir: string, getTsnr: GetTsnr): (outs: seq<Result<TsnrResult, Error>>)
    ensures |outs| == |imgs|
    ensures forall i :: 0 <= i < |imgs| ==> outs[i] == getTsnr(imgs[i], WorkDir(outputDir, imgs[i]))
  {
    seq(|imgs|, i requires 0 <= i < |imgs| => getTsnr(imgs[i], WorkDir(outputDir, imgs[i])))
  }

  /**
   * `analysis_results[clean_fname] = tsnr_val` for each outcome in turn; the first exception
   * (in submission order) ends the run.
   */
  function Gather(outs: seq<Result<TsnrResult, Error>>, acc: Results): (r: Result<Results, Error>)
    ensures r.Ok? <==> forall i :: 0 <= i < |outs| ==> outs[i].Ok?
    ensures r.Err? ==> exists i :: 0 <= i < |outs| && outs[i] == Err(r.error)
                                  && forall j :: 0 <= j < i ==> outs[j].Ok?
    ensures r.Ok? && acc.Valid() ==> r.value.Valid()
    decreases |outs|
  {
    if outs == [] then Ok(acc)
    else if outs[0].Err? then Err(outs[0].error)
    else
      var r := Gather(outs[1..], acc.Put(outs[0].value.cleanFname, outs[0].value.tsnrVal));
      assert r.Err? ==> exists i :: 0 <= i < |outs| && outs[i] == Err(r.error)
                                   && forall j :: 0 <= j < i ==> outs[j].Ok? by {
        if r.Err? {
          var i :| 0 <= i < |outs[1..]| && outs[1..][i] == Err(r.error)
                   && forall j :: 0 <= j < i ==> outs[1..][j].Ok?;
          assert outs[i + 1] == outs[1..][i];
          assert forall j :: 1 <= j < i + 1 ==> outs[j] == outs[1..][j - 1];
        }
      }
      r
  }

  /** Some successful outcome carries the clean name `k`. */
  predicate Named(outs: seq<Result<TsnrResult, Error>>, k: string)
  {
    exists i :: 0 <= i < |outs| && outs[i].Ok? && outs[i].value.cleanFname == k
  }

  /** The clean names gathered are those of the outcomes, added to the ones already there. */
  lemma {:induction false} GatherKeys(outs: seq<Result<TsnrResult, Error>>, acc: Results)
    requires Gather(outs, acc).Ok?
    ensures forall k :: k in Gather(outs, acc).value.entries <==> k in acc.entries || Named(outs, k)
    decreases |outs|
  {
    if outs != [] {
      var o := outs[0].value;
      GatherKeys(outs[1..], acc.Put(o.cleanFname, o.tsnrVal));
      forall k ensures Named(outs, k) <==> o.cleanFname == k || Named(outs[1..], k) {
        if Named(outs, k) {
          var i :| 0 <= i < |outs| && outs[i].Ok? && outs[i].value.cleanFname == k;
          if i > 0 {
            assert outs[1..][i - 1] == outs[i];
          }
        }
        if Named(outs[1..], k) {
          var i :| 0 <= i < |outs[1..]| && outs[1..][i].Ok? && outs[1..][i].value.cleanFname == k;
          assert outs[i + 1] == outs[1..][i];
        }
      }
    }
  }

  /**
   * A later image with the same clean name overwrites an earlier one: each name holds the value of
   * its last outcome, and a name no outcome carries keeps its old value.
   */
  lemma {:induction false} GatherLastWins(outs: seq<Result<TsnrResult, Error>>, acc: Results)
    requires Gather(outs, acc).Ok?
    ensures forall k :: k in acc.entries && !Named(outs, k) ==>
              k in Gather(outs, acc).value.entries && Gather(outs, acc).value.entries[k] == acc.entries[k]
    ensures forall i :: 0 <= i < |outs| && LastNamed(outs, i) ==>
              outs[i].value.cleanFname in Gather(outs, acc).value.entries
              && Gather(outs, acc).value.entries[outs[i].value.cleanFname] == outs[i].value.tsnrVal
    decreases |outs|
  {
    if outs != [] {
      var o := outs[0].value;
      var next := acc.Put(o.cleanFname, o.tsnrVal);
      GatherLastWins(outs[1..], next);
      var r := Gather(outs, acc).value;
      forall k | k in acc.entries && !Named(outs, k)
        ensures k in r.entries && r.entries[k] == acc.entries[k]
      {
        assert o.cleanFname != k;
      }
      forall i | 0 <= i < |outs| && LastNamed(outs, i)
        ensures outs[i].value.cleanFname in r.entries && r.entries[outs[i].value.cleanFname] == outs[i].value.tsnrVal
      {
        if i > 0 {
          assert outs[1..][i - 1] == outs[i];
          forall j | i - 1 < j < |outs[1..]| ensures outs[1..][j].Ok? ==> outs[1..][j].value.cleanFname != outs[i].value.cleanFname {
            assert outs[1..][j] == outs[j + 1];
          }
          assert LastNamed(outs[1..], i - 1);
        }
      }
    }
  }

  /** Outcome `i` succeeded and no later outcome carries its clean name. */
  predicate LastNamed(outs: seq<Result<TsnrResult, Error>>, i: int)
    requires 0 <= i < |outs|
  {
    outs[i].Ok? && forall j :: i < j < |outs| ==> outs[j].Ok? ==> outs[j].value.cleanFname != outs[i].value.cleanFname
  }

  /** The sequential branch: analyse and store one image at a time. */
  method RunSequential(imgs: seq<string>, outputDir: string, getTsnr: GetTsnr) returns (r: Result<Results, Error>)
    ensures r == Gather(Analyses(imgs, outputDir, getTsnr), Empty())
  {
    ghost var outs := Analyses(imgs, outputDir, getTsnr);
    var analysisResults: Results := Empty();
    var i := 0;
    while i < |imgs|
      invariant 0 <= i <= |imgs|
      invariant Gather(outs, Empty()) == Gather(outs[i..], analysisResults)
    {
      assert outs[i..][1..] == outs[i + 1..];
      var outDir := PathJoin(outputDir, Split(Basename(imgs[i]), '.')[0]);
      var res := getTsnr(imgs[i], outDir);
      if res.Err? {
        return Err(res.error);
      }
      analysisResults := analysisResults.Put(res.value.cleanFname, res.value.tsnrVal);
      i := i + 1;
    }
    return Ok(analysisResults);
  }

  /** The submission loop of the parallel branch: one `get_tsnr` call per image, in order. */
  method Submit(imgs: seq<string>, outputDir: string, getTsnr: GetTsnr) returns (futures: seq<Result<TsnrResult, Error>>)
    ensures futures == Analyses(imgs, outputDir, getTsnr)
  {
    futures := [];
    var i := 0;
    while i < |imgs|
      invariant 0 <= i <= |imgs| && |futures| == i
      invariant forall j :: 0 <= j < i ==> futures[j] == getTsnr(imgs[j], WorkDir(outputDir, imgs[j]))
    {
      var outDir := PathJoin(outputDir, Split(Basename(imgs[i]), '.')[0]);
      futures := futures + [getTsnr(imgs[i], outDir)];
      i := i + 1;
    }
  }

  /** After `wait(futures)`: each future's result, in submission order, stored by clean name. */
  method Collect(futures: seq<Result<TsnrResult, Error>>) returns (r: Result<Results, Error>)
    ensures r == Gather(futures, Empty())
  {
    var analysisResults: Results := Empty();
    var i := 0;
    while i < |futures|
      invariant 0 <= i <= |futures|
      invariant Gather(futures, Empty()) == Gather(futures[i..], analysisResults)
    {
      assert futures[i..][1..] == futures[i + 1..];
      if futures[i].Err? {
        return Err(futures[i].error);
      }
      analysisResults := analysisResults.Put(futures[i].value.cleanFname, futures[i].value.tsnrVal);
      i := i + 1;
    }
    return Ok(analysisResults);
  }

  /** The parallel branch gathers the same dictionary, or raises the same exception, as the sequential one. */
  method RunParallel(imgs: seq<string>, outputDir: string, getTsnr: GetTsnr) returns (r: Result<Results, Error>)
    ensures r == Gather(Analyses(imgs, outputDir, getTsnr), Empty())
  {
    var futures := Submit(imgs, outputDir, getTsnr);
    r := Collect(futures);
  }

  // ---------------------------------------------------------------------------
  // The summary file
  // ---------------------------------------------------------------------------

  /** `"{}".format(tsnr_val)`: None prints as `None`; printing a float is left to `formatReal`. */
  function Show(v: Option<real>, formatReal: real -> string): string
  {
    match v
    case None => "None"
    case Some(x) => formatReal(x)
  }

  /** One row of the summary, without its line break. */
  function CsvLine(k: string, results: Results, formatReal: real -> string): string
    requires k in results.entries
  {
    k + "," + Show(results.entries[k], formatReal)
  }

  function CsvLines(keys: seq<string>, results: Results, formatReal: real -> string): (lines: seq<string>)
    requires forall k :: k in keys ==> k in results.entries
    ensures |lines| == |keys|
    ensures forall i :: 0 <= i < |keys| ==> lines[i] == CsvLine(keys[i], results, formatReal)
  {
    seq(|keys|, i requires 0 <= i < |keys| => CsvLine(keys[i], results, formatReal))
  }

  /** The lines written one after another, each followed by a line break. */
  function Terminated(lines: seq<string>): string
  {
    if lines == [] then "" else (lines[0] + "\n") + Terminated(lines[1..])
  }

  /** `sorted(analysis_results.items(), key=lambda t: t[0])`, each item printed as a row. */
  function Rows(results: Results, formatReal: real -> string): (lines: seq<string>)
    requires KeysPresent(results)
    ensures |lines| == |results.keys|
    ensures forall i :: 0 <= i < |results.keys| ==>
              Sort(results.keys)[i] in results.entries
              && lines[i] == CsvLine(Sort(results.keys)[i], results, formatReal)
  {
    SortMembers(results.keys);
    CsvLines(Sort(results.keys), results, formatReal)
  }

  /** The file's contents: the header, then one row per clean name in ascending order. */
  function Summary(results: Results, formatReal: real -> string): string
    requires KeysPresent(results)
  {
    Terminated([HeaderLine] + Rows(results, formatReal))
  }

  /** The two writes to the summary file: the header, then the sorted rows. */
  method WriteSummary(results: Results, formatReal: real -> string) returns (contents: string)
    requires KeysPresent(results)
    ensures contents == Summary(results, formatReal)
  {
    contents := HeaderLine + "\n";
    var sortedResults := Sort(results.keys);
    SortMembers(results.keys);
    ghost var lines := Rows(results, formatReal);
    assert ([HeaderLine] + lines)[1..] == lines;
    var i := 0;
    while i < |sortedResults|
      invariant 0 <= i <= |sortedResults|
      invariant contents + Terminated(lines[i..]) == Summary(results, formatReal)
    {
      var cleanFname := sortedResults[i];
      var tsnrVal := results.entries[cleanFname];
      var row := cleanFname + "," + Show(tsnrVal, formatReal) + "\n";
      assert lines[i..][1..] == lines[i + 1..];
      assert row == lines[i] + "\n";
      AppendAssoc(contents, row, Terminated(lines[i + 1..]));
      contents := contents + row;
      i := i + 1;
    }
    assert lines[i..] == [];
  }

  /** Lines without line breaks are read back one per line, with an empty piece after the last break. */
  lemma {:induction false} SplitTerminated(lines: seq<string>)
    requires forall i :: 0 <= i < |lines| ==> '\n' !in lines[i]
    ensures Split(Terminated(lines), '\n') == lines + [""]
    decreases |lines|
  {
    if lines != [] {
      SplitTerminated(lines[1..]);
      SplitWithoutSeparator(lines[0], '\n');
      AppendAssoc(lines[0], "\n", Terminated(lines[1..]));
      assert lines[0] + "\n" + Terminated(lines[1..]) == lines[0] + ['\n'] + Terminated(lines[1..]);
      SplitAround(lines[0], Terminated(lines[1..]), '\n');
      assert lines == [lines[0]] + lines[1..];
    }
  }

  /**
   * Read back line by line, the summary is the header `Image,TSNR` followed by one row per clean
   * name, in strictly ascending name order, each name exactly once.
   */
  lemma SummaryLines(results: Results, formatReal: real -> string)
    requires results.Valid() && KeysPresent(results)
    requires forall k :: k in results.entries ==> '\n' !in k && '\n' !in Show(results.entries[k], formatReal)
    ensures Split(Summary(results, formatReal), '\n') == [HeaderLine] + Rows(results, formatReal) + [""]
    ensures StrictlySorted(Sort(results.keys))
    ensures forall k :: k in Sort(results.keys) <==> k in results.entries
  {
    SortDistinct(results.keys);
    var lines := [HeaderLine] + Rows(results, formatReal);
    RowsWithoutBreaks(results, formatReal);
    assert forall i :: 1 <= i < |lines| ==> lines[i] == Rows(results, formatReal)[i - 1];
    SplitTerminated(lines);
  }

  lemma RowsWithoutBreaks(results: Results, formatReal: real -> string)
    requires KeysPresent(results)
    requires forall k :: k in results.entries ==> '\n' !in k && '\n' !in Show(results.entries[k], formatReal)
    ensures forall i :: 0 <= i < |results.keys| ==> '\n' !in Rows(results, formatReal)[i]
  {
    var rows := Rows(results, formatReal);
    forall i | 0 <= i < |rows| ensures '\n' !in rows[i] {
      var k := Sort(results.keys)[i];
      var v := Show(results.entries[k], formatReal);
      assert rows[i] == k + "," + v;
      assert rows[i] == k + ([','] + v);
    }
  }

  /** A row splits back into its clean name and its value when neither holds a comma. */
  lemma CsvCells(k: string, v: Option<real>, formatReal: real -> string)
    requires ',' !in k && ',' !in Show(v, formatReal)
    ensures Split(k + "," + Show(v, formatReal), ',') == [k, Show(v, formatReal)]
  {
    var s := Show(v, formatReal);
    assert k + "," + s == k + [','] + s;
    SplitAround(k, s, ',');
    SplitWithoutSeparator(k, ',');
    SplitWithoutSeparator(s, ',');
  }

  // ---------------------------------------------------------------------------
  // Lines 66-99 as a whole
  // ---------------------------------------------------------------------------

  /**
   * The summary file's path and contents after the analysis, and the exception that ended it, if
   * any: the header is written before the analyses start, so an exception leaves only the header.
   */
  method Analyse(outputDir: string, niiImgs: seq<string>, nthreads: int, getTsnr: GetTsnr, formatReal: real -> string)
    returns (summaryFile: string, contents: string, raised: Option<Error>)
    ensures summaryFile == SummaryFile(outputDir)
    ensures var g := Gather(Analyses(niiImgs, outputDir, getTsnr), Empty());
            (g.Err? ==> contents == HeaderLine + "\n" && raised == Some(g.error))
            && (g.Ok? ==> g.value.Valid() && contents == Summary(g.value, formatReal) && raised == None)
  {
    summaryFile := PathJoin(outputDir, "TSNR_summaries.csv");
    var analysisResults;
    if nthreads > 0 {
      analysisResults := RunParallel(niiImgs, outputDir, getTsnr);
    } else {
      analysisResults := RunSequential(niiImgs, outputDir, getTsnr);
    }
    if analysisResults.Err? {
      return summaryFile, HeaderLine + "\n", Some(analysisResults.error);
    }
    contents := WriteSummary(analysisResults.value, formatReal);
    raised := None;
  }
}
