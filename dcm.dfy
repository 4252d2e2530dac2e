/**
 * `dcm_to_nifti` of `converters.py`: the command it runs for each conversion tool, how it
 * reads the tool's outcome (including the scrape of dcm2niix's console output for the file
 * name the tool really used), and the paths it returns to the caller.
 */
module Dcm {
  import opened Wrappers
  import opened Errors
  import opened Text
  import opened Paths
  import opened Utils

  /** What `check_output` observed: the exit status and the combined stdout/stderr text. */
  datatype CommandOutcome = CommandOutcome(returnCode: int, output: string)

  /** The external commands, as an oracle from the argument vector to its outcome. */
  type Runner = seq<string> -> CommandOutcome

  /** The triple `dcm_to_nifti` returns: `(series_dir, bids_fpath, success)`. */
  datatype ConvResult = ConvResult(seriesDir: string, bidsFpath: string, success: bool)

  /** The lines of a text that contain `sub`, in order. */
  function LinesWith(lines: seq<string>, sub: string): (r: seq<string>)
    ensures forall i :: 0 <= i < |r| ==> Contains(r[i], sub)
    ensures forall l :: l in r <==> l in lines && Contains(l, sub)
  {
    if lines == [] then []
    else if Contains(lines[0], sub) then [lines[0]] + LinesWith(lines[1..], sub)
    else LinesWith(lines[1..], sub)
  }

  /** The tokens that start with '/', in order; every token must be non-empty to be inspected. */
  function AbsoluteTokens(tokens: seq<string>): (r: seq<string>)
    requires forall i :: 0 <= i < |tokens| ==> tokens[i] != []
    ensures forall i :: 0 <= i < |r| ==> r[i] != [] && r[i][0] == '/'
    ensures forall t :: t in r <==> t in tokens && t[0] == '/'
  {
    if tokens == [] then []
    else if tokens[0][0] == '/' then [tokens[0]] + AbsoluteTokens(tokens[1..])
    else AbsoluteTokens(tokens[1..])
  }

  /**
   * The file name dcm2niix really used, read from its output: the last '/'-segment of the first
   * space-separated token that starts with '/' on the first line that contains "Convert".
   * Taking element 0 of an empty list, or the first character of an empty token anywhere on
   * that line, raises IndexError.
   */
  function ScrapeActualFname(output: string): (r: Result<string, Error>)
    ensures r.Err? ==> r.error == IndexError
    ensures r.Ok? ==> '/' !in r.value
    ensures r.Ok? <==>
      var lines := LinesWith(Split(output, '\n'), "Convert");
      lines != [] &&
      var tokens := Split(lines[0], ' ');
      (forall i :: 0 <= i < |tokens| ==> tokens[i] != []) &&
      exists t :: t in tokens && t[0] == '/'
  {
    var lines := LinesWith(Split(output, '\n'), "Convert");
    if lines == [] then Err(IndexError)
    else
      var tokens := Split(lines[0], ' ');
      if exists i :: 0 <= i < |tokens| && tokens[i] == [] then Err(IndexError)
      else
        var absolute := AbsoluteTokens(tokens);
        if absolute == [] then Err(IndexError)
        else
          var segments := Split(absolute[0], '/');
          Ok(segments[|segments| - 1])
  }

  /** The marker to3d prints when it stops because of `-quit_on_err`, even with exit status 0. */
  const QuitOnErrMarker := "to3d kept from going into interactive mode by option -quit_on_err"

  /** Dimon's run counts as a conversion only with exit status 0 and no quit-on-error marker. */
  function DimonSucceeded(outcome: CommandOutcome): (ok: bool)
    ensures ok ==> outcome.returnCode == 0
    ensures Contains(outcome.output, QuitOnErrMarker) ==> !ok
    ensures outcome.returnCode == 0 && !Contains(outcome.output, QuitOnErrMarker) ==> ok
  {
    outcome.returnCode == 0 && !Contains(outcome.output, QuitOnErrMarker)
  }

  /** The dcm2niix command: gzip output, name `out_fname`, and a BIDS sidecar when asked for. */
  function Dcm2niixCommand(outFname: string, dcmDir: string, bidsMeta: bool): seq<string>
  {
    if bidsMeta then ["dcm2niix", "-z", "y", "-b", "y", "-f", outFname, dcmDir]
    else ["dcm2niix", "-z", "y", "-f", outFname, dcmDir]
  }

  /** The Dimon command over the directory's `*.dcm` files, writing `out_fname.nii.gz`. */
  function DimonCommand(outFname: string, dcmDir: string): seq<string>
  {
    ["Dimon", "-infile_pattern", PathJoin(dcmDir, "*.dcm"), "-gert_create_dataset", "-gert_quit_on_err",
     "-gert_to3d_prefix", outFname + ".nii.gz"]
  }

  /** What `dcm_to_nifti` returns, whatever the outcome: the series and the destination it was asked for. */
  function Outcome(dcmDir: string, outFname: string, outDir: string, success: bool): ConvResult
  {
    ConvResult(LastSegments(dcmDir, 3), PathJoin(LastSegments(outDir, 4), outFname + ".nii.gz"), success)
  }

  /**
   * `dcm_to_nifti(dcm_dir, out_fname, out_dir, conversion_tool, bids_meta)`. `run` gives each
   * command's outcome and `listing` is `os.listdir(dcm_dir)` after the run; after a successful run
   * the code picks the first ".dcm" file for its log entry, which raises IndexError when there is none.
   */
  function DcmToNifti(dcmDir: string, outFname: string, outDir: string, tool: string, bidsMeta: bool,
                      run: Runner, listing: seq<string>): (r: Result<ConvResult, Error>)
    ensures tool != "dcm2niix" && tool != "dimon" ==> r == Err(NiftyConversionFailure(tool))
    ensures r.Ok? ==> r.value.seriesDir == LastSegments(dcmDir, 3)
    ensures r.Ok? ==> r.value.bidsFpath == PathJoin(LastSegments(outDir, 4), outFname + ".nii.gz")
    ensures tool == "dcm2niix" && run(Dcm2niixCommand(outFname, dcmDir, bidsMeta)).returnCode != 0 ==>
      r == Ok(Outcome(dcmDir, outFname, outDir, false))
    ensures tool == "dimon" && !DimonSucceeded(run(DimonCommand(outFname, dcmDir))) ==>
      r == Ok(Outcome(dcmDir, outFname, outDir, false))
    ensures tool == "dcm2niix" && run(Dcm2niixCommand(outFname, dcmDir, bidsMeta)).returnCode == 0 ==>
      r == (if ScrapeActualFname(run(Dcm2niixCommand(outFname, dcmDir, bidsMeta)).output).Err? || DcmFiles(listing) == []
            then Err(IndexError) else Ok(Outcome(dcmDir, outFname, outDir, true)))
    ensures tool == "dimon" && DimonSucceeded(run(DimonCommand(outFname, dcmDir))) ==>
      r == (if DcmFiles(listing) == [] then Err(IndexError) else Ok(Outcome(dcmDir, outFname, outDir, true)))
    ensures r.Ok? && r.value.success ==> DcmFiles(listing) != []
    ensures r.Ok? && r.value.success && tool == "dcm2niix" ==>
      ScrapeActualFname(run(Dcm2niixCommand(outFname, dcmDir, bidsMeta)).output).Ok?
    ensures r.Ok? && r.value.success && tool == "dimon" ==> DimonSucceeded(run(DimonCommand(outFname, dcmDir)))
  {
    if tool == "dcm2niix" then
      var outcome := run(Dcm2niixCommand(outFname, dcmDir, bidsMeta));
      if outcome.returnCode != 0 then Ok(Outcome(dcmDir, outFname, outDir, false))
      else if ScrapeActualFname(outcome.output).Err? then Err(IndexError)
      else if DcmFiles(listing) == [] then Err(IndexError)
      else Ok(Outcome(dcmDir, outFname, outDir, true))
    else if tool == "dimon" then
      var outcome := run(DimonCommand(outFname, dcmDir));
      if outcome.returnCode != 0 then Ok(Outcome(dcmDir, outFname, outDir, false))
      else if Contains(outcome.output, QuitOnErrMarker) then Ok(Outcome(dcmDir, outFname, outDir, false))
      else if DcmFiles(listing) == [] then Err(IndexError)
      else Ok(Outcome(dcmDir, outFname, outDir, true))
    else Err(NiftyConversionFailure(tool))
  }

  /**
   * The scrape on well-formed output: when the first "Convert" line is made of non-empty,
   * space-free tokens, the result is the base name of the first absolute one.
   */
  lemma {:induction false} ScrapeWellFormed(before: seq<string>, tokens: seq<string>, after: seq<string>, k: nat)
    requires forall i :: 0 <= i < |before| ==> '\n' !in before[i] && !Contains(before[i], "Convert")
    requires forall i :: 0 <= i < |after| ==> '\n' !in after[i]
    requires |tokens| >= 1 && forall i :: 0 <= i < |tokens| ==> tokens[i] != [] && ' ' !in tokens[i] && '\n' !in tokens[i]
    requires Contains(Join(tokens, ' '), "Convert")
    requires k < |tokens| && tokens[k][0] == '/' && forall i :: 0 <= i < k ==> tokens[i][0] != '/'
    ensures ScrapeActualFname(Join(before + [Join(tokens, ' ')] + after, '\n')) == Ok(Basename(tokens[k]))
  {
    var line := Join(tokens, ' ');
    JoinNoSeparator(tokens, ' ', '\n');
    FirstConvertLine(before, line, after);
    ScrapeFromLine(Join(before + [line] + after, '\n'), tokens, k);
  }

  /** The first line containing "Convert" of joined lines is the first such line of the list. */
  lemma FirstConvertLine(before: seq<string>, line: string, after: seq<string>)
    requires forall i :: 0 <= i < |before| ==> '\n' !in before[i] && !Contains(before[i], "Convert")
    requires forall i :: 0 <= i < |after| ==> '\n' !in after[i]
    requires '\n' !in line && Contains(line, "Convert")
    ensures LinesWith(Split(Join(before + [line] + after, '\n'), '\n'), "Convert") != []
    ensures LinesWith(Split(Join(before + [line] + after, '\n'), '\n'), "Convert")[0] == line
  {
    NoNewlineLines(before, line, after);
    JoinThenSplit(before + [line] + after, '\n');
    FirstConvertOfList(before, line, after);
  }

  /** Lines without "Convert" before the first line with it do not change which line comes first. */
  lemma FirstConvertOfList(before: seq<string>, line: string, after: seq<string>)
    requires forall i :: 0 <= i < |before| ==> !Contains(before[i], "Convert")
    requires Contains(line, "Convert")
    ensures LinesWith(before + [line] + after, "Convert") != []
    ensures LinesWith(before + [line] + after, "Convert")[0] == line
  {
    var rest := [line] + after;
    assert before + [line] + after == before + rest;
    LinesWithPrefix(before, rest, "Convert");
    assert rest[0] == line && rest[1..] == after;
  }

  /** A list of lines each free of newlines, with one more such line in the middle. */
  lemma NoNewlineLines(before: seq<string>, line: string, after: seq<string>)
    requires forall i :: 0 <= i < |before| ==> '\n' !in before[i]
    requires forall i :: 0 <= i < |after| ==> '\n' !in after[i]
    requires '\n' !in line
    ensures forall i :: 0 <= i < |before + [line] + after| ==> '\n' !in (before + [line] + after)[i]
  {
    var lines := before + [line] + after;
    forall i | 0 <= i < |lines| ensures '\n' !in lines[i] {
      if i < |before| {
        assert lines[i] == before[i];
      } else if i > |before| {
        assert lines[i] == after[i - |before| - 1];
      }
    }
  }

  /** The scrape reads its name from the first "Convert" line and nothing else. */
  lemma ScrapeFromLine(output: string, tokens: seq<string>, k: nat)
    requires LinesWith(Split(output, '\n'), "Convert") != []
    requires LinesWith(Split(output, '\n'), "Convert")[0] == Join(tokens, ' ')
    requires |tokens| >= 1 && forall i :: 0 <= i < |tokens| ==> tokens[i] != [] && ' ' !in tokens[i]
    requires k < |tokens| && tokens[k][0] == '/' && forall i :: 0 <= i < k ==> tokens[i][0] != '/'
    ensures ScrapeActualFname(output) == Ok(Basename(tokens[k]))
  {
    JoinThenSplit(tokens, ' ');
    AbsoluteTokensFirst(tokens, k);
    assert Split(LinesWith(Split(output, '\n'), "Convert")[0], ' ') == tokens;
    assert !exists i :: 0 <= i < |tokens| && tokens[i] == [];
  }

  lemma {:induction false} JoinNoSeparator(parts: seq<string>, sep: char, c: char)
    requires c != sep && forall i :: 0 <= i < |parts| ==> c !in parts[i]
    ensures c !in Join(parts, sep)
    decreases |parts|
  {
    if |parts| > 1 {
      JoinNoSeparator(parts[1..], sep, c);
    }
  }

  lemma {:induction false} LinesWithPrefix(before: seq<string>, rest: seq<string>, sub: string)
    requires forall i :: 0 <= i < |before| ==> !Contains(before[i], sub)
    ensures LinesWith(before + rest, sub) == LinesWith(rest, sub)
    decreases |before|
  {
    if before != [] {
      assert (before + rest)[1..] == before[1..] + rest;
      LinesWithPrefix(before[1..], rest, sub);
    } else {
      assert before + rest == rest;
    }
  }

  lemma {:induction false} AbsoluteTokensFirst(tokens: seq<string>, k: nat)
    requires forall i :: 0 <= i < |tokens| ==> tokens[i] != []
    requires k < |tokens| && tokens[k][0] == '/' && forall i :: 0 <= i < k ==> tokens[i][0] != '/'
    ensures AbsoluteTokens(tokens) != [] && AbsoluteTokens(tokens)[0] == tokens[k]
    decreases k
  {
    if k > 0 {
      AbsoluteTokensFirst(tokens[1..], k - 1);
    }
  }
}
