/**
 * `seven_tesla_wf` of `workflows.py`: the name rule for the input image, the seven AFNI commands
 * with the file each one writes and the files it reads, and the loop that runs them in order and
 * stops at the first failure before the TSNR is computed.
 */
module Workflows {
  import opened Wrappers
  import opened Errors
  import opened Text
  import opened Paths
  import opened Numerals
  import opened Dcm

  /**
   * The clean file name: the base name up to its first '.'. Only a name with ".nii" in it is
   * accepted (the `.nii.gz` test of the code is implied by it).
   */
  function CleanName(inFile: string): (r: Result<string, Error>)
    ensures r.Err? <==> !Contains(inFile, ".nii")
    ensures r.Err? ==> r.error == ValueError
    ensures r.Ok? ==> '.' !in r.value
  {
    GzMentionsNii(inFile);
    if Contains(inFile, ".nii") || Contains(inFile, ".nii.gz") then Ok(Stem(inFile))
    else Err(ValueError)
  }

  lemma GzMentionsNii(s: string)
    ensures Contains(s, ".nii.gz") ==> Contains(s, ".nii")
  {
    if Contains(s, ".nii.gz") {
      assert ".nii" + ".gz" == ".nii.gz";
      ContainsPrefixOf(s, ".nii", ".gz");
    }
  }

  /** A NIfTI file `dir/stem.nii.gz` has the clean name `stem`, when the stem has neither '/' nor '.'. */
  lemma CleanNameOf(dir: string, stem: string)
    requires stem != [] && Plain(stem)
    ensures CleanName(PathJoin(dir, stem + ".nii.gz")) == Ok(stem)
  {
    var fname := stem + ".nii.gz";
    FnameParts(stem);
    JoinNameSegments(dir, fname);
    NiftiNameMentionsNii(stem);
    PathJoinContains(dir, fname, ".nii");
  }

  lemma NiftiNameMentionsNii(stem: string)
    ensures Contains(stem + ".nii.gz", ".nii")
  {
    assert ".nii" <= ".nii.gz";
    ContainsInSuffix(stem, ".nii.gz", ".nii");
  }

  lemma PathJoinContains(a: string, b: string, sub: string)
    requires Contains(b, sub)
    ensures Contains(PathJoin(a, b), sub)
  {
    if b != [] && b[0] == '/' {
    } else if a == [] || a[|a| - 1] == '/' {
      ContainsInSuffix(a, b, sub);
    } else {
      ContainsInSuffix(a + "/", b, sub);
    }
  }

  /** The output prefixes of the stages, each extending the one it is derived from. */
  datatype Prefixes = Prefixes(despike: string, tshift: string, volreg: string, mask: string, mean: string,
                               detrend: string, detrendWithMean: string)

  /** The working directory `out_dir/clean_fname`. */
  function WorkDir(outDir: string, clean: string): string
  {
    PathJoin(outDir, clean)
  }

  /** The prefixes of all stages, from `out_dir/clean_fname/clean_fname`. */
  function StagePrefixes(base: string): (p: Prefixes)
    ensures p.despike == base + "_despike" && p.tshift == p.despike + "_tshift" && p.volreg == p.tshift + "_volreg"
    ensures p.mask == p.volreg + "_mask" && p.mean == p.volreg + "_mean" && p.detrend == p.volreg + "_detrend"
    ensures p.detrendWithMean == p.volreg + "_detrend_with_mean"
  {
    var despike := base + "_despike";
    var tshift := despike + "_tshift";
    var volreg := tshift + "_volreg";
    Prefixes(despike, tshift, volreg, volreg + "_mask", volreg + "_mean", volreg + "_detrend",
             volreg + "_detrend_with_mean")
  }

  /** Every stage prefix starts with the common base, so every output lands in the working directory. */
  lemma PrefixesExtendBase(base: string)
    ensures var p := StagePrefixes(base);
      base <= p.despike && base <= p.tshift && base <= p.volreg && base <= p.mask &&
      base <= p.mean && base <= p.detrend && base <= p.detrendWithMean
  {
    var p := StagePrefixes(base);
    assert p.tshift == base + ("_despike" + "_tshift");
    assert p.volreg == base + ("_despike" + "_tshift" + "_volreg");
    var v := "_despike" + "_tshift" + "_volreg";
    assert p.mask == base + (v + "_mask");
    assert p.mean == base + (v + "_mean");
    assert p.detrend == base + (v + "_detrend");
    assert p.detrendWithMean == base + (v + "_detrend_with_mean");
  }

  function Gz(prefix: string): string
  {
    prefix + ".nii.gz"
  }

  /** The argument after the first "-prefix": the file the command writes. */
  function PrefixArg(cmd: seq<string>): Option<string>
    decreases |cmd|
  {
    if |cmd| < 2 then None
    else if cmd[0] == "-prefix" then Some(cmd[1])
    else PrefixArg(cmd[1..])
  }

  lemma {:induction false} PrefixArgAt(cmd: seq<string>, i: nat)
    requires i + 1 < |cmd| && cmd[i] == "-prefix" && forall j :: 0 <= j < i ==> cmd[j] != "-prefix"
    ensures PrefixArg(cmd) == Some(cmd[i + 1])
    decreases i
  {
    if i > 0 {
      PrefixArgAt(cmd[1..], i - 1);
    }
  }

  /** A file name ending in ".nii.gz" or ".1D" is never the "-prefix" flag. */
  lemma NotFlag(prefix: string, suffix: string)
    requires suffix == ".nii.gz" || suffix == ".1D" || suffix == "_md.1D"
    ensures prefix + suffix != "-prefix"
  {
    var s := prefix + suffix;
    assert s[|s| - 1] == suffix[|suffix| - 1];
  }

  /** The seven commands, in the order the workflow runs them. */
  function Workflow(inFile: string, p: Prefixes): (w: seq<seq<string>>)
    ensures |w| == 7
  {
    [["3dDespike", "-overwrite", "-prefix", Gz(p.despike), inFile],
     ["3dTshift", "-overwrite", "-prefix", Gz(p.tshift), Gz(p.despike)],
     ["3dvolreg", "-overwrite", "-twopass", "-heptic", "-base", "3", "-zpad", "4",
      "-1Dfile", p.tshift + ".1D", "-maxdisp1D", p.tshift + "_md.1D", "-prefix", Gz(p.volreg), Gz(p.tshift)],
     ["3dAutomask", "-dilate", "1", "-prefix", Gz(p.mask), Gz(p.volreg)],
     ["3dTstat", "-overwrite", "-mean", "-prefix", Gz(p.mean), Gz(p.volreg)],
     ["3dDetrend", "-overwrite", "-polort", "1", "-prefix", Gz(p.detrend), Gz(p.volreg)],
     ["3dcalc", "-overwrite", "-a", Gz(p.mean), "-b", Gz(p.detrend), "-expr", "a+b", "-prefix", Gz(p.detrendWithMean)]]
  }

  /**
   * The file chain of the workflow: each command writes its stage's prefix; despike reads the input,
   * tshift the despiked image, volreg the shifted one, automask, mean and detrend the registered one,
   * and 3dcalc adds the mean and the detrended image.
   */
  lemma WorkflowChain(inFile: string, base: string)
    ensures var p := StagePrefixes(base);
      var w := Workflow(inFile, p);
      PrefixArg(w[0]) == Some(Gz(p.despike)) && PrefixArg(w[1]) == Some(Gz(p.tshift)) &&
      PrefixArg(w[2]) == Some(Gz(p.volreg)) && PrefixArg(w[3]) == Some(Gz(p.mask)) &&
      PrefixArg(w[4]) == Some(Gz(p.mean)) && PrefixArg(w[5]) == Some(Gz(p.detrend)) &&
      PrefixArg(w[6]) == Some(Gz(p.detrendWithMean)) &&
      Last(w[0]) == inFile && Last(w[1]) == PrefixArg(w[0]).value && Last(w[2]) == PrefixArg(w[1]).value &&
      Last(w[3]) == PrefixArg(w[2]).value && Last(w[4]) == PrefixArg(w[2]).value && Last(w[5]) == PrefixArg(w[2]).value &&
      w[6][3] == PrefixArg(w[4]).value && w[6][5] == PrefixArg(w[5]).value
  {
    RegistrationOutputs(inFile, base);
    DerivedOutputs(inFile, base);
  }

  /** The outputs of despike, tshift and volreg. */
  lemma RegistrationOutputs(inFile: string, base: string)
    ensures var p := StagePrefixes(base);
      var w := Workflow(inFile, p);
      PrefixArg(w[0]) == Some(Gz(p.despike)) && PrefixArg(w[1]) == Some(Gz(p.tshift)) &&
      PrefixArg(w[2]) == Some(Gz(p.volreg))
  {
    var p := StagePrefixes(base);
    var w := Workflow(inFile, p);
    PrefixArgAt(w[0], 2);
    PrefixArgAt(w[1], 2);
    NotFlag(p.tshift, ".1D");
    NotFlag(p.tshift, "_md.1D");
    PrefixArgAt(w[2], 12);
  }

  /** The outputs of automask, the mean, detrend and 3dcalc. */
  lemma DerivedOutputs(inFile: string, base: string)
    ensures var p := StagePrefixes(base);
      var w := Workflow(inFile, p);
      PrefixArg(w[3]) == Some(Gz(p.mask)) && PrefixArg(w[4]) == Some(Gz(p.mean)) &&
      PrefixArg(w[5]) == Some(Gz(p.detrend)) && PrefixArg(w[6]) == Some(Gz(p.detrendWithMean))
  {
    var p := StagePrefixes(base);
    var w := Workflow(inFile, p);
    PrefixArgAt(w[3], 3);
    PrefixArgAt(w[4], 3);
    PrefixArgAt(w[5], 4);
    NotFlag(p.mean, ".nii.gz");
    NotFlag(p.detrend, ".nii.gz");
    PrefixArgAt(w[6], 8);
  }

  /** The commands for the input `in_file` with clean name `clean` and output directory `out_dir`. */
  function Commands(inFile: string, clean: string, outDir: string): (w: seq<seq<string>>)
    ensures |w| == 7 && forall i :: 0 <= i < |w| ==> w[i] != []
  {
    Workflow(inFile, StagePrefixes(PathJoin(WorkDir(outDir, clean), clean)))
  }

  /** The index of the first command that exits with a non-zero status, if any. */
  function FirstFailure(cmds: seq<seq<string>>, run: Runner): (r: Option<nat>)
    ensures r.Some? ==> r.value < |cmds| && run(cmds[r.value]).returnCode != 0
    ensures r.Some? ==> forall j :: 0 <= j < r.value ==> run(cmds[j]).returnCode == 0
    ensures r.None? ==> forall j :: 0 <= j < |cmds| ==> run(cmds[j]).returnCode == 0
    decreases |cmds|
  {
    if cmds == [] then None
    else if run(cmds[0]).returnCode != 0 then Some(0)
    else
      match FirstFailure(cmds[1..], run)
      case None => None
      case Some(i) => Some(i + 1)
  }

  /** How many commands the loop starts: up to and including the first failure. */
  function Attempted(cmds: seq<seq<string>>, run: Runner): (n: nat)
    ensures n <= |cmds|
  {
    match FirstFailure(cmds, run)
    case Some(i) => i + 1
    case None => |cmds|
  }

  /** One `log_output` call: its level and its text. */
  datatype LogCall = LogCall(level: string, text: string)

  /** The "Output:" part of a log message, present when the command printed something. */
  function OutputLog(output: string): string
  {
    if output == "" then "" else "Output:\n" + output + "\n"
  }

  /**
   * The message logged after a command: the success message with return code 0, or the error
   * message, whose return code follows a backslash because the template writes `\{}`.
   */
  function CommandLog(cmd: seq<string>, outcome: CommandOutcome): string
    requires cmd != []
  {
    if outcome.returnCode == 0 then
      "Command:\n" + Join(cmd, ' ') + "\nReturn Code:\n0\n" + OutputLog(outcome.output)
    else
      "Error running " + cmd[0] + ".\nCommand:\n" + Join(cmd, ' ') + "\nReturn Code:\n\\" +
      IntToString(outcome.returnCode) + "\n" + OutputLog(outcome.output)
  }

  /** The clean file name and, when every command succeeded, the mean TSNR. */
  datatype WfResult = WfResult(clean: string, tsnr: Option<real>)

  /** `calc_tsnr(fname, in_file, epi_mask)`, which runs nipype and numpy. */
  type Tsnr = (string, string, string) -> real

  /** The arguments `calc_tsnr` is called with. */
  function TsnrArgs(clean: string, outDir: string): (string, string, string)
  {
    var cwd := WorkDir(outDir, clean);
    var p := StagePrefixes(PathJoin(cwd, clean));
    (PathJoin(cwd, clean) + "_TSNR", Gz(p.detrendWithMean), Gz(PathJoin(cwd, p.mask)))
  }

  /** What `seven_tesla_wf(in_file, out_dir)` returns. */
  function WfOutcome(inFile: string, outDir: string, run: Runner, tsnr: Tsnr): (r: Result<WfResult, Error>)
    ensures r.Err? <==> !Contains(inFile, ".nii")
    ensures r.Ok? ==> r.value.clean == CleanName(inFile).value
    ensures r.Ok? ==> (r.value.tsnr.None? <==> FirstFailure(Commands(inFile, r.value.clean, outDir), run).Some?)
    ensures r.Ok? && r.value.tsnr.Some? ==>
      var (fname, image, mask) := TsnrArgs(r.value.clean, outDir);
      r.value.tsnr.value == tsnr(fname, image, mask)
  {
    match CleanName(inFile)
    case Err(e) => Err(e)
    case Ok(clean) =>
      if FirstFailure(Commands(inFile, clean, outDir), run).Some? then Ok(WfResult(clean, None))
      else
        var (fname, image, mask) := TsnrArgs(clean, outDir);
        Ok(WfResult(clean, Some(tsnr(fname, image, mask))))
  }

  /**
   * The workflow run: the commands in order, each logged at the default INFO level, until the first
   * one that fails; the TSNR only after all seven succeeded.
   */
  method SevenTeslaWf(inFile: string, outDir: string, run: Runner, tsnr: Tsnr)
    returns (r: Result<WfResult, Error>, ran: seq<seq<string>>, logged: seq<LogCall>)
    ensures r == WfOutcome(inFile, outDir, run, tsnr)
    ensures r.Err? ==> ran == [] && logged == []
    ensures r.Ok? ==> var cmds := Commands(inFile, r.value.clean, outDir); ran == cmds[..Attempted(cmds, run)]
    ensures |logged| == |ran|
    ensures forall i :: 0 <= i < |ran| ==> ran[i] != [] && logged[i] == LogCall("INFO", CommandLog(ran[i], run(ran[i])))
  {
    var name := CleanName(inFile);
    if name.Err? {
      return Err(ValueError), [], [];
    }
    var clean := name.value;
    var cwd := PathJoin(outDir, clean);
    var workflow := Workflow(inFile, StagePrefixes(PathJoin(cwd, clean)));
    var wfSuccess;
    wfSuccess, ran, logged := RunCommands(workflow, run);
    if wfSuccess {
      var (fname, image, mask) := TsnrArgs(clean, outDir);
      r := Ok(WfResult(clean, Some(tsnr(fname, image, mask))));
    } else {
      r := Ok(WfResult(clean, None));
    }
  }

  /** The `for cmd in workflow` loop with its `wf_success` flag. */
  method RunCommands(cmds: seq<seq<string>>, run: Runner) returns (wfSuccess: bool, ran: seq<seq<string>>, logged: seq<LogCall>)
    requires forall i :: 0 <= i < |cmds| ==> cmds[i] != []
    ensures wfSuccess <==> FirstFailure(cmds, run).None?
    ensures ran == cmds[..Attempted(cmds, run)]
    ensures |logged| == |ran|
    ensures forall i :: 0 <= i < |ran| ==> logged[i] == LogCall("INFO", CommandLog(ran[i], run(ran[i])))
  {
    ran, logged := [], [];
    wfSuccess := true;
    var i := 0;
    while i < |cmds|
      invariant 0 <= i <= |cmds| && ran == cmds[..i]
      invariant wfSuccess ==> Succeeded(cmds, i, run)
      invariant !wfSuccess ==> 0 < i && run(cmds[i - 1]).returnCode != 0 && Succeeded(cmds, i - 1, run)
      invariant Logged(ran, logged, run)
    {
      if !wfSuccess {
        break;
      }
      var cmd := cmds[i];
      var outcome := run(cmd);
      var logStr := CommandMessage(cmd, outcome);
      if outcome.returnCode != 0 {
        wfSuccess := false;
      } else {
        SucceededStep(cmds, i, run);
      }
      LoggedStep(ran, logged, run, cmd, logStr);
      logged := logged + [LogCall("INFO", logStr)];
      assert cmds[..i + 1] == cmds[..i] + [cmd];
      ran := ran + [cmd];
      i := i + 1;
    }
    FailureAt(cmds, run, if wfSuccess then None else Some(i - 1));
    assert i == Attempted(cmds, run);
  }

  /** `logged` holds one INFO call per command in `ran`, with that command's log text. */
  predicate Logged(ran: seq<seq<string>>, logged: seq<LogCall>, run: Runner)
  {
    |logged| == |ran| &&
    forall i :: 0 <= i < |ran| ==> ran[i] != [] && logged[i] == LogCall("INFO", CommandLog(ran[i], run(ran[i])))
  }

  lemma LoggedStep(ran: seq<seq<string>>, logged: seq<LogCall>, run: Runner, cmd: seq<string>, logStr: string)
    requires Logged(ran, logged, run) && cmd != [] && logStr == CommandLog(cmd, run(cmd))
    ensures Logged(ran + [cmd], logged + [LogCall("INFO", logStr)], run)
  {
    var ran' := ran + [cmd];
    var logged' := logged + [LogCall("INFO", logStr)];
    forall i | 0 <= i < |ran'| ensures ran'[i] != [] && logged'[i] == LogCall("INFO", CommandLog(ran'[i], run(ran'[i]))) {
      if i < |ran| {
        assert ran'[i] == ran[i] && logged'[i] == logged[i];
      }
    }
  }

  /** The first `n` commands all returned 0. */
  predicate Succeeded(cmds: seq<seq<string>>, n: nat, run: Runner)
    requires n <= |cmds|
  {
    forall j :: 0 <= j < n ==> run(cmds[j]).returnCode == 0
  }

  lemma SucceededStep(cmds: seq<seq<string>>, n: nat, run: Runner)
    requires n < |cmds| && Succeeded(cmds, n, run) && run(cmds[n]).returnCode == 0
    ensures Succeeded(cmds, n + 1, run)
  {
  }

  /** The first failure is the one the loop stopped at. */
  lemma FailureAt(cmds: seq<seq<string>>, run: Runner, k: Option<nat>)
    requires k.Some? ==> k.value < |cmds| && run(cmds[k.value]).returnCode != 0 && Succeeded(cmds, k.value, run)
    requires k.None? ==> Succeeded(cmds, |cmds|, run)
    ensures FirstFailure(cmds, run) == k
  {
  }

  /** The log text of one command, built the way the loop body builds it. */
  method CommandMessage(cmd: seq<string>, outcome: CommandOutcome) returns (logStr: string)
    requires cmd != []
    ensures logStr == CommandLog(cmd, outcome)
  {
    if outcome.returnCode == 0 {
      logStr := "Command:\n" + Join(cmd, ' ') + "\nReturn Code:\n0\n";
    } else {
      logStr := "Error running " + cmd[0] + ".\nCommand:\n" + Join(cmd, ' ') + "\nReturn Code:\n\\" +
        IntToString(outcome.returnCode) + "\n";
    }
    if outcome.output != "" {
      logStr := logStr + ("Output:\n" + outcome.output + "\n");
    } else {
      assert logStr + OutputLog(outcome.output) == logStr;
    }
  }

  /** The file a program started in the directory `cwd` opens or creates for `path`. */
  function Resolved(cwd: string, path: string): string
  {
    PathJoin(cwd, path)
  }

  /**
   * Every command runs with `cwd` as its working directory, so 3dAutomask creates its "-prefix"
   * file at `Resolved(cwd, prefix)`. The mask handed to `calc_tsnr` is `os.path.join(cwd,
   * epi_mask_fname)` with ".nii.gz" appended, which is exactly that file, whether `out_dir` is
   * absolute or relative.
   */
  lemma TsnrMaskPath(inFile: string, outDir: string, clean: string)
    requires ValidName(clean) && outDir != []
    ensures var cwd := WorkDir(outDir, clean);
      var p := StagePrefixes(PathJoin(cwd, clean));
      PrefixArg(Commands(inFile, clean, outDir)[3]) == Some(Gz(p.mask)) &&
      TsnrArgs(clean, outDir).2 == Resolved(cwd, Gz(p.mask))
  {
    var cwd := WorkDir(outDir, clean);
    var base := PathJoin(cwd, clean);
    var p := StagePrefixes(base);
    WorkflowChain(inFile, base);
    JoinedFirst(outDir, clean);
    JoinedFirst(cwd, clean);
    PrefixesExtendBase(base);
    assert p.mask[0] == base[0];
    JoinThenSuffix(cwd, p.mask, ".nii.gz");
  }

  /**
   * 3dcalc, too, creates its "-prefix" file in `cwd`, but the image handed to `calc_tsnr` is that
   * prefix as written, not joined with `cwd`. It names the file 3dcalc wrote exactly when `out_dir`
   * is absolute; with a relative `out_dir` it is a relative path, which `calc_tsnr` resolves against
   * the Python process's own working directory instead.
   */
  lemma TsnrImagePath(inFile: string, outDir: string, clean: string)
    requires ValidName(clean) && outDir != []
    ensures var cwd := WorkDir(outDir, clean);
      var p := StagePrefixes(PathJoin(cwd, clean));
      PrefixArg(Commands(inFile, clean, outDir)[6]) == Some(Gz(p.detrendWithMean)) &&
      (TsnrArgs(clean, outDir).1 == Resolved(cwd, Gz(p.detrendWithMean)) <==> outDir[0] == '/') &&
      (outDir[0] != '/' ==> TsnrArgs(clean, outDir).1[0] != '/')
  {
    var cwd := WorkDir(outDir, clean);
    var base := PathJoin(cwd, clean);
    var p := StagePrefixes(base);
    WorkflowChain(inFile, base);
    JoinedFirst(outDir, clean);
    JoinedFirst(cwd, clean);
    PrefixesExtendBase(base);
    assert Gz(p.detrendWithMean)[0] == base[0];
    JoinSameStart(cwd, Gz(p.detrendWithMean));
  }

  /** `os.path.join(a, name)` starts where `a` starts and ends where `name` ends. */
  lemma JoinedFirst(a: string, name: string)
    requires a != [] && ValidName(name)
    ensures PathJoin(a, name) != [] && PathJoin(a, name)[0] == a[0] && Last(PathJoin(a, name)) == Last(name)
  {
  }

  /** Joining onto a directory with the path's own first character: a no-op exactly for absolute paths. */
  lemma JoinSameStart(cwd: string, path: string)
    requires cwd != [] && path != [] && cwd[0] == path[0] && Last(cwd) != '/'
    ensures cwd[0] == '/' ==> PathJoin(cwd, path) == path
    ensures cwd[0] != '/' ==> PathJoin(cwd, path) != path
  {
    if cwd[0] != '/' {
      assert |PathJoin(cwd, path)| > |path|;
    }
  }

  /** Appending to a non-empty path commutes with joining it onto a directory. */
  lemma JoinThenSuffix(a: string, b: string, suffix: string)
    requires b != []
    ensures PathJoin(a, b) + suffix == PathJoin(a, b + suffix)
  {
    var bs := b + suffix;
    assert bs[0] == b[0];
    if b[0] == '/' {
      assert PathJoin(a, bs) == bs;
    } else if a == [] || a[|a| - 1] == '/' {
      assert PathJoin(a, bs) == a + bs;
      assert (a + b) + suffix == a + bs;
    } else {
      var dir := a + "/";
      assert PathJoin(a, bs) == dir + bs;
      assert (dir + b) + suffix == dir + bs;
    }
  }
}
