/**
 * The helpers of `utils.py`: the level dispatch of `log_output` with its
 * acquire/release pairing, the keep/exclude decision of `filter_series`, and the
 * directory `extract_tgz` reports after unpacking an archive.
 */
module Utils {
  import opened Wrappers
  import opened Errors
  import opened Text
  import opened Paths
  import opened Dicts

  /** What one `log_output` call makes observable, in order. */
  datatype LogEvent =
    | Acquire                                  // semaphore.acquire()
    | Release                                  // semaphore.release()
    | LoggerCall(level: string, text: string)  // logger.debug/warning/critical/error/info(text)
    | Printed(text: string)                    // print(text)

  /** The levels `log_output` dispatches on; the logger method of each has the level's name. */
  predicate KnownLevel(level: string)
  {
    level in ["DEBUG", "WARNING", "CRITICAL", "ERROR", "INFO"]
  }

  /** The write `log_output` performs between acquiring and releasing the semaphore. */
  function LogWrite(text: string, level: string, hasLogger: bool): (w: seq<LogEvent>)
  {
    if !hasLogger then [Printed(text)]
    else if KnownLevel(level) then [LoggerCall(level, text)]
    else []
  }

  /**
   * The events of one `log_output(text, level, logger, semaphore)` call. `hasLogger` and
   * `hasSemaphore` are the truth values of the two optional arguments; `writeRaises` says the
   * logger or `print` raised, in which case the exception leaves the function before the release.
   */
  function LogEvents(text: string, level: string, hasLogger: bool, hasSemaphore: bool, writeRaises: bool): (r: seq<LogEvent>)
    ensures hasSemaphore <==> Acquire in r
    ensures hasSemaphore && !writeRaises <==> Release in r
    ensures hasSemaphore ==> r[0] == Acquire
    ensures hasSemaphore && !writeRaises ==> r[|r| - 1] == Release
    ensures !writeRaises && hasLogger && KnownLevel(level) ==>
      forall e :: e in r && !e.Acquire? && !e.Release? ==> e == LoggerCall(level, text)
    ensures !writeRaises && hasLogger && KnownLevel(level) ==> LoggerCall(level, text) in r
    ensures hasLogger && !KnownLevel(level) ==> forall e :: e in r ==> e.Acquire? || e.Release?
    ensures !hasLogger ==> forall e :: e in r ==> !e.LoggerCall?
    ensures !writeRaises && !hasLogger ==> Printed(text) in r
  {
    if writeRaises then (if hasSemaphore then [Acquire] else [])
    else if hasSemaphore then [Acquire] + LogWrite(text, level, hasLogger) + [Release]
    else LogWrite(text, level, hasLogger)
  }

  /**
   * How often each event of one `log_output` call occurs: at most one acquire and one release, and
   * exactly one logger call or one print when the write goes through; nothing else.
   */
  lemma LogEventCounts(text: string, level: string, hasLogger: bool, hasSemaphore: bool, writeRaises: bool)
    ensures var r := LogEvents(text, level, hasLogger, hasSemaphore, writeRaises);
      multiset(r)[Acquire] == (if hasSemaphore then 1 else 0) &&
      multiset(r)[Release] == (if hasSemaphore && !writeRaises then 1 else 0) &&
      (!writeRaises && hasLogger && KnownLevel(level) ==> multiset(r)[LoggerCall(level, text)] == 1) &&
      (!writeRaises && !hasLogger ==> multiset(r)[Printed(text)] == 1) &&
      |r| == (if hasSemaphore then 1 else 0) + (if hasSemaphore && !writeRaises then 1 else 0) +
             (if !writeRaises && (!hasLogger || KnownLevel(level)) then 1 else 0)
  {
    var w := LogWrite(text, level, hasLogger);
    if !writeRaises && hasSemaphore {
      assert multiset([Acquire] + w + [Release]) == multiset([Acquire]) + multiset(w) + multiset([Release]);
    }
  }

  /** Where the log events go: the logger, standard output and the semaphore, seen as one trace. */
  class LogSink {
    var events: seq<LogEvent>

    constructor ()
      ensures events == []
    {
      events := [];
    }

    /** `log_output`: appends the call's events; reports whether the write raised. */
    method LogOutput(text: string, level: string, hasLogger: bool, hasSemaphore: bool, writeRaises: bool)
      returns (r: Result<(), Error>)
      modifies this
      ensures events == old(events) + LogEvents(text, level, hasLogger, hasSemaphore, writeRaises)
      ensures r.Err? <==> writeRaises
    {
      ghost var acquired: seq<LogEvent> := if hasSemaphore then [Acquire] else [];
      if hasSemaphore {
        events := events + [Acquire];
      }
      if writeRaises {
        assert LogEvents(text, level, hasLogger, hasSemaphore, writeRaises) == acquired + [] + [];
        return Err(IOError);
      }
      Write(text, level, hasLogger);
      assert events == old(events) + acquired + LogWrite(text, level, hasLogger);
      if hasSemaphore {
        events := events + [Release];
      }
      ghost var released: seq<LogEvent> := if hasSemaphore then [Release] else [];
      assert events == old(events) + (acquired + LogWrite(text, level, hasLogger) + released);
      return Ok(());
    }

    /** The write of `log_output`: the logger method named by `level`, or `print` without a logger. */
    method Write(text: string, level: string, hasLogger: bool)
      modifies this
      ensures events == old(events) + LogWrite(text, level, hasLogger)
    {
      if hasLogger {
        if level == "DEBUG" {
          events := events + [LoggerCall("DEBUG", text)];
        } else if level == "WARNING" {
          events := events + [LoggerCall("WARNING", text)];
        } else if level == "CRITICAL" {
          events := events + [LoggerCall("CRITICAL", text)];
        } else if level == "ERROR" {
          events := events + [LoggerCall("ERROR", text)];
        } else if level == "INFO" {
          events := events + [LoggerCall("INFO", text)];
        } else {
          assert !KnownLevel(level);
        }
      } else {
        events := events + [Printed(text)];
      }
    }
  }

  /** The names in a directory listing that contain ".dcm", in listing order. */
  function DcmFiles(listing: seq<string>): (r: seq<string>)
    ensures forall i :: 0 <= i < |r| ==> Contains(r[i], ".dcm")
    ensures forall f :: f in r <==> f in listing && Contains(f, ".dcm")
  {
    if listing == [] then []
    else if Contains(listing[0], ".dcm") then [listing[0]] + DcmFiles(listing[1..])
    else DcmFiles(listing[1..])
  }

  /** The truth value of the `filters` argument: `None` and `{}` are false. */
  predicate FiltersGiven(filters: Option<Dict<string, seq<string>>>)
  {
    filters.Some? && filters.value.keys != []
  }

  /**
   * The outcome of `filter_series(scan_dir, filters)`: `Ok(true)` excludes the scan.
   * `listing` is `os.listdir(scan_dir)`; `sequenceNameOf(f)` is the `SequenceName` tag of the
   * DICOM file `f`, `None` when the file has none (reading it then raises AttributeError).
   */
  function FilterDecision(scanDir: string, listing: seq<string>, filters: Option<Dict<string, seq<string>>>,
                          sequenceNameOf: string -> Option<string>): Result<bool, Error>
  {
    if !FiltersGiven(filters) then Ok(false)
    else
      var dcm := DcmFiles(listing);
      if dcm == [] then Ok(false)
      else if "sequences" !in filters.value.entries then Ok(false)
      else
        match sequenceNameOf(PathJoin(scanDir, dcm[0]))
        case None => Err(AttributeError)
        case Some(name) => Ok(Strip(name) !in filters.value.entries["sequences"])
  }

  /**
   * `filter_series`: walks the filter keys, acting only on "sequences", and returns at the
   * first decision.
   */
  method FilterSeries(scanDir: string, listing: seq<string>, filters: Option<Dict<string, seq<string>>>,
                      sequenceNameOf: string -> Option<string>) returns (r: Result<bool, Error>)
    requires filters.Some? ==> filters.value.Valid()
    ensures r == FilterDecision(scanDir, listing, filters, sequenceNameOf)
    ensures !FiltersGiven(filters) ==> r == Ok(false)
    ensures FiltersGiven(filters) && DcmFiles(listing) == [] ==> r == Ok(false)
    ensures filters.Some? && "sequences" !in filters.value.keys ==> r == Ok(false)
    ensures FiltersGiven(filters) && DcmFiles(listing) != [] && "sequences" in filters.value.keys ==>
      var tag := sequenceNameOf(PathJoin(scanDir, DcmFiles(listing)[0]));
      (r == Err(AttributeError) <==> tag.None?) &&
      (r == Ok(true) <==> tag.Some? && Strip(tag.value) !in filters.value.entries["sequences"])
    ensures r == Ok(true) ==> exists f :: f in listing && Contains(f, ".dcm")
  {
    if !FiltersGiven(filters) {
      return Ok(false);
    }
    var dcm := DcmFiles(listing);
    if dcm == [] {
      return Ok(false);
    }
    var keys := filters.value.keys;
    var i := 0;
    while i < |keys|
      invariant 0 <= i <= |keys|
      invariant "sequences" !in keys[..i]
    {
      if keys[i] == "sequences" {
        assert keys[i] in filters.value.entries;
        var tag := sequenceNameOf(PathJoin(scanDir, dcm[0]));
        if tag.None? {
          return Err(AttributeError);
        }
        var name := Strip(tag.value);
        if name !in filters.value.entries[keys[i]] {
          return Ok(true);
        }
        return Ok(false);
      }
      i := i + 1;
    }
    assert keys[..i] == keys;
    return Ok(false);
  }

  /**
   * The path `extract_tgz(fpath, out_path)` returns. `isTar` is `tarfile.is_tarfile(fpath)`, which
   * accepts a tar archive with any compression or none; `isGzip` says that the file is gzip-compressed,
   * which `tarfile.open(fpath, "r:gz")` demands (it raises ReadError otherwise); `firstMember` is the
   * name of the archive's first member (`None` for an empty archive, where `tar.next()` is `None`),
   * `cwd` the working directory.
   */
  function ExtractedDir(isTar: bool, isGzip: bool, firstMember: Option<string>, outPath: string, cwd: string): (r: Result<string, Error>)
    ensures !isTar ==> r == Err(TarError)
    ensures isTar && !isGzip ==> r == Err(ReadError)
    ensures isTar && isGzip && firstMember.None? ==> r == Err(AttributeError)
    ensures r.Ok? <==> isTar && isGzip && firstMember.Some?
  {
    if !isTar then Err(TarError)
    else if !isGzip then Err(ReadError)
    else if firstMember.None? then Err(AttributeError)
    else Ok(PathJoin(if outPath == "." then cwd else outPath, firstMember.value))
  }

  /**
   * The extracted directory is the archive's first member, placed under `out_path`, or under
   * the working directory when `out_path` is ".".
   */
  lemma ExtractedDirLocation(firstMember: string, outPath: string, cwd: string)
    requires ValidName(firstMember)
    ensures ExtractedDir(true, true, Some(firstMember), outPath, cwd).Ok?
    ensures var d := ExtractedDir(true, true, Some(firstMember), outPath, cwd).value;
      Basename(d) == firstMember &&
      Split(d, '/') == ParentSegments(if outPath == "." then cwd else outPath) + [firstMember]
  {
    JoinNameSegments(if outPath == "." then cwd else outPath, firstMember);
  }
}
