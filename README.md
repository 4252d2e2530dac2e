# 7T_qc core in Dafny

This project models the deterministic core of the 7T_qc tools. These tools are a DICOM-to-BIDS converter and a quality-control pipeline for 7 Tesla fMRI data. The model covers:

- **`convert_to_bids`** (`converters.py`):
  - the BIDS directory guard and the archive extraction;
  - the walk over the uncompressed Oxygen tree (top-level directory, session directories, `mr_` scan directories);
  - the nested BIDS mapping with its zero-padded subject, session and run numbers;
  - the flattening of the mapping into `(series_dir, bids_fpath)` work items and the BIDS file names;
  - the conversion of each item by `dcm_to_nifti`, in a thread pool or one after the other;
  - the merge of each returned `(series_dir, bids_fpath, success)` triple back into the mapping.
- **`dcm_to_nifti`**: the tool dispatch, the dcm2niix and Dimon commands, the scrape of dcm2niix's console output, Dimon's success rule and the paths it returns.
- **`seven_tesla_wf`** (`workflows.py`): the clean-name rule, the seven AFNI commands and the files they chain together, the command loop that stops at the first failure, the INFO log entries, and the call of `calc_tsnr`.
- **`utils.py`**: the level dispatch of `log_output` with its acquire/release pairing, the keep/exclude decision of `filter_series`, and the directory `extract_tgz` reports.
- **`algorithms.py`**: `parse_fwhm`, `extract_fd_results`, and the loop shape of `fd_jenkinson`.
- **`gen_bids.py` lines 109–130**: the mapping file's key order. Every dictionary is sorted by key, then the subjects are re-ordered by `bids_subject`.
- **`run_analysis.py` lines 66–99**: the TSNR results gathered by clean name and written as sorted CSV rows.

Python's `str.split`, `str.join`, `str.strip`, whitespace `split()`, `in` on strings, `posixpath.join`/`basename`, `"{:0>4d}"`, `str(int)`, string `<`, `sorted` and insertion-ordered dictionaries are defined in the modules `Text`, `Paths`, `Numerals`, `Ordering` and `Dicts`. Python's exceptions are the `Errors.Error` values carried by `Wrappers.Result`.

The outside world is passed in as parameters:
- external programs are `Dcm.Runner`, from an argument vector to its exit status and output;
- directory listings are sequences of names in `glob` order;
- `filter_series` during the mapping walk and `get_scanner_meta` are `Mapping.Probe`;
- `calc_tsnr` is `Workflows.Tsnr`;
- `get_tsnr` is `RunAnalysis.GetTsnr`;
- the matrix algebra of `fd_jenkinson` is `Algorithms.Displacement`;
- `float()` is `Algorithms.FloatParser`;
- printing a float is `formatReal`.

Loops of the source are methods with loop invariants. Each is proved equal to a recursive function stated in terms of the inputs. The properties are proved about those functions.

The code behaves as follows on these edges, and the model keeps it:
- The dcm2niix scrape evaluates `s[0]` on every token of the first "Convert" line. Any empty token on that line raises IndexError, not only one before the absolute path.
- `filter_series` raises AttributeError for a DICOM file without a `SequenceName`. It does not exclude the scan.
- `log_output` has no `try`/`finally`, so a write that raises leaves the semaphore acquired.
- `session_counter` restarts for every top-level directory, not for every subject.
- The sequential conversion branch always uses dcm2niix, whatever `conversion_tool` says.
- The threaded extraction never reads its futures, so a `TarError` there is lost. The sequential extraction lets it out.
- `extract_fd_results` on a blank file fails in `float("")` (ValueError) before the division.
- `extract_tgz` accepts any tar file by `is_tarfile` but opens it as gzip, so a plain or bzip2 tar raises ReadError.
- With `overwrite` set, the BIDS directory is emptied with `shutil.rmtree`, which raises OSError on a regular file there.
- `calc_tsnr` receives the mask joined with the working directory, but the 3dcalc image as a bare prefix. With a relative `out_dir` that image path is relative to the Python process's directory, not to the directory 3dcalc wrote it in.

## Model

| member | source | states |
|---|---|---|
| Mapping.CandidateScans | converters.py:298 | the candidate scans are exactly the joined sub-directory paths that contain "mr_" |
| Mapping.NewScan | converters.py:310-320 | a new scan entry has the last three segments of the scan directory as `series_dir`, an empty `bids_fpath`, status False, the meta `func`/`bold`/`task-fmri` with the run number `counter` zero-padded, and scanner metadata exactly when it is asked for |
| Mapping.ScanStep | converters.py:304-326 | a scan gets an entry exactly when `filter_series` returns False, and the entry is the fresh one numbered `counter` |
| Mapping.NewSession | converters.py:288-294 | IndexError exactly for a session path with fewer than two segments; otherwise the entry carries its zero-padded session number, the `oxygen_file` name `<parent>-<session>-DICOM.tgz` from the last two segments, and no scans |
| Mapping.SessionStep | converters.py:286-298 | every session directory that does not raise is stored, numbered `counter` |
| Mapping.AddScans | converters.py:300-326 | the scan loop computes the recursive scan fold from run number 1 |
| Mapping.AddSessions | converters.py:284-296 | the session loop computes the recursive session fold from session number 1 |
| Mapping.BuildMapping | converters.py:259-326 | the subject loop computes `MappingFor`: the mapping is `{}` with a guide, else the fold over the top-level directories |
| Mapping.ScanRuns | converters.py:298-326 | the scans of a session are the `mr_` directories `filter_series` keeps, in order; the j-th kept scan has run `Pad4(j+1)`, an empty path and status False (contiguous runs, dropped scans consume no number) |
| Mapping.FilterDistinct | converters.py:302-308 | dropping filtered scans keeps their names distinct |
| Mapping.SessionOrder | converters.py:286-296 | the session keys are the existing keys followed by the new ones, each once; a repeated session key overwrites in place; other sessions are unchanged |
| Mapping.SessionNumbers | converters.py:284-296 | the i-th session directory of a top-level directory is numbered `Pad4(i+1)`, even when the subject already had sessions from another top-level directory |
| Mapping.SubjectsOrder | converters.py:269-280 | subjects are keyed in order of first appearance; the j-th key has `bids_subject == Pad4(j+1)`; a repeated key does not advance the counter |
| Mapping.PutNewNumbered | converters.py:273-280 | adding a new subject with the next number keeps the numbering invariant |
| Mapping.PutKeepsNumbered | converters.py:290 | updating the sessions of an existing subject keeps the key order and the numbering |
| Mapping.SessionsWellFormedKept | converters.py:290-294 | the session loop keeps every session and scan dictionary duplicate-free |
| Mapping.SubjectsWellFormed | converters.py:269-326 | the subject loop keeps every nested dictionary duplicate-free |
| Mapping.MappingNumbering | converters.py:259-280 | the built mapping is well formed and numbered `0001`, `0002`, … by first appearance; with a truthy guide it is empty |
| Mapping.AppendNewDistinct | converters.py:273 | appending keys that are all new keeps all of them, in order |
| Mapping.InsertNumberedKeys | converters.py:290-296 | the numbered-insertion loop leaves keys in first-insertion order and other entries unchanged |
| Mapping.InsertNumberedValues | converters.py:290-296 | with distinct keys, every stored item sits under its key with the number it was given |
| Mapping.StoredFilter | converters.py:306-326 | the numbered items are exactly the kept items, numbered consecutively |
| Mapping.InsertFiltered | converters.py:298-326 | the filtered loop yields exactly the kept keys, each holding its consecutively numbered value |
| Mapping.NumberedHolds | converters.py:284-296 | a property every numbered value has at its number holds for the entry of every item |
| Worklist.BidsFpathParts | converters.py:336-353 | the destination is `bids_dir/sub-S/ses-T/type/sub-S_ses-T_desc_run-R[_modality].nii.gz`; its stem is `out_fname` and its directory is `out_bdir` |
| Worklist.StemPlain | converters.py:344-349 | the BIDS stem contains neither '/' nor '.' |
| Worklist.OutDirSegments | converters.py:351 | the output directory's segments are the BIDS directory's followed by `sub-S`, `ses-T`, `type` |
| Worklist.EmptyExecList | converters.py:330-353 | an empty mapping, as with a mapping guide, gives no work items |
| Worklist.ExecListCoverage | converters.py:330-353 | every scan of the mapping gives its work item, and every work item comes from a scan of the mapping |
| Worklist.SubjectItemsCoverage | converters.py:332-353 | the same, over any list of subject keys |
| Worklist.SessionItemsCoverage | converters.py:333-353 | the same, over the sessions of one subject |
| Worklist.ScanItemsCoverage | converters.py:334-353 | the same, over the scans of one session |
| Worklist.BuildExecList | converters.py:330-353 | the nested loops build exactly `ExecList`, in subject, session and scan key order |
| Worklist.AppendSessions | converters.py:333-353 | the session loop appends the items of every session, in key order |
| Worklist.AppendScans | converters.py:334-353 | the scan loop appends one item per scan, in key order |
| Worklist.MakeItem | converters.py:336-353 | one work item is the joined series directory and the BIDS path |
| Dcm.LinesWith | converters.py:80 | the selected lines are exactly those containing the substring, in order |
| Dcm.AbsoluteTokens | converters.py:80-81 | the selected tokens are exactly those starting with '/' |
| Dcm.ScrapeActualFname | converters.py:79-81 | the scrape succeeds exactly when there is a "Convert" line, no token of that line is empty, and one starts with '/'; the result has no '/'; every failure is IndexError |
| Dcm.ScrapeWellFormed | converters.py:79-81 | on output whose first "Convert" line has non-empty tokens, the scrape returns the base name of the first absolute token |
| Dcm.FirstConvertLine | converters.py:80 | the first line containing "Convert" is found after the lines before it |
| Dcm.ScrapeFromLine | converters.py:80-81 | when the first "Convert" line is well formed, the scrape is the base name of its first absolute token |
| Dcm.AbsoluteTokensFirst | converters.py:80-81 | the first absolute token is the one with no earlier absolute token |
| Dcm.DimonSucceeded | converters.py:146-161 | Dimon succeeds exactly with exit status 0 and no `-quit_on_err` marker, so the marker means failure even with status 0 |
| Dcm.DcmToNifti | converters.py:42-205 | unsupported tool raises NiftyConversionFailure; a failed run returns success False; a clean dcm2niix run returns success True unless the scrape fails or no ".dcm" file is listed (IndexError); a clean Dimon run returns success True unless no ".dcm" file is listed (IndexError); the returned paths are the last 3 segments of `dcm_dir` and the last 4 segments of `out_dir` joined with `out_fname.nii.gz` |
| Conversion.MergeKeyOf | converters.py:382-384 | the merge key exists exactly when the first segment has a '-' and there are three segments; otherwise IndexError |
| Conversion.Lookup | converters.py:387-388 | a scan entry is found exactly when the mapping has that subject, session and scan |
| Conversion.Converted | converters.py:387-388 | a converted entry has status True and the reported path; all else is unchanged |
| Conversion.Record | converters.py:387-388 | recording succeeds exactly when the scan exists; a missing key raises KeyError of that key |
| Conversion.RecordEffect | converters.py:386-388 | recording converts exactly the addressed scan, keeps the mapping's shape, and leaves every other scan as it was |
| Conversion.RecordElsewhere | converters.py:386-388 | recording one scan leaves any other scan as it was |
| Conversion.SameMappingReflexive | converters.py:386-388 | the shape relation holds of a mapping and itself |
| Conversion.SameMappingTransitive | converters.py:379-388 | shape-preservation composes over many merge steps |
| Conversion.SameMappingWellFormed | converters.py:379-388 | a mapping of the same shape keeps well-formedness, numbering and the set of scans |
| Conversion.MergeStep | converters.py:380-388 | a bad `series_dir` raises IndexError; a failed result leaves the mapping unchanged; a merged success names a scan of the mapping |
| Conversion.MergeStepEffect | converters.py:380-388 | one merge step converts the reported scan when it succeeded and changes nothing else |
| Conversion.MergeEffect | converters.py:379-388 | after the merge: every success named a mapping scan, the shape is the same, an unreported scan keeps `""`/False, and a scan reported several times holds the path of the last report |
| Conversion.LastSuccessStep | converters.py:379-388 | the last success of a scan wins over earlier steps |
| Conversion.Convert | converters.py:364-372 | converting an item asks `dcm_to_nifti` for `out_bdir` and `out_fname` and returns its series directory's last 3 segments |
| Conversion.Conversions | converters.py:362-377 | one future per work item, in submission order |
| Conversion.ModesAgree | converters.py:390-409 | the sequential branch equals converting everything with dcm2niix and then merging in order, as the threaded branch does |
| Conversion.UnsupportedTool | converters.py:202-205 | with an unsupported tool the threaded run raises NiftyConversionFailure at the first result |
| Conversion.RunParallel | converters.py:356-388 | the threaded branch computes the merge of all results in submission order |
| Conversion.Submit | converters.py:360-377 | the submission loop makes one future per work item |
| Conversion.MergeFutures | converters.py:379-388 | the future loop computes `MergeResults` |
| Conversion.RunSequential | converters.py:390-409 | the sequential loop computes `ConvertSequential` |
| Conversion.MergeKeyRoundTrip | converters.py:382-384 | for a top-level name with exactly two '-' tokens, the merge recovers the subject, session and scan keys the builder used |
| Conversion.ReturnedSeriesDir | converters.py:99-101 | the returned series directory splits back into the top-level, session and scan names |
| Conversion.MergeKeyThreeTokens | converters.py:382 | for `a-b-c` the builder keys the subject `c` but the merge looks up `b` |
| Conversion.MergeKeyNoHyphen | converters.py:382 | a top-level name without '-' makes the merge raise IndexError |
| Conversion.ConvertedPaths | converters.py:99-101 | the returned `bids_fpath` is the BIDS directory's last segment, `sub-S/ses-T/type`, then the file name |
| Conversion.OutDirLastSegments | converters.py:100 | the last four segments of `out_bdir` are the BIDS directory's name, `sub-S`, `ses-T`, `type` |
| Conversion.ExtractionError | converters.py:250-252 | the sequential extraction raises exactly when some archive fails, and only TarError, ReadError or AttributeError |
| Conversion.ExtractAll | converters.py:250-252 | the extraction loop stops at the first archive that raises |
| Conversion.Visible | converters.py:219 | `glob('*')` sees exactly the entries not starting with '.' |
| Conversion.EffectiveTool | converters.py:370-401 | the threaded branch uses the requested tool and the sequential branch always dcm2niix |
| Conversion.RemovalError | converters.py:224-226 | removing the visible entries raises OSError exactly when one of them is not a directory |
| Conversion.RemoveTrees | converters.py:224-226 | the removal loop stops at the first entry `rmtree` cannot remove |
| Conversion.ConvertToBids | converters.py:208-411 | a non-empty BIDS directory without overwrite raises DuplicateFile before anything else; with overwrite, a visible non-directory entry raises OSError; success means the guard and the removal passed, the sequential extraction succeeded, and the mapping was built |
| Conversion.RunResults | converters.py:356-409 | there is one result per work item |
| Conversion.ConvertToBidsMerge | converters.py:356-411 | both branches are one merge of the results in work-list order; with a guide the result is `{}` |
| Conversion.ConvertToBidsResult | converters.py:259-411 | the returned mapping has the built mapping's shape and numbering; unconverted scans keep `""`/False; converted scans hold the last reported path |
| Conversion.RunConvertToBids | converters.py:208-411 | the step-by-step run equals `ConvertToBids` |
| Workflows.CleanName | workflows.py:16-19 | ValueError exactly when ".nii" does not occur in `in_file`; the clean name has no '.' |
| Workflows.GzMentionsNii | workflows.py:16 | the ".nii.gz" test is subsumed by the ".nii" test |
| Workflows.CleanNameOf | workflows.py:17 | `dir/stem.nii.gz` has clean name `stem` |
| Workflows.StagePrefixes | workflows.py:26-103 | each stage's prefix extends the prefix it is derived from |
| Workflows.PrefixesExtendBase | workflows.py:21-103 | every prefix starts with `out_dir/clean_fname/clean_fname` |
| Workflows.PrefixArgAt | workflows.py:28-116 | the file a command writes is the argument after its first "-prefix" |
| Workflows.WorkflowChain | workflows.py:26-126 | each command writes its stage's file; despike reads the input, tshift reads despike, volreg reads tshift; automask, mean and detrend read volreg; 3dcalc reads mean and detrend |
| Workflows.RegistrationOutputs | workflows.py:26-60 | despike, tshift and volreg write their stage files |
| Workflows.DerivedOutputs | workflows.py:62-116 | automask, mean, detrend and 3dcalc write their stage files |
| Workflows.Workflow | workflows.py:118-126 | the workflow has seven commands |
| Workflows.Commands | workflows.py:21-126 | seven non-empty commands for the input and output directory |
| Workflows.FirstFailure | workflows.py:128-154 | the first command with a non-zero status; all earlier ones succeeded; None means all succeeded |
| Workflows.Attempted | workflows.py:128-154 | the number of commands started is at most the number of commands |
| Workflows.WfOutcome | workflows.py:14-167 | ValueError exactly without ".nii"; the TSNR is None exactly when some command failed, and otherwise it is `calc_tsnr` of the TSNR name, the 3dcalc image and the mask |
| Workflows.SevenTeslaWf | workflows.py:14-167 | returns `WfOutcome`, so after seven successes the TSNR `calc_tsnr` computes; runs commands up to and including the first failure, none after; logs each at INFO with its success or error text |
| Workflows.RunCommands | workflows.py:128-154 | the flag stays true exactly when no command failed; exactly the commands up to the first failure ran; one INFO log entry per command run |
| Workflows.LoggedStep | workflows.py:136-152 | logging the next command extends the log invariant |
| Workflows.SucceededStep | workflows.py:128-143 | a successful command extends the all-succeeded prefix |
| Workflows.FailureAt | workflows.py:128-154 | the loop's stopping point is the first failure |
| Workflows.CommandMessage | workflows.py:138-150 | the log text is the success or error template, with the output part only when there is output |
| Workflows.TsnrMaskPath | workflows.py:69-161 | the mask passed to `calc_tsnr` is exactly the file 3dAutomask, run in `cwd`, creates for its `-prefix`, for an absolute or a relative `out_dir` |
| Workflows.TsnrImagePath | workflows.py:103-160 | the image passed to `calc_tsnr` is the file 3dcalc, run in `cwd`, creates for its `-prefix` exactly when `out_dir` is absolute; otherwise it is a relative path |
| Utils.LogEvents | utils.py:7-29 | acquire first and release last exactly when a semaphore is given (no release if the write raises); with a logger only the matching level's call happens, unknown levels log nothing; without a logger the text is printed at any level |
| Utils.LogEventCounts | utils.py:7-29 | one call acquires at most once and releases at most once, and makes exactly one logger call or one print when the write goes through; the trace holds nothing else |
| Utils.LogSink.constructor | utils.py:7 | no events yet |
| Utils.LogSink.LogOutput | utils.py:7-29 | appends exactly `LogEvents` and raises exactly when the write raises |
| Utils.LogSink.Write | utils.py:12-26 | appends exactly the dispatched write |
| Utils.DcmFiles | utils.py:66 | exactly the listed names containing ".dcm", in order |
| Utils.FilterSeries | utils.py:62-87 | keep without filters, without ".dcm" files, or without a "sequences" key; exclude exactly when the stripped sequence name is not allowed; AttributeError when the tag is missing |
| Utils.ExtractedDir | utils.py:42-55 | TarError for a non-tar file, ReadError for a tar that is not gzip-compressed, AttributeError for an empty archive, otherwise a path |
| Utils.ExtractedDirLocation | utils.py:50-55 | the path is `out_path`, or the working directory when `out_path` is ".", followed by the first member's name |
| Algorithms.WordsAreTokens | algorithms.py:34 | joining the whitespace tokens with ' ' and splitting again gives the tokens, or `[""]` for a blank line |
| Algorithms.ParseFwhm | algorithms.py:29-38 | IndexError with fewer than two lines; success exactly when the second-to-last line has four whitespace tokens, returned in x, y, z, combined order; else ValueError |
| Algorithms.ParseFwhmOfLine | algorithms.py:29-38 | formatting four words as the second-to-last line parses back to them |
| Algorithms.LastLineSplit | algorithms.py:34 | a newline-terminated last line is the second-to-last `'\n'` piece |
| Algorithms.DisplacementsFrom | algorithms.py:81-96 | one displacement per row, each from that row and the previous one |
| Algorithms.FdSeries | algorithms.py:70-97 | success exactly for at least two rows of 12 values; one entry per row, the first 0, entry i from rows i-1 and i |
| Algorithms.FdSeriesLocal | algorithms.py:81-96 | entry i depends only on rows i-1 and i |
| Algorithms.FdJenkinson | algorithms.py:66-98 | the loop with `flag` and `T_rb_prev` computes `FdSeries` |
| Algorithms.ParseAll | algorithms.py:107 | every line parses, one value per line, in order |
| Algorithms.AboveIsStrict | algorithms.py:113 | the values counted are exactly those strictly above the cutoff, with multiplicity |
| Algorithms.AboveAll | algorithms.py:113 | the count equals the length exactly when every value is above the cutoff |
| Algorithms.PercentInRange | algorithms.py:116 | the percentage times the length is the count times 100; it is in [0, 100], equal to 100 exactly when all are counted |
| Algorithms.ExtractFdResults | algorithms.py:101-118 | ValueError exactly when a line does not parse; then the mean is sum/len, 0 ≤ count ≤ len, the percentage times len is count times 100 and lies in [0, 100], and count = len ⟺ percentage 100 ⟺ all above |
| Algorithms.Mean | algorithms.py:110 | mean × count equals the sum |
| Algorithms.Percent | algorithms.py:116 | the percentage times `n` is `count` times 100; in [0, 100], 100 exactly when count = len |
| Algorithms.ExtractFdBlank | algorithms.py:107 | a blank file fails with ValueError |
| Algorithms.ExtractFdCount | algorithms.py:113 | the count is the number of values strictly above the cutoff |
| Algorithms.LeadingZero | algorithms.py:80 | the leading 0 of the FD series adds nothing to the sum or the count |
| GenBids.SortedKeys | gen_bids.py:110-113 | a key-sorted dump and reload keeps the entries and puts the keys in ascending order |
| GenBids.SortScan | gen_bids.py:110-113 | a scan keeps every field; its scanner metadata keys come out sorted |
| GenBids.SortSession | gen_bids.py:110-113 | a session keeps its fields; its scan keys come out sorted |
| GenBids.SortSubject | gen_bids.py:110-113 | a subject keeps its number; its session keys come out sorted |
| GenBids.SortMapping | gen_bids.py:110-113 | the subject keys come out sorted and every entry is the deep-sorted original |
| GenBids.SortSubjectSorted | gen_bids.py:110-128 | every nested dictionary of a subject is key-sorted |
| GenBids.BidsIds | gen_bids.py:116 | the `bids_subject` of every key, in key order |
| GenBids.FirstFrom | gen_bids.py:122-126 | the first position whose `bids_subject` matches, or none |
| GenBids.Reorder | gen_bids.py:118-126 | the nested loops with `break` compute `ByBids` |
| GenBids.PlaceKept | gen_bids.py:120-126 | one outer pass keeps the copied entries unchanged and ordered |
| GenBids.PlacedKept | gen_bids.py:120-126 | the outer loop keeps the copied entries unchanged and ordered |
| GenBids.PlacedKeys | gen_bids.py:120-126 | the output holds exactly the first match of each `bids_subject` |
| GenBids.ByBidsOrdered | gen_bids.py:118-126 | output subjects are in strictly ascending `bids_subject` order, each value copied unchanged |
| GenBids.FirstKeyAt | gen_bids.py:122-126 | a key is the first match of its number exactly when no earlier key has it |
| GenBids.ByBidsKeepsFirst | gen_bids.py:120-126 | a key survives exactly when no earlier key shares its `bids_subject` |
| GenBids.ByBidsDistinct | gen_bids.py:118-126 | with distinct `bids_subject` values the output has the input's keys |
| GenBids.EarlierIsSmaller | gen_bids.py:113 | in the key-sorted input, earlier means smaller |
| GenBids.SortMappingBids | gen_bids.py:113 | the deep sort keeps every subject's `bids_subject` |
| GenBids.MappingFileOrder | gen_bids.py:109-128 | the file's subjects are in ascending `bids_subject` order, each the deep-sorted original |
| GenBids.MappingFileKeepsFirst | gen_bids.py:109-128 | a subject is written exactly when no smaller raw key shares its `bids_subject` |
| GenBids.KeptAt | gen_bids.py:120-126 | the same, for one subject key |
| GenBids.SortedMappingFacts | gen_bids.py:110-113 | the reloaded mapping has the sorted keys, the same entries and the same numbers |
| GenBids.KeptBySmaller | gen_bids.py:120-126 | "no earlier key" in the sorted order means "no smaller key" |
| RunAnalysis.WorkDirOfImage | run_analysis.py:80 | image `dir/stem.nii.gz` is analysed in `output_dir/stem` |
| RunAnalysis.WorkDirIsCleanName | run_analysis.py:90 | the work directory is named after the clean name the workflow uses |
| RunAnalysis.Analyses | run_analysis.py:79-81 | one `get_tsnr` result per image, in order, with its work directory |
| RunAnalysis.Gather | run_analysis.py:84-92 | gathering succeeds exactly when no analysis raised; otherwise the first exception is raised |
| RunAnalysis.GatherKeys | run_analysis.py:84-92 | the keys are exactly the clean names reported |
| RunAnalysis.GatherLastWins | run_analysis.py:84-92 | a later image with the same clean name overwrites an earlier one |
| RunAnalysis.RunSequential | run_analysis.py:88-92 | the sequential loop computes `Gather` over the analyses |
| RunAnalysis.Submit | run_analysis.py:77-81 | one future per image, in submission order |
| RunAnalysis.Collect | run_analysis.py:83-86 | the future loop computes `Gather` |
| RunAnalysis.RunParallel | run_analysis.py:75-86 | the threaded branch gives the same dictionary as the sequential one |
| RunAnalysis.CsvLines | run_analysis.py:98-99 | one `name,value` row per key, in the given order |
| RunAnalysis.Rows | run_analysis.py:94-99 | one row per result, in ascending key order |
| RunAnalysis.WriteSummary | run_analysis.py:66-99 | the file holds the header line, then the rows |
| RunAnalysis.SplitTerminated | run_analysis.py:97-99 | newline-terminated lines split back into those lines |
| RunAnalysis.SummaryLines | run_analysis.py:66-99 | the file's lines are `Image,TSNR`, then exactly one row per clean name in strictly ascending order |
| RunAnalysis.RowsWithoutBreaks | run_analysis.py:99 | no row contains a line break |
| RunAnalysis.CsvCells | run_analysis.py:99 | a row splits into the name and the value, with None printed as `None` |
| RunAnalysis.Analyse | run_analysis.py:66-99 | the summary file is `output_dir/TSNR_summaries.csv`; if an analysis raises, it holds only the header |
| Numerals.Pad4Value | converters.py:276 | `"{:0>4d}"` gives at least four digits denoting the number |
| Numerals.Pad4Injective | converters.py:276 | distinct numbers give distinct padded strings |
| Numerals.DecimalValue | converters.py:276 | the decimal digits denote the number |
| Ordering.Sort | gen_bids.py:116 | `sorted` gives an ascending permutation of its input |
| Ordering.SortDistinct | run_analysis.py:94 | sorting distinct keys gives a strictly ascending list of the same keys |
| Ordering.StrLtTotal | gen_bids.py:116 | Python string order is total |
| Ordering.StrLtTransitive | gen_bids.py:116 | Python string order is transitive |
| Dicts.Put | converters.py:290 | assignment stores the value; it keeps the key's place, or appends a new key |
| Paths.SeriesDirRoundTrip | converters.py:311 | joining the Oxygen directory with a scan's `series_dir` gives back the scan directory |
| Paths.JoinNameSegments | converters.py:99 | `os.path.join(a, name)` splits into `a`'s segments followed by `name` |
| Text.JoinThenSplit | converters.py:80 | splitting a join of separator-free parts gives the parts back |
| Text.SplitThenJoin | converters.py:99 | joining a split gives the string back |

## Left out

- Subprocesses, file moves and removals, `glob`/`listdir`, and `os.makedirs` (`create_path`). These are I/O: command outcomes are an oracle and listings are name sequences. An `OSError` from a missing program is not modelled. A symbolic link in the BIDS directory, on which `rmtree` also raises, is not distinguished from a directory.
- Threads: the thread pool, futures and semaphores. Results are read in submission order after `wait`, so each threaded branch is modelled as the same ordered loop. Of the semaphore only the acquire/release order within `log_output` is kept.
- The temporary-file cleanup in `dcm_to_nifti`'s `finally` blocks, and its log messages. Their text is output only and does not affect what is returned.
- `log_output` calls made by `extract_tgz` and `filter_series`. They do not affect the results.
- Tar extraction and DICOM reading. The archive and the `SequenceName` tag are inputs.
- `get_scanner_meta`, `get_tsnr` and `calc_tsnr`. Their code is not part of this model, so they are uninterpreted parameters. Numerics (nipype, numpy median, the matrix algebra and `sqrt` of `fd_jenkinson`, `float()`, float printing) are oracles too, and `real` stands for float. `np.savetxt` and `fd_jenkinson`'s `out_file` name are not modelled.
- `np.genfromtxt`'s handling of comments and blank lines. Rows are given as parsed.
- JSON text (indent, separators) in `gen_bids.py`; only the key order is modelled. The `json.dumps`/`loads` round trip is modelled as a deep sort of the mapping.
- Command-line parsing, logging setup and file writing in `gen_bids.py`, `run_analysis.py` and `7T_to_bids.py`. 7T_to_bids.py has no logic of its own.
- Update in place: the mapping is a value passed through the loops, so aliasing between the nested dictionaries is not modelled.
- Workflows.Workflow: its contract states only the number of commands. `Workflows.WorkflowChain` states what the commands read and write.
