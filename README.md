# Resumable bulk download of Arbimon exports

The rfcx backup scripts go through the CSV files of the working directory
one at a time. A file with a `url` column is a source. For each source they:

- create a folder for it;
- read its resume ledger `<name>.downloaded.txt`, which lists the ids done
  in earlier runs, each followed by `;`;
- skip the source when the ledger counts as many ids as the source has rows;
- otherwise create the site subdirectories of the rows not done yet;
- hand every row to a thread pool running `fetch_file`;
- append each truthy result and a `;` to the ledger, in the order the
  workers finish.

There are two variants.

- `download_files_v1.py` keeps every download. It names recording files
  `{YYYYMMDD_HHMMSS}-{id}{ext}`.
- `download_only_detected_part.py` first groups the rows of the
  `pattern_matching_rois*` tables into a map from `recording_id` to its
  `(x1, x2)` windows. It submits only recordings that have detections.
  It cuts each window out of the download with `trim_audio`, then removes
  the download.

The model has one parameter for the variant, `Variant` (`AllFiles` for the
first script, `DetectedOnly` for the second). It is split by component:

- `Text`: the Python string built-ins the scripts use.
- `Ledger`: the ledger codec and the drain loop over any completion order.
- `Layout`: folder, id column, tracking file, destination directory, file
  and segment names, the `%Y%m%d_%H%M%S` timestamp.
- `Detections`: the grouping loop over the detection tables.
- `Fetch`: `fetch_file` as a plan of effects that may raise.
- `Pipeline`: one source on a disk, and the whole listing.

A worker's contact with the outside world is a `World`:

- the path of its URL;
- the `strptime` parser, as a function;
- which of its planned effects raises first, if any.

`Get`, `Write`, `Trim` and `Unlink` record what was asked of the network,
the disk and ffmpeg. The order in which `as_completed` yields results is a
sequence of picks: each picks one of the results still pending. The disk is
the set of directories and the text of the ledgers.

Three facts about the skip decision are proved:

- The skip is sound when the ledger holds each id no more often than the
  submitted rows carry it. A run keeps the ledger in that state (`SkipIsSound`,
  `RunKeepsAccounted`).
- The decision compares counts, not distinct ids. A ledger `a;a;` over the
  rows `a` and `b` skips the source although `b` was never fetched
  (`CountNotDistinct`).
- A detected-only source with an undetected row is never skipped while its
  ledger is accounted for, since it submits fewer rows than it has
  (`SkipIsSound`). A ledger that is not accounted for can still skip it.

## Model

| member | source | states |
|---|---|---|
| Text.Split | download_files_v1.py:91 | `str.split`: never fewer than one piece, no piece holds the delimiter, the first piece is the text up to the first delimiter (all of it when there is none) |
| Text.JoinSplit | download_files_v1.py:91 | joining the pieces with the delimiter gives back the text |
| Text.SplitAround | download_files_v1.py:91 | a delimiter splits the text into the pieces of its two sides |
| Text.SplitWhole | download_files_v1.py:91 | text without the delimiter is one piece |
| Text.LastIndex | download_files_v1.py:43 | `rfind`: the last occurrence, with no occurrence after it, or -1 when there is none |
| Ledger.NonEmpty | download_files_v1.py:91 | the filter keeps only non-empty pieces of its input, never more of them |
| Ledger.Load | download_files_v1.py:91 | no loaded id is empty or holds `;` |
| Ledger.LoadAppend | download_files_v1.py:120-125 | text appended after a ledger ending in `;` is read after the ids already there |
| Ledger.LoadEncode | download_files_v1.py:124-125 | ids without `;` that are not empty are read back exactly from their encoding, which ends in `;` |
| Ledger.Reload | download_files_v1.py:120-125 | after the drain the ledger reads as the old ids followed by the truthy results, and still ends in `;` |
| Ledger.TruthyCount | download_files_v1.py:123 | each id is written as often as a worker returned it, the empty id never |
| Ledger.TruthyOrderFree | download_only_detected_part.py:165-169 | two completion orders of the same results write the same ids, as often |
| Ledger.CompletedPermutes | download_files_v1.py:121 | every completion order is a permutation of the results |
| Ledger.CompletedMembers | download_files_v1.py:121 | a completion order yields only results that were returned |
| Ledger.Encode | download_files_v1.py:123-125 | what the drain writes for some ids is empty only for no ids and always ends in `;` |
| Ledger.Truthy | download_files_v1.py:123 | `if result:` keeps no more results than it is given, none empty, each one returned by a worker, and every non-empty returned id |
| Ledger.ValidPicks | download_files_v1.py:121 | an `as_completed` order has one step per result, the k-th choosing among the n - k still pending (both directions) |
| Ledger.Completed | download_files_v1.py:121 | a completion order yields as many results as were submitted |
| Ledger.Drain | download_files_v1.py:120-125 | the drain loop appends `r;` for each truthy result, in completion order |
| Layout.Stem | download_files_v1.py:78 | `Path.stem`: a prefix; when cut, cut at a last `.` that is neither first nor last, leaving a non-empty suffix; uncut only when every inner `.` has another after it |
| Layout.FolderName | download_only_detected_part.py:121 | the stem (v1); the detected-only variant keeps the stem up to its first `.` (the whole stem when there is none) |
| Layout.IdColumn | download_files_v1.py:86 | ends in `_id` after a prefix of the folder name one character shorter than it (empty for an empty folder) |
| Layout.TrackingName | download_only_detected_part.py:128 | the ledger is the stem plus `.downloaded.txt` in both variants, although the detected-only folder may be shorter |
| Layout.CsvStem | download_files_v1.py:78 | the stem of `s.csv` is `s` |
| Layout.CsvNames | download_only_detected_part.py:121-129 | for `s.csv` with no `.` in `s`: folder `s`, id column `s[:-1]_id`, ledger `s.downloaded.txt`, in both variants |
| Layout.RecordingsSource | download_files_v1.py:85-86 | `recordings.csv` uses the id column `recording_id` and the ledger `recordings.downloaded.txt` |
| Layout.TrackingIsNoSource | download_files_v1.py:60 | a ledger's name does not end in `.csv`, so it is never read as a source |
| Layout.Join | download_files_v1.py:33 | `os.path.join`: an absolute second part replaces the first; otherwise the first part, a `/` unless the first is empty or already ends in one, then the second part (length fixed, so the result is exactly that) |
| Layout.DestinationDir | download_files_v1.py:22-33 | the parent folder without a `site_id` column; with one, the site id itself when it is absolute, and otherwise a path that starts with the parent and, when the parent is non-empty and does not end in `/`, with the parent followed by `/`, and that ends in the site id |
| Layout.Basename | download_files_v1.py:37 | `Path.name`: the longest suffix without `/` |
| Layout.BasenameAfterSlash | download_files_v1.py:37 | the base name of `dir/name` is `name` |
| Layout.Extension | download_files_v1.py:43 | `splitext`: empty, or a proper suffix of the base name starting at its only `.`; non-empty exactly when some `.` of the base name follows a character that is not a `.` |
| Layout.ExtensionEdges | download_files_v1.py:43 | `splitext` examples: `..b` has no extension, `a.` has the extension `.` |
| Layout.ClipExample | download_files_v1.py:36-43 | `/x/clip.wav` has base name `clip.wav` and extension `.wav` |
| Layout.Digits | download_files_v1.py:13 | zero-padded digits: exactly `width` characters, all digits |
| Layout.DigitsRoundTrip | download_files_v1.py:13 | zero-padded digits read back as the number |
| Layout.Timestamp | download_files_v1.py:13 | `%Y%m%d_%H%M%S`: fifteen characters, digits except the `_` at index 8 |
| Layout.TimestampRoundTrip | download_files_v1.py:42 | the timestamp reads back as the date, so different dates get different names |
| Layout.TimestampFields | download_files_v1.py:13 | where each field sits in the timestamp |
| Layout.TimestampExample | download_files_v1.py:42 | 2024-03-14 09:05:00 formats as `20240314_090500` |
| Layout.DateFormats | download_only_detected_part.py:53 | the two `strptime` formats agree except for the year: `%y` in download_files_v1.py, `%Y` in the detected-only variant |
| Layout.FileNaming | download_files_v1.py:36-44 | a row of another source is named by the URL's base name, with no segment base; a named recording row has a segment base and the URL's extension |
| Layout.RecordingNaming | download_files_v1.py:40-44 | a recording row has a name exactly when its date is present, non-empty and parsed; `{timestamp}-{id}{ext}` when the URL has an extension, the base name when not |
| Layout.NamingKeepsExtension | download_files_v1.py:44-47 | the file keeps the URL's extension; with no `/` in the id it lands right in the destination directory |
| Layout.SegmentPath | download_only_detected_part.py:70 | a segment lies in the destination directory, keeps the extension and is named `{base}_{x1}_{x2}{ext}` |
| Detections.CoordsOf | download_only_detected_part.py:93-103 | a recording's windows are at most one per detection row |
| Detections.CoordsOrigin | download_only_detected_part.py:95-103 | every window of a recording comes from a detection row of that recording |
| Detections.Grouped | download_only_detected_part.py:87-103 | the map has a key for exactly the recordings that occur in the detection rows, each list no longer than the rows |
| Detections.GroupTable | download_only_detected_part.py:92-103 | the loop over one table's rows extends the map to the rows read so far |
| Detections.GroupedSnoc | download_only_detected_part.py:93-103 | one more row appends its window to its recording's list and changes no other list |
| Detections.NoCoords | download_only_detected_part.py:93-94 | a recording without rows has no windows |
| Detections.GroupDetections | download_only_detected_part.py:87-103 | the grouping loop builds exactly the map from each detected recording to its windows in reading order |
| Detections.GroupedNonEmpty | download_only_detected_part.py:93-98 | every list in the map is non-empty |
| Detections.CoordsInOrder | download_only_detected_part.py:88-103 | the windows of tables read one after the other are those of the first, then those of the second |
| Detections.FirstSeenIsRecordings | download_only_detected_part.py:93 | the recordings in first-seen order are the map's keys, each once |
| Detections.TotalSnoc | download_only_detected_part.py:100-103 | one more row adds one window to the total |
| Detections.GroupedTotal | download_only_detected_part.py:87-103 | the lists together hold exactly as many windows as there were detection rows |
| Detections.TotalAppend | download_only_detected_part.py:87-103 | totals over two lists of recordings add up |
| Fetch.Trims | download_only_detected_part.py:67-72 | one `trim_audio` call per window |
| Fetch.PlanFor | download_only_detected_part.py:41-74 | a plan reaches `return item_id` exactly when the names exist and, in the detected-only variant, the recording has detections and either no windows or a bound segment base |
| Fetch.PlanOf | download_only_detected_part.py:41-74 | a row plans nothing exactly when it is a recording row with a missing, empty or unparsable date; otherwise the download comes first and writes into the destination directory |
| Fetch.FetchResult | download_files_v1.py:26-54 | `None` exactly for a done id or an empty URL; the row's id otherwise |
| Fetch.FetchEffectsPlan | download_files_v1.py:26-54 | a worker with no result does nothing; otherwise its effects are a prefix of its plan, all of it when nothing raises |
| Fetch.Attempted | download_files_v1.py:29-54 | the effects performed are a prefix of the plan: when step j raises, exactly steps 0 to j, so nothing after the raising effect runs; when no step in range raises, the whole plan; cut short only after the one that raises |
| Fetch.FetchFile | download_files_v1.py:16-54 | `None` with no effect for a done id or an empty URL; otherwise the id, after the planned effects up to the first that raises |
| Fetch.Transfer | download_only_detected_part.py:59-74 | download, write, trims and unlink are the row's plan, stopped after the first effect that raises |
| Fetch.TrimSegments | download_only_detected_part.py:67-72 | the trim loop issues the trims in list order and stops after the first that raises, which it reports |
| Fetch.PlanShape | download_only_detected_part.py:59-73 | a plan is empty exactly when the names fail; else the download, its write into the destination directory, only trims of that file, and an unlink last (detected-only only) |
| Fetch.DetectedPlan | download_only_detected_part.py:66-74 | a detected recording with a segment base gets `N + 3` steps: download, write, one trim per window in order, unlink |
| Fetch.TrimCalls | download_only_detected_part.py:56-73 | N windows give exactly N trims, the k-th cutting `{timestamp}-{id}_{x1}_{x2}{ext}` from the written file, which is then unlinked |
| Fetch.NoDateNoDownload | download_only_detected_part.py:53-54 | a missing, empty or unparsable date fetches nothing and still returns the id |
| Fetch.AllFilesPlan | download_files_v1.py:46-51 | v1 fetches and writes to `{destination_dir}/{filename}` and does nothing else |
| Fetch.KeepsNoOriginal | download_only_detected_part.py:73-74 | with the grouped detections, an item that completes trims at least once and removes the download |
| Fetch.CompletedPlan | download_only_detected_part.py:66-74 | a completed detected-only plan is for a detected recording, and with windows it trims first and unlinks last |
| Fetch.NothingRaises | download_files_v1.py:29-51 | when nothing raises, the whole plan is performed |
| Pipeline.WithDetections | download_only_detected_part.py:161 | the filter keeps no more rows than it is given, each one of them with a detected recording |
| Pipeline.WithDetectionsAppend | download_only_detected_part.py:161 | the filter keeps rows in their order: filtering two parts is filtering each and joining the results |
| Pipeline.Submitted | download_files_v1.py:117 | only rows of the source are submitted |
| Pipeline.SubmittedExactly | download_only_detected_part.py:161 | the detected-only variant submits a row exactly when its recording has detections |
| Pipeline.SubmittedKeyed | download_files_v1.py:117 | submitted rows carry the id and `url` columns |
| Pipeline.Results | download_files_v1.py:117 | one worker result per submitted row |
| Pipeline.Fetches | download_files_v1.py:117 | one list of effects per submitted row |
| Pipeline.PendingSites | download_files_v1.py:101 | a site is pending exactly when some row not in the ledger carries it |
| Pipeline.SiteDirs | download_files_v1.py:103-105 | a subdirectory for every non-empty site, and only such subdirectories |
| Pipeline.SiteDirsAdd | download_files_v1.py:103-109 | one more site adds its subdirectory, or nothing for an empty site id |
| Pipeline.CreateSiteDirs | download_files_v1.py:103-109 | the site loop leaves exactly the old directories plus one per non-empty site; the new ones, each created once, are those not there before |
| Pipeline.MakeSiteDir | download_files_v1.py:104-109 | one turn creates `parent/site` for a non-empty site unless it exists |
| Pipeline.ProgressStep | download_files_v1.py:103-109 | one turn keeps the site loop's invariant |
| Pipeline.SiteDirsExact | download_files_v1.py:100-105 | a subdirectory is made exactly for a non-empty site id of a row not done yet |
| Pipeline.ParentDir | download_files_v1.py:79 | the folder of a source ends in its folder name; unless that name is absolute it starts with the working directory and, when that directory is non-empty and does not end in `/`, with the directory followed by `/` |
| Pipeline.LedgerText | download_only_detected_part.py:128-134 | both variants read the ledger named after the file's stem, and read nothing when there is none |
| Pipeline.Processed | download_files_v1.py:87-91 | no ids without a ledger; no id is empty or holds `;` |
| Pipeline.Skips | download_files_v1.py:87-97 | a source without a ledger is never skipped, even without rows; an empty ledger skips exactly a source without rows |
| Pipeline.RunSpec | download_files_v1.py:116-117 | a source that is run yields one effect list per submitted row; a skipped source or one without `url` yields none |
| Pipeline.RunSource | download_files_v1.py:63-125 | handling one source does what `RunSpec` says: folder, ledger, skip, site directories, workers, drain |
| Pipeline.DownloadSource | download_files_v1.py:99-125 | site directories, then the workers, then the drain into the ledger |
| Pipeline.RunWorkers | download_files_v1.py:116-117 | `fetch_file` on every submitted row, results and effects in submission order |
| Pipeline.SkipDoesNothing | download_files_v1.py:88-97 | a skipped source fetches nothing, leaves the ledgers and creates only its folder |
| Pipeline.NoUrlNoRun | download_files_v1.py:69-71 | a file without a `url` column changes nothing |
| Pipeline.DoneRowUntouched | download_files_v1.py:26-27 | a submitted row whose id is in the ledger has no effect and no result |
| Pipeline.SubmittedSepFree | download_files_v1.py:117 | submitted ids hold no `;` when the source's ids do not |
| Pipeline.RunText | download_files_v1.py:120-125 | the ledger text afterwards is the old text, then the encoding of the ids written |
| Pipeline.RunLedger | download_files_v1.py:88-125 | afterwards the ledger loads as the old ids then those written, and stays well formed |
| Pipeline.ResultsSepFree | download_files_v1.py:51-54 | results hold no `;` when the submitted ids do not |
| Pipeline.OrderFree | download_files_v1.py:116-125 | the completion order changes neither the effects nor the directories, only the order of the ledger's ids |
| Pipeline.WrittenFromPending | download_only_detected_part.py:161-169 | every id written is that of a row with a URL that was not done and, in the detected-only variant, has detections |
| Pipeline.WrittenRow | download_only_detected_part.py:161-169 | the same, for any rows, completion order and ledger contents |
| Pipeline.WrittenOrigin | download_files_v1.py:121-125 | an id the drain writes came from a row with a URL that was not done |
| Pipeline.IdsOf | download_files_v1.py:117 | one id per row |
| Pipeline.FreshLedger | download_files_v1.py:87-88 | with no ledger nothing is processed, and the empty text is well formed |
| Pipeline.CountBound | download_files_v1.py:121-125 | an id is returned no more often than rows carry it |
| Pipeline.ResultOrigin | download_files_v1.py:26-54 | a worker returns an id only for a pending row with a URL that carries it |
| Pipeline.ResultsAccounted | download_files_v1.py:117-125 | the ids written, added to an accounted ledger, keep it accounted for |
| Pipeline.RunKeepsAccounted | download_files_v1.py:88-125 | a run keeps the ledger accounted for and well formed |
| Pipeline.WithDetectionsAll | download_only_detected_part.py:161 | the filter keeps as many rows as it is given only if it keeps all of them |
| Pipeline.SkipIsSound | download_files_v1.py:92-97 | with an accounted ledger the skip happens only when every row is done and, in the detected-only variant, detected |
| Pipeline.CountNotDistinct | download_files_v1.py:95 | a ledger `a;a;` over rows `a` and `b` skips the source although `b` is not done |
| Pipeline.RoiTables | download_only_detected_part.py:86 | no more detection tables than files |
| Pipeline.RoiTablesAppend | download_only_detected_part.py:86-91 | a file is read as a detection table exactly when its name starts with `pattern_matching_rois`, and the tables come in listing order |
| Pipeline.ScriptSpec | download_files_v1.py:60-63 | a listing without `.csv` files changes nothing and does nothing |
| Pipeline.ScriptUnfold | download_files_v1.py:63 | the script handles the first file, then the rest on the disk it left |
| Pipeline.HandleFile | download_files_v1.py:60-71 | a `.csv` file is run as a source; anything else is passed over |
| Pipeline.RunScript | download_only_detected_part.py:80-173 | grouping the detections, then the loop over the listing, does what `ScriptSpec` states: each file in listing order, on the disk the files before it left |
| Pipeline.LedgerNotRead | download_files_v1.py:59-60 | a ledger in the listing is passed over |

## Left out

- Network, files, `os.makedirs`, `Path.unlink` and `os.listdir` are effects or parameters. The listing is a given sequence of files with their rows.
- ffmpeg in `trim_audio` is the `Trim` effect. Only its arguments `(src, dest, x1, x2)` are kept, and whether it raises.
- `requests.get` raises only on a transport failure; a non-2xx reply writes its body like any other. That is the `World`'s `raisesAt`, not a status code.
- The thread pool runs workers concurrently. The model runs them in submission order and lets `as_completed` pick any order for the drain; the workers' effects on the disk do not interleave.
- The drain is not interrupted part way through. `KeyboardInterrupt` and `os._exit`, the timing and the `print` calls are left out.
- `csv.DictReader` parsing: a source is its name, its header's column names and its rows as maps.
- `urlparse` and `Path` normalisation: the URL path is given; `Path.name`, `Path.stem` and `os.path.join` are modelled on strings without normalisation.
- `strptime` is a parameter. Its leniency and the century pivot of `%y` are library behaviour; only the `%Y%m%d_%H%M%S` formatting is modelled.
- Files and directories share one namespace on a real disk. The model keeps them apart (`Disk.dirs`, `Disk.ledgers`), so a file named like a site directory does not make `os.makedirs` fail.
- Pipeline.Runnable: a source whose id column, or (in the detected-only variant) `recording_id` column, is missing crashes the script with an uncaught `KeyError`. The model requires these columns instead of modelling the crash. It also requires them where the script does not crash: of a source without rows; of a source skipped at line 95 of download_files_v1.py or line 138 of download_only_detected_part.py, since every read of the id column or `recording_id` (v1 lines 23 and 101, detected-only lines 35, 144 and 161) comes after that skip; and, in the detected-only variant, of a source with `url` and `recording_id` but no id column, no `site_id` column and no detected recording, which submits nothing and so never reads the id column. These inputs are outside the model.
- A CSV file without a header line makes `content.fieldnames` `None`, and `'url' not in None` raises `TypeError` (line 69 of download_files_v1.py, line 112 of download_only_detected_part.py), which stops the script. A `Source` always has a set of column names, so the model has no headerless file.
- `os.makedirs` also creates missing parents. For a site id `a/b` the script creates `parent/a` as well as `parent/a/b`. `Pipeline.CreateSiteDirs` and `Pipeline.SiteDirs` record only the leaf directories.
- Detections.RoiRow: a detection row without `recording_id`, `x1` or `x2` crashes the grouping loop; the model requires the columns.
- Fetch.FetchFile: an empty `datetime` makes `date` `None`, and `strftime` raises before anything is fetched (line 42 of download_files_v1.py, line 54 of download_only_detected_part.py). The id is still returned. This follows the code; a reading of the code's intent in which an empty date falls back to the URL's base name is not modelled.
- Fetch.Transfer: in the detected-only variant a source whose id column is not `recording_id` never binds `filename_without_ex`. Its trims then raise `NameError` after the download, so the item stops there and still returns its id. The model has this as a plan that does not complete.
- Fetch.PlanFor: `trim_audio` ignores ffmpeg's exit status, so a failed cut does not raise; in the model only `raisesAt` decides.
