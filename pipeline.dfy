/** The driver of both scripts: for every source CSV with a `url` column,
    create its folder, read its ledger, skip it when the ledger already counts
    all its rows, create the site subdirectories of its pending rows, run
    `fetch_file` on every submitted row and append the truthy results to the
    ledger in completion order. */
module Pipeline {
  import opened Wrappers
  import opened Text
  import opened Ledger
  import opened Layout
  import opened Detections
  import opened Fetch

  /** A CSV file as `csv.DictReader` reads it: its name, the header's column
      names and the rows. */
  datatype Source = Source(name: string, fieldnames: set<string>, rows: seq<Row>)

  /** Every row has exactly the header's columns. */
  predicate Shaped(src: Source) {
    forall i :: 0 <= i < |src.rows| ==> src.rows[i].Keys == src.fieldnames
  }

  /** The part of the file system the scripts look at: the directories that
      exist and the text of the ledgers that exist. */
  datatype Disk = Disk(dirs: set<string>, ledgers: map<string, string>)

  /** How one source's workers turn out: the world of each submitted row, in
      submission order, and the order in which `as_completed` yields them. */
  datatype Schedule = Schedule(worlds: seq<World>, picks: seq<nat>)

  /** The disk after a source, and the effects of each submitted row. */
  datatype Run = Run(disk: Disk, fetches: seq<seq<Effect>>)

  /** Rows with the two cells `fetch_file` reads outside its `try`. */
  predicate Keyed(rows: seq<Row>, idColumn: string) {
    forall i :: 0 <= i < |rows| ==> idColumn in rows[i] && "url" in rows[i]
  }

  // ---------------------------------------------------------------- submission

  /** The rows with detections, in their order. */
  function WithDetections(rows: seq<Row>, detected: map<string, seq<Coord>>): (r: seq<Row>)
    ensures |r| <= |rows|
    ensures forall i :: 0 <= i < |r| ==> r[i] in rows
    ensures forall i :: 0 <= i < |r| ==> RecordingColumn in r[i] && r[i][RecordingColumn] in detected
    decreases |rows|
  {
    if rows == [] then []
    else
      (if RecordingColumn in rows[0] && rows[0][RecordingColumn] in detected then [rows[0]] else [])
      + WithDetections(rows[1..], detected)
  }

  /** The detection filter keeps the rows in their order: filtering two
      parts one after the other is filtering each and joining the results. */
  lemma {:induction false} WithDetectionsAppend(a: seq<Row>, b: seq<Row>, detected: map<string, seq<Coord>>)
    ensures WithDetections(a + b, detected) == WithDetections(a, detected) + WithDetections(b, detected)
    decreases |a|
  {
    if a == [] {
      assert a + b == b;
    } else {
      assert (a + b)[0] == a[0];
      assert (a + b)[1..] == a[1..] + b;
      WithDetectionsAppend(a[1..], b, detected);
    }
  }

  /** The rows handed to the thread pool: all of them in download_files_v1.py,
      only those whose recording has detections in the detected-only variant. */
  function Submitted(v: Variant, rows: seq<Row>, detected: map<string, seq<Coord>>): (r: seq<Row>)
    ensures forall i :: 0 <= i < |r| ==> r[i] in rows
  {
    match v
    case AllFiles => rows
    case DetectedOnly => WithDetections(rows, detected)
  }

  /** A row is submitted by the detected-only variant exactly when its
      recording has detections. */
  lemma {:induction false} SubmittedExactly(rows: seq<Row>, detected: map<string, seq<Coord>>, row: Row)
    ensures row in Submitted(DetectedOnly, rows, detected)
        <==> row in rows && RecordingColumn in row && row[RecordingColumn] in detected
    decreases |rows|
  {
    if rows != [] {
      SubmittedExactly(rows[1..], detected, row);
      assert rows == [rows[0]] + rows[1..];
    }
  }

  /** Submitted rows keep the header's columns. */
  lemma SubmittedKeyed(v: Variant, src: Source, detected: map<string, seq<Coord>>, idColumn: string)
    requires Shaped(src) && idColumn in src.fieldnames && "url" in src.fieldnames
    ensures Keyed(Submitted(v, src.rows, detected), idColumn)
  {
    var subs := Submitted(v, src.rows, detected);
    forall i | 0 <= i < |subs| ensures idColumn in subs[i] && "url" in subs[i] {
      var j :| 0 <= j < |src.rows| && src.rows[j] == subs[i];
    }
  }

  // ---------------------------------------------------------------- workers

  /** What the workers return, in submission order. */
  function Results(idColumn: string, processed: seq<string>, rows: seq<Row>): (r: seq<Option<string>>)
    requires Keyed(rows, idColumn)
    ensures |r| == |rows|
  {
    seq(|rows|, i requires 0 <= i < |rows| => FetchResult(idColumn, processed, rows[i]))
  }

  /** What the workers do, in submission order. */
  function Fetches(v: Variant, parentDir: string, idColumn: string, processed: seq<string>, rows: seq<Row>,
                   detected: map<string, seq<Coord>>, worlds: seq<World>): (r: seq<seq<Effect>>)
    requires Keyed(rows, idColumn) && |worlds| == |rows|
    ensures |r| == |rows|
  {
    seq(|rows|, i requires 0 <= i < |rows| => FetchEffects(v, parentDir, idColumn, processed, rows[i], detected, worlds[i]))
  }

  // ---------------------------------------------------------------- site directories

  /** The distinct site ids of the rows whose id is not in the ledger yet. */
  function PendingSites(rows: seq<Row>, idColumn: string, processed: seq<string>): (sites: set<string>)
    requires forall i :: 0 <= i < |rows| ==> idColumn in rows[i] && "site_id" in rows[i]
    ensures forall s :: s in sites <==> exists i :: 0 <= i < |rows| && rows[i][idColumn] !in processed && rows[i]["site_id"] == s
  {
    set i | 0 <= i < |rows| && rows[i][idColumn] !in processed :: rows[i]["site_id"]
  }

  /** The subdirectories those sites need: one per non-empty site id. */
  function SiteDirs(parentDir: string, sites: set<string>): (r: set<string>)
    ensures forall s :: s in sites && s != "" ==> Join(parentDir, s) in r
    ensures forall d :: d in r ==> exists s :: s in sites && s != "" && d == Join(parentDir, s)
  {
    set s | s in sites && s != "" :: Join(parentDir, s)
  }

  lemma SiteDirsAdd(parentDir: string, done: set<string>, s: string)
    ensures SiteDirs(parentDir, done + {s}) == SiteDirs(parentDir, done) + (if s != "" then {Join(parentDir, s)} else {})
  {
  }

  /** The loop over the pending sites: a non-empty site gets its subdirectory
      unless it exists.  `made` lists the directories created, each once. */
  method CreateSiteDirs(parentDir: string, sites: set<string>, dirs: set<string>)
      returns (dirs': set<string>, made: seq<string>)
    ensures dirs' == dirs + SiteDirs(parentDir, sites)
    ensures forall i, j :: 0 <= i < j < |made| ==> made[i] != made[j]
    ensures forall d :: d in made <==> d in SiteDirs(parentDir, sites) && d !in dirs
  {
    dirs' := dirs;
    made := [];
    var todo := sites;
    ghost var done: set<string> := {};
    while todo != {}
      invariant Progress(parentDir, sites, dirs, todo, done, dirs', made)
      decreases |todo|
    {
      var s :| s in todo;
      ghost var current, before := dirs', made;
      dirs', made := MakeSiteDir(parentDir, s, dirs, dirs', made);
      ProgressStep(parentDir, sites, dirs, todo, done, current, before, s, dirs', made);
      todo := todo - {s};
      done := done + {s};
    }
    assert done == sites;
  }

  /** The invariant of that loop: the sites done so far have their
      subdirectories, and `made` lists those that were created. */
  ghost predicate Progress(parentDir: string, sites: set<string>, dirs: set<string>, todo: set<string>,
                           done: set<string>, current: set<string>, made: seq<string>) {
    && todo + done == sites
    && current == dirs + SiteDirs(parentDir, done)
    && dirs <= current
    && Records(made, dirs, current)
  }

  lemma ProgressStep(parentDir: string, sites: set<string>, dirs: set<string>, todo: set<string>,
                     done: set<string>, current: set<string>, made: seq<string>,
                     s: string, next: set<string>, made': seq<string>)
    requires Progress(parentDir, sites, dirs, todo, done, current, made) && s in todo
    requires next == current + (if s != "" then {Join(parentDir, s)} else {})
    requires Records(made', dirs, next)
    ensures Progress(parentDir, sites, dirs, todo - {s}, done + {s}, next, made')
  {
    var added := if s != "" then {Join(parentDir, s)} else {};
    SiteDirsAdd(parentDir, done, s);
    UnionAssoc(dirs, SiteDirs(parentDir, done), added);
    assert next == dirs + SiteDirs(parentDir, done + {s});
    Moved(todo, done, s);
  }

  lemma Moved<T>(todo: set<T>, done: set<T>, s: T)
    requires s in todo
    ensures (todo - {s}) + (done + {s}) == todo + done
  {
  }

  lemma UnionAssoc<T>(a: set<T>, b: set<T>, c: set<T>)
    ensures (a + b) + c == a + (b + c)
  {
  }

  /** `made` lists, each once, the directories in `after` that were not in `before`. */
  ghost predicate Records(made: seq<string>, before: set<string>, after: set<string>) {
    && (forall i, j :: 0 <= i < j < |made| ==> made[i] != made[j])
    && (forall d :: d in made <==> d in after && d !in before)
  }

  /** One turn of that loop: a non-empty site gets its subdirectory of the
      parent folder, made only when it does not exist yet. */
  method MakeSiteDir(parentDir: string, s: string, dirs: set<string>, current: set<string>, made: seq<string>)
      returns (dirs': set<string>, made': seq<string>)
    requires dirs <= current && Records(made, dirs, current)
    ensures dirs' == current + (if s != "" then {Join(parentDir, s)} else {})
    ensures Records(made', dirs, dirs')
  {
    dirs', made' := current, made;
    if s != "" {
      var subdir := Join(parentDir, s);
      if subdir !in current {
        dirs' := current + {subdir};
        made' := made + [subdir];
      }
    }
  }

  /** The directories the loop makes for a source: exactly one per non-empty
      site id of a row that is not done yet. */
  lemma SiteDirsExact(parentDir: string, rows: seq<Row>, idColumn: string, processed: seq<string>, d: string)
    requires forall i :: 0 <= i < |rows| ==> idColumn in rows[i] && "site_id" in rows[i]
    ensures d in SiteDirs(parentDir, PendingSites(rows, idColumn, processed))
        <==> exists i :: 0 <= i < |rows| && rows[i][idColumn] !in processed && rows[i]["site_id"] != ""
                         && d == Join(parentDir, rows[i]["site_id"])
  {
  }

  // ---------------------------------------------------------------- one source

  /** The folder of a source's downloads, under the working directory. */
  function ParentDir(v: Variant, cwd: string, src: Source): (r: string)
    ensures EndsWith(r, FolderName(v, src.name))
    ensures !StartsWith(FolderName(v, src.name), "/") ==>
              && StartsWith(r, cwd)
              && (cwd != "" && cwd[|cwd| - 1] != '/' ==> StartsWith(r, cwd + "/"))
  {
    Join(cwd, FolderName(v, src.name))
  }

  function IdOf(v: Variant, src: Source): string {
    IdColumn(FolderName(v, src.name))
  }

  /** The text of a source's ledger, empty when there is none.  Both
      variants read the ledger named after the stem of the file. */
  function LedgerText(v: Variant, src: Source, disk: Disk): (r: string)
    ensures Stem(src.name) + TrackingSuffix in disk.ledgers ==> r == disk.ledgers[Stem(src.name) + TrackingSuffix]
    ensures Stem(src.name) + TrackingSuffix !in disk.ledgers ==> r == ""
  {
    var tracking := TrackingName(v, src.name);
    if tracking in disk.ledgers then disk.ledgers[tracking] else ""
  }

  /** The ids done in earlier runs (`processed_ids`): none without a
      ledger, and never an empty id or one holding the separator. */
  function Processed(v: Variant, src: Source, disk: Disk): (ids: seq<string>)
    ensures TrackingName(v, src.name) !in disk.ledgers ==> ids == []
    ensures forall i :: 0 <= i < |ids| ==> ids[i] != "" && Sep !in ids[i]
  {
    Load(LedgerText(v, src, disk))
  }

  /** A source is skipped when its ledger exists and counts as many ids as
      the source has rows (duplicates and ids of other rows included).  A
      source without a ledger is never skipped, not even one without rows;
      an empty ledger skips only a source without rows. */
  predicate Skips(v: Variant, src: Source, disk: Disk)
    ensures TrackingName(v, src.name) !in disk.ledgers ==> !Skips(v, src, disk)
    ensures TrackingName(v, src.name) in disk.ledgers && disk.ledgers[TrackingName(v, src.name)] == "" ==>
              (Skips(v, src, disk) <==> src.rows == [])
  {
    assert Split("", Sep) == [""];
    TrackingName(v, src.name) in disk.ledgers && |Processed(v, src, disk)| == |src.rows|
  }

  /** What a source needs not to crash the script with a KeyError: the id
      column, and in the detected-only variant `recording_id`, wherever
      there is a `url` column. */
  predicate Runnable(v: Variant, src: Source) {
    && Shaped(src)
    && ("url" in src.fieldnames ==>
          && IdOf(v, src) in src.fieldnames
          && (v.DetectedOnly? ==> RecordingColumn in src.fieldnames))
  }

  /** A schedule covers every submitted row. */
  predicate Fits(v: Variant, src: Source, detected: map<string, seq<Coord>>, sched: Schedule) {
    && |sched.worlds| == |Submitted(v, src.rows, detected)|
    && ValidPicks(sched.picks, |Submitted(v, src.rows, detected)|)
  }

  /** The directories after the parent folder and the site subdirectories
      of a source that is not skipped. */
  function DirsAfter(v: Variant, cwd: string, src: Source, disk: Disk): set<string>
    requires Runnable(v, src) && "url" in src.fieldnames
  {
    var parentDir := ParentDir(v, cwd, src);
    disk.dirs + {parentDir}
    + (if "site_id" in src.fieldnames
       then SiteDirs(parentDir, PendingSites(src.rows, IdOf(v, src), Processed(v, src, disk)))
       else {})
  }

  /** What handling one source does. */
  function RunSpec(v: Variant, cwd: string, src: Source, detected: map<string, seq<Coord>>,
                   disk: Disk, sched: Schedule): (r: Run)
    requires Runnable(v, src) && Fits(v, src, detected, sched)
    ensures |r.fetches| == if "url" in src.fieldnames && !Skips(v, src, disk) then |Submitted(v, src.rows, detected)| else 0
  {
    if "url" !in src.fieldnames then Run(disk, [])
    else if Skips(v, src, disk) then Run(disk.(dirs := disk.dirs + {ParentDir(v, cwd, src)}), [])
    else
      var idColumn := IdOf(v, src);
      var processed := Processed(v, src, disk);
      var rows := Submitted(v, src.rows, detected);
      SubmittedKeyed(v, src, detected, idColumn);
      var written := Encode(Truthy(Completed(Results(idColumn, processed, rows), sched.picks)));
      var ledgers := disk.ledgers[TrackingName(v, src.name) := LedgerText(v, src, disk) + written];
      Run(Disk(DirsAfter(v, cwd, src, disk), ledgers),
          Fetches(v, ParentDir(v, cwd, src), idColumn, processed, rows, detected, sched.worlds))
  }

  /** Handling one source file, as the body of the loop over the listing. */
  method RunSource(v: Variant, cwd: string, src: Source, detected: map<string, seq<Coord>>,
                   disk: Disk, sched: Schedule)
      returns (disk': Disk, fetches: seq<seq<Effect>>)
    requires Runnable(v, src) && Fits(v, src, detected, sched)
    ensures Run(disk', fetches) == RunSpec(v, cwd, src, detected, disk, sched)
  {
    if "url" !in src.fieldnames {
      return disk, [];
    }
    var folderName := FolderName(v, src.name);
    var parentDir := Join(cwd, folderName);
    disk' := disk;
    if parentDir !in disk'.dirs {
      disk' := disk'.(dirs := disk'.dirs + {parentDir});
    }
    assert disk' == disk.(dirs := disk.dirs + {parentDir});
    assert parentDir == ParentDir(v, cwd, src);
    var trackingName := TrackingName(v, src.name);
    var idColumn := IdColumn(folderName);
    var processed: seq<string> := [];
    if trackingName in disk'.ledgers {
      processed := Load(disk'.ledgers[trackingName]);
      if |processed| == |src.rows| {
        assert Skips(v, src, disk);
        return disk', [];
      }
    }
    assert processed == Processed(v, src, disk);
    assert !Skips(v, src, disk);
    ghost var before := disk';
    disk', fetches := DownloadSource(v, parentDir, idColumn, trackingName, src, detected, disk', sched, processed);
    assert disk'.dirs == DirsAfter(v, cwd, src, disk);
    assert (if trackingName in before.ledgers then before.ledgers[trackingName] else "") == LedgerText(v, src, disk);
  }

  /** A source that is not skipped: its site subdirectories, its workers
      and the drain of their results into its ledger. */
  method DownloadSource(v: Variant, parentDir: string, idColumn: string, trackingName: string, src: Source,
                        detected: map<string, seq<Coord>>, disk: Disk, sched: Schedule, processed: seq<string>)
      returns (disk': Disk, fetches: seq<seq<Effect>>)
    requires Shaped(src) && "url" in src.fieldnames && idColumn in src.fieldnames
    requires |sched.worlds| == |Submitted(v, src.rows, detected)|
    requires ValidPicks(sched.picks, |Submitted(v, src.rows, detected)|)
    ensures Keyed(Submitted(v, src.rows, detected), idColumn)
    ensures disk'.dirs
         == disk.dirs + (if "site_id" in src.fieldnames
                         then SiteDirs(parentDir, PendingSites(src.rows, idColumn, processed)) else {})
    ensures disk'.ledgers
         == disk.ledgers[trackingName :=
              (if trackingName in disk.ledgers then disk.ledgers[trackingName] else "")
              + Encode(Truthy(Completed(Results(idColumn, processed, Submitted(v, src.rows, detected)), sched.picks)))]
    ensures fetches == Fetches(v, parentDir, idColumn, processed, Submitted(v, src.rows, detected), detected, sched.worlds)
  {
    disk' := disk;
    if "site_id" in src.fieldnames {
      var sites := PendingSites(src.rows, idColumn, processed);
      var dirs, _ := CreateSiteDirs(parentDir, sites, disk'.dirs);
      disk' := disk'.(dirs := dirs);
    }
    var rows := Submitted(v, src.rows, detected);
    SubmittedKeyed(v, src, detected, idColumn);
    var results;
    results, fetches := RunWorkers(v, parentDir, idColumn, processed, rows, detected, sched.worlds);
    var appended := Drain(results, sched.picks);
    var before := if trackingName in disk'.ledgers then disk'.ledgers[trackingName] else "";
    disk' := disk'.(ledgers := disk'.ledgers[trackingName := before + appended]);
  }

  /** The thread pool: `fetch_file` on every submitted row, each with its own
      world, the results and effects listed in submission order. */
  method RunWorkers(v: Variant, parentDir: string, idColumn: string, processed: seq<string>, rows: seq<Row>,
                    detected: map<string, seq<Coord>>, worlds: seq<World>)
      returns (results: seq<Option<string>>, fetches: seq<seq<Effect>>)
    requires Keyed(rows, idColumn) && |worlds| == |rows|
    ensures results == Results(idColumn, processed, rows)
    ensures fetches == Fetches(v, parentDir, idColumn, processed, rows, detected, worlds)
  {
    results := [];
    fetches := [];
    for i := 0 to |rows|
      invariant |results| == i && |fetches| == i
      invariant forall j :: 0 <= j < i ==> results[j] == FetchResult(idColumn, processed, rows[j])
      invariant forall j :: 0 <= j < i ==>
                  fetches[j] == FetchEffects(v, parentDir, idColumn, processed, rows[j], detected, worlds[j])
    {
      var effects, result := FetchFile(v, parentDir, idColumn, processed, rows[i], detected, worlds[i]);
      results := results + [result];
      fetches := fetches + [effects];
    }
  }

  // ---------------------------------------------------------------- properties of a run

  /** The ids a run appends to the ledger, in the order they are written. */
  function Written(v: Variant, src: Source, detected: map<string, seq<Coord>>, disk: Disk, sched: Schedule): seq<string>
    requires Runnable(v, src) && Fits(v, src, detected, sched) && "url" in src.fieldnames
  {
    SubmittedKeyed(v, src, detected, IdOf(v, src));
    Truthy(Completed(Results(IdOf(v, src), Processed(v, src, disk), Submitted(v, src.rows, detected)), sched.picks))
  }

  /** No id holds the ledger's separator. */
  predicate SepFree(src: Source, idColumn: string) {
    forall i :: 0 <= i < |src.rows| && idColumn in src.rows[i] ==> Sep !in src.rows[i][idColumn]
  }

  /** A skipped source fetches nothing and leaves its ledger as it was; only
      its folder is created. */
  lemma SkipDoesNothing(v: Variant, cwd: string, src: Source, detected: map<string, seq<Coord>>,
                        disk: Disk, sched: Schedule)
    requires Runnable(v, src) && Fits(v, src, detected, sched) && Skips(v, src, disk)
    ensures RunSpec(v, cwd, src, detected, disk, sched).fetches == []
    ensures RunSpec(v, cwd, src, detected, disk, sched).disk.ledgers == disk.ledgers
    ensures RunSpec(v, cwd, src, detected, disk, sched).disk.dirs
         == disk.dirs + (if "url" in src.fieldnames then {ParentDir(v, cwd, src)} else {})
  {
  }

  /** A file without a `url` column is passed over: nothing is created,
      fetched or written. */
  lemma NoUrlNoRun(v: Variant, cwd: string, src: Source, detected: map<string, seq<Coord>>,
                   disk: Disk, sched: Schedule)
    requires Runnable(v, src) && Fits(v, src, detected, sched) && "url" !in src.fieldnames
    ensures RunSpec(v, cwd, src, detected, disk, sched) == Run(disk, [])
  {
  }

  /** A submitted row whose id is already in the ledger is neither fetched
      nor written again. */
  lemma DoneRowUntouched(v: Variant, cwd: string, src: Source, detected: map<string, seq<Coord>>,
                         disk: Disk, sched: Schedule, i: nat)
    requires Runnable(v, src) && Fits(v, src, detected, sched) && "url" in src.fieldnames && !Skips(v, src, disk)
    requires Keyed(Submitted(v, src.rows, detected), IdOf(v, src))  // follows from Runnable, by SubmittedKeyed
    requires i < |Submitted(v, src.rows, detected)|
    requires Submitted(v, src.rows, detected)[i][IdOf(v, src)] in Processed(v, src, disk)
    ensures RunSpec(v, cwd, src, detected, disk, sched).fetches[i] == []
    ensures Results(IdOf(v, src), Processed(v, src, disk), Submitted(v, src.rows, detected))[i] == None
  {
    SubmittedKeyed(v, src, detected, IdOf(v, src));
  }

  /** Submitted rows carry no separator in their ids when the source's rows do not. */
  lemma SubmittedSepFree(v: Variant, src: Source, detected: map<string, seq<Coord>>)
    requires Runnable(v, src) && "url" in src.fieldnames && SepFree(src, IdOf(v, src))
    ensures Keyed(Submitted(v, src.rows, detected), IdOf(v, src))
    ensures forall i :: 0 <= i < |Submitted(v, src.rows, detected)| ==>
              Sep !in Submitted(v, src.rows, detected)[i][IdOf(v, src)]
  {
    SubmittedKeyed(v, src, detected, IdOf(v, src));
    var subs := Submitted(v, src.rows, detected);
    forall i | 0 <= i < |subs| ensures Sep !in subs[i][IdOf(v, src)] {
      var j :| 0 <= j < |src.rows| && src.rows[j] == subs[i];
    }
  }

  /** What a run that is not skipped leaves in the ledger: the old text and
      the encoding of the ids written. */
  lemma RunText(v: Variant, cwd: string, src: Source, detected: map<string, seq<Coord>>,
                disk: Disk, sched: Schedule)
    requires Runnable(v, src) && Fits(v, src, detected, sched) && "url" in src.fieldnames && !Skips(v, src, disk)
    ensures LedgerText(v, src, RunSpec(v, cwd, src, detected, disk, sched).disk)
         == LedgerText(v, src, disk) + Encode(Written(v, src, detected, disk, sched))
  {
  }

  /** After a run the ledger reads back as the ids it held before followed
      by the ids written in completion order, and it stays well formed. */
  lemma RunLedger(v: Variant, cwd: string, src: Source, detected: map<string, seq<Coord>>,
                  disk: Disk, sched: Schedule)
    requires Runnable(v, src) && Fits(v, src, detected, sched) && "url" in src.fieldnames && !Skips(v, src, disk)
    requires Terminated(LedgerText(v, src, disk)) && SepFree(src, IdOf(v, src))
    ensures Processed(v, src, RunSpec(v, cwd, src, detected, disk, sched).disk)
         == Processed(v, src, disk) + Written(v, src, detected, disk, sched)
    ensures Terminated(LedgerText(v, src, RunSpec(v, cwd, src, detected, disk, sched).disk))
  {
    RunText(v, cwd, src, detected, disk, sched);
    SubmittedSepFree(v, src, detected);
    var subs := Submitted(v, src.rows, detected);
    var results := Results(IdOf(v, src), Processed(v, src, disk), subs);
    var done := Completed(results, sched.picks);
    assert Written(v, src, detected, disk, sched) == Truthy(done);
    ResultsSepFree(IdOf(v, src), Processed(v, src, disk), subs);
    CompletedSepFree(results, sched.picks);
    Reload(LedgerText(v, src, disk), done);
  }

  lemma ResultsSepFree(idColumn: string, processed: seq<string>, rows: seq<Row>)
    requires Keyed(rows, idColumn)
    requires forall i :: 0 <= i < |rows| ==> Sep !in rows[i][idColumn]
    ensures forall i :: 0 <= i < |rows| && Results(idColumn, processed, rows)[i].Some? ==>
              Sep !in Results(idColumn, processed, rows)[i].value
  {
  }

  /** The order in which workers finish changes only the order of the ids in
      the ledger: the same rows are fetched, the same directories made, and
      the ledger holds the same ids as often. */
  lemma OrderFree(v: Variant, cwd: string, src: Source, detected: map<string, seq<Coord>>,
                  disk: Disk, s1: Schedule, s2: Schedule)
    requires Runnable(v, src) && Fits(v, src, detected, s1) && Fits(v, src, detected, s2)
    requires s1.worlds == s2.worlds
    requires Terminated(LedgerText(v, src, disk)) && SepFree(src, IdOf(v, src))
    ensures RunSpec(v, cwd, src, detected, disk, s1).fetches == RunSpec(v, cwd, src, detected, disk, s2).fetches
    ensures RunSpec(v, cwd, src, detected, disk, s1).disk.dirs == RunSpec(v, cwd, src, detected, disk, s2).disk.dirs
    ensures multiset(Processed(v, src, RunSpec(v, cwd, src, detected, disk, s1).disk))
         == multiset(Processed(v, src, RunSpec(v, cwd, src, detected, disk, s2).disk))
  {
    if "url" in src.fieldnames && !Skips(v, src, disk) {
      RunLedger(v, cwd, src, detected, disk, s1);
      RunLedger(v, cwd, src, detected, disk, s2);
      SubmittedKeyed(v, src, detected, IdOf(v, src));
      var results := Results(IdOf(v, src), Processed(v, src, disk), Submitted(v, src.rows, detected));
      CompletedPermutes(results, s1.picks);
      CompletedPermutes(results, s2.picks);
      TruthyOrderFree(Completed(results, s1.picks), Completed(results, s2.picks));
    }
  }

  /** Every id a run writes belongs to a row that was submitted, was not done
      before and has a URL; in the detected-only variant that row's recording
      has detections.  An undetected row is never written to the ledger. */
  lemma WrittenFromPending(v: Variant, src: Source, detected: map<string, seq<Coord>>,
                           disk: Disk, sched: Schedule, x: string)
    requires Runnable(v, src) && Fits(v, src, detected, sched) && "url" in src.fieldnames
    requires x in Written(v, src, detected, disk, sched)
    ensures x !in Processed(v, src, disk)
    ensures exists i :: 0 <= i < |src.rows| && src.rows[i][IdOf(v, src)] == x && src.rows[i]["url"] != ""
                     && (v.DetectedOnly? ==> src.rows[i][RecordingColumn] in detected)
  {
    SubmittedKeyed(v, src, detected, IdOf(v, src));
    assert Keyed(src.rows, IdOf(v, src));
    WrittenRow(v, src.rows, detected, IdOf(v, src), Processed(v, src, disk), sched.picks, x);
  }

  /** The same, for any rows, schedule and ledger contents. */
  lemma WrittenRow(v: Variant, rows: seq<Row>, detected: map<string, seq<Coord>>, idColumn: string,
                   processed: seq<string>, picks: seq<nat>, x: string)
    requires Keyed(rows, idColumn) && Keyed(Submitted(v, rows, detected), idColumn)
    requires ValidPicks(picks, |Submitted(v, rows, detected)|)
    requires x in Truthy(Completed(Results(idColumn, processed, Submitted(v, rows, detected)), picks))
    ensures x !in processed
    ensures exists i :: 0 <= i < |rows| && rows[i][idColumn] == x && rows[i]["url"] != ""
                     && (v.DetectedOnly? ==> RecordingColumn in rows[i] && rows[i][RecordingColumn] in detected)
  {
    var subs := Submitted(v, rows, detected);
    WrittenOrigin(idColumn, processed, subs, picks, x);
    var j :| 0 <= j < |subs| && subs[j][idColumn] == x && subs[j]["url"] != "";
    var row := subs[j];
    assert row in rows;
    var i :| 0 <= i < |rows| && rows[i] == row;
  }

  /** An id the drain writes came from a row not done yet that has a URL. */
  lemma WrittenOrigin(idColumn: string, processed: seq<string>, rows: seq<Row>, picks: seq<nat>, x: string)
    requires Keyed(rows, idColumn) && ValidPicks(picks, |rows|)
    requires x in Truthy(Completed(Results(idColumn, processed, rows), picks))
    ensures x !in processed
    ensures exists j :: 0 <= j < |rows| && rows[j][idColumn] == x && rows[j]["url"] != ""
  {
    var results := Results(idColumn, processed, rows);
    var done := Completed(results, picks);
    TruthyCount(done, x);
    assert x in multiset(Truthy(done));
    assert Some(x) in multiset(done);
    CompletedMembers(results, picks);
    ResultOrigin(idColumn, processed, rows, x);
  }

  // ---------------------------------------------------------------- the skip decision

  /** The ids of some rows, in order. */
  function IdsOf(rows: seq<Row>, idColumn: string): (r: seq<string>)
    requires Keyed(rows, idColumn)
    ensures |r| == |rows|
  {
    seq(|rows|, i requires 0 <= i < |rows| => rows[i][idColumn])
  }

  /** The ledger holds no id more often than the submitted rows carry it.
      This holds for a ledger that only this program wrote over the same rows. */
  predicate Accounted(ids: seq<string>, v: Variant, src: Source, detected: map<string, seq<Coord>>)
    requires Runnable(v, src) && "url" in src.fieldnames
  {
    SubmittedKeyed(v, src, detected, IdOf(v, src));
    multiset(ids) <= multiset(IdsOf(Submitted(v, src.rows, detected), IdOf(v, src)))
  }

  /** No ledger yet: nothing is accounted for, and the text is well formed. */
  lemma FreshLedger(v: Variant, src: Source, detected: map<string, seq<Coord>>, disk: Disk)
    requires Runnable(v, src) && "url" in src.fieldnames && TrackingName(v, src.name) !in disk.ledgers
    ensures Processed(v, src, disk) == []
    ensures Accounted(Processed(v, src, disk), v, src, detected)
    ensures Terminated(LedgerText(v, src, disk))
  {
    assert Split("", Sep) == [""];
  }

  /** The result count of some id is bounded by the number of rows with it. */
  lemma {:induction false} CountBound(r: seq<Option<string>>, ids: seq<string>, x: string)
    requires |r| == |ids|
    requires forall i :: 0 <= i < |r| && r[i] == Some(x) ==> ids[i] == x
    ensures multiset(r)[Some(x)] <= multiset(ids)[x]
    decreases |r|
  {
    if r != [] {
      CountBound(r[1..], ids[1..], x);
      assert r == [r[0]] + r[1..];
      assert ids == [ids[0]] + ids[1..];
    }
  }

  /** A worker returns an id only for a row that carries it, had not been
      done and has a URL. */
  lemma ResultOrigin(idColumn: string, processed: seq<string>, rows: seq<Row>, x: string)
    requires Keyed(rows, idColumn) && Some(x) in Results(idColumn, processed, rows)
    ensures x !in processed
    ensures exists j :: 0 <= j < |rows| && rows[j][idColumn] == x && rows[j]["url"] != ""
  {
    var results := Results(idColumn, processed, rows);
    var j :| 0 <= j < |results| && results[j] == Some(x);
  }

  /** The ids written for rows not yet done, added to an accounted ledger,
      are still accounted for. */
  lemma ResultsAccounted(idColumn: string, processed: seq<string>, rows: seq<Row>)
    requires Keyed(rows, idColumn)
    requires multiset(processed) <= multiset(IdsOf(rows, idColumn))
    ensures multiset(processed) + multiset(Truthy(Results(idColumn, processed, rows)))
         <= multiset(IdsOf(rows, idColumn))
  {
    var results := Results(idColumn, processed, rows);
    var ids := IdsOf(rows, idColumn);
    forall x ensures multiset(processed)[x] + multiset(Truthy(results))[x] <= multiset(ids)[x] {
      TruthyCount(results, x);
      if x in processed {
        if Some(x) in results {
          ResultOrigin(idColumn, processed, rows, x);
        }
      } else {
        CountBound(results, ids, x);
      }
    }
  }

  /** A run keeps the ledger accounted for and well formed. */
  lemma RunKeepsAccounted(v: Variant, cwd: string, src: Source, detected: map<string, seq<Coord>>,
                          disk: Disk, sched: Schedule)
    requires Runnable(v, src) && Fits(v, src, detected, sched) && "url" in src.fieldnames
    requires Terminated(LedgerText(v, src, disk)) && SepFree(src, IdOf(v, src))
    requires Accounted(Processed(v, src, disk), v, src, detected)
    ensures Accounted(Processed(v, src, RunSpec(v, cwd, src, detected, disk, sched).disk), v, src, detected)
    ensures Terminated(LedgerText(v, src, RunSpec(v, cwd, src, detected, disk, sched).disk))
  {
    if !Skips(v, src, disk) {
      RunLedger(v, cwd, src, detected, disk, sched);
      SubmittedKeyed(v, src, detected, IdOf(v, src));
      var idColumn := IdOf(v, src);
      var processed := Processed(v, src, disk);
      var subs := Submitted(v, src.rows, detected);
      var results := Results(idColumn, processed, subs);
      var ids := IdsOf(subs, idColumn);
      var done := Completed(results, sched.picks);
      CompletedPermutes(results, sched.picks);
      TruthyOrderFree(done, results);
      ResultsAccounted(idColumn, processed, subs);
      assert multiset(processed + Written(v, src, detected, disk, sched)) == multiset(processed) + multiset(Truthy(results));
    }
  }

  /** A sub-multiset at least as large as the whole is the whole. */
  lemma Fill<T>(a: multiset<T>, b: multiset<T>)
    requires a <= b && |a| >= |b|
    ensures a == b
  {
    assert b == a + (b - a);
  }

  /** A row survives the detection filter whenever the filter keeps every row. */
  lemma {:induction false} WithDetectionsAll(rows: seq<Row>, detected: map<string, seq<Coord>>)
    requires |WithDetections(rows, detected)| >= |rows|
    ensures WithDetections(rows, detected) == rows
    decreases |rows|
  {
    if rows != [] {
      var head := rows[0];
      WithDetectionsAll(rows[1..], detected);
      assert rows == [head] + rows[1..];
    }
  }

  /** The skip is sound for a ledger that is accounted for: when it counts as
      many ids as there are rows, every row's id is in it, and in the
      detected-only variant every row has detections.  So a detected-only
      source with a row without detections is never skipped. */
  lemma SkipIsSound(v: Variant, src: Source, detected: map<string, seq<Coord>>, disk: Disk)
    requires Runnable(v, src) && "url" in src.fieldnames
    requires Accounted(Processed(v, src, disk), v, src, detected)
    requires Skips(v, src, disk)
    ensures forall i :: 0 <= i < |src.rows| ==> src.rows[i][IdOf(v, src)] in Processed(v, src, disk)
    ensures v.DetectedOnly? ==> forall i :: 0 <= i < |src.rows| ==> src.rows[i][RecordingColumn] in detected
  {
    SubmittedKeyed(v, src, detected, IdOf(v, src));
    var subs := Submitted(v, src.rows, detected);
    var processed := Processed(v, src, disk);
    var m := multiset(IdsOf(subs, IdOf(v, src)));
    assert m == multiset(processed) + (m - multiset(processed));
    assert |subs| >= |src.rows|;
    Fill(multiset(processed), m);
    if v.DetectedOnly? {
      WithDetectionsAll(src.rows, detected);
    }
    assert subs == src.rows;
    forall i | 0 <= i < |src.rows| ensures src.rows[i][IdOf(v, src)] in processed {
      assert IdsOf(subs, IdOf(v, src))[i] == src.rows[i][IdOf(v, src)];
      assert src.rows[i][IdOf(v, src)] in m;
    }
  }

  /** The skip counts ids, not distinct ids: a ledger `a;a;` over rows `a`
      and `b` skips the source although `b` was never done. */
  lemma CountNotDistinct(v: Variant, src: Source, disk: Disk)
    requires Runnable(v, src) && "url" in src.fieldnames
    requires |src.rows| == 2 && src.rows[0][IdOf(v, src)] == "a" && src.rows[1][IdOf(v, src)] == "b"
    requires TrackingName(v, src.name) in disk.ledgers && disk.ledgers[TrackingName(v, src.name)] == "a;a;"
    ensures Skips(v, src, disk)
    ensures src.rows[1][IdOf(v, src)] !in Processed(v, src, disk)
  {
    assert Encode(["a", "a"]) == "a;a;" by {
      assert Encode(["a"]) == "a;";
    }
    LoadEncode(["a", "a"]);
  }

  // ---------------------------------------------------------------- the whole script

  /** The rows of the detection tables among the directory's files, in
      listing order. */
  function RoiTables(listing: seq<Source>): (r: seq<seq<Row>>)
    ensures |r| <= |listing|
    decreases |listing|
  {
    if listing == [] then []
    else (if IsRoiFile(listing[0].name) then [listing[0].rows] else []) + RoiTables(listing[1..])
  }

  /** A file's rows are read as a detection table exactly when its name
      starts with `pattern_matching_rois`, and the tables come in listing
      order: the tables of two parts of the listing are those of the first
      followed by those of the second. */
  lemma {:induction false} RoiTablesAppend(a: seq<Source>, b: seq<Source>)
    ensures RoiTables(a + b) == RoiTables(a) + RoiTables(b)
    ensures |a| == 1 ==> RoiTables(a) == if IsRoiFile(a[0].name) then [a[0].rows] else []
    decreases |a|
  {
    if a == [] {
      assert a + b == b;
    } else {
      assert (a + b)[0] == a[0];
      assert (a + b)[1..] == a[1..] + b;
      RoiTablesAppend(a[1..], b);
      if |a| == 1 {
        assert a[1..] == [];
      }
    }
  }

  /** `detected_recordings` once the grouping loop is over (empty, and
      unused, in download_files_v1.py). */
  function DetectionsOf(v: Variant, listing: seq<Source>): map<string, seq<Coord>>
    requires v.DetectedOnly? ==> RoiFiles(RoiTables(listing))
  {
    if v.AllFiles? then map[]
    else
      FlattenRoi(RoiTables(listing));
      Grouped(Flatten(RoiTables(listing)))
  }

  /** Every source of the listing can run with its schedule. */
  predicate Ready(v: Variant, listing: seq<Source>, detected: map<string, seq<Coord>>, scheds: seq<Schedule>)
    requires |scheds| == |listing|
  {
    forall k :: 0 <= k < |listing| && IsSourceFile(listing[k].name) ==>
      Runnable(v, listing[k]) && Fits(v, listing[k], detected, scheds[k])
  }

  lemma ReadyTail(v: Variant, listing: seq<Source>, detected: map<string, seq<Coord>>, scheds: seq<Schedule>, k: nat)
    requires |scheds| == |listing| && k <= |listing| && Ready(v, listing, detected, scheds)
    ensures Ready(v, listing[k..], detected, scheds[k..])
  {
    forall j | 0 <= j < |listing[k..]| && IsSourceFile(listing[k..][j].name)
      ensures Runnable(v, listing[k..][j]) && Fits(v, listing[k..][j], detected, scheds[k..][j])
    {
      assert listing[k..][j] == listing[k + j];
      assert scheds[k..][j] == scheds[k + j];
    }
  }

  /** What one file of the listing does: a `.csv` file is handled as a
      source, anything else is passed over. */
  function Step(v: Variant, cwd: string, file: Source, detected: map<string, seq<Coord>>,
                disk: Disk, sched: Schedule): Run
    requires IsSourceFile(file.name) ==> Runnable(v, file) && Fits(v, file, detected, sched)
  {
    if IsSourceFile(file.name) then RunSpec(v, cwd, file, detected, disk, sched) else Run(disk, [])
  }

  /** The files of the directory in listing order, each on the disk the
      ones before it left. */
  function ScriptSpec(v: Variant, cwd: string, listing: seq<Source>, detected: map<string, seq<Coord>>,
                      disk: Disk, scheds: seq<Schedule>): (r: Run)
    requires |scheds| == |listing| && Ready(v, listing, detected, scheds)
    ensures (forall k :: 0 <= k < |listing| ==> !IsSourceFile(listing[k].name)) ==> r == Run(disk, [])
    decreases |listing|
  {
    if listing == [] then Run(disk, [])
    else
      var first := Step(v, cwd, listing[0], detected, disk, scheds[0]);
      ReadyTail(v, listing, detected, scheds, 1);
      assert forall k :: 0 <= k < |listing| - 1 ==> listing[1..][k] == listing[k + 1];
      Then(first.fetches, ScriptSpec(v, cwd, listing[1..], detected, first.disk, scheds[1..]))
  }

  lemma ScriptUnfold(v: Variant, cwd: string, listing: seq<Source>, detected: map<string, seq<Coord>>,
                     disk: Disk, scheds: seq<Schedule>)
    requires |scheds| == |listing| && listing != [] && Ready(v, listing, detected, scheds)
    ensures IsSourceFile(listing[0].name) ==> Runnable(v, listing[0]) && Fits(v, listing[0], detected, scheds[0])
    ensures Ready(v, listing[1..], detected, scheds[1..])
    ensures var first := Step(v, cwd, listing[0], detected, disk, scheds[0]);
            ScriptSpec(v, cwd, listing, detected, disk, scheds)
            == Then(first.fetches, ScriptSpec(v, cwd, listing[1..], detected, first.disk, scheds[1..]))
  {
    ReadyTail(v, listing, detected, scheds, 1);
  }

  lemma ThenThen(done: seq<seq<Effect>>, more: seq<seq<Effect>>, rest: Run)
    ensures Then(done, Then(more, rest)) == Then(done + more, rest)
  {
    assert done + (more + rest.fetches) == (done + more) + rest.fetches;
  }

  /** One file of the listing, run. */
  method HandleFile(v: Variant, cwd: string, file: Source, detected: map<string, seq<Coord>>,
                    disk: Disk, sched: Schedule) returns (disk': Disk, fetches: seq<seq<Effect>>)
    requires IsSourceFile(file.name) ==> Runnable(v, file) && Fits(v, file, detected, sched)
    ensures Run(disk', fetches) == Step(v, cwd, file, detected, disk, sched)
  {
    if IsSourceFile(file.name) {
      disk', fetches := RunSource(v, cwd, file, detected, disk, sched);
    } else {
      disk', fetches := disk, [];
    }
  }

  /** The `__main__` block: in the detected-only variant, group the
      detection tables first; then handle the files of the listing in order. */
  method RunScript(v: Variant, cwd: string, listing: seq<Source>, disk: Disk, scheds: seq<Schedule>)
      returns (disk': Disk, fetches: seq<seq<Effect>>)
    requires |scheds| == |listing|
    requires v.DetectedOnly? ==> RoiFiles(RoiTables(listing))
    requires Ready(v, listing, DetectionsOf(v, listing), scheds)
    ensures Run(disk', fetches) == ScriptSpec(v, cwd, listing, DetectionsOf(v, listing), disk, scheds)
  {
    var detected: map<string, seq<Coord>> := map[];
    if v.DetectedOnly? {
      detected := GroupDetections(RoiTables(listing));
    }
    assert detected == DetectionsOf(v, listing);
    disk' := disk;
    fetches := [];
    assert listing[0..] == listing && scheds[0..] == scheds;
    for k := 0 to |listing|
      invariant Ready(v, listing[k..], detected, scheds[k..])
      invariant ScriptSpec(v, cwd, listing, detected, disk, scheds)
             == Then(fetches, ScriptSpec(v, cwd, listing[k..], detected, disk', scheds[k..]))
    {
      ScriptUnfold(v, cwd, listing[k..], detected, disk', scheds[k..]);
      assert listing[k..][1..] == listing[k + 1..];
      assert scheds[k..][1..] == scheds[k + 1..];
      var d, f := HandleFile(v, cwd, listing[k], detected, disk', scheds[k]);
      ThenThen(fetches, f, ScriptSpec(v, cwd, listing[k + 1..], detected, d, scheds[k + 1..]));
      disk' := d;
      fetches := fetches + f;
    }
    assert fetches + [] == fetches;
  }

  /** The effects of the files before a point, followed by what the rest of
      the listing does. */
  function Then(done: seq<seq<Effect>>, rest: Run): Run {
    Run(rest.disk, done + rest.fetches)
  }

  /** A ledger in the listing is passed over, since its name does not end
      in `.csv`. */
  lemma LedgerNotRead(v: Variant, cwd: string, listing: seq<Source>, detected: map<string, seq<Coord>>,
                      disk: Disk, scheds: seq<Schedule>, name: string)
    requires |scheds| == |listing| && listing != [] && listing[0].name == TrackingName(v, name)
    requires Ready(v, listing, detected, scheds)
    ensures Ready(v, listing[1..], detected, scheds[1..])
    ensures ScriptSpec(v, cwd, listing, detected, disk, scheds)
         == ScriptSpec(v, cwd, listing[1..], detected, disk, scheds[1..])
  {
    TrackingIsNoSource(v, name);
    ReadyTail(v, listing, detected, scheds, 1);
    ScriptUnfold(v, cwd, listing, detected, disk, scheds);
    assert [] + ScriptSpec(v, cwd, listing[1..], detected, disk, scheds[1..]).fetches
        == ScriptSpec(v, cwd, listing[1..], detected, disk, scheds[1..]).fetches;
  }
}
