/** `fetch_file`: one worker's handling of one row.  The network, the disk and
    ffmpeg are reduced to effects that either succeed or raise; which one
    raises, if any, is part of the item's `World`. */
module Fetch {
  import opened Wrappers
  import opened Text
  import opened Layout
  import opened Detections

  /** What a worker asks of the outside world. */
  datatype Effect =
    | Get(url: string)                                              // requests.get(url)
    | Write(path: string)                                           // open(path, 'wb') and write the body
    | Trim(src: string, dest: string, start: string, end: string)   // trim_audio(src, dest, x1, x2)
    | Unlink(path: string)                                          // Path(path).unlink()

  /** The outside world as one item sees it: the path of its URL
      (`Path(urlparse(url).path)`), the `strptime` parser, and the index, in
      the item's planned effects, of the first effect that raises. */
  datatype World = World(urlPath: string, strptime: (string, string) -> Option<DateTime>, raisesAt: Option<nat>)

  /** The effects `fetch_file` performs when none of them raises, and whether
      it then reaches `return item_id` (false: its own code raises after them). */
  datatype Plan = Plan(steps: seq<Effect>, completes: bool)

  /** The `trim_audio` call for one window: the segment of `target` between
      `x1` and `x2`, written next to it. */
  function TrimOf(target: string, dir: string, base: string, ext: string, c: Coord): Effect
  {
    Trim(target, SegmentPath(dir, base, c.x1, c.x2, ext), c.x1, c.x2)
  }

  /** One `trim_audio` call per window, in list order. */
  function Trims(target: string, dir: string, base: string, ext: string, cs: seq<Coord>): (r: seq<Effect>)
    ensures |r| == |cs|
  {
    seq(|cs|, k requires 0 <= k < |cs| => TrimOf(target, dir, base, ext, cs[k]))
  }

  lemma PrefixSnoc<T>(s: seq<T>, k: nat)
    requires k < |s|
    ensures s[..k + 1] == s[..k] + [s[k]]
  {
  }

  lemma PrefixOfJoin<T>(a: seq<T>, b: seq<T>, c: seq<T>, k: nat)
    requires k <= |b|
    ensures (a + b + c)[..|a| + k] == a + b[..k]
  {
  }

  /** The plan of a row that is not processed yet and has a URL.  A recording
      row whose date cannot be formatted raises before anything is fetched.
      The detected-only variant raises after the download when the row has
      no detections (KeyError) or when it must trim a file whose segment base
      name was never bound (the id column is not `recording_id`). */
  function PlanOf(v: Variant, parentDir: string, idColumn: string, row: Row,
                  detected: map<string, seq<Coord>>, w: World): (p: Plan)
    requires idColumn in row && "url" in row
    ensures p.steps == [] <==>
              idColumn == RecordingColumn
              && ("datetime" !in row || row["datetime"] == "" || w.strptime(row["datetime"], DateFormat(v)).None?)
    ensures p.steps != [] ==> |p.steps| >= 2 && p.steps[0] == Get(row["url"]) && p.steps[1].Write?
                              && StartsWith(p.steps[1].path, DestinationDir(parentDir, row) + "/")
  {
    RecordingNaming(v, row, row[idColumn], w.urlPath, w.strptime);
    PlanFor(v, row, detected, DestinationDir(parentDir, row),
            FileNaming(v, idColumn, row, row[idColumn], w.urlPath, w.strptime))
  }

  /** The plan once the destination directory and the names are known. */
  function PlanFor(v: Variant, row: Row, detected: map<string, seq<Coord>>, dir: string,
                   naming: Option<Naming>): (p: Plan)
    requires "url" in row
    ensures p.completes <==>
              naming.Some?
              && (v.AllFiles? || (RecordingColumn in row && row[RecordingColumn] in detected
                                  && (detected[row[RecordingColumn]] == [] || naming.value.segmentBase.Some?)))
  {
    match naming
    case None => Plan([], false)
    case Some(n) =>
      var target := dir + "/" + n.filename;
      var download := [Get(row["url"]), Write(target)];
      if v.AllFiles? then Plan(download, true)
      else if RecordingColumn !in row || row[RecordingColumn] !in detected then Plan(download, false)
      else
        var cs := detected[row[RecordingColumn]];
        if cs != [] && n.segmentBase.None? then Plan(download, false)
        else
          var base := if n.segmentBase.Some? then n.segmentBase.value else "";
          Plan(download + Trims(target, dir, base, n.ext, cs) + [Unlink(target)], true)
  }

  /** The effects actually attempted: the plan up to and including the first
      one that raises. */
  function Attempted(p: Plan, raisesAt: Option<nat>): (effects: seq<Effect>)
    ensures effects <= p.steps
    ensures |effects| < |p.steps| ==> raisesAt == Some(|effects| - 1)
    ensures raisesAt.Some? && raisesAt.value < |p.steps| ==> |effects| == raisesAt.value + 1
    ensures raisesAt.None? || raisesAt.value >= |p.steps| ==> effects == p.steps
  {
    if raisesAt.Some? && raisesAt.value < |p.steps| then p.steps[..raisesAt.value + 1] else p.steps
  }

  /** What `fetch_file` returns: `None` for an id done in an earlier run and
      for an empty URL, the id itself otherwise, whatever was raised. */
  function FetchResult(idColumn: string, processed: seq<string>, row: Row): (r: Option<string>)
    requires idColumn in row && "url" in row
    ensures r.None? <==> row[idColumn] in processed || row["url"] == ""
    ensures r.Some? ==> r.value == row[idColumn]
  {
    if row[idColumn] in processed || row["url"] == "" then None else Some(row[idColumn])
  }

  /** The effects of `fetch_file` on a row. */
  function FetchEffects(v: Variant, parentDir: string, idColumn: string, processed: seq<string>,
                        row: Row, detected: map<string, seq<Coord>>, w: World): (effects: seq<Effect>)
    requires idColumn in row && "url" in row
  {
    if row[idColumn] in processed || row["url"] == "" then []
    else Attempted(PlanOf(v, parentDir, idColumn, row, detected, w), w.raisesAt)
  }

  /** A worker that returns nothing does nothing; otherwise it performs its
      plan up to the first effect that raises, and all of it when nothing
      raises. */
  lemma FetchEffectsPlan(v: Variant, parentDir: string, idColumn: string, processed: seq<string>,
                         row: Row, detected: map<string, seq<Coord>>, w: World)
    requires idColumn in row && "url" in row
    ensures var effects := FetchEffects(v, parentDir, idColumn, processed, row, detected, w);
            var plan := PlanOf(v, parentDir, idColumn, row, detected, w);
            && (FetchResult(idColumn, processed, row).None? ==> effects == [])
            && effects <= plan.steps
            && (FetchResult(idColumn, processed, row).Some? && w.raisesAt.None? ==> effects == plan.steps)
  {
  }

  /** `fetch_file(parent_dir, id_column, processed_ids, row[, detected_recordings])`.
      An id done in an earlier run, or an empty URL, does nothing and returns
      `None`; anything else returns the id, after the planned effects up to
      the first that raises. */
  method FetchFile(v: Variant, parentDir: string, idColumn: string, processed: seq<string>,
                   row: Row, detected: map<string, seq<Coord>>, w: World)
      returns (effects: seq<Effect>, result: Option<string>)
    requires idColumn in row && "url" in row
    ensures row[idColumn] in processed ==> effects == [] && result == None
    ensures row[idColumn] !in processed && row["url"] == "" ==> effects == [] && result == None
    ensures row[idColumn] !in processed && row["url"] != "" ==>
              && result == Some(row[idColumn])
              && effects == Attempted(PlanOf(v, parentDir, idColumn, row, detected, w), w.raisesAt)
    ensures effects == FetchEffects(v, parentDir, idColumn, processed, row, detected, w)
    ensures result == FetchResult(idColumn, processed, row)
  {
    var itemId := row[idColumn];
    var url := row["url"];
    if itemId in processed {
      return [], None;
    }
    var destinationDir := parentDir;
    if "site_id" in row {
      destinationDir := Join(parentDir, row["site_id"]);
    }
    if url == "" {
      return [], None;
    }
    // From here on every way out returns the id, normally or from `except`.
    result := Some(itemId);
    var naming := FileNaming(v, idColumn, row, itemId, w.urlPath, w.strptime);
    if naming.None? {
      return [], result;
    }
    effects := Transfer(v, row, detected, destinationDir, naming.value, w.raisesAt);
  }

  /** The body of `fetch_file` once the names are known: download and write
      the file, then, in the detected-only variant, cut out every window and
      remove the download.  Stops after the first effect that raises. */
  method Transfer(v: Variant, row: Row, detected: map<string, seq<Coord>>, destinationDir: string,
                  naming: Naming, raisesAt: Option<nat>)
      returns (effects: seq<Effect>)
    requires "url" in row
    ensures effects == Attempted(PlanFor(v, row, detected, destinationDir, Some(naming)), raisesAt)
  {
    ghost var plan := PlanFor(v, row, detected, destinationDir, Some(naming));
    var url := row["url"];
    var target := destinationDir + "/" + naming.filename;
    effects := [Get(url)];
    if raisesAt.Some? && raisesAt.value == 0 {
      assert effects == plan.steps[..1];
      return;
    }
    effects := effects + [Write(target)];
    if raisesAt.Some? && raisesAt.value == 1 {
      assert effects == plan.steps[..2];
      return;
    }
    if v.AllFiles? {
      return;
    }
    if RecordingColumn !in row || row[RecordingColumn] !in detected {
      return;
    }
    var coordinates := detected[row[RecordingColumn]];
    if coordinates != [] && naming.segmentBase.None? {
      return;
    }
    var base := if naming.segmentBase.Some? then naming.segmentBase.value else "";
    ghost var download := effects;
    ghost var trims := Trims(target, destinationDir, base, naming.ext, coordinates);
    assert plan.steps == download + trims + [Unlink(target)];
    var later: Option<nat> := if raisesAt.Some? then Some(raisesAt.value - 2) else None;
    var trimmed, raised := TrimSegments(target, destinationDir, base, naming.ext, coordinates, later);
    effects := effects + trimmed;
    if raised {
      PrefixOfJoin(download, trims, [Unlink(target)], later.value + 1);
      return;
    }
    effects := effects + [Unlink(target)];
    assert effects == plan.steps;
  }

  /** The loop over the windows: one `trim_audio` call each, in list order,
      stopping after the first that raises (`raisesAt` counts from the first
      trim). */
  method TrimSegments(target: string, dir: string, base: string, ext: string, coordinates: seq<Coord>,
                      raisesAt: Option<nat>)
      returns (effects: seq<Effect>, raised: bool)
    ensures raised <==> raisesAt.Some? && raisesAt.value < |coordinates|
    ensures effects == Attempted(Plan(Trims(target, dir, base, ext, coordinates), true), raisesAt)
  {
    ghost var trims := Trims(target, dir, base, ext, coordinates);
    effects := [];
    var k := 0;
    while k < |coordinates|
      invariant 0 <= k <= |coordinates|
      invariant effects == trims[..k]
      invariant raisesAt.None? || raisesAt.value >= k
    {
      var x1 := coordinates[k].x1;
      var x2 := coordinates[k].x2;
      var newTarget := SegmentPath(dir, base, x1, x2, ext);
      assert trims[k] == Trim(target, newTarget, x1, x2);
      PrefixSnoc(trims, k);
      effects := effects + [Trim(target, newTarget, x1, x2)];
      if raisesAt.Some? && raisesAt.value == k {
        return effects, true;
      }
      k := k + 1;
    }
    assert trims[..k] == trims;
    raised := false;
  }

  /** The order of a worker's effects, whatever the names: the download
      first, then its write into the destination directory, then only trims
      of the written file, and last the removal of that file (only in the
      detected-only variant). */
  lemma PlanShape(v: Variant, row: Row, detected: map<string, seq<Coord>>, dir: string, naming: Option<Naming>)
    requires "url" in row
    ensures var s := PlanFor(v, row, detected, dir, naming).steps;
            && (s == [] <==> naming.None?)
            && (s == [] || (|s| >= 2 && s[0] == Get(row["url"]) && s[1].Write? && StartsWith(s[1].path, dir + "/")))
            && (forall i :: 2 <= i < |s| - 1 ==> s[i].Trim? && s[i].src == s[1].path)
            && (|s| > 2 ==> v.DetectedOnly? && s[|s| - 1] == Unlink(s[1].path))
            && (v.AllFiles? ==> |s| <= 2)
  {
    var s := PlanFor(v, row, detected, dir, naming).steps;
    if |s| > 2 {
      var n := naming.value;
      var target := dir + "/" + n.filename;
      var cs := detected[row[RecordingColumn]];
      var base := if n.segmentBase.Some? then n.segmentBase.value else "";
      var trims := Trims(target, dir, base, n.ext, cs);
      assert s == [Get(row["url"]), Write(target)] + trims + [Unlink(target)];
      forall i | 2 <= i < |s| - 1 ensures s[i].Trim? && s[i].src == s[1].path {
        assert s[i] == trims[i - 2];
      }
    }
  }

  /** A file with detections and a bound segment base gets exactly one trim
      per window, in list order, each from the written file, and then the
      written file is removed. */
  lemma DetectedPlan(row: Row, detected: map<string, seq<Coord>>, dir: string, n: Naming, base: string)
    requires "url" in row && RecordingColumn in row && row[RecordingColumn] in detected
    requires n.segmentBase == Some(base)
    ensures var p := PlanFor(DetectedOnly, row, detected, dir, Some(n));
            var cs := detected[row[RecordingColumn]];
            var target := dir + "/" + n.filename;
            && p.completes
            && |p.steps| == |cs| + 3
            && p.steps[..2] == [Get(row["url"]), Write(target)]
            && (forall i :: 0 <= i < |p.steps| ==> (p.steps[i].Trim? <==> 2 <= i < |cs| + 2))
            && (forall k :: 0 <= k < |cs| ==>
                  p.steps[2 + k] == Trim(target, SegmentPath(dir, base, cs[k].x1, cs[k].x2, n.ext), cs[k].x1, cs[k].x2))
            && p.steps[|p.steps| - 1] == Unlink(target)
  {
    var p := PlanFor(DetectedOnly, row, detected, dir, Some(n));
    var cs := detected[row[RecordingColumn]];
    var target := dir + "/" + n.filename;
    var trims := Trims(target, dir, base, n.ext, cs);
    assert p.steps == [Get(row["url"]), Write(target)] + trims + [Unlink(target)];
    forall k | 0 <= k < |cs|
      ensures p.steps[2 + k] == Trim(target, SegmentPath(dir, base, cs[k].x1, cs[k].x2, n.ext), cs[k].x1, cs[k].x2)
    {
      assert p.steps[2 + k] == trims[k];
    }
    forall i | 0 <= i < |p.steps| ensures p.steps[i].Trim? <==> 2 <= i < |cs| + 2 {
      if 2 <= i < |cs| + 2 {
        assert p.steps[i] == trims[i - 2];
      }
    }
  }

  /** A recording with N windows gets exactly N trims, in list order, the
      k-th cutting `{timestamp}-{id}_{x1}_{x2}{ext}` out of the downloaded
      file; the downloaded file is then removed. */
  lemma TrimCalls(parentDir: string, row: Row, detected: map<string, seq<Coord>>, w: World)
    requires RecordingColumn in row && "url" in row && "datetime" in row && row["datetime"] != ""
    requires w.strptime(row["datetime"], DateFormat(DetectedOnly)).Some?
    requires row[RecordingColumn] in detected
    ensures var p := PlanOf(DetectedOnly, parentDir, RecordingColumn, row, detected, w);
            var cs := detected[row[RecordingColumn]];
            var date := w.strptime(row["datetime"], DateFormat(DetectedOnly)).value;
            var dir := DestinationDir(parentDir, row);
            var target := dir + "/" + FileNaming(DetectedOnly, RecordingColumn, row, row[RecordingColumn], w.urlPath, w.strptime).value.filename;
            && p.completes
            && |p.steps| == |cs| + 3
            && p.steps[..2] == [Get(row["url"]), Write(target)]
            && (forall i :: 0 <= i < |p.steps| ==> (p.steps[i].Trim? <==> 2 <= i < |cs| + 2))
            && (forall k :: 0 <= k < |cs| ==>
                  p.steps[2 + k]
                  == Trim(target, SegmentPath(dir, Timestamp(date) + "-" + row[RecordingColumn], cs[k].x1, cs[k].x2, Extension(w.urlPath)),
                          cs[k].x1, cs[k].x2))
            && p.steps[|p.steps| - 1] == Unlink(target)
  {
    var date := w.strptime(row["datetime"], DateFormat(DetectedOnly)).value;
    RecordingNaming(DetectedOnly, row, row[RecordingColumn], w.urlPath, w.strptime);
    var n := FileNaming(DetectedOnly, RecordingColumn, row, row[RecordingColumn], w.urlPath, w.strptime).value;
    DetectedPlan(row, detected, DestinationDir(parentDir, row), n, Timestamp(date) + "-" + row[RecordingColumn]);
  }

  /** A recording row whose date is missing, empty or unparsable is never
      downloaded, and its id is still returned (so the ledger records it). */
  lemma NoDateNoDownload(v: Variant, parentDir: string, processed: seq<string>, row: Row,
                         detected: map<string, seq<Coord>>, w: World)
    requires RecordingColumn in row && "url" in row
    requires "datetime" !in row || row["datetime"] == "" || w.strptime(row["datetime"], DateFormat(v)).None?
    ensures FetchEffects(v, parentDir, RecordingColumn, processed, row, detected, w) == []
    ensures row[RecordingColumn] !in processed && row["url"] != "" ==>
              FetchResult(RecordingColumn, processed, row) == Some(row[RecordingColumn])
  {
    assert FileNaming(v, RecordingColumn, row, row[RecordingColumn], w.urlPath, w.strptime).None?;
  }

  /** In download_files_v1.py a row's file is fetched and written to
      `{destination_dir}/{filename}`, and nothing else happens to it. */
  lemma AllFilesPlan(parentDir: string, idColumn: string, row: Row, detected: map<string, seq<Coord>>, w: World)
    requires idColumn in row && "url" in row
    ensures var p := PlanOf(AllFiles, parentDir, idColumn, row, detected, w);
            var naming := FileNaming(AllFiles, idColumn, row, row[idColumn], w.urlPath, w.strptime);
            && (p.completes <==> naming.Some?)
            && (naming.Some? ==> p.steps == [Get(row["url"]), Write(DestinationDir(parentDir, row) + "/" + naming.value.filename)])
            && (naming.None? ==> p.steps == [])
  {
  }

  /** With the detections the grouping loop builds, every list is non-empty,
      so a detected-only item that runs to its end trims at least once and
      removes its downloaded file: no full recording is kept. */
  lemma KeepsNoOriginal(rois: seq<Row>, parentDir: string, idColumn: string, row: Row, w: World)
    requires RoiRows(rois) && idColumn in row && "url" in row
    requires PlanOf(DetectedOnly, parentDir, idColumn, row, Grouped(rois), w).completes
    ensures var s := PlanOf(DetectedOnly, parentDir, idColumn, row, Grouped(rois), w).steps;
            |s| >= 4 && s[2].Trim? && s[|s| - 1] == Unlink(s[1].path)
  {
    var naming := FileNaming(DetectedOnly, idColumn, row, row[idColumn], w.urlPath, w.strptime);
    var dir := DestinationDir(parentDir, row);
    assert PlanOf(DetectedOnly, parentDir, idColumn, row, Grouped(rois), w)
        == PlanFor(DetectedOnly, row, Grouped(rois), dir, naming);
    CompletedPlan(row, Grouped(rois), dir, naming);
    GroupedNonEmpty(rois, row[RecordingColumn]);
  }

  /** A detected-only plan that completes belongs to a detected recording,
      and when that recording has windows the plan cuts them from the
      download and then removes it. */
  lemma CompletedPlan(row: Row, detected: map<string, seq<Coord>>, dir: string, naming: Option<Naming>)
    requires "url" in row && PlanFor(DetectedOnly, row, detected, dir, naming).completes
    ensures naming.Some? && RecordingColumn in row && row[RecordingColumn] in detected
    ensures detected[row[RecordingColumn]] != [] ==>
              var s := PlanFor(DetectedOnly, row, detected, dir, naming).steps;
              |s| >= 4 && s[2].Trim? && s[|s| - 1] == Unlink(s[1].path)
  {
    var n := naming.value;
    var cs := detected[row[RecordingColumn]];
    if cs != [] {
      var target := dir + "/" + n.filename;
      var trims := Trims(target, dir, n.segmentBase.value, n.ext, cs);
      var s := PlanFor(DetectedOnly, row, detected, dir, naming).steps;
      assert s == [Get(row["url"]), Write(target)] + trims + [Unlink(target)];
      assert s[2] == trims[0];
    }
  }

  /** A run whose effects all succeed performs the whole plan. */
  lemma NothingRaises(p: Plan)
    ensures Attempted(p, None) == p.steps
  {
  }
}
