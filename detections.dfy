/** The detections of the detected-only variant: every row of the
    `pattern_matching_rois*` tables contributes its `(x1, x2)` pair to the
    list of its `recording_id`. */
module Detections {
  import opened Layout

  /** One detection window, as the CSV cells give it (start and end offsets). */
  datatype Coord = Coord(x1: string, x2: string)

  /** A detection row has the three columns the grouping loop reads. */
  predicate RoiRow(row: Row) {
    RecordingColumn in row && "x1" in row && "x2" in row
  }

  predicate RoiRows(rows: seq<Row>) {
    forall i :: 0 <= i < |rows| ==> RoiRow(rows[i])
  }

  function CoordOf(row: Row): Coord
    requires RoiRow(row)
  {
    Coord(row["x1"], row["x2"])
  }

  /** The windows of recording `k`, in the order their rows were read: at
      most one per row. */
  function CoordsOf(rows: seq<Row>, k: string): (cs: seq<Coord>)
    requires RoiRows(rows)
    ensures |cs| <= |rows|
  {
    if rows == [] then []
    else
      var last := rows[|rows| - 1];
      CoordsOf(rows[..|rows| - 1], k) + (if last[RecordingColumn] == k then [CoordOf(last)] else [])
  }

  /** Every window of `k` is the window of a detection row of `k`. */
  lemma {:induction false} CoordsOrigin(rows: seq<Row>, k: string, j: nat)
    requires RoiRows(rows) && j < |CoordsOf(rows, k)|
    ensures exists i :: 0 <= i < |rows| && rows[i][RecordingColumn] == k && CoordsOf(rows, k)[j] == CoordOf(rows[i])
    decreases |rows|
  {
    var init, last := rows[..|rows| - 1], rows[|rows| - 1];
    var before := CoordsOf(init, k);
    if j < |before| {
      CoordsOrigin(init, k, j);
      var i :| 0 <= i < |init| && init[i][RecordingColumn] == k && before[j] == CoordOf(init[i]);
      assert rows[i] == init[i];
    } else {
      assert CoordsOf(rows, k)[j] == CoordOf(rows[|rows| - 1]);
    }
  }

  /** The recordings that have detections. */
  function Recordings(rows: seq<Row>): set<string>
    requires RoiRows(rows)
  {
    set i | 0 <= i < |rows| :: rows[i][RecordingColumn]
  }

  /** What the grouping loop builds: each recording with detections to the
      list of its windows. */
  function Grouped(rows: seq<Row>): (g: map<string, seq<Coord>>)
    requires RoiRows(rows)
    ensures g.Keys == Recordings(rows)
    ensures forall k :: k in g ==> |g[k]| <= |rows|
  {
    map k | k in Recordings(rows) :: CoordsOf(rows, k)
  }

  /** The rows of all detection tables, table after table. */
  function Flatten(files: seq<seq<Row>>): seq<Row>
  {
    if files == [] then [] else Flatten(files[..|files| - 1]) + files[|files| - 1]
  }

  predicate RoiFiles(files: seq<seq<Row>>) {
    forall f :: 0 <= f < |files| ==> RoiRows(files[f])
  }

  lemma {:induction false} FlattenRoi(files: seq<seq<Row>>)
    requires RoiFiles(files)
    ensures RoiRows(Flatten(files))
    decreases |files|
  {
    if files != [] {
      FlattenRoi(files[..|files| - 1]);
    }
  }

  /** Reading one more row appends its window to its recording's list and
      leaves every other list as it was. */
  lemma GroupedSnoc(rows: seq<Row>, row: Row)
    requires RoiRows(rows) && RoiRow(row)
    ensures RoiRows(rows + [row])
    ensures var k := row[RecordingColumn];
            Grouped(rows + [row])
            == Grouped(rows)[k := (if k in Grouped(rows) then Grouped(rows)[k] else []) + [CoordOf(row)]]
  {
    var rows' := rows + [row];
    var k := row[RecordingColumn];
    assert rows'[..|rows'| - 1] == rows;
    RecordingsSnoc(rows, row);
    if k !in Recordings(rows) {
      NoCoords(rows, k);
    }
    var g := Grouped(rows)[k := (if k in Grouped(rows) then Grouped(rows)[k] else []) + [CoordOf(row)]];
    assert g.Keys == Grouped(rows').Keys;
    forall x | x in g.Keys ensures g[x] == Grouped(rows')[x] {
      assert CoordsOf(rows', x) == CoordsOf(rows, x) + (if x == k then [CoordOf(row)] else []);
    }
  }

  /** One more row adds its recording to the recordings seen. */
  lemma RecordingsSnoc(rows: seq<Row>, row: Row)
    requires RoiRows(rows) && RoiRow(row)
    ensures RoiRows(rows + [row])
    ensures Recordings(rows + [row]) == Recordings(rows) + {row[RecordingColumn]}
  {
    var rows' := rows + [row];
    forall x | x in Recordings(rows') ensures x in Recordings(rows) + {row[RecordingColumn]} {
      var i :| 0 <= i < |rows'| && rows'[i][RecordingColumn] == x;
      if i < |rows| { assert rows[i] == rows'[i]; }
    }
    forall x | x in Recordings(rows) ensures x in Recordings(rows') {
      var i :| 0 <= i < |rows| && rows[i][RecordingColumn] == x;
      assert rows'[i] == rows[i];
    }
    assert rows'[|rows|] == row;
  }

  /** A recording without detection rows has no windows. */
  lemma {:induction false} NoCoords(rows: seq<Row>, k: string)
    requires RoiRows(rows) && k !in Recordings(rows)
    ensures CoordsOf(rows, k) == []
    decreases |rows|
  {
    if rows != [] {
      var init := rows[..|rows| - 1];
      assert Recordings(init) <= Recordings(rows) by {
        forall x | x in Recordings(init) ensures x in Recordings(rows) {
          var i :| 0 <= i < |init| && init[i][RecordingColumn] == x;
          assert rows[i] == init[i];
        }
      }
      assert rows[|rows| - 1][RecordingColumn] in Recordings(rows);
      NoCoords(init, k);
    }
  }

  /** The grouping loop over the detection tables (`detected_recordings`). */
  method GroupDetections(files: seq<seq<Row>>) returns (detected: map<string, seq<Coord>>)
    requires RoiFiles(files)
    ensures RoiRows(Flatten(files))
    ensures detected == Grouped(Flatten(files))
  {
    detected := map[];
    for f := 0 to |files|
      invariant RoiRows(Flatten(files[..f]))
      invariant detected == Grouped(Flatten(files[..f]))
    {
      ghost var before := Flatten(files[..f]);
      detected := GroupTable(detected, before, files[f]);
      assert files[..f + 1][..f] == files[..f];
      assert Flatten(files[..f + 1]) == before + files[f];
    }
    assert files[..|files|] == files;
  }

  /** The loop over the rows of one table: each row's window is appended to
      the list of its recording, which starts empty the first time. */
  method GroupTable(detected: map<string, seq<Coord>>, ghost before: seq<Row>, rows: seq<Row>)
      returns (detected': map<string, seq<Coord>>)
    requires RoiRows(before) && RoiRows(rows) && detected == Grouped(before)
    ensures RoiRows(before + rows)
    ensures detected' == Grouped(before + rows)
  {
    detected' := detected;
    assert before + rows[..0] == before;
    for i := 0 to |rows|
      invariant RoiRows(before + rows[..i])
      invariant detected' == Grouped(before + rows[..i])
    {
      var row := rows[i];
      GroupRow(detected', before + rows[..i], row);
      assert before + rows[..i + 1] == (before + rows[..i]) + [row];
      if row[RecordingColumn] !in detected' {
        detected' := detected'[row[RecordingColumn] := []];
        detected' := detected'[row[RecordingColumn] := detected'[row[RecordingColumn]] + [CoordOf(row)]];
      } else {
        detected' := detected'[row[RecordingColumn] := detected'[row[RecordingColumn]] + [CoordOf(row)]];
      }
    }
    assert rows[..|rows|] == rows;
  }

  /** Both branches of the loop body add the row's window to its recording. */
  lemma GroupRow(detected: map<string, seq<Coord>>, seen: seq<Row>, row: Row)
    requires RoiRows(seen) && RoiRow(row) && detected == Grouped(seen)
    ensures RoiRows(seen + [row])
    ensures var k := row[RecordingColumn];
            k !in detected ==> detected[k := []][k := detected[k := []][k] + [CoordOf(row)]] == Grouped(seen + [row])
    ensures var k := row[RecordingColumn];
            k in detected ==> detected[k := detected[k] + [CoordOf(row)]] == Grouped(seen + [row])
  {
    GroupedSnoc(seen, row);
  }

  /** Every recording in the map has at least one window. */
  lemma {:induction false} GroupedNonEmpty(rows: seq<Row>, k: string)
    requires RoiRows(rows) && k in Grouped(rows)
    ensures |Grouped(rows)[k]| > 0
    decreases |rows|
  {
    var init := rows[..|rows| - 1];
    var last := rows[|rows| - 1];
    if last[RecordingColumn] != k {
      var i :| 0 <= i < |rows| && rows[i][RecordingColumn] == k;
      assert init[i] == rows[i];
      GroupedNonEmpty(init, k);
    }
  }

  /** Rows read later come later: the windows of the tables read one after
      the other are the windows of the first followed by those of the second. */
  lemma {:induction false} CoordsInOrder(a: seq<Row>, b: seq<Row>, k: string)
    requires RoiRows(a) && RoiRows(b)
    ensures RoiRows(a + b)
    ensures CoordsOf(a + b, k) == CoordsOf(a, k) + CoordsOf(b, k)
    decreases |b|
  {
    if b == [] {
      assert a + b == a;
    } else {
      var b' := b[..|b| - 1];
      CoordsInOrder(a, b', k);
      assert (a + b)[..|a + b| - 1] == a + b';
      assert (a + b)[|a + b| - 1] == b[|b| - 1];
    }
  }

  /** The windows over the listed recordings, added up. */
  function Total(rows: seq<Row>, ks: seq<string>): nat
    requires RoiRows(rows)
  {
    if ks == [] then 0 else |CoordsOf(rows, ks[0])| + Total(rows, ks[1..])
  }

  /** The recordings in the order they first appear. */
  function FirstSeen(rows: seq<Row>): (ks: seq<string>)
    requires RoiRows(rows)
  {
    if rows == [] then []
    else
      var init := FirstSeen(rows[..|rows| - 1]);
      var k := rows[|rows| - 1][RecordingColumn];
      if k in init then init else init + [k]
  }

  lemma {:induction false} FirstSeenIsRecordings(rows: seq<Row>)
    requires RoiRows(rows)
    ensures (set k | k in FirstSeen(rows)) == Recordings(rows)
    ensures forall i, j :: 0 <= i < j < |FirstSeen(rows)| ==> FirstSeen(rows)[i] != FirstSeen(rows)[j]
    decreases |rows|
  {
    if rows != [] {
      var init := rows[..|rows| - 1];
      FirstSeenIsRecordings(init);
      assert rows == init + [rows[|rows| - 1]];
      RecordingsSnoc(init, rows[|rows| - 1]);
    }
  }

  /** One more row adds one window to the total over a list of distinct
      recordings that contains its recording. */
  lemma {:induction false} TotalSnoc(rows: seq<Row>, row: Row, ks: seq<string>)
    requires RoiRows(rows) && RoiRow(row)
    requires forall i, j :: 0 <= i < j < |ks| ==> ks[i] != ks[j]
    ensures RoiRows(rows + [row])
    ensures Total(rows + [row], ks) == Total(rows, ks) + (if row[RecordingColumn] in ks then 1 else 0)
    decreases |ks|
  {
    var rows' := rows + [row];
    assert rows'[..|rows'| - 1] == rows;
    if ks != [] {
      TotalSnoc(rows, row, ks[1..]);
      if ks[0] == row[RecordingColumn] {
        assert row[RecordingColumn] !in ks[1..] by {
          forall j | 0 <= j < |ks[1..]| ensures ks[1..][j] != ks[0] {
            assert ks[1..][j] == ks[j + 1];
          }
        }
      }
    }
  }

  /** Grouping keeps every window: the lists of all recordings together hold
      exactly as many windows as there were detection rows. */
  lemma {:induction false} GroupedTotal(rows: seq<Row>)
    requires RoiRows(rows)
    ensures Total(rows, FirstSeen(rows)) == |rows|
    decreases |rows|
  {
    if rows != [] {
      var init := rows[..|rows| - 1];
      var row := rows[|rows| - 1];
      var k := row[RecordingColumn];
      assert rows == init + [row];
      GroupedTotal(init);
      FirstSeenIsRecordings(init);
      FirstSeenIsRecordings(rows);
      var ks := FirstSeen(init);
      if k in ks {
        TotalSnoc(init, row, ks);
      } else {
        TotalSnoc(init, row, ks);
        TotalAppend(rows, ks, [k]);
        assert k !in Recordings(init);
        NoCoords(init, k);
        assert CoordsOf(rows, k) == [CoordOf(row)];
        assert Total(rows, [k]) == 1;
      }
    }
  }

  lemma {:induction false} TotalAppend(rows: seq<Row>, ks: seq<string>, more: seq<string>)
    requires RoiRows(rows)
    ensures Total(rows, ks + more) == Total(rows, ks) + Total(rows, more)
    decreases |ks|
  {
    if ks == [] {
      assert ks + more == more;
    } else {
      assert (ks + more)[1..] == ks[1..] + more;
      TotalAppend(rows, ks[1..], more);
    }
  }
}
