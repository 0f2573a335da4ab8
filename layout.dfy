/** Names and paths: the folder, id column and tracking file derived from a
    source file's name, the destination directory of a row, the name of a
    downloaded file and the names of its trimmed segments. */
module Layout {
  import opened Wrappers
  import opened Text

  /** The two scripts.  AllFiles (download_files_v1.py) keeps every download;
      DetectedOnly (download_only_detected_part.py) fetches only recordings
      that have detections and keeps only their trimmed segments. */
  datatype Variant = AllFiles | DetectedOnly

  /** A row of a CSV file: column name to cell text. */
  type Row = map<string, string>

  const SourceSuffix := ".csv"
  const TrackingSuffix := ".downloaded.txt"
  const IdSuffix := "_id"
  const RoiPrefix := "pattern_matching_rois"
  const RecordingColumn := "recording_id"

  // ---------------------------------------------------------------- source files

  /** Only names ending in `.csv` are processed as sources. */
  predicate IsSourceFile(name: string) {
    EndsWith(name, SourceSuffix)
  }

  /** The detection tables read by the detected-only variant. */
  predicate IsRoiFile(name: string) {
    StartsWith(name, RoiPrefix)
  }

  /** `Path(name).stem` for a name without '/': the name without its suffix,
      where the suffix starts at the last '.' unless that '.' is the first or
      the last character.  A cut leaves a non-empty stem and a non-empty
      suffix after the '.'; no cut means every '.' strictly inside the name
      is followed by another one. */
  function Stem(name: string): (r: string)
    ensures r <= name
    ensures r != name ==> 0 < |r| < |name| - 1 && name[|r|] == '.' && '.' !in name[|r| + 1..]
    ensures r == name ==> forall j :: 0 < j < |name| - 1 && name[j] == '.' ==> '.' in name[j + 1..]
  {
    var i := LastIndex(name, '.');
    if 0 < i < |name| - 1 then
      var stem := name[..i];
      assert |stem| == i && name[|stem| + 1..] == name[i + 1..];
      stem
    else
      NoCut(name, i);
      name
  }

  /** With its last '.' absent, first or last, a name has no '.' strictly
      inside it that is not followed by another. */
  lemma NoCut(name: string, i: int)
    requires i == LastIndex(name, '.') && !(0 < i < |name| - 1)
    ensures forall j :: 0 < j < |name| - 1 && name[j] == '.' ==> '.' in name[j + 1..]
  {
    forall j | 0 < j < |name| - 1 && name[j] == '.' ensures '.' in name[j + 1..] {
      if i == |name| - 1 {
        assert name[j + 1..][|name| - j - 2] == '.';
      }
    }
  }

  /** The folder the downloads of a source go to.  The detected-only variant
      keeps the stem only up to its first '.'. */
  function FolderName(v: Variant, name: string): (r: string)
    ensures v.AllFiles? ==> r == Stem(name)
    ensures v.DetectedOnly? ==> '.' !in r && r <= Stem(name) && (r == Stem(name) || Stem(name)[|r|] == '.')
  {
    match v
    case AllFiles => Stem(name)
    case DetectedOnly => Split(Stem(name), '.')[0]
  }

  /** The id column: the folder name, taken as a plural, made singular by
      dropping its last character, then `_id`. */
  function IdColumn(folder: string): (r: string)
    ensures |r| == (if folder == "" then 0 else |folder| - 1) + |IdSuffix|
    ensures EndsWith(r, IdSuffix) && r[..|r| - |IdSuffix|] <= folder
  {
    (if folder == "" then "" else folder[..|folder| - 1]) + IdSuffix
  }

  /** The ledger of a source: the folder name (AllFiles) or the stem
      (DetectedOnly), followed by `.downloaded.txt`.  Either way it is the
      stem, so both variants keep the same ledger for the same file. */
  function TrackingName(v: Variant, name: string): (r: string)
    ensures r == Stem(name) + TrackingSuffix
  {
    (match v
     case AllFiles => FolderName(v, name)
     case DetectedOnly => Stem(name))
    + TrackingSuffix
  }

  /** The stem of `s.csv` is `s`. */
  lemma CsvStem(s: string)
    requires s != ""
    ensures Stem(s + SourceSuffix) == s
  {
    var name := s + SourceSuffix;
    assert name[|s|] == '.';
    assert name[|s| + 1..] == "csv";
    var i := LastIndex(name, '.');
    assert i == |s|;
    assert name[..|s|] == s;
  }

  /** For `s.csv` with a name `s` that holds no '.', both variants use the
      folder `s`, the id column `s` minus its last letter plus `_id`, and
      the ledger `s.downloaded.txt`. */
  lemma CsvNames(v: Variant, s: string)
    requires s != "" && '.' !in s
    ensures FolderName(v, s + SourceSuffix) == s
    ensures IdColumn(FolderName(v, s + SourceSuffix)) == s[..|s| - 1] + IdSuffix
    ensures TrackingName(v, s + SourceSuffix) == s + TrackingSuffix
  {
    CsvStem(s);
    SplitWhole(s, '.');
  }

  /** `recordings.csv` is read with the id column `recording_id`. */
  lemma RecordingsSource(v: Variant)
    ensures FolderName(v, "recordings.csv") == "recordings"
    ensures IdColumn(FolderName(v, "recordings.csv")) == RecordingColumn
    ensures TrackingName(v, "recordings.csv") == "recordings.downloaded.txt"
  {
    RecordingsLiterals();
    CsvNames(v, "recordings");
  }

  lemma RecordingsLiterals()
    ensures "recordings" + SourceSuffix == "recordings.csv"
    ensures "recordings"[..9] + IdSuffix == RecordingColumn
    ensures "recordings" + TrackingSuffix == "recordings.downloaded.txt"
    ensures '.' !in "recordings"
  {
    assert "recordings" + SourceSuffix == "recordings.csv";
    assert "recordings"[..9] + IdSuffix == RecordingColumn;
  }

  /** A ledger file is never taken for a source, in either variant. */
  lemma TrackingIsNoSource(v: Variant, name: string)
    ensures !IsSourceFile(TrackingName(v, name))
  {
    var t := TrackingName(v, name);
    assert EndsWith(t, TrackingSuffix);
    assert t[|t| - 2] == 'x';
  }

  // ---------------------------------------------------------------- paths

  /** POSIX `os.path.join(a, b)`: an absolute `b` replaces `a`; otherwise a
      '/' is put between them unless `a` is empty or already ends in one. */
  function Join(a: string, b: string): (r: string)
    ensures EndsWith(r, b)
    ensures StartsWith(b, "/") ==> r == b
    ensures !StartsWith(b, "/") && (a == "" || a[|a| - 1] == '/') ==> StartsWith(r, a) && |r| == |a| + |b|
    ensures !StartsWith(b, "/") && a != "" && a[|a| - 1] != '/' ==> StartsWith(r, a + "/") && |r| == |a| + 1 + |b|
  {
    if StartsWith(b, "/") then b
    else if a == "" || a[|a| - 1] == '/' then a + b
    else a + "/" + b
  }

  /** Where a row's file goes: the site subdirectory when the row has a
      `site_id` column, the source's folder otherwise. */
  function DestinationDir(parentDir: string, row: Row): (r: string)
    ensures "site_id" !in row ==> r == parentDir
    ensures "site_id" in row ==> EndsWith(r, row["site_id"])
    ensures "site_id" in row && StartsWith(row["site_id"], "/") ==> r == row["site_id"]
    ensures "site_id" in row && !StartsWith(row["site_id"], "/") ==>
              && StartsWith(r, parentDir)
              && (parentDir != "" && parentDir[|parentDir| - 1] != '/' ==> StartsWith(r, parentDir + "/"))
  {
    if "site_id" in row then Join(parentDir, row["site_id"]) else parentDir
  }

  /** `PurePath(p).name`: the longest suffix of `p` without '/'. */
  function Basename(p: string): (r: string)
    ensures '/' !in r && EndsWith(p, r)
    ensures |r| < |p| ==> p[|p| - |r| - 1] == '/'
    decreases |p|
  {
    if p == [] then ""
    else if p[|p| - 1] == '/' then ""
    else Basename(p[..|p| - 1]) + [p[|p| - 1]]
  }

  /** `os.path.splitext(p)[1]`: from the last '.' of the base name on, unless
      only dots precede that '.' in the base name.  The extension is a proper
      suffix of the base name that starts with its only '.'. */
  function Extension(p: string): (r: string)
    ensures r == "" || (r[0] == '.' && '.' !in r[1..] && |r| < |Basename(p)| && EndsWith(Basename(p), r))
    ensures '/' !in r
    ensures r != "" <==> DotAfterOther(Basename(p))
  {
    var name := Basename(p);
    var i := LastIndex(name, '.');
    ExtensionCase(name, i);
    if 0 < i && !AllDots(name[..i]) then
      ExtensionCut(name, i);
      name[i..]
    else ""
  }

  predicate AllDots(s: string) {
    forall j :: 0 <= j < |s| ==> s[j] == '.'
  }

  /** Some '.' of the name comes after a character that is not a '.'. */
  predicate DotAfterOther(name: string) {
    exists j, k :: 0 <= j < k < |name| && name[j] != '.' && name[k] == '.'
  }

  /** The last '.' of a name has something other than a dot before it
      exactly when some '.' of the name follows a character that is not one. */
  lemma ExtensionCase(name: string, i: int)
    requires i == LastIndex(name, '.')
    ensures (0 < i && !AllDots(name[..i])) <==> DotAfterOther(name)
  {
    if 0 < i && !AllDots(name[..i]) {
      var j :| 0 <= j < i && name[..i][j] != '.';
      assert name[j] != '.' && name[i] == '.';
    }
    if DotAfterOther(name) {
      var j, k :| 0 <= j < k < |name| && name[j] != '.' && name[k] == '.';
      NotAfterLast(name, i, k);
      assert name[..i][j] == name[j];
    }
  }

  /** Cutting at the last '.' leaves a proper suffix with that one '.'. */
  lemma ExtensionCut(name: string, i: int)
    requires '/' !in name
    requires i == LastIndex(name, '.') && 0 < i
    ensures var r := name[i..];
            r[0] == '.' && '.' !in r[1..] && |r| < |name| && EndsWith(name, r) && '/' !in r
  {
    assert name[i..][1..] == name[i + 1..];
  }

  /** No '.' lies after the last one. */
  lemma NotAfterLast(name: string, i: int, k: int)
    requires i == LastIndex(name, '.')
    requires 0 <= k < |name| && name[k] == '.'
    ensures k <= i
  {
  }

  /** A name of dots and one more character has no extension; a trailing
      '.' after other characters is an extension. */
  lemma ExtensionEdges()
    ensures Extension("..b") == ""
    ensures Extension("a.") == "."
  {
    BasenameWhole("..b");
    BasenameWhole("a.");
    assert "a."[0] != '.' && "a."[1] == '.';
  }

  /** A path without '/' is its own base name. */
  lemma BasenameWhole(p: string)
    requires '/' !in p
    ensures Basename(p) == p
  {
  }

  /** The base name of a path is what follows its last '/'. */
  lemma {:induction false} BasenameAfterSlash(dir: string, name: string)
    requires '/' !in name
    ensures Basename(dir + "/" + name) == name
    decreases |name|
  {
    var p := dir + "/" + name;
    if name == [] {
      assert p[|p| - 1] == '/';
    } else {
      var init := name[..|name| - 1];
      assert p[..|p| - 1] == dir + "/" + init;
      BasenameAfterSlash(dir, init);
      assert name == init + [name[|name| - 1]];
    }
  }

  lemma ClipLastDot()
    ensures LastIndex("clip.wav", '.') == 4
  {
  }

  /** `/x/clip.wav` has the base name `clip.wav` and the extension `.wav`. */
  lemma ClipExample()
    ensures Basename("/x/clip.wav") == "clip.wav"
    ensures Extension("/x/clip.wav") == ".wav"
  {
    assert "/x/clip.wav" == "/x" + "/" + "clip.wav";
    BasenameAfterSlash("/x", "clip.wav");
    ClipLastDot();
    assert !AllDots("clip.wav"[..4]) by {
      assert "clip.wav"[..4][0] == 'c';
    }
  }

  // ---------------------------------------------------------------- timestamps

  /** A parsed `datetime`, in the ranges Python's datetime allows. */
  datatype DateTime = DateTime(year: nat, month: nat, day: nat, hour: nat, minute: nat, second: nat)
  {
    predicate Valid() {
      1 <= year <= 9999 && 1 <= month <= 12 && 1 <= day <= 31 && hour < 24 && minute < 60 && second < 60
    }
  }

  function DigitChar(n: nat): char
    requires n < 10
  {
    (48 + n) as char
  }

  /** The last `width` decimal digits of `n`, with leading zeros (`%0<width>d` for small `n`). */
  function Digits(n: nat, width: nat): (r: string)
    ensures |r| == width
    ensures forall i :: 0 <= i < |r| ==> '0' <= r[i] <= '9'
  {
    if width == 0 then "" else Digits(n / 10, width - 1) + [DigitChar(n % 10)]
  }

  function Pow10(w: nat): nat
  {
    if w == 0 then 1 else 10 * Pow10(w - 1)
  }

  function DigitValue(c: char): nat
  {
    if '0' <= c <= '9' then c as int - 48 else 0
  }

  /** Reading a string of decimal digits back as a number. */
  function DigitsValue(s: string): nat
  {
    if s == [] then 0 else DigitsValue(s[..|s| - 1]) * 10 + DigitValue(s[|s| - 1])
  }

  /** Zero-padded digits read back as the number they came from. */
  lemma {:induction false} DigitsRoundTrip(n: nat, width: nat)
    requires n < Pow10(width)
    ensures DigitsValue(Digits(n, width)) == n
  {
    if width > 0 {
      DigitsRoundTrip(n / 10, width - 1);
      var d := Digits(n / 10, width - 1);
      assert (d + [DigitChar(n % 10)])[..|d|] == d;
    }
  }

  /** `date.strftime('%Y%m%d_%H%M%S')`: fifteen characters, all digits but
      the '_' at index 8. */
  function Timestamp(d: DateTime): (r: string)
    ensures |r| == 15 && r[8] == '_'
    ensures forall i :: 0 <= i < 15 && i != 8 ==> '0' <= r[i] <= '9'
  {
    Digits(d.year, 4) + Digits(d.month, 2) + Digits(d.day, 2) + "_"
    + Digits(d.hour, 2) + Digits(d.minute, 2) + Digits(d.second, 2)
  }

  /** Reading a `%Y%m%d_%H%M%S` timestamp back. */
  function ReadTimestamp(s: string): DateTime
    requires |s| == 15
  {
    DateTime(DigitsValue(s[0..4]), DigitsValue(s[4..6]), DigitsValue(s[6..8]),
             DigitsValue(s[9..11]), DigitsValue(s[11..13]), DigitsValue(s[13..15]))
  }

  /** The timestamp determines the date: two recordings with different
      dates never get the same timestamp. */
  lemma TimestampRoundTrip(d: DateTime)
    requires d.Valid()
    ensures ReadTimestamp(Timestamp(d)) == d
  {
    TimestampFields(d);
    assert Pow10(2) == 100;
    assert Pow10(4) == 10000;
    DigitsRoundTrip(d.year, 4);
    DigitsRoundTrip(d.month, 2);
    DigitsRoundTrip(d.day, 2);
    DigitsRoundTrip(d.hour, 2);
    DigitsRoundTrip(d.minute, 2);
    DigitsRoundTrip(d.second, 2);
  }

  /** Where each field sits in the timestamp. */
  lemma TimestampFields(d: DateTime)
    ensures var t := Timestamp(d);
            && t[0..4] == Digits(d.year, 4) && t[4..6] == Digits(d.month, 2) && t[6..8] == Digits(d.day, 2)
            && t[9..11] == Digits(d.hour, 2) && t[11..13] == Digits(d.minute, 2) && t[13..15] == Digits(d.second, 2)
  {
    var t := Timestamp(d);
    var p1 := Digits(d.year, 4);
    var p2 := p1 + Digits(d.month, 2);
    var p3 := p2 + Digits(d.day, 2);
    var p4 := p3 + "_";
    var p5 := p4 + Digits(d.hour, 2);
    var p6 := p5 + Digits(d.minute, 2);
    assert t == p6 + Digits(d.second, 2);
    Piece(t, p6, Digits(d.second, 2));
    Piece(t, p5, Digits(d.minute, 2));
    Piece(t, p4, Digits(d.hour, 2));
    Piece(t, p2, Digits(d.day, 2));
    Piece(t, p1, Digits(d.month, 2));
    Piece(t, [], Digits(d.year, 4));
  }

  /** The part of a text right after one of its prefixes. */
  lemma Piece(t: string, x: string, y: string)
    requires x + y <= t
    ensures t[|x|..|x| + |y|] == y
  {
    assert forall i :: 0 <= i < |y| ==> t[|x| + i] == (x + y)[|x| + i] == y[i];
  }

  lemma TimestampExample()
    ensures Timestamp(DateTime(2024, 3, 14, 9, 5, 0)) == "20240314_090500"
  {
    YearExample();
    TwoDigits(3);
    TwoDigits(14);
    TwoDigits(9);
    TwoDigits(5);
    TwoDigits(0);
    assert "2024" + "03" + "14" + "_" + "09" + "05" + "00" == "20240314_090500";
  }

  lemma YearExample()
    ensures Digits(2024, 4) == "2024"
  {
    assert Digits(20, 2) == "20";
  }

  /** Two digits of a number below 100: its tens, then its units. */
  lemma TwoDigits(n: nat)
    requires n < 100
    ensures Digits(n, 2) == [DigitChar(n / 10), DigitChar(n % 10)]
  {
    var t := n / 10;
    assert t < 10 && t % 10 == t && t / 10 == 0;
    assert Digits(t, 1) == Digits(t / 10, 0) + [DigitChar(t % 10)];
  }

  // ---------------------------------------------------------------- file names

  /** The `strptime` format of the `datetime` column: two-digit years in
      download_files_v1.py, four-digit years in download_only_detected_part.py. */
  function DateFormat(v: Variant): string
  {
    match v
    case AllFiles => "%m/%d/%y %H:%M:%S"
    case DetectedOnly => "%m/%d/%Y %H:%M:%S"
  }

  /** The two formats agree but for the year directive: `%y` (two digits)
      against `%Y` (four digits). */
  lemma DateFormats()
    ensures |DateFormat(AllFiles)| == |DateFormat(DetectedOnly)| == 17
    ensures forall i :: 0 <= i < 17 && i != 7 ==> DateFormat(AllFiles)[i] == DateFormat(DetectedOnly)[i]
    ensures DateFormat(AllFiles)[7] == 'y' && DateFormat(DetectedOnly)[7] == 'Y'
  {
  }

  /** The names `fetch_file` derives before downloading: the file name, the
      `{timestamp}-{id}` base of the segment names (bound only for
      `recording_id` sources) and the URL's extension. */
  datatype Naming = Naming(filename: string, segmentBase: Option<string>, ext: string)

  /** The file naming of a row, or `None` where Python raises before the
      download: a recording row whose `datetime` column is missing (KeyError),
      empty (`None.strftime`) or rejected by `strptime` (ValueError).
      `strptime` stands for the library parser, `urlPath` for
      `Path(urlparse(url).path)`. */
  function FileNaming(v: Variant, idColumn: string, row: Row, itemId: string, urlPath: string,
                      strptime: (string, string) -> Option<DateTime>): (r: Option<Naming>)
    ensures idColumn != RecordingColumn ==> r == Some(Naming(Basename(urlPath), None, ""))
    ensures idColumn == RecordingColumn && r.Some? ==> r.value.segmentBase.Some? && r.value.ext == Extension(urlPath)
  {
    if idColumn != RecordingColumn then Some(Naming(Basename(urlPath), None, ""))
    else if "datetime" !in row || row["datetime"] == "" then None
    else
      match strptime(row["datetime"], DateFormat(v))
      case None => None
      case Some(date) =>
        var timestamp := Timestamp(date);
        var ext := Extension(urlPath);
        var filename := if timestamp != "" && ext != "" then timestamp + "-" + itemId + ext else Basename(urlPath);
        Some(Naming(filename, Some(timestamp + "-" + itemId), ext))
  }

  /** The name of the segment of a recording between `x1` and `x2`: in the
      destination directory, with the extension of the download, and with
      the base name `{base}_{x1}_{x2}{ext}` when none of the parts holds a '/'. */
  function SegmentPath(dir: string, base: string, x1: string, x2: string, ext: string): (r: string)
    ensures StartsWith(r, dir + "/") && EndsWith(r, ext)
    ensures '/' !in base + "_" + x1 + "_" + x2 + ext ==> Basename(r) == base + "_" + x1 + "_" + x2 + ext
  {
    var name := base + "_" + x1 + "_" + x2 + ext;
    assert dir + "/" + base + "_" + x1 + "_" + x2 + ext == dir + "/" + name;
    if '/' !in name then BasenameAfterSlash(dir, name); dir + "/" + name else dir + "/" + name
  }

  /** How a recording row is named: `{timestamp}-{id}{ext}` when the URL has
      an extension, the URL's base name when it has none; no name at all
      (an exception) when the date is missing, empty or unparsable. */
  lemma RecordingNaming(v: Variant, row: Row, itemId: string, urlPath: string,
                        strptime: (string, string) -> Option<DateTime>)
    ensures FileNaming(v, RecordingColumn, row, itemId, urlPath, strptime).Some?
        <==> "datetime" in row && row["datetime"] != "" && strptime(row["datetime"], DateFormat(v)).Some?
    ensures "datetime" in row && row["datetime"] != "" && strptime(row["datetime"], DateFormat(v)).Some? ==>
              var date := strptime(row["datetime"], DateFormat(v)).value;
              var n := FileNaming(v, RecordingColumn, row, itemId, urlPath, strptime).value;
              && n.segmentBase == Some(Timestamp(date) + "-" + itemId)
              && n.ext == Extension(urlPath)
              && (Extension(urlPath) != "" ==> n.filename == Timestamp(date) + "-" + itemId + Extension(urlPath))
              && (Extension(urlPath) == "" ==> n.filename == Basename(urlPath))
  {
  }

  /** Whatever branch names it, the file keeps the URL's extension, and it
      lands directly in the destination directory when the id holds no '/'. */
  lemma NamingKeepsExtension(v: Variant, idColumn: string, row: Row, itemId: string, urlPath: string,
                             strptime: (string, string) -> Option<DateTime>)
    requires FileNaming(v, idColumn, row, itemId, urlPath, strptime).Some?
    ensures EndsWith(FileNaming(v, idColumn, row, itemId, urlPath, strptime).value.filename, Extension(urlPath))
    ensures '/' !in itemId ==> '/' !in FileNaming(v, idColumn, row, itemId, urlPath, strptime).value.filename
  {
    var n := FileNaming(v, idColumn, row, itemId, urlPath, strptime).value;
    var ext := Extension(urlPath);
    if idColumn == RecordingColumn && ext != "" {
      var date := strptime(row["datetime"], DateFormat(v)).value;
      var t := Timestamp(date);
      assert n.filename == t + "-" + itemId + ext;
      assert '/' !in t;
      NameParts(t, itemId, ext);
    } else if idColumn == RecordingColumn {
      assert n.filename == Basename(urlPath) && ext == "";
    } else {
      assert n.filename == Basename(urlPath);
    }
  }

  /** `{timestamp}-{id}{ext}` ends in the extension, and has no '/' when
      none of its parts has one. */
  lemma NameParts(t: string, itemId: string, ext: string)
    requires '/' !in t && '/' !in ext
    ensures EndsWith(t + "-" + itemId + ext, ext)
    ensures '/' !in itemId ==> '/' !in t + "-" + itemId + ext
  {
    var stem := t + "-" + itemId;
    assert (stem + ext)[|stem|..] == ext;
  }
}
