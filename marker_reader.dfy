/**
 * `MarkerDataReader`: reads a motion-capture TSV export (metadata lines,
 * a `Frame\tTime\t...` column header, one line per frame), keeps the
 * markers that survive the left/right filter of `MarkerLabels` and numbers
 * them `1, 2, 3, ...`.
 *
 * The file arrives as its list of lines (`f.readlines()`), and `float()` as
 * the parameter `parse`, which gives `None` where Python raises `ValueError`.
 */
module MarkerReader {
  import opened Wrappers
  import opened Text
  import opened Vectors
  import opened MarkerLabels

  /** Python's `float()` on one field: `None` stands for `ValueError`. */
  type Parser = string -> Option<real>

  /** The fields of a line: `line.strip().split('\t')`. */
  function Fields(line: string): (r: seq<string>)
    ensures |r| >= 1
  {
    Split(Strip(line), '\t')
  }

  /** `values[2:]`: the fields after "Frame" and "Time". */
  function AfterFrameAndTime(v: seq<string>): (r: seq<string>)
    ensures |v| >= 2 ==> v == v[..2] + r
    ensures |v| < 2 ==> r == []
  {
    if |v| >= 2 then v[2..] else []
  }

  // ---------------------------------------------------------------- header scan

  /** The column-header line, recognised on the raw line. */
  predicate IsHeader(line: string) {
    StartsWith(line, "Frame\t")
  }

  /** Where the first header line is, if there is one. */
  function HeaderIndex(lines: seq<string>): (r: Option<nat>)
    ensures r.Some? ==> r.value < |lines| && IsHeader(lines[r.value])
    ensures forall i :: 0 <= i < |lines| && (r.None? || i < r.value) ==> !IsHeader(lines[i])
  {
    if lines == [] then None
    else if IsHeader(lines[0]) then Some(0)
    else
      match HeaderIndex(lines[1..])
      case None => None
      case Some(h) => Some(h + 1)
  }

  /** The lines handed to `_parse_metadata_line`: all those before the header. */
  function MetadataLines(lines: seq<string>): seq<string> {
    match HeaderIndex(lines)
    case Some(h) => lines[..h]
    case None => lines
  }

  /** `lines[data_start_line:]`: after the header, or the whole file when there is none. */
  function DataLines(lines: seq<string>): seq<string> {
    match HeaderIndex(lines)
    case Some(h) => lines[h + 1..]
    case None => lines
  }

  // ---------------------------------------------------------------- metadata

  /** The line sets `key`: it has at least two fields and `key` is the first. */
  predicate Defines(line: string, key: string) {
    |Fields(line)| >= 2 && Fields(line)[0] == key
  }

  /** `self.metadata` after `_parse_metadata_line(line)`: the line sets at
      most its own key, and every other key keeps its value. */
  function AddMetadata(md: map<string, string>, line: string): (r: map<string, string>)
    ensures forall key :: key in r <==> key in md || Defines(line, key)
    ensures forall key :: Defines(line, key) ==> key in r && r[key] == Fields(line)[1]
    ensures forall key :: key in md && !Defines(line, key) ==> r[key] == md[key]
  {
    var parts := Fields(line);
    if |parts| >= 2 then md[parts[0] := parts[1]] else md
  }

  /** `self.metadata` after `_parse_metadata_line` on each of `lines` in turn. */
  function MetadataAfter(md: map<string, string>, lines: seq<string>): map<string, string> {
    if lines == [] then md
    else AddMetadata(MetadataAfter(md, lines[..|lines| - 1]), lines[|lines| - 1])
  }

  /** A key is present exactly when it was present before or some line sets it. */
  lemma {:induction false} MetadataKeys(md: map<string, string>, lines: seq<string>, key: string)
    ensures key in MetadataAfter(md, lines) <==> key in md || exists i :: 0 <= i < |lines| && Defines(lines[i], key)
  {
    if lines != [] {
      var init := lines[..|lines| - 1];
      var last := lines[|lines| - 1];
      MetadataKeys(md, init, key);
      if Defines(last, key) {
        assert Defines(lines[|lines| - 1], key);
      } else if exists i :: 0 <= i < |init| && Defines(init[i], key) {
        var i :| 0 <= i < |init| && Defines(init[i], key);
        assert lines[i] == init[i];
      } else {
        forall i | 0 <= i < |lines| ensures !Defines(lines[i], key) {
          if i < |init| { assert lines[i] == init[i]; }
        }
      }
    }
  }

  /** Later lines overwrite earlier ones: a key's value is the second field
      of the last line that sets it. */
  lemma {:induction false} MetadataLastWins(md: map<string, string>, lines: seq<string>, key: string, i: nat)
    requires i < |lines| && Defines(lines[i], key)
    requires forall j :: i < j < |lines| ==> !Defines(lines[j], key)
    ensures key in MetadataAfter(md, lines) && MetadataAfter(md, lines)[key] == Fields(lines[i])[1]
  {
    if i < |lines| - 1 {
      var init := lines[..|lines| - 1];
      assert forall j :: 0 <= j < |init| ==> init[j] == lines[j];
      MetadataLastWins(md, init, key, i);
    }
  }

  /** A key no line sets keeps the value it had. */
  lemma {:induction false} MetadataUntouched(md: map<string, string>, lines: seq<string>, key: string)
    requires key in md && forall i :: 0 <= i < |lines| ==> !Defines(lines[i], key)
    ensures key in MetadataAfter(md, lines) && MetadataAfter(md, lines)[key] == md[key]
  {
    if lines != [] {
      var init := lines[..|lines| - 1];
      assert forall j :: 0 <= j < |init| ==> init[j] == lines[j];
      MetadataUntouched(md, init, key);
    }
  }

  // ---------------------------------------------------------------- marker names

  /** The marker of each coordinate column: `col.rsplit(' ', 1)[0]` for `col` in `columns[2:]`. */
  function ColumnMarkers(header: string): seq<string> {
    var cols := AfterFrameAndTime(Fields(header));
    seq(|cols|, k requires 0 <= k < |cols| => RSplitHead(cols[k]))
  }

  predicate NoDup(s: seq<string>) {
    forall i, j :: 0 <= i < j < |s| ==> s[i] != s[j]
  }

  /** `marker_set` built by appending each name not yet in it. */
  function Dedup(s: seq<string>): (r: seq<string>)
    ensures NoDup(r)
    ensures forall x :: x in r <==> x in s
  {
    if s == [] then []
    else
      var d := Dedup(s[..|s| - 1]);
      assert forall x :: x in s <==> x in s[..|s| - 1] || x == s[|s| - 1] by {
        assert s == s[..|s| - 1] + [s[|s| - 1]];
      }
      if s[|s| - 1] in d then d else d + [s[|s| - 1]]
  }

  /** The first place where `x` occurs in `s`. */
  function FirstIndex(s: seq<string>, x: string): (p: nat)
    requires x in s
    ensures p < |s| && s[p] == x
    ensures forall k :: 0 <= k < p ==> s[k] != x
  {
    if s[0] == x then 0 else 1 + FirstIndex(s[1..], x)
  }

  /** `marker_set` lists the names in the order of their first appearance. */
  lemma {:induction false} DedupFirstOccurrenceOrder(s: seq<string>)
    ensures forall i, j :: 0 <= i < j < |Dedup(s)| ==> FirstIndex(s, Dedup(s)[i]) < FirstIndex(s, Dedup(s)[j])
  {
    if s != [] {
      var init := s[..|s| - 1];
      var last := s[|s| - 1];
      assert s == init + [last];
      DedupFirstOccurrenceOrder(init);
      var d := Dedup(init);
      forall x | x in init ensures FirstIndex(s, x) == FirstIndex(init, x) {
        var p, q := FirstIndex(s, x), FirstIndex(init, x);
        assert s[q] == x;
      }
      if last !in d {
        forall k | 0 <= k < |d| ensures FirstIndex(s, d[k]) < FirstIndex(s, last) {
          assert d[k] in init;
          assert forall q :: 0 <= q < |init| ==> s[q] != last;
        }
      }
    }
  }

  /** `self.marker_names` as `_parse_marker_names(header)` sets it. */
  function MarkerNamesOf(header: string): (r: seq<string>)
    ensures NoDup(r)
    ensures forall x :: x in r <==> x in ColumnMarkers(header)
  {
    Dedup(ColumnMarkers(header))
  }

  /** `self.marker_names` after the header scan: from the header line when
      there is one, otherwise what it was before. */
  function NamesAfterHeader(names: seq<string>, lines: seq<string>): seq<string> {
    match HeaderIndex(lines)
    case Some(h) => MarkerNamesOf(lines[h])
    case None => names
  }

  // ---------------------------------------------------------------- frame data

  /** `values[2:]` of a data line. */
  function Coords(line: string): seq<string> {
    AfterFrameAndTime(Fields(line))
  }

  /** Marker `m` in one data line: parsed from columns `3m`, `3m+1`, `3m+2`
      when all three exist, left at zero when the line is too short, and
      `None` when a present column is not a number. */
  function PointIn(coords: seq<string>, m: nat, parse: Parser): Option<Vec3> {
    if 3 * m + 2 < |coords| then
      var x, y, z := parse(coords[3 * m]), parse(coords[3 * m + 1]), parse(coords[3 * m + 2]);
      if x.Some? && y.Some? && z.Some? then Some(Vec3(x.value, y.value, z.value)) else None
    else Some(Origin)
  }

  predicate RowParses(line: string, numMarkers: nat, parse: Parser) {
    forall m :: 0 <= m < numMarkers ==> PointIn(Coords(line), m, parse).Some?
  }

  predicate AllParse(lines: seq<string>, numMarkers: nat, parse: Parser) {
    forall f :: 0 <= f < |lines| ==> RowParses(lines[f], numMarkers, parse)
  }

  /** The positions `_parse_marker_data` stores when no field fails to parse. */
  function ParsedFrames(lines: seq<string>, numMarkers: nat, parse: Parser): (r: seq<seq<Vec3>>)
    requires AllParse(lines, numMarkers, parse)
    ensures |r| == |lines| && Shaped(r, numMarkers)
  {
    seq(|lines|, f requires 0 <= f < |lines| =>
      seq(numMarkers, m requires 0 <= m < numMarkers => PointIn(Coords(lines[f]), m, parse).value))
  }

  /** A marker whose columns are missing from a line stays at the origin. */
  lemma ShortRowIsZero(lines: seq<string>, numMarkers: nat, parse: Parser, f: nat, m: nat)
    requires AllParse(lines, numMarkers, parse)
    requires f < |lines| && m < numMarkers && |Coords(lines[f])| < 3 * m + 3
    ensures ParsedFrames(lines, numMarkers, parse)[f][m] == Origin
  {
  }

  // ---------------------------------------------------------------- simple names

  /** `SumY(t, m, n)`: the Y coordinates of marker `m` over frames `0..n-1`, added up. */
  function SumY(t: seq<seq<Vec3>>, m: nat, n: nat): real
    requires n <= |t| && forall f :: 0 <= f < |t| ==> m < |t[f]|
  {
    if n == 0 then 0.0 else SumY(t, m, n - 1) + t[n - 1][m].y
  }

  /** `np.mean(frames_data, axis=0)[:, 1]`. With no frames numpy yields NaN
      for every marker, and every comparison with NaN is false: all markers
      then go right and keep their order. Zero for every marker, with a
      center of zero, leads to the same labels. */
  function MeanYs(t: seq<seq<Vec3>>, numMarkers: nat): (r: seq<real>)
    requires Shaped(t, numMarkers)
    ensures |r| == numMarkers
  {
    if |t| == 0 then seq(numMarkers, m => 0.0)
    else seq(numMarkers, m requires 0 <= m < numMarkers => SumY(t, m, |t|) / (|t| as real))
  }

  function Sum(s: seq<real>): real {
    if s == [] then 0.0 else Sum(s[..|s| - 1]) + s[|s| - 1]
  }

  /** `center_y = np.mean(mean_positions[:, 1])`; with no markers there is nothing to compare it with. */
  function CenterY(ys: seq<real>): real {
    if |ys| == 0 then 0.0 else Sum(ys) / (|ys| as real)
  }

  /** `indices_to_keep` for the positions `t`. */
  function KeptMarkers(t: seq<seq<Vec3>>, numMarkers: nat): (r: seq<nat>)
    requires Shaped(t, numMarkers)
    ensures forall k :: 0 <= k < |r| ==> r[k] < numMarkers
    ensures forall k, l :: 0 <= k < l < |r| ==> r[k] < r[l]
  {
    var ys := MeanYs(t, numMarkers);
    Kept(ys, CenterY(ys))
  }

  lemma {:induction false} SumOfZeros(n: nat)
    ensures Sum(seq(n, m => 0.0)) == 0.0
  {
    if n > 0 {
      SumOfZeros(n - 1);
      assert seq(n, m => 0.0)[..n - 1] == seq(n - 1, m => 0.0);
    }
  }

  /** A file with no frame rows: every marker is labelled `r{i+1}` and the
      markers dropped are exactly 1, 4 and 7. */
  lemma NoFramesKept(numMarkers: nat)
    ensures forall i :: 0 <= i < numMarkers ==> (i in KeptMarkers([], numMarkers) <==> i != 1 && i != 4 && i != 7)
  {
    var ys := MeanYs([], numMarkers);
    SumOfZeros(numMarkers);
    UniformKept(ys, CenterY(ys));
  }

  /** Sixteen markers and no frame rows: thirteen markers are kept. */
  lemma NoFramesSixteenKeepThirteen()
    ensures |KeptMarkers([], 16)| == 13
  {
    var ys := MeanYs([], 16);
    SumOfZeros(16);
    UniformRemovesThree(ys, CenterY(ys));
  }

  /** `frames_data[:, indices_to_keep, :]` */
  function SelectMarkers(t: seq<seq<Vec3>>, numMarkers: nat, kept: seq<nat>): (r: seq<seq<Vec3>>)
    requires Shaped(t, numMarkers) && forall k :: 0 <= k < |kept| ==> kept[k] < numMarkers
    ensures |r| == |t| && Shaped(r, |kept|)
  {
    seq(|t|, f requires 0 <= f < |t| => seq(|kept|, j requires 0 <= j < |kept| => t[f][kept[j]]))
  }

  /** `[self.marker_names[i] for i in indices_to_keep]` */
  function Pick(names: seq<string>, kept: seq<nat>): (r: seq<string>)
    requires forall k :: 0 <= k < |kept| ==> kept[k] < |names|
    ensures |r| == |kept|
  {
    seq(|kept|, j requires 0 <= j < |kept| => names[kept[j]])
  }

  /** `[str(i+1) for i in range(n)]` */
  function SimpleNames(n: nat): seq<string> {
    seq(n, i requires 0 <= i < n => NatToString(i + 1))
  }

  /** The simple names are distinct and name positions 1, 2, ..., n. */
  lemma SimpleNamesNumberPositions(n: nat)
    ensures |SimpleNames(n)| == n && NoDup(SimpleNames(n))
    ensures forall i :: 0 <= i < n ==> AllDigits(SimpleNames(n)[i]) && ParseNat(SimpleNames(n)[i]) == i + 1
  {
    forall i | 0 <= i < n ensures ParseNat(SimpleNames(n)[i]) == i + 1 {
      ParseNatToString(i + 1);
    }
  }

  // ---------------------------------------------------------------- the reader

  class MarkerDataReader {
    var metadata: map<string, string>
    var markerNames: seq<string>
    var simpleNames: seq<string>
    /** `frames_data`, of shape (frames, markers, 3); the `None` of a fresh reader is an empty array. */
    var framesData: array3<real>

    /** One row of `framesData` per frame, one column per entry of `markerNames`. */
    ghost predicate Valid()
      reads this
    {
      framesData.Length1 == |markerNames| && framesData.Length2 == 3
    }

    constructor ()
      ensures metadata == map[] && markerNames == [] && simpleNames == []
      ensures framesData.Length0 == 0 && Valid()
    {
      metadata := map[];
      markerNames := [];
      simpleNames := [];
      framesData := new real[0, 0, 3];
    }

    /** `_parse_metadata_line` */
    method ParseMetadataLine(line: string)
      modifies this`metadata
      ensures metadata == AddMetadata(old(metadata), line)
    {
      var parts := Fields(line);
      if |parts| >= 2 {
        var key := parts[0];
        var value := parts[1];
        metadata := metadata[key := value];
      }
    }

    /** `_parse_marker_names` */
    method ParseMarkerNames(headerLine: string)
      modifies this`markerNames
      ensures markerNames == MarkerNamesOf(headerLine)
    {
      var columns := AfterFrameAndTime(Fields(headerLine));
      ghost var all := ColumnMarkers(headerLine);
      var markerSet: seq<string> := [];
      for k := 0 to |columns|
        invariant markerSet == Dedup(all[..k])
      {
        var markerName := RSplitHead(columns[k]);
        assert all[..k + 1][..k] == all[..k];
        if markerName !in markerSet {
          markerSet := markerSet + [markerName];
        }
      }
      assert all[..|columns|] == all;
      markerNames := markerSet;
    }

    /** `_parse_marker_data`: `ok` is false where Python raises `ValueError`. */
    method ParseMarkerData(dataLines: seq<string>, parse: Parser) returns (ok: bool)
      modifies this`framesData
      ensures fresh(framesData)
      ensures framesData.Length0 == |dataLines| && framesData.Length1 == |markerNames| && framesData.Length2 == 3
      ensures ok <==> AllParse(dataLines, |markerNames|, parse)
      ensures ok ==> Snapshot(framesData) == ParsedFrames(dataLines, |markerNames|, parse)
    {
      var numMarkers := |markerNames|;
      var rows := seq(|dataLines|, f requires 0 <= f < |dataLines| => Coords(dataLines[f]));
      var frames;
      ok, frames := FillFrames(rows, numMarkers, parse);
      framesData := frames;
      if ok {
        forall f | 0 <= f < |dataLines| ensures RowParses(dataLines[f], numMarkers, parse) {
          assert rows[f] == Coords(dataLines[f]);
        }
        var t := ParsedFrames(dataLines, numMarkers, parse);
        forall f | 0 <= f < |dataLines| ensures Snapshot(frames)[f] == t[f] {
          assert rows[f] == Coords(dataLines[f]);
          forall m | 0 <= m < numMarkers ensures Snapshot(frames)[f][m] == t[f][m] {
            assert frames[f, m, 0] == Axis(StoredPoint(rows[f], m, parse), 0);
            assert frames[f, m, 1] == Axis(StoredPoint(rows[f], m, parse), 1);
            assert frames[f, m, 2] == Axis(StoredPoint(rows[f], m, parse), 2);
          }
        }
      } else {
        var f, m :| 0 <= f < |rows| && 0 <= m < numMarkers && PointIn(rows[f], m, parse).None?;
        assert !RowParses(dataLines[f], numMarkers, parse);
      }
    }

    /** `_create_simple_names`: keeps the markers `KeptMarkers` selects, in
        `framesData` and `markerNames` alike, and names them `1..n`. */
    method CreateSimpleNames()
      requires Valid()
      modifies this`framesData, this`markerNames, this`simpleNames
      ensures Valid() && fresh(framesData)
      ensures var t := old(Snapshot(framesData));
        var kept := KeptMarkers(t, old(|markerNames|));
        && Snapshot(framesData) == SelectMarkers(t, old(|markerNames|), kept)
        && markerNames == Pick(old(markerNames), kept)
        && simpleNames == SimpleNames(|kept|)
    {
      var names := markerNames;
      var indicesToKeep := KeptIndicesOf(framesData);
      framesData := SelectColumns(framesData, indicesToKeep);
      markerNames := seq(|indicesToKeep|, j requires 0 <= j < |indicesToKeep| => names[indicesToKeep[j]]);
      simpleNames := SimpleNames(|indicesToKeep|);
    }

    /** The header scan of `read_file`: each line before the first one that
        starts with `Frame\t` goes to `_parse_metadata_line`, and that line
        to `_parse_marker_names`. The data start just after it, or at the
        first line when there is no header. */
    method ScanHeader(lines: seq<string>) returns (dataStartLine: nat)
      modifies this`metadata, this`markerNames
      ensures dataStartLine <= |lines| && lines[dataStartLine..] == DataLines(lines)
      ensures metadata == MetadataAfter(old(metadata), MetadataLines(lines))
      ensures markerNames == NamesAfterHeader(old(markerNames), lines)
    {
      dataStartLine := 0;
      var i := 0;
      while i < |lines|
        invariant 0 <= i <= |lines| && dataStartLine == 0
        invariant forall k :: 0 <= k < i ==> !IsHeader(lines[k])
        invariant metadata == MetadataAfter(old(metadata), lines[..i])
        invariant markerNames == old(markerNames)
      {
        if StartsWith(lines[i], "Frame\t") {
          HeaderAt(lines, i);
          dataStartLine := i + 1;
          ParseMarkerNames(lines[i]);
          return;
        }
        ParseMetadataLine(lines[i]);
        assert lines[..i + 1][..i] == lines[..i];
        i := i + 1;
      }
      NoHeader(lines);
      assert lines[..|lines|] == lines;
    }

    /** `read_file`, with the file given as its lines: `ok` is false where
        Python raises `ValueError` while parsing the frame data. */
    method ReadFile(lines: seq<string>, parse: Parser) returns (ok: bool)
      modifies this
      ensures Valid() && fresh(framesData)
      ensures metadata == MetadataAfter(old(metadata), MetadataLines(lines))
      ensures var names := NamesAfterHeader(old(markerNames), lines);
        ok <==> AllParse(DataLines(lines), |names|, parse)
      ensures var names := NamesAfterHeader(old(markerNames), lines);
        !ok ==> markerNames == names && simpleNames == old(simpleNames)
      ensures var names := NamesAfterHeader(old(markerNames), lines);
        ok ==>
          var t := ParsedFrames(DataLines(lines), |names|, parse);
          var kept := KeptMarkers(t, |names|);
          && Snapshot(framesData) == SelectMarkers(t, |names|, kept)
          && markerNames == Pick(names, kept)
          && simpleNames == SimpleNames(|kept|)
    {
      var dataStartLine := ScanHeader(lines);
      ok := ParseMarkerData(lines[dataStartLine..], parse);
      if ok {
        CreateSimpleNames();
      }
    }
  }

  /** The scan stops at the first header line. */
  lemma HeaderAt(lines: seq<string>, i: nat)
    requires i < |lines| && IsHeader(lines[i])
    requires forall k :: 0 <= k < i ==> !IsHeader(lines[k])
    ensures HeaderIndex(lines) == Some(i)
  {
  }

  /** With no header line, the scan reaches the end. */
  lemma NoHeader(lines: seq<string>)
    requires forall k :: 0 <= k < |lines| ==> !IsHeader(lines[k])
    ensures HeaderIndex(lines) == None
  {
  }

  /** `indices_to_keep` of `_create_simple_names`, from the mean Y of each
      marker over the frames of `framesData`. */
  method KeptIndicesOf(framesData: array3<real>) returns (indicesToKeep: seq<nat>)
    requires framesData.Length2 == 3
    ensures indicesToKeep == KeptMarkers(Snapshot(framesData), framesData.Length1)
  {
    var meanPositions := MeanYs(Snapshot(framesData), framesData.Length1);
    var centerY := CenterY(meanPositions);
    indicesToKeep := KeepIndices(meanPositions, centerY);
  }

  /** `frames_data[:, indices_to_keep, :]`, a new array. */
  method SelectColumns(source: array3<real>, indicesToKeep: seq<nat>) returns (selected: array3<real>)
    requires source.Length2 == 3
    requires forall k :: 0 <= k < |indicesToKeep| ==> indicesToKeep[k] < source.Length1
    ensures fresh(selected)
    ensures selected.Length0 == source.Length0 && selected.Length1 == |indicesToKeep| && selected.Length2 == 3
    ensures Snapshot(selected) == SelectMarkers(Snapshot(source), source.Length1, indicesToKeep)
  {
    selected := new real[source.Length0, |indicesToKeep|, 3]((f: nat, j: nat, a: nat)
      reads source
      requires f < source.Length0 && j < |indicesToKeep| && a < 3 =>
      source[f, indicesToKeep[j], a]);
    ghost var t := Snapshot(source);
    forall f | 0 <= f < |t| ensures Snapshot(selected)[f] == SelectMarkers(t, source.Length1, indicesToKeep)[f] {
      forall j | 0 <= j < |indicesToKeep|
        ensures Snapshot(selected)[f][j] == SelectMarkers(t, source.Length1, indicesToKeep)[f][j]
      {
        assert t[f][indicesToKeep[j]] == Vec3(source[f, indicesToKeep[j], 0], source[f, indicesToKeep[j], 1], source[f, indicesToKeep[j], 2]);
      }
    }
  }

  /** What `_parse_marker_data` stores for marker `m` of a line with fields `coords`. */
  function StoredPoint(coords: seq<string>, m: nat, parse: Parser): Vec3 {
    PointIn(coords, m, parse).GetOr(Origin)
  }

  /** The frame loop of `_parse_marker_data` on lines already cut into
      `values[2:]`: a zero-filled (frames, markers, 3) array receives each
      marker whose three columns are present, and `ok` turns false at the
      first field `parse` rejects. */
  method FillFrames(rows: seq<seq<string>>, numMarkers: nat, parse: Parser) returns (ok: bool, frames: array3<real>)
    ensures fresh(frames)
    ensures frames.Length0 == |rows| && frames.Length1 == numMarkers && frames.Length2 == 3
    ensures ok <==> forall f, m :: 0 <= f < |rows| && 0 <= m < numMarkers ==> PointIn(rows[f], m, parse).Some?
    ensures ok ==> forall f, m, a :: 0 <= f < |rows| && 0 <= m < numMarkers && 0 <= a < 3 ==>
      frames[f, m, a] == Axis(StoredPoint(rows[f], m, parse), a)
  {
    var numFrames := |rows|;
    frames := new real[numFrames, numMarkers, 3]((_, _, _) => 0.0);
    for f := 0 to numFrames
      invariant forall g, k :: 0 <= g < f && 0 <= k < numMarkers ==> PointIn(rows[g], k, parse).Some?
      invariant forall g, k, a :: 0 <= g < f && 0 <= k < numMarkers && 0 <= a < 3 ==>
        frames[g, k, a] == Axis(StoredPoint(rows[g], k, parse), a)
      invariant forall g, k, a :: f <= g < numFrames && 0 <= k < numMarkers && 0 <= a < 3 ==> frames[g, k, a] == 0.0
    {
      var rowOk := FillFrame(frames, f, rows[f], parse);
      if !rowOk {
        return false, frames;
      }
    }
    ok := true;
  }

  /** One pass of the marker loop of `_parse_marker_data` over frame `f`,
      whose row of `frames` is still zero: each marker whose three columns
      are present receives them, and `ok` turns false at the first field
      `parse` rejects. No other frame changes. */
  method FillFrame(frames: array3<real>, f: nat, coords: seq<string>, parse: Parser) returns (ok: bool)
    requires f < frames.Length0 && frames.Length2 == 3
    requires forall k, a :: 0 <= k < frames.Length1 && 0 <= a < 3 ==> frames[f, k, a] == 0.0
    modifies frames
    ensures forall g, k, a :: 0 <= g < frames.Length0 && g != f && 0 <= k < frames.Length1 && 0 <= a < 3 ==>
      frames[g, k, a] == old(frames[g, k, a])
    ensures ok <==> forall k :: 0 <= k < frames.Length1 ==> PointIn(coords, k, parse).Some?
    ensures ok ==> forall k, a :: 0 <= k < frames.Length1 && 0 <= a < 3 ==>
      frames[f, k, a] == Axis(StoredPoint(coords, k, parse), a)
  {
    for m := 0 to frames.Length1
      invariant forall g, k, a :: 0 <= g < frames.Length0 && g != f && 0 <= k < frames.Length1 && 0 <= a < 3 ==>
        frames[g, k, a] == old(frames[g, k, a])
      invariant forall k :: 0 <= k < m ==> PointIn(coords, k, parse).Some?
      invariant forall k, a :: 0 <= k < m && 0 <= a < 3 ==> frames[f, k, a] == Axis(StoredPoint(coords, k, parse), a)
      invariant forall k, a :: m <= k < frames.Length1 && 0 <= a < 3 ==> frames[f, k, a] == 0.0
    {
      if 3 * m + 2 < |coords| {
        var x, y, z := parse(coords[3 * m]), parse(coords[3 * m + 1]), parse(coords[3 * m + 2]);
        if x.None? || y.None? || z.None? {
          assert PointIn(coords, m, parse).None?;
          return false;
        }
        frames[f, m, 0] := x.value;
        frames[f, m, 1] := y.value;
        frames[f, m, 2] := z.value;
      }
    }
    ok := true;
  }
}
