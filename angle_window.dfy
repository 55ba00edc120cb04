/**
 * The angle records read back from a saved JSON document and the frame
 * window a caller can cut out of them: `load_angles_from_json`,
 * `filter_angles_by_range` and the window `plot_angles` plots.
 */
module AngleWindow {
  import opened Wrappers

  // ---------------------------------------------------------------- frame windows

  /** A half-open range of frames `[start, end)`. */
  datatype Window = Window(start: int, end: int)

  function Min(a: int, b: int): int {
    if a <= b then a else b
  }

  function Max(a: int, b: int): int {
    if a >= b then a else b
  }

  /** The window of `n` frames that `filter_angles_by_range` keeps: a missing
      start is 0 and a missing end is `n`; the start is then clamped into
      `[0, n]` and the end into `[start, n]`. */
  function ClampWindow(n: nat, startFrame: Option<int>, endFrame: Option<int>): (w: Window)
    ensures 0 <= w.start <= w.end <= n
    ensures startFrame == None ==> w.start == 0
    ensures endFrame == None ==> w.end == n
    ensures startFrame.Some? ==>
      w.start == (if startFrame.value < 0 then 0 else if startFrame.value > n then n else startFrame.value)
    ensures endFrame.Some? ==>
      w.end == (if endFrame.value < w.start then w.start else if endFrame.value > n then n else endFrame.value)
  {
    var start := startFrame.GetOr(0);
    var end := endFrame.GetOr(n);
    var start' := Max(0, Min(start, n));
    var end' := Max(start', Min(end, n));
    Window(start', end')
  }

  /** A window given by frames already in range is kept as it is. */
  lemma ClampWindowInRange(n: nat, s: int, e: int)
    requires 0 <= s <= e <= n
    ensures ClampWindow(n, Some(s), Some(e)) == Window(s, e)
  {
  }

  /** Clamping is idempotent: clamping the window it returns gives it back. */
  lemma ClampWindowIdempotent(n: nat, startFrame: Option<int>, endFrame: Option<int>)
    ensures var w := ClampWindow(n, startFrame, endFrame);
      ClampWindow(n, Some(w.start), Some(w.end)) == w
  {
    var w := ClampWindow(n, startFrame, endFrame);
    ClampWindowInRange(n, w.start, w.end);
  }

  /** The frames `plot_angles` plots: the clamped window when a start or an
      end is given, and otherwise every frame. */
  function PlotWindow(n: nat, startFrame: Option<int>, endFrame: Option<int>): (w: Window)
    ensures w == ClampWindow(n, startFrame, endFrame)
    ensures 0 <= w.start <= w.end <= n
  {
    if startFrame.Some? || endFrame.Some? then ClampWindow(n, startFrame, endFrame)
    else Window(0, n)
  }

  // ---------------------------------------------------------------- slices

  /** Python's `s[i:j]` for non-negative bounds: bounds past the end stop at
      the end, and a start at or after the end gives the empty slice. */
  function PySlice<T>(s: seq<T>, i: nat, j: nat): (r: seq<T>)
    ensures |r| == (if Min(j, |s|) <= i then 0 else Min(j, |s|) - i)
    ensures forall k :: 0 <= k < |r| ==> r[k] == s[i + k]
  {
    var hi := Min(j, |s|);
    if hi <= i then [] else s[i..hi]
  }

  /** Within bounds a Python slice is the sequence slice. */
  lemma PySliceInRange<T>(s: seq<T>, i: nat, j: nat)
    requires i <= j <= |s|
    ensures PySlice(s, i, j) == s[i..j]
  {
  }

  // ---------------------------------------------------------------- records

  /** A decoded JSON value. */
  datatype Json = JNull | JBool(b: bool) | JNum(x: real) | JStr(s: string) | JArr(items: seq<Json>) | JObj(fields: map<string, Json>)

  /** `j[key]`: `None` where Python raises, that is when `j` is not an object
      or has no such key. */
  function Field(j: Json, key: string): (r: Option<Json>)
    ensures r.Some? <==> j.JObj? && key in j.fields
    ensures r.Some? ==> r.value == j.fields[key]
  {
    if j.JObj? && key in j.fields then Some(j.fields[key]) else None
  }

  /** The list of numbers a series is stored as, or `None` when it is not one. */
  function Numbers(j: Json): (r: Option<seq<real>>)
    ensures r.Some? <==> j.JArr? && forall k :: 0 <= k < |j.items| ==> j.items[k].JNum?
    ensures r.Some? ==> |r.value| == |j.items| && forall k :: 0 <= k < |r.value| ==> j.items[k] == JNum(r.value[k])
  {
    if j.JArr? && forall k :: 0 <= k < |j.items| ==> j.items[k].JNum? then
      Some(seq(|j.items|, k requires 0 <= k < |j.items| && j.items[k].JNum? => j.items[k].x))
    else None
  }

  /** A list of numbers, the inverse of `Numbers`. */
  function NumberList(s: seq<real>): (j: Json)
    ensures Numbers(j) == Some(s)
  {
    var j := JArr(seq(|s|, k requires 0 <= k < |s| => JNum(s[k])));
    assert Numbers(j).Some?;
    assert Numbers(j).value == s;
    j
  }

  /** The three series of one side, `q1`, `q2`, `q3`, one value per frame. */
  datatype Side = Side(q1: seq<real>, q2: seq<real>, q3: seq<real>)

  /** The record `load_angles_from_json` returns: the document's metadata,
      both sides, and `frame_range` when the metadata holds one. */
  datatype AngleData = AngleData(metadata: map<string, Json>, right: Side, left: Side, frameRange: Option<Json>)

  /** One side of `data['angles']`: the series under `k1`, `k2`, `k3`
      (`qr1`... on the right, `ql1`... on the left) become `q1`, `q2`, `q3`. */
  function LoadSide(j: Json, k1: string, k2: string, k3: string): (r: Option<Side>)
    ensures r.Some? <==>
      && Field(j, k1).Some? && Numbers(Field(j, k1).value).Some?
      && Field(j, k2).Some? && Numbers(Field(j, k2).value).Some?
      && Field(j, k3).Some? && Numbers(Field(j, k3).value).Some?
    ensures r.Some? ==>
      && r.value.q1 == Numbers(Field(j, k1).value).value
      && r.value.q2 == Numbers(Field(j, k2).value).value
      && r.value.q3 == Numbers(Field(j, k3).value).value
  {
    var f1 := Field(j, k1);
    var f2 := Field(j, k2);
    var f3 := Field(j, k3);
    if f1.None? || f2.None? || f3.None? then None
    else
      var s1 := Numbers(f1.value);
      var s2 := Numbers(f2.value);
      var s3 := Numbers(f3.value);
      if s1.None? || s2.None? || s3.None? then None
      else Some(Side(s1.value, s2.value, s3.value))
  }

  /** `j[k0][k1]...`: the value at the end of a chain of lookups, `None`
      where one of them fails. */
  function Path(j: Json, keys: seq<string>): (r: Option<Json>)
    ensures |keys| == 1 ==> r == Field(j, keys[0])
  {
    if keys == [] then Some(j)
    else
      var f := Field(j, keys[0]);
      if f.None? then None else Path(f.value, keys[1..])
  }

  /** Looking up `keys1 + keys2` is looking up `keys1` and then, from the
      value found, `keys2`; a failed lookup fails the whole chain. */
  lemma {:induction false} PathConcat(j: Json, keys1: seq<string>, keys2: seq<string>)
    ensures Path(j, keys1 + keys2) == match Path(j, keys1) case None => None case Some(v) => Path(v, keys2)
  {
    if keys1 != [] {
      assert (keys1 + keys2)[0] == keys1[0];
      assert (keys1 + keys2)[1..] == keys1[1..] + keys2;
      var f := Field(j, keys1[0]);
      if f.Some? {
        PathConcat(f.value, keys1[1..], keys2);
      }
    } else {
      assert keys1 + keys2 == keys2;
    }
  }

  /** `load_angles_from_json` once the file is decoded: the metadata, the
      right series from `qr1`, `qr2`, `qr3` and the left from `ql1`, `ql2`,
      `ql3`, and `frame_range` copied out of the metadata when it is there.
      It fails exactly when a lookup fails or a series is not a list of
      numbers. */
  function LoadAngles(data: Json): (r: Option<AngleData>)
    ensures r.Some? <==>
      && Path(data, ["metadata"]).Some? && Path(data, ["metadata"]).value.JObj?
      && Path(data, ["angles", "right"]).Some? && LoadSide(Path(data, ["angles", "right"]).value, "qr1", "qr2", "qr3").Some?
      && Path(data, ["angles", "left"]).Some? && LoadSide(Path(data, ["angles", "left"]).value, "ql1", "ql2", "ql3").Some?
    ensures r.Some? ==> r.value.metadata == Path(data, ["metadata"]).value.fields
    ensures r.Some? ==> Some(r.value.right) == LoadSide(Path(data, ["angles", "right"]).value, "qr1", "qr2", "qr3")
    ensures r.Some? ==> Some(r.value.left) == LoadSide(Path(data, ["angles", "left"]).value, "ql1", "ql2", "ql3")
    ensures r.Some? ==> FrameRangeFromMetadata(r.value)
  {
    var meta := Path(data, ["metadata"]);
    var rightJson := Path(data, ["angles", "right"]);
    var leftJson := Path(data, ["angles", "left"]);
    if meta.None? || !meta.value.JObj? || rightJson.None? || leftJson.None? then None
    else
      var right := LoadSide(rightJson.value, "qr1", "qr2", "qr3");
      var left := LoadSide(leftJson.value, "ql1", "ql2", "ql3");
      if right.None? || left.None? then None
      else
        var metadata := meta.value.fields;
        var frameRange := if "frame_range" in metadata then Some(metadata["frame_range"]) else None;
        Some(AngleData(metadata, right.value, left.value, frameRange))
  }

  /** A record's `frame_range` is the one its metadata holds. */
  predicate FrameRangeFromMetadata(a: AngleData) {
    if "frame_range" in a.metadata then a.frameRange == Some(a.metadata["frame_range"])
    else a.frameRange == None
  }

  /** The document layout `load_angles_from_json` reads: the metadata and
      the six series under `angles.right` and `angles.left`. */
  function AnglesDocument(a: AngleData): (j: Json)
    ensures Field(j, "metadata") == Some(JObj(a.metadata))
  {
    JObj(map[
      "metadata" := JObj(a.metadata),
      "angles" := JObj(map[
        "right" := JObj(map["qr1" := NumberList(a.right.q1), "qr2" := NumberList(a.right.q2), "qr3" := NumberList(a.right.q3)]),
        "left" := JObj(map["ql1" := NumberList(a.left.q1), "ql2" := NumberList(a.left.q2), "ql3" := NumberList(a.left.q3)])])])
  }

  /** Loading a document laid out from a record gives the record back:
      no series is renamed, reordered or lost on the way. */
  lemma LoadAnglesDocument(a: AngleData)
    requires FrameRangeFromMetadata(a)
    ensures LoadAngles(AnglesDocument(a)) == Some(a)
  {
    var j := AnglesDocument(a);
    var angles := JObj(map[
      "right" := JObj(map["qr1" := NumberList(a.right.q1), "qr2" := NumberList(a.right.q2), "qr3" := NumberList(a.right.q3)]),
      "left" := JObj(map["ql1" := NumberList(a.left.q1), "ql2" := NumberList(a.left.q2), "ql3" := NumberList(a.left.q3)])]);
    assert Field(j, "angles") == Some(angles);
    assert Path(j, ["angles", "right"]) == Field(angles, "right") by {
      assert ["angles", "right"][1..] == ["right"];
    }
    assert Path(j, ["angles", "left"]) == Field(angles, "left") by {
      assert ["angles", "left"][1..] == ["left"];
    }
    LoadSideObject(a.right, "qr1", "qr2", "qr3");
    LoadSideObject(a.left, "ql1", "ql2", "ql3");
  }

  /** A side stored as an object of three number lists loads back. */
  lemma LoadSideObject(s: Side, k1: string, k2: string, k3: string)
    requires k1 != k2 && k1 != k3 && k2 != k3
    ensures LoadSide(JObj(map[k1 := NumberList(s.q1), k2 := NumberList(s.q2), k3 := NumberList(s.q3)]), k1, k2, k3) == Some(s)
  {
  }

  /** A document that lacks one of the six series does not load. */
  lemma LoadAnglesNeedsSeries(data: Json, side: string, key: string)
    requires (side == "right" && key in {"qr1", "qr2", "qr3"}) || (side == "left" && key in {"ql1", "ql2", "ql3"})
    requires Path(data, ["angles", side]).Some? && Field(Path(data, ["angles", side]).value, key).None?
    ensures LoadAngles(data) == None
  {
  }

  // ---------------------------------------------------------------- filter_angles_by_range

  /** What `filter_angles_by_range` returns: the new record and the clamped
      window. */
  datatype Filtered = Filtered(data: AngleData, start: int, end: int)

  function SliceSide(s: Side, w: Window): Side
    requires 0 <= w.start <= w.end
  {
    Side(PySlice(s.q1, w.start, w.end), PySlice(s.q2, w.start, w.end), PySlice(s.q3, w.start, w.end))
  }

  /** `filter_angles_by_range(angles_data, start_frame, end_frame)`: the
      window is clamped against the length of the right `q1` series, every
      series is sliced to it, and the metadata is copied; the new record has
      no `frame_range`. */
  function FilterAnglesByRange(angles: AngleData, startFrame: Option<int>, endFrame: Option<int>): (r: Filtered)
    ensures Window(r.start, r.end) == ClampWindow(|angles.right.q1|, startFrame, endFrame)
    ensures 0 <= r.start <= r.end <= |angles.right.q1|
    ensures r.data.metadata == angles.metadata && r.data.frameRange == None
    ensures |r.data.right.q1| == r.end - r.start
    ensures forall k :: 0 <= k < |r.data.right.q1| ==> r.data.right.q1[k] == angles.right.q1[r.start + k]
  {
    var w := ClampWindow(|angles.right.q1|, startFrame, endFrame);
    Filtered(AngleData(angles.metadata, SliceSide(angles.right, w), SliceSide(angles.left, w), None), w.start, w.end)
  }

  /** All six series have the length of the right `q1` series. */
  predicate SameLength(a: AngleData) {
    var n := |a.right.q1|;
    |a.right.q2| == n && |a.right.q3| == n && |a.left.q1| == n && |a.left.q2| == n && |a.left.q3| == n
  }

  /** With series of one length, each output series is exactly
      `input[start:end]`, of length `end - start`. */
  lemma FilterSlices(angles: AngleData, startFrame: Option<int>, endFrame: Option<int>)
    requires SameLength(angles)
    ensures var r := FilterAnglesByRange(angles, startFrame, endFrame);
      && r.data.right == Side(angles.right.q1[r.start..r.end], angles.right.q2[r.start..r.end], angles.right.q3[r.start..r.end])
      && r.data.left == Side(angles.left.q1[r.start..r.end], angles.left.q2[r.start..r.end], angles.left.q3[r.start..r.end])
      && SameLength(r.data) && |r.data.right.q1| == r.end - r.start
  {
    var r := FilterAnglesByRange(angles, startFrame, endFrame);
    PySliceInRange(angles.right.q1, r.start, r.end);
    PySliceInRange(angles.right.q2, r.start, r.end);
    PySliceInRange(angles.right.q3, r.start, r.end);
    PySliceInRange(angles.left.q1, r.start, r.end);
    PySliceInRange(angles.left.q2, r.start, r.end);
    PySliceInRange(angles.left.q3, r.start, r.end);
  }

  /** Without a start and an end every series is kept whole. */
  lemma FilterWholeRange(angles: AngleData)
    requires SameLength(angles)
    ensures var r := FilterAnglesByRange(angles, None, None);
      && r.start == 0 && r.end == |angles.right.q1|
      && r.data.right == angles.right && r.data.left == angles.left
  {
    var r := FilterAnglesByRange(angles, None, None);
    FilterSlices(angles, None, None);
    assert angles.right.q1[0..|angles.right.q1|] == angles.right.q1;
    assert angles.right.q2[0..|angles.right.q1|] == angles.right.q2;
    assert angles.right.q3[0..|angles.right.q1|] == angles.right.q3;
    assert angles.left.q1[0..|angles.right.q1|] == angles.left.q1;
    assert angles.left.q2[0..|angles.right.q1|] == angles.left.q2;
    assert angles.left.q3[0..|angles.right.q1|] == angles.left.q3;
  }

  /** An end at or before the (clamped) start leaves every series empty. */
  lemma FilterEmptyRange(angles: AngleData, s: int, e: int)
    requires e <= s || e <= 0
    ensures var r := FilterAnglesByRange(angles, Some(s), Some(e));
      && r.start == r.end
      && r.data.right == Side([], [], []) && r.data.left == Side([], [], [])
  {
  }

  /** Filtering a filtered record again with its own window changes nothing. */
  lemma FilterAgain(angles: AngleData, startFrame: Option<int>, endFrame: Option<int>)
    requires SameLength(angles)
    ensures var r := FilterAnglesByRange(angles, startFrame, endFrame);
      var again := FilterAnglesByRange(r.data, Some(0), None);
      again.data == r.data && again.start == 0 && again.end == r.end - r.start
  {
    var r := FilterAnglesByRange(angles, startFrame, endFrame);
    FilterSlices(angles, startFrame, endFrame);
    FilterWholeRange(r.data);
  }
}
