# Marker data, joint angles and frame windows

A Dafny model of the data path of a motion-capture analysis tool. The tool
reads a tab-separated marker export, labels the markers left and right by
their mean Y coordinate, drops six of the labels and renumbers the rest.
It then computes three angles per leg and frame (`qr1..qr3` and `ql1..ql3`).
It can also read saved angle records back from JSON and cut a window of
frames out of them.

Modules, following the source files:

- `Text`: the Python string operations the reader uses (`strip`,
  `split('\t')`, `startswith`, `rsplit(' ', 1)[0]`, `str(int)`), each with
  a lemma that pins it down: the shape of a strip, a join that undoes a
  split, a prefix split off by `startswith`, a parse that undoes `str`.
- `Vectors`: 3-D points, the numpy arithmetic on them, and the view of a
  `(frames, markers, 3)` array as a sequence of frames.
- `MarkerLabels`: the labelling done by `_create_simple_names`, on values.
  It covers the left/right split, the stable sort by mean Y, the `l{i}`/`r{i}`
  numbering and the exclusion filter.
- `MarkerReader`: the class `MarkerDataReader`. Its fields are `metadata`,
  `markerNames`, `simpleNames` and `framesData`, the last an `array3<real>`.
  Its methods update these fields as the Python methods do. Each method is
  specified by functions of the old state and the input lines.
- `JointAngles`: `angle_with_xy_plane`, `angle_between_vectors` and
  `calculate_angles`. The frame loop fills arrays and is proved equal to a
  per-frame specification function.
- `AngleWindow`: `load_angles_from_json` on a decoded JSON value,
  `filter_angles_by_range`, and the window `plot_angles` plots.

Inputs the model does not compute become parameters:

- The file arrives as its list of lines.
- Python's `float()` is a parameter `parse`; `None` stands for `ValueError`.
- The square root inside `np.linalg.norm` and `np.degrees(np.arccos(c))`
  are the two fields of `FloatOps`. `FloatOps.Valid` states the only facts
  the proofs use about them:
  - the square root is the non-negative root;
  - arccos maps [-1, 1] into [0, 180] and [0, 1] into [0, 90];
  - arccos(1) is 0 and arccos(-1) is 180.

Where the code and the project's description of it disagree, the model
follows the code:

- A straight leg (knee on the segment from ankle to hip) gives `q2 = 0`,
  not 180. The vectors `k - a` and `k - h` then point in opposite directions,
  so their angle is 180 and `180 - 180 = 0` (`JointAngles.StraightLeg`).
- A vertical vector such as `(0, 0, 1)` gives 0 from `angle_with_xy_plane`,
  not 90, because its XY projection has norm zero. An ankle directly below
  the knee therefore gives `q1 = 0` (`JointAngles.XYPlaneDegenerate`,
  `JointAngles.VerticalShank`).
- The exclusion list does not always remove six markers. At most six go
  (`MarkerLabels.AtMostSixRemoved`). Exactly six go when the left side has
  at least six markers and the right at least eight
  (`MarkerLabels.ExactlySixRemoved`). When every marker has the same mean Y,
  as in a file with no frame rows, all markers are "right". Only markers 1,
  4 and 7 go then: sixteen markers keep thirteen
  (`MarkerReader.NoFramesSixteenKeepThirteen`).
- The command-line entry point calls `calculate_angles` with the
  reader's `simple_names`, which are `"1"`, `"2"`, .... Those contain none
  of the role names `ra`, `rk`, ..., so every angle of every frame is zero
  (`JointAngles.SimpleNamesGiveZeros`).

## Model

| member | source | states |
|---|---|---|
| Text.TrimStart | visualize_markers.py:73 | `lstrip()`: the line without its leading whitespace; never longer than the line |
| Text.TrimEnd | visualize_markers.py:73 | `rstrip()`: the line without its trailing whitespace; never longer than the line |
| Text.Strip | visualize_markers.py:73 | `strip()`: the line with whitespace cut from both ends; never longer than the line |
| Text.TrimStartIsSuffix | visualize_markers.py:73 | the left strip removes a prefix made only of whitespace, and what is left does not start with whitespace |
| Text.TrimEndIsPrefix | visualize_markers.py:73 | the right strip removes a suffix made only of whitespace, and what is left does not end with whitespace |
| Text.StripIsSlice | visualize_markers.py:73 | `strip()` gives the slice of the line between a whitespace prefix and a whitespace suffix, neither starting nor ending with whitespace |
| Text.StartsWith | visualize_markers.py:43 | `line.startswith(p)`: the first `len(p)` characters of the line are `p` |
| Text.StartsWithConcat | visualize_markers.py:43 | a line starting with `p` is `p` followed by the rest, and `p` followed by anything starts with `p` |
| Text.Split | visualize_markers.py:73 | `split('\t')` never gives an empty list |
| Text.JoinSplit | visualize_markers.py:73 | joining the split pieces with the separator gives the line back |
| Text.SplitPiecesHaveNoSeparator | visualize_markers.py:73 | no piece of a split contains the separator |
| Text.RSplitHead | visualize_markers.py:94 | `rsplit(' ', 1)[0]` is the prefix before the last space, or the whole text when there is no space |
| Text.NatToString | visualize_markers.py:184 | `str(n)` is a non-empty string of digits without a leading zero |
| Text.ParseNatToString | visualize_markers.py:184 | reading back the decimal digits of `str(n)` gives `n` |
| Text.NatToStringInjective | visualize_markers.py:163-166 | `str` gives distinct numbers distinct texts |
| MarkerLabels.SideOf | visualize_markers.py:148-153 | a marker is on the left exactly when its mean Y is below the center, and on the right otherwise, equality included |
| MarkerLabels.LabelTextInjective | visualize_markers.py:162-166 | two labels `l{i}`/`r{i}` with the same text are the same side and number |
| MarkerLabels.Entries | visualize_markers.py:145-153 | the entries the first `n` rounds of the split loop append to one side's list, in index order |
| MarkerLabels.EntriesFacts | visualize_markers.py:148-153 | the split puts exactly the markers of one side into its list, in index order, each with its own mean Y |
| MarkerLabels.Insert | visualize_markers.py:156-157 | one insertion step of the stable sort keeps the elements, plus the inserted one |
| MarkerLabels.SortByY | visualize_markers.py:156-157 | `sort(key=lambda x: x[1])` returns a permutation of its input |
| MarkerLabels.InsertKeepsOrder | visualize_markers.py:156-157 | inserting an entry with a larger index after the equal keys keeps the list ordered by mean Y, ties by index |
| MarkerLabels.SortIsStrict | visualize_markers.py:156-157 | stably sorting a list in index order orders it by mean Y, with ties in index order |
| MarkerLabels.SortedSide | visualize_markers.py:144-157 | `left_markers` or `right_markers` after the stable sort by mean Y |
| MarkerLabels.SortedSideFacts | visualize_markers.py:144-157 | each sorted side holds exactly the markers of that side, ordered by mean Y then index, with no marker twice |
| MarkerLabels.InsertAtEnd | visualize_markers.py:156-157 | an entry whose key is not below any key in the list goes to its end |
| MarkerLabels.SortOrdered | visualize_markers.py:156-157 | the stable sort leaves a list already ordered by mean Y unchanged |
| MarkerLabels.Labelled | visualize_markers.py:162-166 | `temp_name_map` after the first `n` rounds of a numbering loop: entry `k`'s marker gets the side and number `k+1`, later rounds overwriting earlier ones |
| MarkerLabels.TempNames | visualize_markers.py:159-166 | `temp_name_map` once the sorted left side and then the sorted right side are numbered |
| MarkerLabels.Rank | visualize_markers.py:159-166 | a marker's label number: one more than its position in its side's sorted list |
| MarkerLabels.LabelledFacts | visualize_markers.py:162-166 | numbering a side gives its `k`-th entry the number `k+1` and leaves the other keys alone |
| MarkerLabels.RankPlace | visualize_markers.py:159-166 | a marker's label number is its 1-based place on its sorted side |
| MarkerLabels.TempNameOf | visualize_markers.py:144-166 | every marker gets the label of its side (`l` below the center, `r` otherwise) and its place there |
| MarkerLabels.TempNamesDomain | visualize_markers.py:159-166 | `temp_name_map` has a label for exactly the markers `0..n-1` |
| MarkerLabels.RankOrder | visualize_markers.py:155-166 | on one side, a smaller label number means a smaller mean Y, or an equal one and a smaller index, and conversely |
| MarkerLabels.RankOnto | visualize_markers.py:159-166 | every number from 1 to the size of a side is some marker's label number |
| MarkerLabels.RankInjective | visualize_markers.py:159-166 | two markers on one side never share a label number |
| MarkerLabels.ExcludedLabelText | visualize_markers.py:169 | a label's text is in the exclusion list exactly when it is one of `l1, l5, l6, r2, r5, r8` |
| MarkerLabels.ExcludedSetSize | visualize_markers.py:169 | six labels are excluded |
| MarkerLabels.ExcludedIff | visualize_markers.py:168-175 | a marker is excluded exactly when it is 1st, 5th or 6th on the left or 2nd, 5th or 8th on the right |
| MarkerLabels.KeptUpTo | visualize_markers.py:172-175 | `indices_to_keep` once the filter loop has looked at markers `0..n-1` |
| MarkerLabels.KeptUpToFacts | visualize_markers.py:172-175 | the filter loop keeps, in increasing order, exactly the markers whose label is not excluded |
| MarkerLabels.Kept | visualize_markers.py:172-175 | `indices_to_keep` holds marker indices, strictly increasing |
| MarkerLabels.KeptIff | visualize_markers.py:172-175 | a marker is kept exactly when its label is not excluded |
| MarkerLabels.KeptAndRemovedPartition | visualize_markers.py:172-175 | the kept and the removed markers together are all `n` markers |
| MarkerLabels.AtMostSixRemoved | visualize_markers.py:168-175 | at least `n - 6` and at most `n` markers are kept |
| MarkerLabels.SixLabelsInUse | visualize_markers.py:159-175 | with at least six markers on the left and eight on the right, at least six markers are removed |
| MarkerLabels.SixLabelsRemoved | visualize_markers.py:168-175 | six markers carrying the six excluded labels are all removed |
| MarkerLabels.ExactlySixRemoved | visualize_markers.py:144-175 | with at least six markers on the left and eight on the right, exactly `n - 6` are kept |
| MarkerLabels.LabelledMarker | visualize_markers.py:159-166 | for each place on a side, some marker carries that label |
| MarkerLabels.UniformEntries | visualize_markers.py:148-153 | when every mean Y equals the center, every marker goes right, in index order |
| MarkerLabels.UniformRank | visualize_markers.py:144-166 | when every mean Y equals the center, marker `i` is labelled `r{i+1}` |
| MarkerLabels.UniformKept | visualize_markers.py:144-175 | when every mean Y equals the center, the markers removed are exactly 1, 4 and 7 |
| MarkerLabels.UniformRemovesThree | visualize_markers.py:144-175 | when every mean Y equals the center and there are at least eight markers, exactly three are removed |
| MarkerLabels.KeepIndices | visualize_markers.py:144-175 | the split, sort, numbering and filter loops compute `Kept` |
| MarkerLabels.SplitSides | visualize_markers.py:145-153 | the split loop builds the left and right lists `Entries` |
| MarkerLabels.NumberSide | visualize_markers.py:162-166 | a numbering loop builds the map `Labelled` |
| MarkerLabels.FilterKept | visualize_markers.py:172-175 | the filter loop builds `KeptUpTo` |
| MarkerReader.Fields | visualize_markers.py:73 | the fields of a line, `line.strip().split('\t')`; there is always at least one |
| MarkerReader.AfterFrameAndTime | visualize_markers.py:118 | `values[2:]` is what follows the first two fields, and empty for a shorter line |
| MarkerReader.IsHeader | visualize_markers.py:43 | the column-header line is the one starting with `Frame` and a tab, tested on the raw line |
| MarkerReader.HeaderIndex | visualize_markers.py:42-48 | points at a line starting with `Frame\t` with none before it, or states that there is none |
| MarkerReader.HeaderAt | visualize_markers.py:42-48 | the scan stops at the first header line |
| MarkerReader.NoHeader | visualize_markers.py:42-51 | with no header line the scan reaches the end |
| MarkerReader.MetadataLines | visualize_markers.py:42-51 | the lines handed to `_parse_metadata_line`: those before the first header line, or all lines when there is none |
| MarkerReader.DataLines | visualize_markers.py:41-54 | `lines[data_start_line:]`: the lines after the first header line, or all lines when there is none |
| MarkerReader.AddMetadata | visualize_markers.py:66-77 | a line with at least two fields sets its first field to its second; no other key changes |
| MarkerReader.MetadataAfter | visualize_markers.py:42-51 | the metadata after `_parse_metadata_line` has run on each line in turn |
| MarkerReader.MetadataKeys | visualize_markers.py:40-51 | a key is in the metadata exactly when it was before or some metadata line sets it |
| MarkerReader.MetadataLastWins | visualize_markers.py:40-51 | a key's value comes from the last line that sets it |
| MarkerReader.MetadataUntouched | visualize_markers.py:40-51 | a key no line sets keeps its value |
| MarkerReader.ColumnMarkers | visualize_markers.py:87-94 | the marker of each column after `Frame` and `Time`: its text before the last space, in column order, repeats kept |
| MarkerReader.Dedup | visualize_markers.py:91-96 | `marker_set` has no duplicates and holds exactly the names of the columns |
| MarkerReader.DedupFirstOccurrenceOrder | visualize_markers.py:91-98 | the names appear in the order of their first column |
| MarkerReader.MarkerNamesOf | visualize_markers.py:79-98 | the marker names of a header are the distinct column markers |
| MarkerReader.NamesAfterHeader | visualize_markers.py:42-48 | the marker names after the header scan: those of the first header line, or the old names when there is none |
| MarkerReader.Coords | visualize_markers.py:115-118 | the fields of a data line after `Frame` and `Time` |
| MarkerReader.PointIn | visualize_markers.py:121-130 | marker `m` of a data line: its three parsed fields `3m`, `3m+1`, `3m+2` when all exist, the origin when the line is too short, and a failure when a present field does not parse |
| MarkerReader.ParsedFrames | visualize_markers.py:107-130 | the frame data has one row per data line and one position per marker |
| MarkerReader.ShortRowIsZero | visualize_markers.py:127-130 | a marker whose columns are missing from a line stays at the origin |
| MarkerReader.MeanYs | visualize_markers.py:139 | there is one mean Y per marker |
| MarkerReader.CenterY | visualize_markers.py:142 | `center_y`: the mean of the markers' mean Y values, or 0 when there are no markers |
| MarkerReader.KeptMarkers | visualize_markers.py:138-175 | `indices_to_keep` for a frame tensor holds marker indices, strictly increasing |
| MarkerReader.NoFramesKept | visualize_markers.py:138-175 | with no frame rows, the markers removed are exactly 1, 4 and 7 |
| MarkerReader.NoFramesSixteenKeepThirteen | visualize_markers.py:138-175 | sixteen markers and no frame rows keep thirteen markers |
| MarkerReader.SelectMarkers | visualize_markers.py:178 | `frames_data[:, kept, :]` keeps every frame and one column per kept index |
| MarkerReader.Pick | visualize_markers.py:181 | one name per kept index |
| MarkerReader.SimpleNames | visualize_markers.py:184 | `[str(i+1) for i in range(n)]` |
| MarkerReader.SimpleNamesNumberPositions | visualize_markers.py:184 | the simple names are distinct digit strings and name the positions 1 to n |
| MarkerReader.MarkerDataReader.constructor | visualize_markers.py:17-28 | a new reader has empty metadata and name lists and no frames |
| MarkerReader.MarkerDataReader.ParseMetadataLine | visualize_markers.py:66-77 | the metadata becomes `AddMetadata` of the old metadata and the line |
| MarkerReader.MarkerDataReader.ParseMarkerNames | visualize_markers.py:79-98 | the marker names become the distinct column markers in first-occurrence order |
| MarkerReader.MarkerDataReader.ParseMarkerData | visualize_markers.py:100-130 | a fresh zero-filled `(lines, markers, 3)` array is filled; it fails exactly when a present field does not parse; on success it holds the parsed frames |
| MarkerReader.MarkerDataReader.CreateSimpleNames | visualize_markers.py:132-184 | frames and names are cut to the kept markers, and the simple names are `1..k` |
| MarkerReader.MarkerDataReader.ScanHeader | visualize_markers.py:40-51 | metadata from the lines before the header, names from the header, and data starting right after it (or at line 0 with no header) |
| MarkerReader.MarkerDataReader.ReadFile | visualize_markers.py:30-64 | the new metadata, names, frames and simple names as functions of the old state and the lines; it fails exactly when a data field does not parse |
| MarkerReader.KeptIndicesOf | visualize_markers.py:138-175 | computes `KeptMarkers` of the array's frames |
| MarkerReader.SelectColumns | visualize_markers.py:178 | a fresh array holding `SelectMarkers` of the source |
| MarkerReader.FillFrames | visualize_markers.py:111-130 | the frame loop fails exactly when some present field does not parse; on success each position is the parsed or zero point |
| MarkerReader.FillFrame | visualize_markers.py:113-130 | one frame's marker loop fills only that frame, and fails exactly when one of its fields does not parse |
| JointAngles.Norm | calculate_angles.py:26 | `np.linalg.norm(v)`: the square root of the sum of the squared coordinates |
| JointAngles.Clip | calculate_angles.py:30 | `np.clip` returns a value in the interval, the input when it lies inside, and the nearer bound otherwise |
| JointAngles.Cosine | calculate_angles.py:29 | `cos_angle` before clipping: the dot product over the product of the two norms, which must be non-zero, as the guards at lines 26 and 47 ensure |
| JointAngles.AngleWithXYPlane | calculate_angles.py:14-33 | the angle lies in [0, 180] |
| JointAngles.AngleBetween | calculate_angles.py:36-54 | the angle lies in [0, 180] |
| JointAngles.XYPlaneDegenerate | calculate_angles.py:24-27 | a vector with zero X and Y, the vertical ones among them, gives 0 |
| JointAngles.XYPlaneOrigin | calculate_angles.py:26-27 | the zero vector gives 0 |
| JointAngles.XYPlaneAtMostRight | calculate_angles.py:24-33 | the angle with the XY plane is within [0, 90] |
| JointAngles.XYPlaneInPlane | calculate_angles.py:24-33 | a non-zero vector in the XY plane gives 0 |
| JointAngles.XYPlaneMirror | calculate_angles.py:24-33 | negating Z does not change the angle |
| JointAngles.BetweenDegenerate | calculate_angles.py:47-48 | a zero vector on either side gives 0 |
| JointAngles.BetweenParallel | calculate_angles.py:47-54 | a vector and a positive multiple give 0; a vector and a negative multiple give 180 |
| JointAngles.CosineParallel | calculate_angles.py:50 | the cosine of a vector with a multiple of itself is the sign of the factor |
| JointAngles.Leg | calculate_angles.py:106-118 | the three angles of a leg lie in [0, 180] |
| JointAngles.AnkleOnKnee | calculate_angles.py:106-113 | ankle on the knee gives `q1 = 0` and `q2 = 180` |
| JointAngles.KneeOnHip | calculate_angles.py:111-118 | knee on the hip gives `q2 = q3 = 180` |
| JointAngles.ShoulderOnHip | calculate_angles.py:116-118 | shoulder on the hip gives `q3 = 180` |
| JointAngles.HipOnAnkle | calculate_angles.py:111-113 | hip on the ankle with the knee elsewhere gives `q2 = 180` |
| JointAngles.ShoulderOnKnee | calculate_angles.py:116-118 | shoulder on the knee with the hip elsewhere gives `q3 = 180` |
| JointAngles.StraightLeg | calculate_angles.py:111-113 | knee strictly between ankle and hip on one line gives `q2 = 0` |
| JointAngles.VerticalShank | calculate_angles.py:106-108 | an ankle straight below or above the knee gives `q1 = 0` |
| JointAngles.MarkerIndices | calculate_angles.py:71 | maps exactly the listed names, each to a position holding it, the last one when a name repeats |
| JointAngles.HasRoles | calculate_angles.py:84-88 | `has_right` / `has_left`: a side is present exactly when each of its four role names has an index |
| JointAngles.SideAngles | calculate_angles.py:99-139 | a side's angles in one frame: `Leg` of the positions of its ankle, knee, hip and shoulder markers when the side is present, and zero otherwise |
| JointAngles.SideAnglesRange | calculate_angles.py:99-139 | `q1` lies in [0, 90] and `q2`, `q3` in [0, 180], and a side lacking a marker is zero |
| JointAngles.SideAnglesLocal | calculate_angles.py:99-139 | a side's angles depend only on its own four markers' positions |
| JointAngles.SimpleNamesHaveNoRoles | calculate_angles.py:84-88 | the names `"1".."n"` contain no role, so neither side is present |
| JointAngles.SideSeries | calculate_angles.py:96-139 | one value per frame |
| JointAngles.SideSeriesAt | calculate_angles.py:96-139 | frame `i` of the series is the side's angles in frame `i` |
| JointAngles.SideSeriesRange | calculate_angles.py:96-139 | every frame's angles lie in their ranges |
| JointAngles.SideSeriesAbsent | calculate_angles.py:74-100 | a side lacking a marker is zero in every frame |
| JointAngles.SimpleNamesGiveZeros | calculate_angles.py:267 | with the reader's simple names, every angle of both sides is zero in every frame |
| JointAngles.AngleSeries | calculate_angles.py:74-81 | the six keys `qr1..ql3`, each one value per frame, from the sides' triples |
| JointAngles.CalculateAngles | calculate_angles.py:57-141 | fresh arrays holding, frame by frame, the right and left `SideSeries` of the array's frames |
| JointAngles.StoreSide | calculate_angles.py:99-139 | one side's step of the frame loop extends the computed prefix by one frame and leaves the zeros behind it |
| JointAngles.NoSide | calculate_angles.py:100 | a side without all four markers keeps its zeros |
| JointAngles.SideStep | calculate_angles.py:100-118 | a present side's loop body computes `SideAngles` |
| AngleWindow.ClampWindow | approximation.py:77-82 | a missing start is 0 and a missing end is `n`; the start is clamped into [0, n] and the end into [start, n] |
| AngleWindow.ClampWindowInRange | approximation.py:81-82 | a window already in range is kept |
| AngleWindow.ClampWindowIdempotent | approximation.py:81-82 | clamping the clamped window again gives it back |
| AngleWindow.PlotWindow | calculate_angles.py:155-162 | the plotted frames are the same window as `ClampWindow`'s, also when no bound is given |
| AngleWindow.PySlice | approximation.py:84-89 | Python's `s[i:j]` has length `min(j, len) - i` (or 0) and holds `s[i+k]` |
| AngleWindow.PySliceInRange | approximation.py:84-89 | within bounds the Python slice is the sequence slice |
| AngleWindow.Field | approximation.py:28-38 | `j[key]` succeeds exactly on an object holding the key, and gives its value |
| AngleWindow.Numbers | approximation.py:31-38 | a series converts exactly when it is a list of numbers, element by element |
| AngleWindow.NumberList | approximation.py:31-38 | a list of numbers converts back to the same series |
| AngleWindow.LoadSide | approximation.py:30-39 | one side loads exactly when its three keys hold number lists, which become `q1`, `q2`, `q3` |
| AngleWindow.Path | approximation.py:28-38 | a chain of lookups `j[k0][k1]...`: it fails as soon as a value is not an object or lacks the next key |
| AngleWindow.PathConcat | approximation.py:28-38 | looking up `keys1 + keys2` is looking up `keys1` and then `keys2` from the value found; a failure anywhere fails the chain |
| AngleWindow.LoadAngles | approximation.py:27-47 | loads exactly when the metadata is an object and both sides load; copies the metadata and sides, and `frame_range` from the metadata when there |
| AngleWindow.AnglesDocument | approximation.py:27-41 | the document layout puts the metadata under `metadata` |
| AngleWindow.LoadAnglesDocument | approximation.py:27-47 | loading the document laid out from a record gives the record back |
| AngleWindow.LoadSideObject | approximation.py:30-39 | a side stored as three number lists under distinct keys loads back |
| AngleWindow.LoadAnglesNeedsSeries | approximation.py:31-38 | a document lacking one of the six series does not load |
| AngleWindow.FilterAnglesByRange | approximation.py:50-91 | the window is `ClampWindow` of the right `q1` length; metadata copied, no `frame_range`; the right `q1` is the window's slice |
| AngleWindow.SliceSide | approximation.py:84-89 | each of a side's three series cut to `[start:end]` with Python's slice rules |
| AngleWindow.FilterSlices | approximation.py:77-91 | with series of one length, each output series is exactly `input[start:end]` |
| AngleWindow.FilterWholeRange | approximation.py:77-89 | with no bounds every series is kept whole |
| AngleWindow.FilterEmptyRange | approximation.py:81-89 | an end at or before the start, or at or below 0, leaves every series empty |
| AngleWindow.FilterAgain | approximation.py:77-89 | filtering a filtered record again from 0 changes nothing |

## Left out

- File I/O: `read_file` opens the file itself. The model takes its lines,
  and `file_path` is not a field.
- Floating point: all arithmetic is on exact reals. The square root and
  arccos in degrees are abstract functions. Strings such as `nan` and `inf`
  that Python's `float()` accepts have no counterpart among the reals.
- MarkerReader.MeanYs: with no frame rows numpy gives NaN means and a NaN
  center. The model gives zero means and a zero center instead. This leads
  to the same labels, because every comparison with NaN is false and
  Python's sort then keeps the order.
- MarkerReader.MarkerDataReader.ReadFile: when a field does not parse,
  Python raises `ValueError` from inside the frame loop. The model returns
  `ok = false` and does not describe the partly filled array left behind.
- The dictionary `read_file` returns is not built. The reader's fields hold
  the same four values.
- JointAngles.CalculateAngles: the six numpy arrays are held as two arrays
  of triples, one per side. `AngleSeries` gives back the keyed dictionary
  of six series.
- JointAngles.CalculateAngles: requires at most as many names as marker
  columns. With more, Python raises `IndexError` when a role's position is
  past the end of the frame. That error path is not modelled.
- The warnings `calculate_angles` prints for a missing side, and all other
  console output.
- Plotting: `plot_angles` beyond its frame window, `visualize_markers`'
  animation, `plot_markers_static.py` and `visualize_with_angles.py`.
- `save_angles.py` (writing the JSON document), the polynomial fits of
  `approximation.py`, and the command-line `main` functions and their
  argument parsing.
- AngleWindow.LoadAngles: returns `None` unless the metadata is a JSON
  object and every series is a list of numbers. `np.array` would also
  accept other JSON values, and `in` would also work on a list or a string.
- AngleWindow.FilterAnglesByRange: its own contract states the contents
  of the right `q1` series only. `FilterSlices` states the other five, for
  records whose six series share one length.
- The shallow `copy()` of the metadata: the model copies values, so
  aliasing between the input and the output dictionary is not captured.
