/**
 * The left/right labelling and filtering of markers done by
 * `MarkerDataReader._create_simple_names`, on values: `ys` holds each
 * marker's mean Y coordinate and `center` their mean. Markers with mean Y
 * below the center are "left", the others "right"; each side is sorted by
 * mean Y with Python's stable sort and numbered from 1 (`l1`, `l2`, ... and
 * `r1`, `r2`, ...); the markers labelled `l1, l6, l5, r5, r8, r2` are
 * dropped and the others kept in index order.
 */
module MarkerLabels {
  import opened Text

  datatype Side = Left | Right

  /** One element of `left_markers` / `right_markers`: a marker index and its mean Y. */
  datatype Entry = Entry(idx: nat, y: real)

  function SideOf(ys: seq<real>, center: real, i: nat): Side
    requires i < |ys|
  {
    if ys[i] < center then Left else Right
  }

  function Prefix(side: Side): string {
    if side == Left then "l" else "r"
  }

  /** A temporary label such as `l3` or `r5`: a side and a 1-based number. */
  datatype Label = Label(side: Side, number: nat)

  /** The text of a label: `f'l{i+1}'` or `f'r{i+1}'`. */
  function LabelText(l: Label): string {
    Prefix(l.side) + NatToString(l.number)
  }

  /** Distinct labels have distinct texts. */
  lemma LabelTextInjective(a: Label, b: Label)
    requires LabelText(a) == LabelText(b)
    ensures a == b
  {
    var ta, tb := LabelText(a), LabelText(b);
    assert ta[0] == tb[0];
    assert ta[1..] == NatToString(a.number) && tb[1..] == NatToString(b.number);
    NatToStringInjective(a.number, b.number);
  }

  /** Marker `i` precedes marker `j` in the order the labels follow:
      smaller mean Y first, equal mean Y in index order. */
  predicate LexBefore(ys: seq<real>, i: nat, j: nat)
    requires i < |ys| && j < |ys|
  {
    ys[i] < ys[j] || (ys[i] == ys[j] && i < j)
  }

  predicate EntryBefore(a: Entry, b: Entry) {
    a.y < b.y || (a.y == b.y && a.idx < b.idx)
  }

  predicate StrictlySorted(s: seq<Entry>) {
    forall k, l :: 0 <= k < l < |s| ==> EntryBefore(s[k], s[l])
  }

  predicate IdxIncreasing(s: seq<Entry>) {
    forall k, l :: 0 <= k < l < |s| ==> s[k].idx < s[l].idx
  }

  predicate IdxDistinct(s: seq<Entry>) {
    forall k, l :: 0 <= k < |s| && 0 <= l < |s| && k != l ==> s[k].idx != s[l].idx
  }

  /** The entries of markers `0..n-1` that lie on `side`, in index order:
      what the partition loop has appended after `n` rounds. */
  function Entries(ys: seq<real>, center: real, side: Side, n: nat): seq<Entry>
    requires n <= |ys|
  {
    if n == 0 then []
    else
      var prev := Entries(ys, center, side, n - 1);
      if SideOf(ys, center, n - 1) == side then prev + [Entry(n - 1, ys[n - 1])] else prev
  }

  /** The partition puts each of markers `0..n-1` on exactly one side, with
      its own mean Y, in index order. */
  lemma {:induction false} EntriesFacts(ys: seq<real>, center: real, side: Side, n: nat)
    requires n <= |ys|
    ensures forall k :: 0 <= k < |Entries(ys, center, side, n)| ==>
      && Entries(ys, center, side, n)[k].idx < n
      && Entries(ys, center, side, n)[k].y == ys[Entries(ys, center, side, n)[k].idx]
      && SideOf(ys, center, Entries(ys, center, side, n)[k].idx) == side
    ensures IdxIncreasing(Entries(ys, center, side, n))
    ensures forall i :: 0 <= i < n ==> (Entry(i, ys[i]) in Entries(ys, center, side, n) <==> SideOf(ys, center, i) == side)
  {
    if n > 0 {
      var prev := Entries(ys, center, side, n - 1);
      EntriesFacts(ys, center, side, n - 1);
      var e := Entry(n - 1, ys[n - 1]);
      if SideOf(ys, center, n - 1) == side {
        var r := prev + [e];
        assert forall k :: 0 <= k < |prev| ==> r[k] == prev[k];
        forall i | 0 <= i < n - 1 ensures Entry(i, ys[i]) in r <==> Entry(i, ys[i]) in prev {
        }
      }
    }
  }

  /** Inserting into a list sorted by `y`, after every element with the
      same `y`: the step of a stable insertion sort. */
  function Insert(e: Entry, s: seq<Entry>): (r: seq<Entry>)
    ensures multiset(r) == multiset(s) + multiset{e}
  {
    if s == [] || e.y < s[0].y then [e] + s
    else
      assert s == [s[0]] + s[1..];
      [s[0]] + Insert(e, s[1..])
  }

  /** The result of Python's `list.sort(key=lambda x: x[1])`, a stable sort by mean Y. */
  function SortByY(s: seq<Entry>): (r: seq<Entry>)
    ensures multiset(r) == multiset(s)
  {
    if s == [] then []
    else
      assert s == s[..|s| - 1] + [s[|s| - 1]];
      Insert(s[|s| - 1], SortByY(s[..|s| - 1]))
  }

  lemma {:induction false} InsertKeepsOrder(e: Entry, s: seq<Entry>)
    requires StrictlySorted(s)
    requires forall k :: 0 <= k < |s| ==> s[k].idx < e.idx
    ensures StrictlySorted(Insert(e, s))
  {
    if s == [] || e.y < s[0].y {
    } else {
      var t := Insert(e, s[1..]);
      InsertKeepsOrder(e, s[1..]);
      forall x | x in t ensures EntryBefore(s[0], x) {
        assert x in multiset(t);
        if x != e {
          assert x in s[1..];
        }
      }
    }
  }

  /** Sorting a list whose indices increase, stably by `y`, orders it by
      `y` first and index second, with no two entries equal. */
  lemma {:induction false} SortIsStrict(s: seq<Entry>)
    requires IdxIncreasing(s)
    ensures StrictlySorted(SortByY(s))
  {
    if s != [] {
      var init := s[..|s| - 1];
      SortIsStrict(init);
      var sorted := SortByY(init);
      forall k | 0 <= k < |sorted| ensures sorted[k].idx < s[|s| - 1].idx {
        assert sorted[k] in multiset(init);
      }
      InsertKeepsOrder(s[|s| - 1], sorted);
    }
  }

  lemma StrictlySortedIdxDistinct(ys: seq<real>, s: seq<Entry>)
    requires StrictlySorted(s)
    requires forall k :: 0 <= k < |s| ==> s[k].idx < |ys| && s[k].y == ys[s[k].idx]
    ensures IdxDistinct(s)
  {
    forall k, l | 0 <= k < |s| && 0 <= l < |s| && k != l ensures s[k].idx != s[l].idx {
      if k < l { assert EntryBefore(s[k], s[l]); } else { assert EntryBefore(s[l], s[k]); }
    }
  }

  /** `left_markers` or `right_markers` after sorting. */
  function SortedSide(ys: seq<real>, center: real, side: Side): seq<Entry> {
    SortByY(Entries(ys, center, side, |ys|))
  }

  lemma SortedSideFacts(ys: seq<real>, center: real, side: Side)
    ensures StrictlySorted(SortedSide(ys, center, side)) && IdxDistinct(SortedSide(ys, center, side))
    ensures |SortedSide(ys, center, side)| == |Entries(ys, center, side, |ys|)|
    ensures forall k :: 0 <= k < |SortedSide(ys, center, side)| ==>
      var e := SortedSide(ys, center, side)[k];
      e.idx < |ys| && e.y == ys[e.idx] && SideOf(ys, center, e.idx) == side
    ensures forall i :: 0 <= i < |ys| && SideOf(ys, center, i) == side ==> Entry(i, ys[i]) in SortedSide(ys, center, side)
  {
    var es := Entries(ys, center, side, |ys|);
    EntriesFacts(ys, center, side, |ys|);
    SortIsStrict(es);
    assert |multiset(SortedSide(ys, center, side))| == |multiset(es)|;
    forall k | 0 <= k < |SortedSide(ys, center, side)| ensures SortedSide(ys, center, side)[k] in es {
      assert SortedSide(ys, center, side)[k] in multiset(es);
    }
    StrictlySortedIdxDistinct(ys, SortedSide(ys, center, side));
    forall i | 0 <= i < |ys| && SideOf(ys, center, i) == side ensures Entry(i, ys[i]) in SortedSide(ys, center, side) {
      assert Entry(i, ys[i]) in multiset(es);
    }
  }

  /** The map after `temp_name_map[es[k].idx] = f'{side}{k + 1}'` for `k < n`. */
  function Labelled(m: map<nat, Label>, es: seq<Entry>, side: Side, n: nat): map<nat, Label>
    requires n <= |es|
  {
    if n == 0 then m else Labelled(m, es, side, n - 1)[es[n - 1].idx := Label(side, n)]
  }

  /** Numbering adds a key for each numbered entry and drops none. */
  lemma {:induction false} LabelledKeys(m: map<nat, Label>, es: seq<Entry>, side: Side, n: nat)
    requires n <= |es|
    ensures forall i :: i in m ==> i in Labelled(m, es, side, n)
    ensures forall k :: 0 <= k < n ==> es[k].idx in Labelled(m, es, side, n)
  {
    if n > 0 {
      LabelledKeys(m, es, side, n - 1);
    }
  }

  /** Entry `k` is numbered `k + 1`, and a key no entry names keeps its label. */
  lemma {:induction false} LabelledFacts(m: map<nat, Label>, es: seq<Entry>, side: Side, n: nat)
    requires n <= |es| && IdxDistinct(es)
    ensures forall i :: i in m ==> i in Labelled(m, es, side, n)
    ensures forall k :: 0 <= k < n ==> es[k].idx in Labelled(m, es, side, n)
    ensures forall k :: 0 <= k < n ==> Labelled(m, es, side, n)[es[k].idx] == Label(side, k + 1)
    ensures forall i :: i in m && (forall k :: 0 <= k < n ==> es[k].idx != i) ==> Labelled(m, es, side, n)[i] == m[i]
  {
    LabelledKeys(m, es, side, n);
    if n > 0 {
      LabelledFacts(m, es, side, n - 1);
    }
  }

  /** `temp_name_map` once both sides are numbered. */
  function TempNames(ys: seq<real>, center: real): map<nat, Label> {
    var left := SortedSide(ys, center, Left);
    var right := SortedSide(ys, center, Right);
    Labelled(Labelled(map[], left, Left, |left|), right, Right, |right|)
  }

  /** Position of the first entry for marker `i` in `es` (or `|es|`). */
  function PositionOf(es: seq<Entry>, i: nat): (p: nat)
    ensures p <= |es|
    ensures forall k :: 0 <= k < p ==> es[k].idx != i
    ensures p < |es| ==> es[p].idx == i
    ensures (exists k :: 0 <= k < |es| && es[k].idx == i) ==> p < |es|
  {
    if es == [] then 0 else if es[0].idx == i then 0 else 1 + PositionOf(es[1..], i)
  }

  /** The number in marker `i`'s temporary label: its 1-based place on its side. */
  function Rank(ys: seq<real>, center: real, i: nat): nat
    requires i < |ys|
  {
    1 + PositionOf(SortedSide(ys, center, SideOf(ys, center, i)), i)
  }

  /** Marker `i` sits at place `Rank - 1` of its sorted side. */
  lemma RankPlace(ys: seq<real>, center: real, i: nat)
    requires i < |ys|
    ensures var s := SortedSide(ys, center, SideOf(ys, center, i));
      1 <= Rank(ys, center, i) <= |s| && s[Rank(ys, center, i) - 1] == Entry(i, ys[i])
  {
    var s := SortedSide(ys, center, SideOf(ys, center, i));
    SortedSideFacts(ys, center, SideOf(ys, center, i));
    var k :| 0 <= k < |s| && s[k] == Entry(i, ys[i]);
    assert s[PositionOf(s, i)].idx == i;
  }

  /** Every marker gets exactly one temporary label: a side letter, `l` for
      mean Y below the center and `r` otherwise, followed by its rank. */
  lemma TempNameOf(ys: seq<real>, center: real, i: nat)
    requires i < |ys|
    ensures i in TempNames(ys, center)
    ensures TempNames(ys, center)[i] == Label(SideOf(ys, center, i), Rank(ys, center, i))
  {
    var left := SortedSide(ys, center, Left);
    var right := SortedSide(ys, center, Right);
    SortedSideFacts(ys, center, Left);
    SortedSideFacts(ys, center, Right);
    LabelledFacts(map[], left, Left, |left|);
    var inner := Labelled(map[], left, Left, |left|);
    LabelledFacts(inner, right, Right, |right|);
    RankPlace(ys, center, i);
    var k := Rank(ys, center, i) - 1;
    if SideOf(ys, center, i) == Left {
      assert left[k].idx == i;
      forall l | 0 <= l < |right| ensures right[l].idx != i {
        assert SideOf(ys, center, right[l].idx) == Right;
      }
    } else {
      assert right[k].idx == i;
    }
  }

  lemma {:induction false} LabelledKeysBelow(m: map<nat, Label>, es: seq<Entry>, side: Side, n: nat, bound: nat)
    requires n <= |es|
    requires forall i :: i in m ==> i < bound
    requires forall k :: 0 <= k < |es| ==> es[k].idx < bound
    ensures forall i :: i in Labelled(m, es, side, n) ==> i < bound
  {
    if n > 0 {
      LabelledKeysBelow(m, es, side, n - 1, bound);
    }
  }

  /** The temporary labels cover exactly the markers `0..|ys|-1`. */
  lemma TempNamesDomain(ys: seq<real>, center: real)
    ensures forall i: nat :: i in TempNames(ys, center) <==> i < |ys|
  {
    var left := SortedSide(ys, center, Left);
    var right := SortedSide(ys, center, Right);
    SortedSideFacts(ys, center, Left);
    SortedSideFacts(ys, center, Right);
    LabelledKeysBelow(map[], left, Left, |left|, |ys|);
    LabelledKeysBelow(Labelled(map[], left, Left, |left|), right, Right, |right|, |ys|);
    forall i: nat | i < |ys| ensures i in TempNames(ys, center) {
      TempNameOf(ys, center, i);
    }
  }

  /** Within one side, label numbers follow ascending mean Y, ties broken by index. */
  lemma RankOrder(ys: seq<real>, center: real, i: nat, j: nat)
    requires i < |ys| && j < |ys| && SideOf(ys, center, i) == SideOf(ys, center, j)
    ensures Rank(ys, center, i) < Rank(ys, center, j) <==> LexBefore(ys, i, j)
  {
    var s := SortedSide(ys, center, SideOf(ys, center, i));
    SortedSideFacts(ys, center, SideOf(ys, center, i));
    RankPlace(ys, center, i);
    RankPlace(ys, center, j);
    var p, q := Rank(ys, center, i) - 1, Rank(ys, center, j) - 1;
    if p < q {
      assert EntryBefore(s[p], s[q]);
    } else if q < p {
      assert EntryBefore(s[q], s[p]);
    }
  }

  /** The ranks on one side are exactly `1..k`, `k` the number of markers on that side. */
  lemma RankOnto(ys: seq<real>, center: real, side: Side, r: nat)
    requires 1 <= r <= |SortedSide(ys, center, side)|
    ensures exists i :: 0 <= i < |ys| && SideOf(ys, center, i) == side && Rank(ys, center, i) == r
  {
    var s := SortedSide(ys, center, side);
    SortedSideFacts(ys, center, side);
    var i := s[r - 1].idx;
    RankPlace(ys, center, i);
    assert s[Rank(ys, center, i) - 1].idx == i;
  }

  /** `markers_to_exclude` */
  const ExcludedLabels: seq<string> := ["l1", "l6", "l5", "r5", "r8", "r2"]

  /** The labels whose texts are listed in `markers_to_exclude`. */
  const ExcludedSet: set<Label> :=
    {Label(Left, 1), Label(Left, 6), Label(Left, 5), Label(Right, 5), Label(Right, 8), Label(Right, 2)}

  /** A label's text is in `markers_to_exclude` exactly when the label is one
      of the six: places 1, 5 and 6 on the left, 2, 5 and 8 on the right. */
  lemma ExcludedLabelText(l: Label)
    ensures LabelText(l) in ExcludedLabels <==> l in ExcludedSet
  {
    var name := LabelText(l);
    assert NatToString(1) == "1" && NatToString(2) == "2" && NatToString(5) == "5";
    assert NatToString(6) == "6" && NatToString(8) == "8";
    if l in ExcludedSet {
      assert name == ExcludedLabels[
        if l == Label(Left, 1) then 0 else if l == Label(Left, 6) then 1 else if l == Label(Left, 5) then 2
        else if l == Label(Right, 5) then 3 else if l == Label(Right, 8) then 4 else 5];
    } else if name in ExcludedLabels {
      var k :| 0 <= k < 6 && ExcludedLabels[k] == name;
      var ls := [Label(Left, 1), Label(Left, 6), Label(Left, 5), Label(Right, 5), Label(Right, 8), Label(Right, 2)];
      assert LabelText(ls[k]) == ExcludedLabels[k];
      LabelTextInjective(l, ls[k]);
    }
  }

  lemma ExcludedSetSize()
    ensures |ExcludedSet| == 6
  {
  }

  /** Marker `i`'s temporary label is one of the excluded ones. */
  predicate IsExcluded(ys: seq<real>, center: real, i: nat)
    requires i < |ys|
  {
    TempNameOf(ys, center, i);
    TempNames(ys, center)[i] in ExcludedSet
  }

  /** The excluded markers, stated on sides and ranks: places 1, 5 and 6 on
      the left and 2, 5 and 8 on the right. */
  lemma ExcludedIff(ys: seq<real>, center: real, i: nat)
    requires i < |ys|
    ensures IsExcluded(ys, center, i) <==>
      (SideOf(ys, center, i) == Left && Rank(ys, center, i) in {1, 5, 6}) ||
      (SideOf(ys, center, i) == Right && Rank(ys, center, i) in {2, 5, 8})
  {
    TempNameOf(ys, center, i);
    InExcludedSet(SideOf(ys, center, i), Rank(ys, center, i));
  }

  lemma InExcludedSet(side: Side, r: nat)
    ensures Label(side, r) in ExcludedSet <==> (side == Left && r in {1, 5, 6}) || (side == Right && r in {2, 5, 8})
  {
  }

  /** `indices_to_keep` after the loop has looked at markers `0..n-1`. */
  function KeptUpTo(names: map<nat, Label>, n: nat): seq<nat>
    requires forall i :: 0 <= i < n ==> i in names
  {
    if n == 0 then []
    else KeptUpTo(names, n - 1) + (if names[n - 1] in ExcludedSet then [] else [n - 1])
  }

  /** The filter keeps, in increasing order, exactly the markers whose label is not excluded. */
  lemma {:induction false} KeptUpToFacts(names: map<nat, Label>, n: nat)
    requires forall i :: 0 <= i < n ==> i in names
    ensures forall k :: 0 <= k < |KeptUpTo(names, n)| ==> KeptUpTo(names, n)[k] < n
    ensures forall k, l :: 0 <= k < l < |KeptUpTo(names, n)| ==> KeptUpTo(names, n)[k] < KeptUpTo(names, n)[l]
    ensures forall i :: 0 <= i < n ==> (i in KeptUpTo(names, n) <==> names[i] !in ExcludedSet)
  {
    if n > 0 {
      KeptUpToFacts(names, n - 1);
    }
  }

  /** `indices_to_keep`: the markers whose label is not excluded, in index order. */
  function Kept(ys: seq<real>, center: real): (r: seq<nat>)
    ensures forall k :: 0 <= k < |r| ==> r[k] < |ys|
    ensures forall k, l :: 0 <= k < l < |r| ==> r[k] < r[l]
  {
    TempNamesDomain(ys, center);
    KeptUpToFacts(TempNames(ys, center), |ys|);
    KeptUpTo(TempNames(ys, center), |ys|)
  }

  /** A marker is kept exactly when its temporary label is not excluded. */
  lemma KeptIff(ys: seq<real>, center: real, i: nat)
    requires i < |ys|
    ensures i in Kept(ys, center) <==> !IsExcluded(ys, center, i)
  {
    TempNamesDomain(ys, center);
    KeptUpToFacts(TempNames(ys, center), |ys|);
  }

  function RemovedUpTo(names: map<nat, Label>, n: nat): set<nat>
    requires forall i :: 0 <= i < n ==> i in names
  {
    set i | 0 <= i < n && names[i] in ExcludedSet
  }

  lemma {:induction false} KeptAndRemovedPartition(names: map<nat, Label>, n: nat)
    requires forall i :: 0 <= i < n ==> i in names
    ensures |KeptUpTo(names, n)| + |RemovedUpTo(names, n)| == n
  {
    if n > 0 {
      KeptAndRemovedPartition(names, n - 1);
      var prev, cur := RemovedUpTo(names, n - 1), RemovedUpTo(names, n);
      var last := if names[n - 1] in ExcludedSet then {n - 1} else {};
      forall i | i in cur ensures i in prev + last {
      }
      assert cur == prev + last;
      assert n - 1 !in prev;
    }
  }

  lemma {:induction false} InjectionCardinality<T, U>(a: set<T>, b: set<U>, f: T -> U)
    requires forall x :: x in a ==> f(x) in b
    requires forall x, y :: x in a && y in a && f(x) == f(y) ==> x == y
    ensures |a| <= |b|
    decreases a
  {
    if a != {} {
      var x :| x in a;
      InjectionCardinality(a - {x}, b - {f(x)}, f);
    }
  }

  /** Two markers on the same side never share a rank. */
  lemma RankInjective(ys: seq<real>, center: real, i: nat, j: nat)
    requires i < |ys| && j < |ys| && SideOf(ys, center, i) == SideOf(ys, center, j)
    requires Rank(ys, center, i) == Rank(ys, center, j)
    ensures i == j
  {
    RankOrder(ys, center, i, j);
    RankOrder(ys, center, j, i);
  }

  /** At most six markers are removed. */
  lemma AtMostSixRemoved(ys: seq<real>, center: real)
    ensures |ys| - 6 <= |Kept(ys, center)| <= |ys|
  {
    TempNamesDomain(ys, center);
    var names := TempNames(ys, center);
    var removed := RemovedUpTo(names, |ys|);
    KeptAndRemovedPartition(names, |ys|);
    var labelOf := (i: nat) => if i in names then names[i] else Label(Left, 0);
    forall i, j | i in removed && j in removed && labelOf(i) == labelOf(j) ensures i == j {
      TempNameOf(ys, center, i);
      TempNameOf(ys, center, j);
      RankInjective(ys, center, i, j);
    }
    InjectionCardinality(removed, ExcludedSet, labelOf);
    ExcludedSetSize();
  }

  /** An entry whose mean Y is not below any in a list goes to its end. */
  lemma {:induction false} InsertAtEnd(e: Entry, s: seq<Entry>)
    requires forall k :: 0 <= k < |s| ==> s[k].y <= e.y
    ensures Insert(e, s) == s + [e]
  {
    if s != [] {
      InsertAtEnd(e, s[1..]);
      assert s == [s[0]] + s[1..];
    }
  }

  /** The stable sort leaves a list already ordered by mean Y as it is. */
  lemma {:induction false} SortOrdered(s: seq<Entry>)
    requires forall k, l :: 0 <= k < l < |s| ==> s[k].y <= s[l].y
    ensures SortByY(s) == s
  {
    if s != [] {
      var init := s[..|s| - 1];
      SortOrdered(init);
      InsertAtEnd(s[|s| - 1], init);
      assert init + [s[|s| - 1]] == s;
    }
  }

  /** When every marker's mean Y equals the center, all markers are "right"
      in index order. */
  lemma {:induction false} UniformEntries(ys: seq<real>, center: real, n: nat)
    requires n <= |ys| && forall i :: 0 <= i < |ys| ==> ys[i] == center
    ensures |Entries(ys, center, Right, n)| == n
    ensures forall k :: 0 <= k < n ==> Entries(ys, center, Right, n)[k] == Entry(k, center)
  {
    if n > 0 {
      UniformEntries(ys, center, n - 1);
    }
  }

  lemma UniformRank(ys: seq<real>, center: real, i: nat)
    requires i < |ys| && forall i :: 0 <= i < |ys| ==> ys[i] == center
    ensures SideOf(ys, center, i) == Right && Rank(ys, center, i) == i + 1
  {
    var es := Entries(ys, center, Right, |ys|);
    UniformEntries(ys, center, |ys|);
    SortOrdered(es);
    assert es[i].idx == i;
  }

  /** Some marker carries the label `Label(side, r)` when `r` is a place on that side. */
  lemma LabelledMarker(ys: seq<real>, center: real, side: Side, r: nat) returns (i: nat)
    requires 1 <= r <= |SortedSide(ys, center, side)|
    ensures i < |ys| && i in TempNames(ys, center) && TempNames(ys, center)[i] == Label(side, r)
  {
    RankOnto(ys, center, side, r);
    i :| 0 <= i < |ys| && SideOf(ys, center, i) == side && Rank(ys, center, i) == r;
    TempNameOf(ys, center, i);
  }

  lemma SixDistinct(a: nat, b: nat, c: nat, d: nat, e: nat, f: nat)
    requires a != b && a != c && a != d && a != e && a != f
    requires b != c && b != d && b != e && b != f
    requires c != d && c != e && c != f
    requires d != e && d != f && e != f
    ensures |{a, b, c, d, e, f}| == 6
  {
    assert |{a, b, c, d, e}| == 5 by {
      assert |{a, b, c, d}| == 4 by {
        assert |{a, b, c}| == 3;
      }
    }
    assert {a, b, c, d, e, f} == {a, b, c, d, e} + {f};
  }

  lemma {:induction false} SubsetSize(a: set<nat>, b: set<nat>)
    requires a <= b
    ensures |a| <= |b|
    decreases a
  {
    if a != {} {
      var x :| x in a;
      SubsetSize(a - {x}, b - {x});
    }
  }

  /** When the left side has at least six markers and the right at least
      eight, all six excluded labels are in use. */
  lemma SixLabelsInUse(ys: seq<real>, center: real)
    requires |SortedSide(ys, center, Left)| >= 6 && |SortedSide(ys, center, Right)| >= 8
    ensures forall k :: 0 <= k < |ys| ==> k in TempNames(ys, center)
    ensures |RemovedUpTo(TempNames(ys, center), |ys|)| >= 6
  {
    TempNamesDomain(ys, center);
    var names := TempNames(ys, center);
    var l1 := LabelledMarker(ys, center, Left, 1);
    var l5 := LabelledMarker(ys, center, Left, 5);
    var l6 := LabelledMarker(ys, center, Left, 6);
    var r2 := LabelledMarker(ys, center, Right, 2);
    var r5 := LabelledMarker(ys, center, Right, 5);
    var r8 := LabelledMarker(ys, center, Right, 8);
    SixLabelsRemoved(names, |ys|, l1, l5, l6, r2, r5, r8);
  }

  /** Six markers carrying the six excluded labels are all removed. */
  lemma SixLabelsRemoved(names: map<nat, Label>, n: nat, l1: nat, l5: nat, l6: nat, r2: nat, r5: nat, r8: nat)
    requires forall i :: 0 <= i < n ==> i in names
    requires l1 < n && l5 < n && l6 < n && r2 < n && r5 < n && r8 < n
    requires names[l1] == Label(Left, 1) && names[l5] == Label(Left, 5) && names[l6] == Label(Left, 6)
    requires names[r2] == Label(Right, 2) && names[r5] == Label(Right, 5) && names[r8] == Label(Right, 8)
    ensures |RemovedUpTo(names, n)| >= 6
  {
    SixDistinct(l1, l5, l6, r2, r5, r8);
    SubsetSize({l1, l5, l6, r2, r5, r8}, RemovedUpTo(names, n));
  }

  /** When the left side has at least six markers and the right at least
      eight, exactly six markers go. */
  lemma ExactlySixRemoved(ys: seq<real>, center: real)
    requires |SortedSide(ys, center, Left)| >= 6 && |SortedSide(ys, center, Right)| >= 8
    ensures |Kept(ys, center)| == |ys| - 6
  {
    AtMostSixRemoved(ys, center);
    SixLabelsInUse(ys, center);
    KeptAndRemovedPartition(TempNames(ys, center), |ys|);
  }

  /** When every marker's mean Y equals the center (as with no frames, see
      `MarkerReader.NoFramesKept`), marker `i` is labelled `r{i+1}` and the
      markers dropped are exactly 1, 4 and 7. */
  lemma UniformKept(ys: seq<real>, center: real)
    requires forall i :: 0 <= i < |ys| ==> ys[i] == center
    ensures forall i :: 0 <= i < |ys| ==> SideOf(ys, center, i) == Right && Rank(ys, center, i) == i + 1
    ensures forall i :: 0 <= i < |ys| ==> (i in Kept(ys, center) <==> i != 1 && i != 4 && i != 7)
  {
    forall i | 0 <= i < |ys|
      ensures SideOf(ys, center, i) == Right && Rank(ys, center, i) == i + 1
      ensures i in Kept(ys, center) <==> i != 1 && i != 4 && i != 7
    {
      UniformRank(ys, center, i);
      ExcludedIff(ys, center, i);
      KeptIff(ys, center, i);
    }
  }

  /** With every mean Y equal to the center and at least eight markers, only
      three markers are dropped, not six. */
  lemma UniformRemovesThree(ys: seq<real>, center: real)
    requires |ys| >= 8 && forall i :: 0 <= i < |ys| ==> ys[i] == center
    ensures |Kept(ys, center)| == |ys| - 3
  {
    TempNamesDomain(ys, center);
    var names := TempNames(ys, center);
    KeptAndRemovedPartition(names, |ys|);
    forall i | 0 <= i < |ys| ensures names[i] in ExcludedSet <==> i in {1, 4, 7} {
      TempNameOf(ys, center, i);
      UniformRank(ys, center, i);
      InExcludedSet(Right, i + 1);
    }
    assert RemovedUpTo(names, |ys|) == {1, 4, 7};
  }

  /** The loops of `_create_simple_names` from the split into sides to
      `indices_to_keep`, for mean Y values `ys` and their mean `centerY`. */
  method KeepIndices(ys: seq<real>, centerY: real) returns (indicesToKeep: seq<nat>)
    ensures indicesToKeep == Kept(ys, centerY)
  {
    var leftMarkers, rightMarkers := SplitSides(ys, centerY);
    leftMarkers := SortByY(leftMarkers);
    rightMarkers := SortByY(rightMarkers);
    var tempNameMap := NumberSide(map[], leftMarkers, Left);
    tempNameMap := NumberSide(tempNameMap, rightMarkers, Right);
    assert tempNameMap == TempNames(ys, centerY);
    TempNamesDomain(ys, centerY);
    indicesToKeep := FilterKept(tempNameMap, |ys|);
  }

  /** The filter loop of `_create_simple_names`: the markers `0..n-1` whose
      label text is not in `markers_to_exclude`, in index order. */
  method FilterKept(tempNameMap: map<nat, Label>, n: nat) returns (indicesToKeep: seq<nat>)
    requires forall i :: 0 <= i < n ==> i in tempNameMap
    ensures indicesToKeep == KeptUpTo(tempNameMap, n)
  {
    indicesToKeep := [];
    for idx := 0 to n
      invariant indicesToKeep == KeptUpTo(tempNameMap, idx)
    {
      ExcludedLabelText(tempNameMap[idx]);
      if LabelText(tempNameMap[idx]) !in ExcludedLabels {
        indicesToKeep := indicesToKeep + [idx];
      }
    }
  }

  /** The partition loop of `_create_simple_names`: markers whose mean Y
      is below the center go left, the others right, each list in index order. */
  method SplitSides(ys: seq<real>, centerY: real) returns (leftMarkers: seq<Entry>, rightMarkers: seq<Entry>)
    ensures leftMarkers == Entries(ys, centerY, Left, |ys|)
    ensures rightMarkers == Entries(ys, centerY, Right, |ys|)
  {
    leftMarkers, rightMarkers := [], [];
    for idx := 0 to |ys|
      invariant leftMarkers == Entries(ys, centerY, Left, idx)
      invariant rightMarkers == Entries(ys, centerY, Right, idx)
    {
      var markerY := ys[idx];
      if markerY < centerY {
        leftMarkers := leftMarkers + [Entry(idx, markerY)];
      } else {
        rightMarkers := rightMarkers + [Entry(idx, markerY)];
      }
    }
  }

  /** One of the two numbering loops of `_create_simple_names`:
      `temp_name_map[marker_idx] = f'{side}{i+1}'` for each entry in turn. */
  method NumberSide(names: map<nat, Label>, markers: seq<Entry>, side: Side) returns (tempNameMap: map<nat, Label>)
    ensures tempNameMap == Labelled(names, markers, side, |markers|)
  {
    tempNameMap := names;
    for i := 0 to |markers|
      invariant tempNameMap == Labelled(names, markers, side, i)
    {
      tempNameMap := tempNameMap[markers[i].idx := Label(side, i + 1)];
    }
  }
}
