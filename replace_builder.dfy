/**
 * The replace builder of src/builders/ReplaceFrameBuilder.ts: it keeps the current
 * rows of one query in an insertion-ordered map from a content-derived row key to
 * the row, applies insert/update/delete events to that map, and rebuilds one
 * columnar frame from all rows after every change.
 */
module ReplaceBuilder {
  import opened Js
  import opened Frames
  import opened OrderedMap

  // ---------------------------------------------------------------------------
  // Row identity: generateRowKey
  // ---------------------------------------------------------------------------

  /** The `name:JSON(value)` parts of a row in sorted name order. */
  function KeyParts(row: Row): (parts: seq<string>)
    ensures |parts| == |row|
  {
    var names := Sort(Names(row));
    assert |names| == |multiset(names)| == |multiset(Names(row))|;
    seq(|names|, i requires 0 <= i < |names| => names[i] + ":" + Json(Get(row, names[i])))
  }

  /**
   * Sorting only reorders: the parts are exactly the `name:JSON(value)` of the row's
   * own properties, whatever order `Object.keys` gave them in.
   */
  lemma KeyPartsContents(row: Row)
    ensures forall i :: 0 <= i < |row| ==> row[i].0 + ":" + Json(row[i].1) in KeyParts(row)
    ensures forall p :: p in KeyParts(row) ==> exists i :: 0 <= i < |row| && p == row[i].0 + ":" + Json(row[i].1)
  {
    var names := Sort(Names(row));
    var parts := KeyParts(row);
    assert |names| == |parts|;
    forall i | 0 <= i < |row| ensures row[i].0 + ":" + Json(row[i].1) in parts {
      assert Names(row)[i] in multiset(Names(row));
      var j :| 0 <= j < |names| && names[j] == row[i].0;
      GetAt(row, i);
      assert parts[j] == row[i].0 + ":" + Json(row[i].1);
    }
    forall p | p in parts ensures exists i :: 0 <= i < |row| && p == row[i].0 + ":" + Json(row[i].1) {
      var j :| 0 <= j < |parts| && parts[j] == p;
      assert names[j] in multiset(Names(row));
      var i :| 0 <= i < |row| && Names(row)[i] == names[j];
      GetAt(row, i);
      assert p == row[i].0 + ":" + Json(row[i].1);
    }
  }

  /** The string generateRowKey hashes. */
  function KeyString(row: Row): string {
    Join(KeyParts(row), "|")
  }

  /** The djb2 hash of a sequence of code units, kept a signed 32-bit integer after every step. */
  function Djb2(units: seq<int>): (h: int)
    ensures -TwoTo31 <= h < TwoTo31
  {
    if units == [] then 5381 else ToInt32(Djb2(units[..|units| - 1]) * 33 + units[|units| - 1])
  }

  function Abs(x: int): nat {
    if x < 0 then -x else x
  }

  /** The key generateRowKey derives from a row: base 36 of the absolute djb2 hash of KeyString. */
  function RowKey(row: Row): (k: string)
    ensures k != ""
  {
    Radix(Abs(Djb2(CodeUnits(KeyString(row)))), 36)
  }

  /** A row key reads back, in base 36, as the absolute value of a signed 32-bit hash. */
  lemma RowKeyDecodes(row: Row)
    ensures ParseRadix(RowKey(row), 36) == Abs(Djb2(CodeUnits(KeyString(row)))) <= TwoTo31
  {
    RadixRoundTrip(Abs(Djb2(CodeUnits(KeyString(row)))), 36);
  }

  /** The (name, serialized value) pairs of a row. */
  function Pairs(row: Row): set<(string, string)> {
    set i | 0 <= i < |row| :: (row[i].0, Json(row[i].1))
  }

  /** A name is a property of both rows or of neither, and serializes the same in both. */
  lemma PairsAgree(r1: Row, r2: Row, x: string)
    requires Pairs(r1) == Pairs(r2)
    ensures x in Names(r1) <==> x in Names(r2)
    ensures x in Names(r1) ==> Json(Get(r1, x)) == Json(Get(r2, x))
  {
    if x in Names(r1) {
      var i :| 0 <= i < |r1| && Names(r1)[i] == x;
      GetAt(r1, i);
      assert (r1[i].0, Json(r1[i].1)) in Pairs(r2);
      var j :| 0 <= j < |r2| && (r2[j].0, Json(r2[j].1)) == (r1[i].0, Json(r1[i].1));
      GetAt(r2, j);
      assert Names(r2)[j] == x;
    }
    if x in Names(r2) {
      var j :| 0 <= j < |r2| && Names(r2)[j] == x;
      assert (r2[j].0, Json(r2[j].1)) in Pairs(r1);
      var i :| 0 <= i < |r1| && (r1[i].0, Json(r1[i].1)) == (r2[j].0, Json(r2[j].1));
      assert Names(r1)[i] == x;
    }
  }

  /** Rows with the same names list them in the same sorted order. */
  lemma SortedNamesAgree(r1: Row, r2: Row)
    requires forall x :: x in Names(r1) <==> x in Names(r2)
    ensures Sort(Names(r1)) == Sort(Names(r2))
  {
    var n1, n2 := Names(r1), Names(r2);
    var s1, s2 := Sort(n1), Sort(n2);
    assert Distinct(n1) && Distinct(n2);
    SortSorted(n1);
    SortSorted(n2);
    forall x ensures x in s1 <==> x in s2 {
      assert x in s1 <==> x in multiset(s1);
      assert x in s2 <==> x in multiset(s2);
      assert x in n1 <==> x in multiset(n1);
      assert x in n2 <==> x in multiset(n2);
    }
    SortedUnique(s1, s2);
  }

  /** The row key depends only on the set of (name, serialized value) pairs of the row. */
  lemma RowKeyDependsOnPairs(r1: Row, r2: Row)
    requires Pairs(r1) == Pairs(r2)
    ensures KeyString(r1) == KeyString(r2)
    ensures RowKey(r1) == RowKey(r2)
  {
    forall x ensures x in Names(r1) <==> x in Names(r2) {
      PairsAgree(r1, r2, x);
    }
    SortedNamesAgree(r1, r2);
    var s := Sort(Names(r1));
    var p1, p2 := KeyParts(r1), KeyParts(r2);
    forall k | 0 <= k < |s| ensures p1[k] == p2[k] {
      assert s[k] in multiset(Names(r1));
      PairsAgree(r1, r2, s[k]);
    }
    assert p1 == p2;
  }

  /** Reordering a row's properties does not change its key. */
  lemma RowKeyIgnoresOrder(r1: Row, r2: Row)
    requires multiset(r1) == multiset(r2)
    ensures RowKey(r1) == RowKey(r2)
  {
    forall p | p in Pairs(r1) ensures p in Pairs(r2) {
      var i :| 0 <= i < |r1| && p == (r1[i].0, Json(r1[i].1));
      assert r1[i] in multiset(r2);
      var j :| 0 <= j < |r2| && r2[j] == r1[i];
    }
    forall p | p in Pairs(r2) ensures p in Pairs(r1) {
      var j :| 0 <= j < |r2| && p == (r2[j].0, Json(r2[j].1));
      assert r2[j] in multiset(r1);
      var i :| 0 <= i < |r1| && r1[i] == r2[j];
    }
    RowKeyDependsOnPairs(r1, r2);
  }

  /** One step of the hash loop as written: `hash = ((hash << 5) + hash) + c; hash = hash & hash`. */
  lemma HashStep(h: int, c: int)
    ensures ToInt32(ToInt32(h * 32) + h + c) == ToInt32(h * 33 + c)
  {
    ToInt32Congruent(ToInt32(h * 32) + h + c, h * 33 + c);
  }

  // ---------------------------------------------------------------------------
  // The dataset: a JavaScript Map from row key to row, in insertion order
  // ---------------------------------------------------------------------------

  type Entry = (string, Row)
  type Dataset = seq<Entry>

  /** `Array.from(dataset.values())`. */
  function Rows(ds: Dataset): seq<Row> {
    seq(|ds|, i requires 0 <= i < |ds| => ds[i].1)
  }

  /** Every entry is stored under its own row key, and no key occurs twice. */
  predicate Keyed(ds: Dataset) {
    Distinct(Keys(ds)) && forall i :: 0 <= i < |ds| ==> ds[i].0 == RowKey(ds[i].1)
  }

  lemma MapSetKeyed(ds: Dataset, row: Row)
    requires Keyed(ds)
    ensures Keyed(MapSet(ds, RowKey(row), row))
  {
    var key := RowKey(row);
    MapSetLookup(ds, key, row, key);
    var r := MapSet(ds, key, row);
    forall j | 0 <= j < |r| ensures r[j].0 == RowKey(r[j].1) {
      MapSetEntry(ds, key, row, j);
    }
  }

  lemma MapDeleteKeyed(ds: Dataset, key: string)
    requires Keyed(ds)
    ensures Keyed(MapDelete(ds, key))
  {
    MapDeleteLookup(ds, key, key);
    var r := MapDelete(ds, key);
    forall j | 0 <= j < |r| ensures r[j].0 == RowKey(r[j].1) {
      MapDeleteEntry(ds, key, j);
      var i :| 0 <= i < |ds| && ds[i] == r[j];
    }
  }

  // ---------------------------------------------------------------------------
  // Row matching: objectsMatch and findRowByData
  // ---------------------------------------------------------------------------

  /** objectsMatch(candidate, target): every property of `target` is `===` to the candidate's. */
  predicate Matches(candidate: Row, target: Row) {
    forall i :: 0 <= i < |target| ==> StrictEquals(Get(candidate, target[i].0), Get(target, target[i].0))
  }

  /** The position, in insertion order, of the first row that matches `target`. */
  function FirstMatch(ds: Dataset, target: Row): (r: Option<nat>)
    ensures r.Some? ==> r.value < |ds| && Matches(ds[r.value].1, target)
    ensures r.Some? ==> forall j :: 0 <= j < r.value ==> !Matches(ds[j].1, target)
    ensures r.None? ==> forall j :: 0 <= j < |ds| ==> !Matches(ds[j].1, target)
  {
    if ds == [] then None
    else if Matches(ds[0].1, target) then Some(0)
    else
      var r := FirstMatch(ds[1..], target);
      if r.Some? then Some(r.value + 1) else None
  }

  /** The dataset with the first row matching `target` removed, if there is one. */
  function RemoveMatch(ds: Dataset, target: Row): Dataset {
    match FirstMatch(ds, target)
    case Some(i) => MapDelete(ds, ds[i].0)
    case None => ds
  }

  /** Deleting the matched row's key removes exactly that position. */
  lemma RemoveMatchAt(ds: Dataset, target: Row)
    requires Distinct(Keys(ds))
    ensures FirstMatch(ds, target).Some? ==>
      var i := FirstMatch(ds, target).value; RemoveMatch(ds, target) == ds[..i] + ds[i + 1..]
    ensures FirstMatch(ds, target).None? ==> RemoveMatch(ds, target) == ds
  {
    if FirstMatch(ds, target).Some? {
      IndexOfDistinct(ds, FirstMatch(ds, target).value);
    }
  }

  // ---------------------------------------------------------------------------
  // The frame: rebuildFrame
  // ---------------------------------------------------------------------------

  /** The frame rebuildFrame assembles from the rows of the dataset. */
  function BuildFrame(refId: string, rows: seq<Row>): (f: Frame)
    ensures f.refId == refId
    ensures Rectangular(f, |rows|)
    ensures rows == [] ==> f == Frame("Query " + refId + " (empty)", refId, [Field("id", StringField, [])])
    ensures rows != [] ==> f.name == "Query " + refId && |f.fields| == |rows[0]|
    ensures rows != [] ==> forall k :: 0 <= k < |rows[0]| ==>
      f.fields[k].name == rows[0][k].0 && f.fields[k].ftype == InferType(rows[0][k].0, rows[0][k].1)
    ensures forall k, j :: 0 <= k < |f.fields| && 0 <= j < |rows| ==>
      f.fields[k].values[j] == Get(rows[j], f.fields[k].name)
  {
    if rows == [] then
      Frame("Query " + refId + " (empty)", refId, [Field("id", StringField, [])])
    else
      var first := rows[0];
      var fields := seq(|first|, k requires 0 <= k < |first| =>
        Field(first[k].0, InferType(first[k].0, Get(first, first[k].0)),
              seq(|rows|, j requires 0 <= j < |rows| => Get(rows[j], first[k].0))));
      assert forall k :: 0 <= k < |first| ==> Get(first, first[k].0) == first[k].1 by {
        forall k | 0 <= k < |first| ensures Get(first, first[k].0) == first[k].1 {
          GetAt(first, k);
        }
      }
      Frame("Query " + refId, refId, fields)
  }

  /** The number of rows a frame shows. */
  function RowCount(f: Frame): nat {
    if f.fields == [] then 0 else |f.fields[0].values|
  }

  lemma DistinctCard(ks: seq<string>)
    requires Distinct(ks)
    ensures |set k | k in ks| == |ks|
  {
    if ks != [] {
      var tail := ks[1..];
      DistinctCard(tail);
      assert (set k | k in ks) == {ks[0]} + (set k | k in tail);
      assert ks[0] !in tail;
    }
  }

  // ---------------------------------------------------------------------------
  // The builder as a state machine
  // ---------------------------------------------------------------------------

  datatype ReplaceState = ReplaceState(refId: string, dataset: Dataset, currentFrame: Option<Frame>)

  /** The invariant the builder keeps between calls. */
  predicate Consistent(s: ReplaceState) {
    && Keyed(s.dataset)
    && (s.currentFrame.None? ==> s.dataset == [])
    && (s.currentFrame.Some? ==> s.currentFrame.value == BuildFrame(s.refId, Rows(s.dataset)))
  }

  /** `this.currentFrame ? [this.currentFrame] : []`. */
  function FrameList(f: Option<Frame>): seq<Frame> {
    if f.Some? then [f.value] else []
  }

  /** `dataset.set(generateRowKey(row), { ...row })`. */
  function Upsert(ds: Dataset, row: Row): Dataset {
    MapSet(ds, RowKey(row), row)
  }

  /** The dataset after one change event, and whether the frame is rebuilt. */
  function ChangeDataset(ds: Dataset, e: ChangeEvent): (Dataset, bool) {
    if e.op == "i" then
      if After(e).Some? then (Upsert(ds, After(e).value), true) else (ds, false)
    else if e.op == "u" then
      if Before(e).Some? && After(e).Some? then (Upsert(RemoveMatch(ds, Before(e).value), After(e).value), true)
      else (ds, false)
    else if e.op == "d" then
      if Before(e).Some? && FirstMatch(ds, Before(e).value).Some? then (RemoveMatch(ds, Before(e).value), true)
      else (ds, false)
    else (ds, false)
  }

  /** processChange: the new state and the response. */
  function Change(s: ReplaceState, e: ChangeEvent): (ReplaceState, BuilderResponse) {
    var (ds, rebuild) := ChangeDataset(s.dataset, e);
    var frame := if rebuild then Some(BuildFrame(s.refId, Rows(ds))) else s.currentFrame;
    (ReplaceState(s.refId, ds, frame), BuilderResponse(FrameList(frame), Done))
  }

  /** The dataset processReload builds from a snapshot: every item set under its key, in order. */
  function ReloadDataset(data: seq<Row>): Dataset {
    if data == [] then [] else Upsert(ReloadDataset(data[..|data| - 1]), data[|data| - 1])
  }

  /** processReload: the new state and the response. */
  function Reload(s: ReplaceState, data: seq<Row>): (ReplaceState, BuilderResponse) {
    var ds := ReloadDataset(data);
    var frame := BuildFrame(s.refId, Rows(ds));
    (ReplaceState(s.refId, ds, Some(frame)), BuilderResponse([frame], Done))
  }

  // ---------------------------------------------------------------------------
  // Properties of the state machine
  // ---------------------------------------------------------------------------

  lemma ChangeKeepsKeyed(ds: Dataset, e: ChangeEvent)
    requires Keyed(ds)
    ensures Keyed(ChangeDataset(ds, e).0)
  {
    if e.op == "i" {
      if After(e).Some? {
        MapSetKeyed(ds, After(e).value);
      }
    } else if e.op == "u" {
      if Before(e).Some? && After(e).Some? {
        RemoveMatchKeyed(ds, Before(e).value);
        MapSetKeyed(RemoveMatch(ds, Before(e).value), After(e).value);
      }
    } else if e.op == "d" {
      if Before(e).Some? {
        RemoveMatchKeyed(ds, Before(e).value);
      }
    }
  }

  lemma RemoveMatchKeyed(ds: Dataset, target: Row)
    requires Keyed(ds)
    ensures Keyed(RemoveMatch(ds, target))
  {
    match FirstMatch(ds, target)
    case Some(i) => MapDeleteKeyed(ds, ds[i].0);
    case None =>
  }

  /** Every change keeps the builder's invariant, and every response reports `Done`. */
  lemma ChangeConsistent(s: ReplaceState, e: ChangeEvent)
    requires Consistent(s)
    ensures Consistent(Change(s, e).0)
    ensures Change(s, e).1.state == Done
    ensures Change(s, e).1.frames == FrameList(Change(s, e).0.currentFrame)
  {
    ChangeKeepsKeyed(s.dataset, e);
    NoRebuildKeepsDataset(s.dataset, e);
  }

  /** A change that does not rebuild the frame leaves the dataset as it was. */
  lemma NoRebuildKeepsDataset(ds: Dataset, e: ChangeEvent)
    ensures !ChangeDataset(ds, e).1 ==> ChangeDataset(ds, e).0 == ds
  {
  }

  /** Insert with an `after` row sets that row under its own key, leaves every other key alone, and rebuilds. */
  lemma InsertSetsRow(s: ReplaceState, e: ChangeEvent, k: string)
    requires Keyed(s.dataset)
    requires e.op == "i" && After(e).Some?
    ensures var s' := Change(s, e).0;
      && Lookup(s'.dataset, k) == (if k == RowKey(After(e).value) then After(e) else Lookup(s.dataset, k))
      && s'.currentFrame == Some(BuildFrame(s.refId, Rows(s'.dataset)))
  {
    MapSetLookup(s.dataset, RowKey(After(e).value), After(e).value, k);
  }

  /**
   * Update with both rows removes the first matching row (if any) and then sets
   * `after` under its own key, even when nothing matched.
   */
  lemma UpdateReplacesRow(s: ReplaceState, e: ChangeEvent)
    requires Keyed(s.dataset)
    requires e.op == "u" && Before(e).Some? && After(e).Some?
    ensures var s' := Change(s, e).0;
      var rest := match FirstMatch(s.dataset, Before(e).value)
        case Some(i) => s.dataset[..i] + s.dataset[i + 1..]
        case None => s.dataset;
      && s'.dataset == Upsert(rest, After(e).value)
      && Lookup(s'.dataset, RowKey(After(e).value)) == After(e)
      && s'.currentFrame == Some(BuildFrame(s.refId, Rows(s'.dataset)))
  {
    var t, a := Before(e).value, After(e).value;
    RemoveMatchAt(s.dataset, t);
    RemoveMatchKeyed(s.dataset, t);
    var rest := RemoveMatch(s.dataset, t);
    var ds := Upsert(rest, a);
    MapSetLookup(rest, RowKey(a), a, RowKey(a));
    assert Change(s, e).0 == ReplaceState(s.refId, ds, Some(BuildFrame(s.refId, Rows(ds))));
  }

  /** Delete removes the first matching row and rebuilds; with no match nothing changes. */
  lemma DeleteRemovesMatch(s: ReplaceState, e: ChangeEvent)
    requires Keyed(s.dataset)
    requires e.op == "d" && Before(e).Some?
    ensures var s' := Change(s, e).0;
      match FirstMatch(s.dataset, Before(e).value)
      case Some(i) =>
        && s'.dataset == s.dataset[..i] + s.dataset[i + 1..]
        && s'.currentFrame == Some(BuildFrame(s.refId, Rows(s'.dataset)))
      case None => s' == s
  {
    RemoveMatchAt(s.dataset, Before(e).value);
  }

  /** Control events, unknown ops and events lacking the row they need change nothing. */
  lemma IgnoredEventsChangeNothing(s: ReplaceState, e: ChangeEvent)
    requires || (e.op != "i" && e.op != "u" && e.op != "d")
             || (e.op == "i" && After(e).None?)
             || (e.op == "u" && (Before(e).None? || After(e).None?))
             || (e.op == "d" && Before(e).None?)
    ensures Change(s, e).0 == s
    ensures Change(s, e).1 == BuilderResponse(FrameList(s.currentFrame), Done)
  {
  }

  lemma {:induction false} ReloadKeyed(data: seq<Row>)
    ensures Keyed(ReloadDataset(data))
  {
    if data != [] {
      ReloadKeyed(data[..|data| - 1]);
      MapSetKeyed(ReloadDataset(data[..|data| - 1]), data[|data| - 1]);
    }
  }

  /** The keys of a row collection. */
  function KeySet(data: seq<Row>): set<string> {
    set d | d in data :: RowKey(d)
  }

  lemma KeySetLast(data: seq<Row>)
    requires data != []
    ensures forall k :: k in KeySet(data) <==> k in KeySet(data[..|data| - 1]) || k == RowKey(data[|data| - 1])
  {
    assert data == data[..|data| - 1] + [data[|data| - 1]];
  }

  lemma {:induction false} ReloadKeys(data: seq<Row>)
    ensures forall k :: k in Keys(ReloadDataset(data)) <==> k in KeySet(data)
  {
    if data != [] {
      var init, last := data[..|data| - 1], data[|data| - 1];
      ReloadKeys(init);
      ReloadKeyed(init);
      var prev, key := ReloadDataset(init), RowKey(last);
      var ds := ReloadDataset(data);
      assert ds == MapSet(prev, key, last);
      MapSetLookup(prev, key, last, key);
      KeySetLast(data);
      forall k ensures k in Keys(ds) <==> k in KeySet(data) {
        assert k in Keys(ds) <==> k in Keys(prev) || k == key;
      }
    }
  }

  lemma {:induction false} ReloadRows(data: seq<Row>)
    ensures forall i :: 0 <= i < |ReloadDataset(data)| ==> ReloadDataset(data)[i].1 in data
  {
    if data != [] {
      var init, last := data[..|data| - 1], data[|data| - 1];
      ReloadRows(init);
      var prev := ReloadDataset(init);
      var ds := ReloadDataset(data);
      forall i | 0 <= i < |ds| ensures ds[i].1 in data {
        match IndexOf(prev, RowKey(last))
        case Some(j) =>
          if i != j {
            assert ds[i] == prev[i];
            assert prev[i].1 in init;
          }
        case None =>
          if i < |prev| {
            assert ds[i] == prev[i];
            assert prev[i].1 in init;
          }
      }
    }
  }

  /**
   * processReload makes the dataset exactly the keyed rows of `data` (rows of identical
   * content collapse to one entry), rebuilds, and reports `Done`.
   */
  lemma ReloadReplacesDataset(s: ReplaceState, data: seq<Row>)
    ensures var (s', resp) := Reload(s, data);
      && Consistent(s')
      && (forall k :: k in Keys(s'.dataset) <==> k in KeySet(data))
      && (forall i :: 0 <= i < |s'.dataset| ==> s'.dataset[i].1 in data)
      && |s'.dataset| <= |data|
      && resp == BuilderResponse([BuildFrame(s.refId, Rows(s'.dataset))], Done)
  {
    ReloadKeyed(data);
    ReloadKeys(data);
    ReloadRows(data);
    ReloadDatasetSize(data);
  }

  lemma {:induction false} ReloadDatasetSize(data: seq<Row>)
    ensures |ReloadDataset(data)| <= |data|
  {
    if data != [] {
      var init := data[..|data| - 1];
      ReloadDatasetSize(init);
      MapSetSize(ReloadDataset(init), RowKey(data[|data| - 1]), data[|data| - 1]);
    }
  }

  /**
   * The frame shows one row per distinct row key currently in the dataset, and every
   * field holds exactly that many values.
   */
  lemma FrameRowsAreDistinctKeys(s: ReplaceState)
    requires Consistent(s) && s.currentFrame.Some?
    ensures Rectangular(s.currentFrame.value, |s.dataset|)
    ensures |s.dataset| == |set k | k in Keys(s.dataset)|
    ensures s.dataset == [] || s.dataset[0].1 != [] ==> RowCount(s.currentFrame.value) == |s.dataset|
  {
    DistinctCard(Keys(s.dataset));
    var rows := Rows(s.dataset);
    var f := BuildFrame(s.refId, rows);
    assert rows != [] ==> |f.fields| == |rows[0]|;
  }

  /** Every row matches itself. */
  lemma MatchesReflexive(r: Row)
    ensures Matches(r, r)
  {
    forall i | 0 <= i < |r| ensures StrictEquals(Get(r, r[i].0), Get(r, r[i].0)) {
      GetAt(r, i);
    }
  }

  /**
   * Insert a row, update it to another, then delete that one: the dataset holds the
   * inserted row, then only the updated row, then nothing, and the frame ends as the
   * empty placeholder.
   */
  lemma ReplaceScenario(refId: string, r1: Row, r2: Row)
    ensures
      var s1 := Change(ReplaceState(refId, [], None), ChangeEvent("i", Some(Payload(None, Some(r1))))).0;
      var s2 := Change(s1, ChangeEvent("u", Some(Payload(Some(r1), Some(r2))))).0;
      var s3 := Change(s2, ChangeEvent("d", Some(Payload(Some(r2), None)))).0;
      && s1 == ReplaceState(refId, [(RowKey(r1), r1)], Some(BuildFrame(refId, [r1])))
      && s2 == ReplaceState(refId, [(RowKey(r2), r2)], Some(BuildFrame(refId, [r2])))
      && s3 == ReplaceState(refId, [], Some(Frame("Query " + refId + " (empty)", refId, [Field("id", StringField, [])])))
  {
    var s1 := ReplaceState(refId, [(RowKey(r1), r1)], Some(BuildFrame(refId, [r1])));
    var s2 := ReplaceState(refId, [(RowKey(r2), r2)], Some(BuildFrame(refId, [r2])));
    InsertIntoEmpty(refId, r1);
    UpdateSingle(s1, r1, r2);
    DeleteSingle(s2, r2);
  }

  lemma InsertIntoEmpty(refId: string, r: Row)
    ensures Change(ReplaceState(refId, [], None), ChangeEvent("i", Some(Payload(None, Some(r))))).0
      == ReplaceState(refId, [(RowKey(r), r)], Some(BuildFrame(refId, [r])))
  {
    var e := ChangeEvent("i", Some(Payload(None, Some(r))));
    assert After(e) == Some(r);
    SingleRow(r, r);
    assert ChangeDataset([], e) == ([(RowKey(r), r)], true);
    RowsSingle(RowKey(r), r);
  }

  lemma UpdateSingle(s: ReplaceState, r1: Row, r2: Row)
    requires s.dataset == [(RowKey(r1), r1)]
    ensures Change(s, ChangeEvent("u", Some(Payload(Some(r1), Some(r2))))).0
      == ReplaceState(s.refId, [(RowKey(r2), r2)], Some(BuildFrame(s.refId, [r2])))
  {
    var e := ChangeEvent("u", Some(Payload(Some(r1), Some(r2))));
    assert Before(e) == Some(r1) && After(e) == Some(r2);
    SingleRow(r1, r2);
    assert ChangeDataset(s.dataset, e) == ([(RowKey(r2), r2)], true);
    RowsSingle(RowKey(r2), r2);
  }

  lemma DeleteSingle(s: ReplaceState, r: Row)
    requires s.dataset == [(RowKey(r), r)]
    ensures Change(s, ChangeEvent("d", Some(Payload(Some(r), None)))).0
      == ReplaceState(s.refId, [], Some(BuildFrame(s.refId, [])))
  {
    var e := ChangeEvent("d", Some(Payload(Some(r), None)));
    SingleRow(r, r);
    assert Before(e) == Some(r);
    MatchesReflexive(r);
    assert FirstMatch(s.dataset, r) == Some(0);
    assert ChangeDataset(s.dataset, e) == ([], true);
  }

  lemma RowsSingle(key: string, row: Row)
    ensures Rows([(key, row)]) == [row]
  {
    assert Rows([(key, row)])[0] == row;
  }

  /** With one row stored, an event whose `before` is that row removes it. */
  lemma SingleRow(row: Row, after: Row)
    ensures RemoveMatch([(RowKey(row), row)], row) == []
    ensures MapSet([], RowKey(after), after) == [(RowKey(after), after)]
  {
    MatchesReflexive(row);
    var d: Dataset := [(RowKey(row), row)];
    assert FirstMatch(d, row) == Some(0);
    assert IndexOf(d, RowKey(row)) == Some(0);
  }

  // ---------------------------------------------------------------------------
  // The class
  // ---------------------------------------------------------------------------

  class ReplaceFrameBuilder {
    var dataset: Dataset
    var currentFrame: Option<Frame>
    const refId: string

    function State(): ReplaceState
      reads this
    {
      ReplaceState(refId, dataset, currentFrame)
    }

    ghost predicate Valid()
      reads this
    {
      Consistent(State())
    }

    constructor (queryId: string, refId: Option<string>)
      ensures Valid() && State() == ReplaceState(Or(refId, queryId), [], None)
    {
      this.refId := Or(refId, queryId);
      dataset := [];
      currentFrame := None;
    }

    method ProcessChange(event: ChangeEvent) returns (resp: BuilderResponse)
      requires Valid()
      modifies this
      ensures Valid()
      ensures (State(), resp) == Change(old(State()), event)
    {
      ChangeKeepsKeyed(dataset, event);
      var needsRebuild := ApplyChange(event);
      if needsRebuild {
        RebuildFrame();
      }
      resp := BuilderResponse(FrameList(currentFrame), Done);
    }

    /** The `switch (event.op)` of processChange: update the dataset, report whether to rebuild. */
    method ApplyChange(event: ChangeEvent) returns (needsRebuild: bool)
      requires Keyed(dataset)
      modifies this`dataset
      ensures (dataset, needsRebuild) == ChangeDataset(old(dataset), event)
    {
      var before, after := Before(event), After(event);
      needsRebuild := false;
      if event.op == "i" {
        if after.Some? {
          InsertRow(after.value);
          needsRebuild := true;
        }
      } else if event.op == "u" {
        if before.Some? && after.Some? {
          UpdateRow(before.value, after.value);
          needsRebuild := true;
        }
      } else if event.op == "d" {
        if before.Some? {
          needsRebuild := DeleteRow(before.value);
        }
      }
    }

    /** Case 'i': set the `after` row under its own key. */
    method InsertRow(after: Row)
      modifies this`dataset
      ensures dataset == Upsert(old(dataset), after)
    {
      var rowKey := GenerateRowKey(after);
      dataset := MapSet(dataset, rowKey, after);
    }

    /** Case 'u': delete the row matching `before`, if any, then set `after` under its own key. */
    method UpdateRow(before: Row, after: Row)
      requires Keyed(dataset)
      modifies this`dataset
      ensures dataset == Upsert(RemoveMatch(old(dataset), before), after)
    {
      var oldRowKey := FindRowByData(before);
      if oldRowKey.Some? && oldRowKey.value != "" {
        dataset := MapDelete(dataset, oldRowKey.value);
      }
      assert dataset == RemoveMatch(old(dataset), before);
      var newRowKey := GenerateRowKey(after);
      dataset := MapSet(dataset, newRowKey, after);
    }

    /** Case 'd': delete the row matching `before`; only a deletion asks for a rebuild. */
    method DeleteRow(before: Row) returns (deleted: bool)
      requires Keyed(dataset)
      modifies this`dataset
      ensures deleted == FirstMatch(old(dataset), before).Some?
      ensures dataset == RemoveMatch(old(dataset), before)
    {
      var rowKey := FindRowByData(before);
      deleted := false;
      if rowKey.Some? && rowKey.value != "" {
        dataset := MapDelete(dataset, rowKey.value);
        deleted := true;
      }
    }

    method ProcessReload(data: seq<Row>) returns (resp: BuilderResponse)
      requires Valid()
      modifies this
      ensures Valid()
      ensures (State(), resp) == Reload(old(State()), data)
    {
      dataset := [];
      for i := 0 to |data|
        invariant dataset == ReloadDataset(data[..i])
      {
        var rowKey := GenerateRowKey(data[i]);
        TakeStep(data, i);
        dataset := MapSet(dataset, rowKey, data[i]);
      }
      TakeAll(data);
      ReloadKeyed(data);
      RebuildFrame();
      resp := BuilderResponse(FrameList(currentFrame), Done);
    }

    /** getCurrentFrames: reads the state and changes nothing. */
    function GetCurrentFrames(): (frames: seq<Frame>)
      reads this
      ensures |frames| <= 1
      ensures Valid() ==> (frames == [] <==> currentFrame.None?)
      ensures Valid() && frames != [] ==> frames == [BuildFrame(refId, Rows(dataset))]
    {
      FrameList(currentFrame)
    }

    method Clear()
      modifies this
      ensures Valid() && State() == ReplaceState(refId, [], None)
    {
      dataset := [];
      currentFrame := None;
    }

    method RebuildFrame()
      modifies this`currentFrame
      ensures currentFrame == Some(BuildFrame(refId, Rows(dataset)))
    {
      var rows := Rows(dataset);
      currentFrame := Some(BuildFrame(refId, rows));
    }

    method GenerateRowKey(rowData: Row) returns (key: string)
      ensures key == RowKey(rowData)
    {
      var keyString := Join(KeyParts(rowData), "|");
      var units := CodeUnits(keyString);
      var hash := 5381;
      for i := 0 to |units|
        invariant hash == Djb2(units[..i])
      {
        TakeStep(units, i);
        HashStep(hash, units[i]);
        hash := ToInt32(hash * 32) + hash + units[i];
        hash := ToInt32(hash);
      }
      TakeAll(units);
      key := Radix(Abs(hash), 36);
    }

    method FindRowByData(targetData: Row) returns (key: Option<string>)
      ensures key == match FirstMatch(dataset, targetData)
        case Some(i) => Some(dataset[i].0)
        case None => None
    {
      for i := 0 to |dataset|
        invariant forall j :: 0 <= j < i ==> !Matches(dataset[j].1, targetData)
      {
        var m := ObjectsMatch(dataset[i].1, targetData);
        if m {
          FirstMatchIs(dataset, targetData, i);
          return Some(dataset[i].0);
        }
      }
      return None;
    }

    method ObjectsMatch(obj1: Row, obj2: Row) returns (m: bool)
      ensures m == Matches(obj1, obj2)
    {
      var keys2 := Names(obj2);
      for i := 0 to |keys2|
        invariant forall j :: 0 <= j < i ==> StrictEquals(Get(obj1, obj2[j].0), Get(obj2, obj2[j].0))
      {
        if !StrictEquals(Get(obj1, keys2[i]), Get(obj2, keys2[i])) {
          return false;
        }
      }
      return true;
    }
  }

  lemma FirstMatchIs(ds: Dataset, target: Row, i: nat)
    requires i < |ds| && Matches(ds[i].1, target)
    requires forall j :: 0 <= j < i ==> !Matches(ds[j].1, target)
    ensures FirstMatch(ds, target) == Some(i)
  {
  }
}
