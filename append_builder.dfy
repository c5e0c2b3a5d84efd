/**
 * The append builder of src/builders/AppendFrameBuilder.ts: every change event that
 * carries a non-empty row becomes a new one-row frame, tagged with the time and the
 * kind of change, and the builder keeps the whole history of such frames.
 */
module AppendBuilder {
  import opened Js
  import opened Frames

  /** The name of the `n`-th frame of the builder: `${refId}_${operation}_${n}`. */
  function FrameName(refId: string, operation: string, n: nat): string {
    refId + "_" + operation + "_" + Radix(n, 10)
  }

  /** One single-value field per property of the row, typed from its name and value. */
  function PropFields(row: Row): seq<Field> {
    seq(|row|, k requires 0 <= k < |row| => Field(row[k].0, InferType(row[k].0, row[k].1), [row[k].1]))
  }

  /** The one-row frame createFrameFromRow builds from a non-empty row. */
  function RowFrame(refId: string, row: Row, operation: string, now: int, n: nat): Frame {
    Frame(FrameName(refId, operation, n), refId,
          [Field("_timestamp", TimeField, [Num(now)]), Field("_operation", StringField, [Str(operation)])] + PropFields(row))
  }

  /** The operation a frame records in its `_operation` field ("" for a frame without one). */
  function OpOf(f: Frame): string {
    if |f.fields| >= 2 && |f.fields[1].values| == 1 && f.fields[1].values[0].Str? then f.fields[1].values[0].s else ""
  }

  /** The row a one-row frame shows, without the `_timestamp` and `_operation` fields. */
  function RowOf(f: Frame): seq<Prop> {
    if |f.fields| < 2 then [] else Cells(f.fields[2..])
  }

  /** The (name, first value) pairs of some fields. */
  function Cells(fields: seq<Field>): seq<Prop> {
    seq(|fields|, k requires 0 <= k < |fields| =>
      (fields[k].name, if fields[k].values != [] then fields[k].values[0] else Undefined))
  }

  /**
   * The frame built from a row leads with a time field `_timestamp` and a string field
   * `_operation`, and records that row, its operation, its time and the counter.
   */
  lemma RowFrameRoundTrip(refId: string, row: Row, operation: string, now: int, n: nat)
    ensures var f := RowFrame(refId, row, operation, now, n);
      && RowOf(f) == row
      && OpOf(f) == operation
      && f.fields[0] == Field("_timestamp", TimeField, [Num(now)])
      && f.fields[1] == Field("_operation", StringField, [Str(operation)])
      && f.name == FrameName(refId, OpOf(f), n)
      && f.refId == refId
      && Rectangular(f, 1)
      && forall k :: 2 <= k < |f.fields| ==> f.fields[k].ftype == InferType(f.fields[k].name, f.fields[k].values[0])
  {
  }

  /** The part of a string after its last underscore. */
  function LastSegment(s: string): string {
    if s == [] || s[|s| - 1] == '_' then [] else LastSegment(s[..|s| - 1]) + [s[|s| - 1]]
  }

  /** Appending an underscore and an underscore-free string makes that string the last segment. */
  lemma {:induction false} LastSegmentOf(x: string, d: string)
    requires forall i :: 0 <= i < |d| ==> d[i] != '_'
    ensures LastSegment(x + "_" + d) == d
  {
    if d != [] {
      var init := d[..|d| - 1];
      LastSegmentOf(x, init);
      assert (x + "_" + d)[..|x + "_" + d| - 1] == x + "_" + init;
      assert d == init + [d[|d| - 1]];
    }
  }

  /** Frames with different counters get different names, whatever their operations. */
  lemma FrameNameInjective(refId: string, op1: string, m: nat, op2: string, n: nat)
    requires FrameName(refId, op1, m) == FrameName(refId, op2, n)
    ensures m == n
  {
    var d1, d2 := Radix(m, 10), Radix(n, 10);
    forall i | 0 <= i < |d1| ensures d1[i] != '_' {
      assert DigitValue(d1[i]) >= 0;
    }
    forall i | 0 <= i < |d2| ensures d2[i] != '_' {
      assert DigitValue(d2[i]) >= 0;
    }
    LastSegmentOf(refId + "_" + op1, d1);
    LastSegmentOf(refId + "_" + op2, d2);
    RadixInjective(m, n, 10);
  }

  // ---------------------------------------------------------------------------
  // The builder as a state machine
  // ---------------------------------------------------------------------------

  datatype AppendState = AppendState(refId: string, frames: seq<Frame>, frameCounter: nat)

  /**
   * The invariant the builder keeps: the counter equals the number of frames, and the
   * `i`-th frame (from 1) is a one-row frame of this refId named with counter `i`.
   */
  predicate Consistent(s: AppendState) {
    && s.frameCounter == |s.frames|
    && forall i :: 0 <= i < |s.frames| ==>
      && s.frames[i].refId == s.refId
      && s.frames[i].name == FrameName(s.refId, OpOf(s.frames[i]), i + 1)
      && Rectangular(s.frames[i], 1)
  }

  /** createFrameFromRow: no frame for an empty row, otherwise the next counter's frame. */
  function CreateFrame(s: AppendState, row: Row, operation: string, now: int): (Option<Frame>, AppendState) {
    if |row| == 0 then (None, s)
    else
      var f := RowFrame(s.refId, row, operation, now, s.frameCounter + 1);
      (Some(f), AppendState(s.refId, s.frames, s.frameCounter + 1))
  }

  /** The row and operation name processChange turns into a frame, if any. */
  function ChangeRow(e: ChangeEvent): Option<(Row, string)> {
    if e.op == "i" then
      if After(e).Some? then Some((After(e).value, "insert")) else None
    else if e.op == "u" then
      if After(e).Some? then Some((After(e).value, "update")) else None
    else if e.op == "d" then
      if Before(e).Some? then Some((Before(e).value, "delete")) else None
    else None
  }

  /** processChange at time `now`: the new state and the response. */
  function Change(s: AppendState, e: ChangeEvent, now: int): (AppendState, BuilderResponse) {
    match ChangeRow(e)
    case None => (s, BuilderResponse([], Streaming))
    case Some((row, operation)) =>
      var (f, s') := CreateFrame(s, row, operation, now);
      if f.Some? then (AppendState(s'.refId, s'.frames + [f.value], s'.frameCounter), BuilderResponse([f.value], Streaming))
      else (s', BuilderResponse([], Streaming))
  }

  /** The frames processReload builds for `data`, numbered from `start + 1`. */
  function SnapshotFrames(refId: string, data: seq<Row>, now: int, start: nat): seq<Frame>
    decreases |data|
  {
    if data == [] then []
    else if |data[0]| == 0 then SnapshotFrames(refId, data[1..], now, start)
    else [RowFrame(refId, data[0], "snapshot", now, start + 1)] + SnapshotFrames(refId, data[1..], now, start + 1)
  }

  lemma SnapshotStep(refId: string, data: seq<Row>, i: nat, now: int, c: nat)
    requires i < |data|
    ensures SnapshotFrames(refId, data[i..], now, c) ==
      if |data[i]| == 0 then SnapshotFrames(refId, data[i + 1..], now, c)
      else [RowFrame(refId, data[i], "snapshot", now, c + 1)] + SnapshotFrames(refId, data[i + 1..], now, c + 1)
  {
    assert data[i..][1..] == data[i + 1..];
  }

  /** One loop step of processReload: the frames so far plus the frames still to come. */
  lemma SnapshotAccStep(refId: string, data: seq<Row>, i: nat, now: int, acc: seq<Frame>)
    requires i < |data|
    ensures acc + SnapshotFrames(refId, data[i..], now, |acc|) ==
      if |data[i]| == 0 then acc + SnapshotFrames(refId, data[i + 1..], now, |acc|)
      else (acc + [RowFrame(refId, data[i], "snapshot", now, |acc| + 1)]) + SnapshotFrames(refId, data[i + 1..], now, |acc| + 1)
  {
    SnapshotStep(refId, data, i, now, |acc|);
    if |data[i]| != 0 {
      ConcatAssoc(acc, [RowFrame(refId, data[i], "snapshot", now, |acc| + 1)], SnapshotFrames(refId, data[i + 1..], now, |acc| + 1));
    }
  }

  /** The non-empty rows of a snapshot. */
  function NonEmpty(data: seq<Row>): (r: seq<Row>)
    ensures |r| <= |data|
    ensures forall i :: 0 <= i < |r| ==> r[i] != [] && r[i] in data
  {
    if data == [] then []
    else if |data[0]| == 0 then NonEmpty(data[1..])
    else [data[0]] + NonEmpty(data[1..])
  }

  /** processReload at time `now`: the new state and the response. */
  function Reload(s: AppendState, data: seq<Row>, now: int): (AppendState, BuilderResponse) {
    var fs := SnapshotFrames(s.refId, data, now, 0);
    (AppendState(s.refId, fs, |fs|), BuilderResponse(fs, Done))
  }

  // ---------------------------------------------------------------------------
  // Properties of the state machine
  // ---------------------------------------------------------------------------

  /**
   * A change appends at most one frame and never touches earlier ones; the response
   * holds exactly the appended frames and always reports `Streaming`.
   */
  lemma ChangeAppends(s: AppendState, e: ChangeEvent, now: int)
    requires Consistent(s)
    ensures var (s', resp) := Change(s, e, now);
      && Consistent(s')
      && s'.frames == s.frames + resp.frames
      && |resp.frames| <= 1
      && resp.state == Streaming
  {
    var (s', resp) := Change(s, e, now);
    if resp.frames != [] {
      var (row, operation) := ChangeRow(e).value;
      RowFrameRoundTrip(s.refId, row, operation, now, s.frameCounter + 1);
    }
  }

  /**
   * A frame is added exactly when the event is an insert or update with an `after` row,
   * or a delete with a `before` row, and that row has at least one property; the frame
   * shows that row and the change kind under the next counter.
   */
  lemma ChangeFrame(s: AppendState, e: ChangeEvent, now: int)
    ensures var resp := Change(s, e, now).1;
      resp.frames != [] <==> ChangeRow(e).Some? && ChangeRow(e).value.0 != []
    ensures var resp := Change(s, e, now).1;
      resp.frames != [] ==>
        && RowOf(resp.frames[0]) == ChangeRow(e).value.0
        && OpOf(resp.frames[0]) == (if e.op == "i" then "insert" else if e.op == "u" then "update" else "delete")
        && resp.frames[0].name == FrameName(s.refId, OpOf(resp.frames[0]), s.frameCounter + 1)
  {
    if ChangeRow(e).Some? {
      var (row, operation) := ChangeRow(e).value;
      RowFrameRoundTrip(s.refId, row, operation, now, s.frameCounter + 1);
    }
  }

  /** The snapshot frames are the row frames of the non-empty rows, numbered on from `start`. */
  lemma {:induction false} SnapshotFramesRows(refId: string, data: seq<Row>, now: int, start: nat)
    ensures var fs := SnapshotFrames(refId, data, now, start);
      && |fs| == |NonEmpty(data)|
      && forall i :: 0 <= i < |fs| ==> fs[i] == RowFrame(refId, NonEmpty(data)[i], "snapshot", now, start + i + 1)
    decreases |data|
  {
    if data != [] {
      if |data[0]| == 0 {
        SnapshotFramesRows(refId, data[1..], now, start);
      } else {
        SnapshotFramesRows(refId, data[1..], now, start + 1);
        var fs := SnapshotFrames(refId, data, now, start);
        var rest := SnapshotFrames(refId, data[1..], now, start + 1);
        var first := RowFrame(refId, data[0], "snapshot", now, start + 1);
        assert fs == [first] + rest;
        assert NonEmpty(data) == [data[0]] + NonEmpty(data[1..]);
        forall i | 1 <= i < |fs| ensures fs[i] == rest[i - 1] && NonEmpty(data)[i] == NonEmpty(data[1..])[i - 1] {
          ConsAt(first, rest, i);
          ConsAt(data[0], NonEmpty(data[1..]), i);
        }
      }
    }
  }

  lemma SnapshotFramesShape(refId: string, data: seq<Row>, now: int, start: nat)
    ensures var fs := SnapshotFrames(refId, data, now, start);
      && |fs| == |NonEmpty(data)|
      && forall i :: 0 <= i < |fs| ==>
        && RowOf(fs[i]) == NonEmpty(data)[i]
        && OpOf(fs[i]) == "snapshot"
        && fs[i].refId == refId
        && fs[i].name == FrameName(refId, "snapshot", start + i + 1)
        && Rectangular(fs[i], 1)
  {
    SnapshotFramesRows(refId, data, now, start);
    var fs := SnapshotFrames(refId, data, now, start);
    forall i | 0 <= i < |fs|
      ensures && RowOf(fs[i]) == NonEmpty(data)[i]
              && OpOf(fs[i]) == "snapshot"
              && fs[i].refId == refId
              && fs[i].name == FrameName(refId, "snapshot", start + i + 1)
              && Rectangular(fs[i], 1)
    {
      RowFrameRoundTrip(refId, NonEmpty(data)[i], "snapshot", now, start + i + 1);
    }
  }

  /**
   * processReload discards the history and shows one "snapshot" frame per non-empty
   * snapshot row, in order, numbered from 1; it reports `Done`.
   */
  lemma ReloadRestarts(s: AppendState, data: seq<Row>, now: int)
    ensures var (s', resp) := Reload(s, data, now);
      && Consistent(s')
      && s'.frames == resp.frames
      && resp.state == Done
      && |s'.frames| == |NonEmpty(data)|
      && forall i :: 0 <= i < |s'.frames| ==>
        RowOf(s'.frames[i]) == NonEmpty(data)[i] && s'.frames[i].name == FrameName(s.refId, "snapshot", i + 1)
  {
    SnapshotFramesShape(s.refId, data, now, 0);
  }

  /** No two frames of a consistent builder share a name. */
  lemma FrameNamesDistinct(s: AppendState, i: nat, j: nat)
    requires Consistent(s)
    requires i < j < |s.frames|
    ensures s.frames[i].name != s.frames[j].name
  {
    if s.frames[i].name == s.frames[j].name {
      FrameNameInjective(s.refId, OpOf(s.frames[i]), i + 1, OpOf(s.frames[j]), j + 1);
    }
  }

  /**
   * Insert a row, update it, delete it: three frames, numbered 1 to 3 and named after
   * their operations; the delete is recorded like the other two.
   */
  lemma AppendScenario(refId: string, r1: Row, r2: Row, t1: int, t2: int, t3: int)
    requires r1 != [] && r2 != []
    ensures
      var s0 := AppendState(refId, [], 0);
      var s1 := Change(s0, ChangeEvent("i", Some(Payload(None, Some(r1)))), t1).0;
      var s2 := Change(s1, ChangeEvent("u", Some(Payload(Some(r1), Some(r2)))), t2).0;
      var s3 := Change(s2, ChangeEvent("d", Some(Payload(Some(r2), None))), t3).0;
      && |s3.frames| == 3
      && s3.frames[0].name == refId + "_" + "insert" + "_" + "1"
      && s3.frames[1].name == refId + "_" + "update" + "_" + "2"
      && s3.frames[2].name == refId + "_" + "delete" + "_" + "3"
      && RowOf(s3.frames[2]) == r2
  {
    var s0 := AppendState(refId, [], 0);
    var f1 := RowFrame(refId, r1, "insert", t1, 1);
    var f2 := RowFrame(refId, r2, "update", t2, 2);
    var f3 := RowFrame(refId, r2, "delete", t3, 3);
    var s1 := Change(s0, ChangeEvent("i", Some(Payload(None, Some(r1)))), t1).0;
    assert s1 == AppendState(refId, [f1], 1);
    var s2 := Change(s1, ChangeEvent("u", Some(Payload(Some(r1), Some(r2)))), t2).0;
    assert s2 == AppendState(refId, [f1, f2], 2);
    var s3 := Change(s2, ChangeEvent("d", Some(Payload(Some(r2), None))), t3).0;
    assert s3 == AppendState(refId, [f1, f2, f3], 3);
    assert Radix(1, 10) == "1" && Radix(2, 10) == "2" && Radix(3, 10) == "3";
    RowFrameRoundTrip(refId, r2, "delete", t3, 3);
  }

  // ---------------------------------------------------------------------------
  // The class
  // ---------------------------------------------------------------------------

  class AppendFrameBuilder {
    var frames: seq<Frame>
    const refId: string
    var frameCounter: nat

    function State(): AppendState
      reads this
    {
      AppendState(refId, frames, frameCounter)
    }

    ghost predicate Valid()
      reads this
    {
      Consistent(State())
    }

    constructor (queryId: string, refId: Option<string>)
      ensures Valid() && State() == AppendState(Or(refId, queryId), [], 0)
    {
      this.refId := Or(refId, queryId);
      frames := [];
      frameCounter := 0;
    }

    method ProcessChange(event: ChangeEvent, now: int) returns (resp: BuilderResponse)
      requires Valid()
      modifies this
      ensures Valid()
      ensures (State(), resp) == Change(old(State()), event, now)
    {
      ghost var s0 := State();
      var newFrame: Option<Frame> := None;
      var before, after := Before(event), After(event);
      if event.op == "i" {
        if after.Some? {
          newFrame := CreateFrameFromRow(after.value, "insert", now);
        }
      } else if event.op == "u" {
        if after.Some? {
          newFrame := CreateFrameFromRow(after.value, "update", now);
        }
      } else if event.op == "d" {
        if before.Some? {
          newFrame := CreateFrameFromRow(before.value, "delete", now);
        }
      }
      if newFrame.Some? {
        frames := frames + [newFrame.value];
      }
      resp := BuilderResponse(if newFrame.Some? then [newFrame.value] else [], Streaming);
      ChangeAppends(s0, event, now);
    }

    method ProcessReload(data: seq<Row>, now: int) returns (resp: BuilderResponse)
      requires Valid()
      modifies this
      ensures Valid()
      ensures (State(), resp) == Reload(old(State()), data, now)
    {
      frames := [];
      frameCounter := 0;
      var newFrames: seq<Frame> := [];
      for i := 0 to |data|
        invariant frames == newFrames && frameCounter == |frames|
        invariant newFrames + SnapshotFrames(refId, data[i..], now, |newFrames|) == SnapshotFrames(refId, data, now, 0)
      {
        SnapshotAccStep(refId, data, i, now, newFrames);
        var frame := CreateFrameFromRow(data[i], "snapshot", now);
        if frame.Some? {
          frames := frames + [frame.value];
          newFrames := newFrames + [frame.value];
        }
      }
      assert data[|data|..] == [];
      assert SnapshotFrames(refId, [], now, frameCounter) == [];
      assert newFrames == SnapshotFrames(refId, data, now, 0);
      resp := BuilderResponse(newFrames, Done);
      ReloadRestarts(old(State()), data, now);
    }

    /** getCurrentFrames: a copy of the history, oldest first. */
    function GetCurrentFrames(): (fs: seq<Frame>)
      reads this
      ensures Valid() ==> |fs| == frameCounter
      ensures Valid() ==> forall i :: 0 <= i < |fs| ==> fs[i].name == FrameName(refId, OpOf(fs[i]), i + 1)
    {
      frames
    }

    method Clear()
      modifies this
      ensures Valid() && State() == AppendState(refId, [], 0)
    {
      frames := [];
      frameCounter := 0;
    }

    method CreateFrameFromRow(rowData: Row, operation: string, now: int) returns (frame: Option<Frame>)
      modifies this`frameCounter
      ensures (frame, State()) == CreateFrame(old(State()), rowData, operation, now)
    {
      if |rowData| == 0 {
        return None;
      }
      frameCounter := frameCounter + 1;
      var fields := PropFields(rowData);
      fields := [Field("_operation", StringField, [Str(operation)])] + fields;
      fields := [Field("_timestamp", TimeField, [Num(now)])] + fields;
      assert fields == [Field("_timestamp", TimeField, [Num(now)]), Field("_operation", StringField, [Str(operation)])] + PropFields(rowData);
      frame := Some(Frame(refId + "_" + operation + "_" + Radix(frameCounter, 10), refId, fields));
    }
  }
}
