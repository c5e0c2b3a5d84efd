/**
 * The `DataFrameBuilder` interface of src/builders/DataFrameBuilder.ts. Dafny has no
 * interface here, so a builder is one of the two builder classes, and its state is the
 * matching state value of that builder's module.
 */
module DataFrameBuilder {
  import opened Js
  import opened Frames
  import R = ReplaceBuilder
  import A = AppendBuilder

  /** The state of either builder. */
  datatype BuilderState = ReplaceState(r: R.ReplaceState) | AppendState(a: A.AppendState)
  {
    function RefId(): string {
      if ReplaceState? then r.refId else a.refId
    }

    predicate Consistent() {
      if ReplaceState? then R.Consistent(r) else A.Consistent(a)
    }

    /** getCurrentFrames. */
    function CurrentFrames(): seq<Frame> {
      if ReplaceState? then R.FrameList(r.currentFrame) else a.frames
    }

    /** A builder that holds no data: what the constructors and clear() leave behind. */
    predicate Empty() {
      if ReplaceState? then r.dataset == [] && r.currentFrame.None? else a.frames == [] && a.frameCounter == 0
    }
  }

  /** What the data source asks a builder to do. */
  datatype Action = ChangeAction(event: ChangeEvent, now: int) | ReloadAction(data: seq<Row>, now: int)

  /** The effect of one action on a builder state: the new state and the response. */
  function Apply(s: BuilderState, act: Action): (BuilderState, BuilderResponse) {
    match (s, act)
    case (ReplaceState(r), ChangeAction(e, _)) =>
      var (r', resp) := R.Change(r, e); (ReplaceState(r'), resp)
    case (ReplaceState(r), ReloadAction(data, _)) =>
      var (r', resp) := R.Reload(r, data); (ReplaceState(r'), resp)
    case (AppendState(a), ChangeAction(e, now)) =>
      var (a', resp) := A.Change(a, e, now); (AppendState(a'), resp)
    case (AppendState(a), ReloadAction(data, now)) =>
      var (a', resp) := A.Reload(a, data, now); (AppendState(a'), resp)
  }

  /**
   * Every action keeps the builder's kind, its refId and its invariant. A replace builder
   * always answers `Done`; an append builder answers a change with `Streaming` and a
   * reload with `Done`; after any action the response's frames are what
   * getCurrentFrames shows (replace) or the tail of the history (append).
   */
  lemma ApplyKeepsBuilder(s: BuilderState, act: Action)
    requires s.Consistent()
    ensures var (s', resp) := Apply(s, act);
      && s'.Consistent()
      && s'.ReplaceState? == s.ReplaceState?
      && s'.RefId() == s.RefId()
      && resp.state == (if s.AppendState? && act.ChangeAction? then Streaming else Done)
      && (s.ReplaceState? ==> resp.frames == s'.CurrentFrames())
      && (s.AppendState? && act.ChangeAction? ==> s'.CurrentFrames() == s.CurrentFrames() + resp.frames)
      && (act.ReloadAction? ==> resp.frames == s'.CurrentFrames())
  {
    match (s, act)
    case (ReplaceState(r), ChangeAction(e, _)) => R.ChangeConsistent(r, e);
    case (ReplaceState(r), ReloadAction(data, _)) => R.ReloadReplacesDataset(r, data);
    case (AppendState(a), ChangeAction(e, now)) => A.ChangeAppends(a, e, now);
    case (AppendState(a), ReloadAction(data, now)) => A.ReloadRestarts(a, data, now);
  }

  /** A builder object of either kind. */
  datatype Builder = Replace(replace: R.ReplaceFrameBuilder) | Append(append: A.AppendFrameBuilder)
  {
    function Obj(): object {
      if Replace? then replace else append
    }

    ghost predicate Valid()
      reads Obj()
    {
      if Replace? then replace.Valid() else append.Valid()
    }

    function State(): BuilderState
      reads Obj()
    {
      if Replace? then ReplaceState(replace.State()) else AppendState(append.State())
    }
  }

  method ProcessChange(b: Builder, event: ChangeEvent, now: int) returns (resp: BuilderResponse)
    requires b.Valid()
    modifies b.Obj()
    ensures b.Valid()
    ensures (b.State(), resp) == Apply(old(b.State()), ChangeAction(event, now))
  {
    if b.Replace? {
      resp := b.replace.ProcessChange(event);
    } else {
      resp := b.append.ProcessChange(event, now);
    }
  }

  method ProcessReload(b: Builder, data: seq<Row>, now: int) returns (resp: BuilderResponse)
    requires b.Valid()
    modifies b.Obj()
    ensures b.Valid()
    ensures (b.State(), resp) == Apply(old(b.State()), ReloadAction(data, now))
  {
    if b.Replace? {
      resp := b.replace.ProcessReload(data);
    } else {
      resp := b.append.ProcessReload(data, now);
    }
  }

  method Clear(b: Builder)
    modifies b.Obj()
    ensures b.Valid() && b.State().Empty()
    ensures b.State().RefId() == old(b.State().RefId()) && b.Replace? == b.State().ReplaceState?
  {
    if b.Replace? {
      b.replace.Clear();
    } else {
      b.append.Clear();
    }
  }

  function GetCurrentFrames(b: Builder): (frames: seq<Frame>)
    reads b.Obj()
    ensures frames == b.State().CurrentFrames()
  {
    if b.Replace? then b.replace.GetCurrentFrames() else b.append.GetCurrentFrames()
  }
}
