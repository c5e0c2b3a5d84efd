/**
 * The session bookkeeping of the `DataSource` class in src/datasource.ts: which
 * listener serves a query id, which builder serves a result id (refId), which refIds
 * a query id feeds, and which observers (open panels) watch a refId; and how change
 * events and snapshot reloads fan out through those maps.
 *
 * The SignalR transport is not modelled: a change event, a reload answer and a
 * reconnection are inputs of the methods below, and a value delivered to an observer
 * is an output record (`Push`).
 */
module Session {
  import opened Js
  import opened Frames
  import opened DataFrameBuilder
  import F = FrameBuilderFactory

  // ---------------------------------------------------------------------------
  // Targets
  // ---------------------------------------------------------------------------

  /** A `DrasiQuery` target of a query request. */
  datatype Target = Target(queryId: Option<string>, refId: Option<string>, mode: Option<string>, snapshotOnStart: bool)

  /** The target's query id, "" when absent. */
  function Qid(t: Target): string {
    if t.queryId.Some? then t.queryId.value else ""
  }

  /** `target.refId || target.queryId`. */
  function RefIdOf(t: Target): string {
    Or(t.refId, Qid(t))
  }

  /** `target.mode || 'replace'`. */
  function ModeOf(t: Target): string {
    Or(t.mode, "replace")
  }

  /** filterQuery: `!!query.queryId && query.queryId.trim() !== ''`; `query` filters its targets the same way. */
  predicate FilterQuery(t: Target) {
    t.queryId.Some? && t.queryId.value != "" && Trim(t.queryId.value) != ""
  }

  /** A target is kept exactly when its query id has a character that is not white space. */
  lemma FilterQueryIff(t: Target)
    ensures FilterQuery(t) <==> t.queryId.Some? && exists i :: 0 <= i < |t.queryId.value| && !IsWhitespace(t.queryId.value[i])
  {
    if t.queryId.Some? {
      TrimEmptyIffBlank(t.queryId.value);
    }
  }

  /** The targets `query` keeps, in request order. */
  function ActiveQueries(targets: seq<Target>): seq<Target> {
    if targets == [] then []
    else
      var rest := ActiveQueries(targets[1..]);
      if FilterQuery(targets[0]) then [targets[0]] + rest else rest
  }

  /** The kept targets are exactly the targets that pass the filter, and no more of them. */
  lemma {:induction false} ActiveQueriesMembers(targets: seq<Target>)
    ensures forall t :: t in ActiveQueries(targets) <==> t in targets && FilterQuery(t)
    ensures |ActiveQueries(targets)| <= |targets|
  {
    if targets != [] {
      ActiveQueriesMembers(targets[1..]);
      assert forall t :: t in targets <==> t == targets[0] || t in targets[1..];
    }
  }

  /** One target is kept, once, exactly when the filter accepts it. */
  lemma ActiveQueriesSingle(t: Target)
    ensures ActiveQueries([t]) == if FilterQuery(t) then [t] else []
  {
  }

  /** The filter works target by target: it keeps the request order and every repetition. */
  lemma {:induction false} ActiveQueriesConcat(a: seq<Target>, b: seq<Target>)
    ensures ActiveQueries(a + b) == ActiveQueries(a) + ActiveQueries(b)
  {
    if a == [] {
      assert a + b == b;
    } else {
      var t, rest := a[0], a[1..];
      ActiveQueriesConcat(rest, b);
      var x, y := ActiveQueries(rest), ActiveQueries(b);
      assert a + b == [t] + (rest + b) && a == [t] + rest;
      ActiveQueriesCons(t, rest + b);
      ActiveQueriesCons(t, rest);
      if FilterQuery(t) {
        ConcatAssoc([t], x, y);
      } else {
        assert ActiveQueries(a + b) == x + y;
      }
    }
  }

  lemma ActiveQueriesCons(t: Target, s: seq<Target>)
    ensures ActiveQueries([t] + s) == (if FilterQuery(t) then [t] else []) + ActiveQueries(s)
  {
    assert ([t] + s)[0] == t && ([t] + s)[1..] == s;
  }

  /** `activeQueries.map(t => t.refId || t.queryId)`. */
  function RefIds(targets: seq<Target>): seq<string> {
    seq(|targets|, i requires 0 <= i < |targets| => RefIdOf(targets[i]))
  }

  // ---------------------------------------------------------------------------
  // Observers, pushes and the listener handle
  // ---------------------------------------------------------------------------

  /** An observer, compared by identity. */
  datatype Observer = Observer(id: nat)

  /** One `observer.next({ data, state, key })`. */
  datatype Push = Push(to: Observer, key: string, frames: seq<Frame>, state: LoadingState)

  /** A SignalR reaction listener, reduced to an object identity and its query id. */
  class ReactionListener {
    const queryId: string

    constructor (queryId: string)
      ensures this.queryId == queryId
    {
      this.queryId := queryId;
    }
  }

  datatype BuilderEntry = BuilderEntry(builder: Builder, mode: string)

  /** What a reload request gets back: the snapshot rows, or a timeout or failure. */
  datatype ReloadOutcome = Delivered(data: seq<Row>) | Failed

  datatype ReloadResult = Resolved | Rejected

  // ---------------------------------------------------------------------------
  // Sequence helpers: Array.indexOf/splice and the insertion-ordered Set
  // ---------------------------------------------------------------------------

  /** `s.indexOf(x)`. */
  function FirstIndex<T(==)>(s: seq<T>, x: T): (i: int)
    ensures -1 <= i < |s|
    ensures i >= 0 ==> s[i] == x && x !in s[..i]
    ensures i == -1 <==> x !in s
  {
    if s == [] then -1
    else if s[0] == x then 0
    else
      var j := FirstIndex(s[1..], x);
      assert s == [s[0]] + s[1..];
      if j == -1 then -1
      else
        assert s[1..][..j] == s[1..j + 1];
        assert s[..j + 1] == [s[0]] + s[1..j + 1];
        j + 1
  }

  /** `const i = s.indexOf(x); if (i > -1) s.splice(i, 1);`, also `Set.delete` on a duplicate-free list. */
  function RemoveFirst<T(==)>(s: seq<T>, x: T): seq<T> {
    var index := FirstIndex(s, x);
    if index > -1 then s[..index] + s[index + 1..] else s
  }

  /**
   * Removing removes exactly one occurrence, when there is one: the first, with the rest
   * kept in order.
   */
  lemma RemoveFirstRemovesOne<T>(s: seq<T>, x: T)
    ensures x in s ==> multiset(RemoveFirst(s, x)) == multiset(s) - multiset{x} && |RemoveFirst(s, x)| == |s| - 1
    ensures x in s ==> exists i :: 0 <= i < |s| && s[i] == x && x !in s[..i] && RemoveFirst(s, x) == s[..i] + s[i + 1..]
    ensures x !in s ==> RemoveFirst(s, x) == s
  {
    var index := FirstIndex(s, x);
    if index > -1 {
      assert s[index] == x && x !in s[..index];
      assert s == s[..index] + [x] + s[index + 1..];
      calc {
        multiset(s);
        multiset(s[..index] + [x] + s[index + 1..]);
        multiset(s[..index]) + multiset{x} + multiset(s[index + 1..]);
      }
    }
  }

  /** `set.add(x)` on an insertion-ordered set. */
  function AddRef(s: seq<string>, x: string): seq<string> {
    if x in s then s else s + [x]
  }

  lemma AddRefDistinct(s: seq<string>, x: string)
    requires Distinct(s)
    ensures Distinct(AddRef(s, x)) && x in AddRef(s, x)
    ensures forall y :: y in AddRef(s, x) <==> y in s || y == x
  {
  }

  lemma RemoveFirstDistinct(s: seq<string>, x: string)
    requires Distinct(s)
    ensures Distinct(RemoveFirst(s, x))
    ensures forall y :: y in RemoveFirst(s, x) <==> y in s && y != x
  {
    var index := FirstIndex(s, x);
    if index > -1 {
      var r := s[..index] + s[index + 1..];
      assert forall j :: 0 <= j < |r| ==> r[j] == if j < index then s[j] else s[j + 1];
      forall y ensures y in r <==> y in s && y != x {
        if y in s && y != x {
          var j :| 0 <= j < |s| && s[j] == y;
          assert j != index;
          assert r[if j < index then j else j - 1] == y;
        }
        if y in r {
          var j :| 0 <= j < |r| && r[j] == y;
          var j' := if j < index then j else j + 1;
          assert s[j'] == y && j' != index;
        }
      }
    }
  }

  function Bound(m: map<string, seq<string>>, queryId: string): seq<string> {
    if queryId in m then m[queryId] else []
  }

  function ObserversOf(m: map<string, seq<Observer>>, refId: string): seq<Observer> {
    if refId in m then m[refId] else []
  }

  // ---------------------------------------------------------------------------
  // The four maps, and the pure effect of attaching and detaching a target
  // ---------------------------------------------------------------------------

  datatype Maps = Maps(
    listeners: map<string, ReactionListener>,
    builders: map<string, BuilderEntry>,
    queryIdToRefIds: map<string, seq<string>>,
    observers: map<string, seq<Observer>>)

  /** The bookkeeping invariants the maps keep. */
  predicate WellFormed(t: Maps) {
    RefSetsDistinct(t.queryIdToRefIds) && ObserversNonEmpty(t.observers)
  }

  /** Each query id's refIds form a set. */
  predicate RefSetsDistinct(m: map<string, seq<string>>) {
    forall q | q in m :: Distinct(m[q])
  }

  /** A refId's observer list is deleted when it empties. */
  predicate ObserversNonEmpty(m: map<string, seq<Observer>>) {
    forall r | r in m :: m[r] != []
  }

  /**
   * The map effect of one iteration of the setup loop: the observer is appended to the
   * refId's list, the refId joins the query id's set, `entry` is the builder entry
   * getOrCreateBuilder leaves in place and `listener` the listener getOrCreateListener
   * finds or creates.
   */
  function Attach(t: Maps, target: Target, observer: Observer, entry: BuilderEntry, listener: ReactionListener): Maps {
    var refId, queryId := RefIdOf(target), Qid(target);
    Maps(
      if queryId in t.listeners then t.listeners else t.listeners[queryId := listener],
      t.builders[refId := entry],
      t.queryIdToRefIds[queryId := AddRef(Bound(t.queryIdToRefIds, queryId), refId)],
      t.observers[refId := ObserversOf(t.observers, refId) + [observer]])
  }

  /** The cleanup closure's body for one target. */
  function Detach(t: Maps, target: Target, observer: Observer): Maps {
    var refId, queryId := RefIdOf(target), Qid(target);
    if refId !in t.observers then t
    else
      var remaining := RemoveFirst(t.observers[refId], observer);
      if remaining != [] then t.(observers := t.observers[refId := remaining])
      else
        var t1 := t.(observers := t.observers - {refId}, builders := t.builders - {refId});
        if queryId !in t1.queryIdToRefIds then t1
        else
          var refIds := RemoveFirst(t1.queryIdToRefIds[queryId], refId);
          if refIds != [] then t1.(queryIdToRefIds := t1.queryIdToRefIds[queryId := refIds])
          else t1.(queryIdToRefIds := t1.queryIdToRefIds - {queryId}, listeners := t1.listeners - {queryId})
  }

  /** The cleanup closure: detach every target, in order. */
  function DetachAll(t: Maps, targets: seq<Target>, observer: Observer): Maps {
    if targets == [] then t else Detach(DetachAll(t, targets[..|targets| - 1], observer), targets[|targets| - 1], observer)
  }

  lemma AttachWellFormed(t: Maps, target: Target, observer: Observer, entry: BuilderEntry, listener: ReactionListener)
    requires WellFormed(t)
    ensures WellFormed(Attach(t, target, observer, entry, listener))
  {
    AddRefDistinct(Bound(t.queryIdToRefIds, Qid(target)), RefIdOf(target));
  }

  /** Detaching either keeps the builders or drops the target's refId from them. */
  lemma DetachBuilders(t: Maps, target: Target, observer: Observer)
    ensures var d := Detach(t, target, observer);
      d.builders == if RefIdOf(target) in d.builders then t.builders else t.builders - {RefIdOf(target)}
  {
  }

  lemma DetachWellFormed(t: Maps, target: Target, observer: Observer)
    requires WellFormed(t)
    ensures WellFormed(Detach(t, target, observer))
  {
    var queryId := Qid(target);
    if queryId in t.queryIdToRefIds {
      RemoveFirstDistinct(t.queryIdToRefIds[queryId], RefIdOf(target));
    }
  }

  /**
   * Detaching while other observers of the refId remain removes one occurrence of the
   * observer from its list and changes nothing else.
   */
  lemma DetachWhileWatched(t: Maps, target: Target, observer: Observer)
    requires WellFormed(t) && RefIdOf(target) in t.observers
    requires |t.observers[RefIdOf(target)]| > 1 || observer !in t.observers[RefIdOf(target)]
    ensures var t' := Detach(t, target, observer); var r := RefIdOf(target);
      && t'.listeners == t.listeners && t'.builders == t.builders && t'.queryIdToRefIds == t.queryIdToRefIds
      && t'.observers.Keys == t.observers.Keys
      && (forall r2 | r2 in t.observers && r2 != r :: t'.observers[r2] == t.observers[r2])
      && multiset(t'.observers[r]) == multiset(t.observers[r]) - multiset{observer}
  {
    var r := RefIdOf(target);
    RemoveFirstRemovesOne(t.observers[r], observer);
  }

  /**
   * Detaching the last observer of a refId removes the refId from `observers`, from
   * `builders` and from its query id's set; the query id and its listener go too exactly
   * when no other refId remains bound to it.
   */
  lemma DetachLastObserver(t: Maps, target: Target, observer: Observer)
    requires WellFormed(t)
    requires RefIdOf(target) in t.observers && t.observers[RefIdOf(target)] == [observer]
    ensures var t' := Detach(t, target, observer); var r, q := RefIdOf(target), Qid(target);
      && t'.observers == t.observers - {r}
      && t'.builders == t.builders - {r}
      && r !in Bound(t'.queryIdToRefIds, q)
      && (forall r2 :: r2 in Bound(t'.queryIdToRefIds, q) <==> r2 in Bound(t.queryIdToRefIds, q) && r2 != r)
      && (q in t'.queryIdToRefIds <==> exists r2 :: r2 in Bound(t.queryIdToRefIds, q) && r2 != r)
      && (t'.listeners == if q in t'.queryIdToRefIds || q !in t.queryIdToRefIds then t.listeners else t.listeners - {q})
  {
    var r, q := RefIdOf(target), Qid(target);
    assert RemoveFirst([observer], observer) == [];
    if q in t.queryIdToRefIds {
      var refIds := t.queryIdToRefIds[q];
      RemoveFirstDistinct(refIds, r);
      if RemoveFirst(refIds, r) != [] {
        var r2 := RemoveFirst(refIds, r)[0];
        assert r2 in RemoveFirst(refIds, r);
      }
    }
  }

  /**
   * Attaching a target whose refId and query id were unused, then detaching it, gives
   * back the maps as they were.
   */
  lemma AttachDetachRoundTrip(t: Maps, target: Target, observer: Observer, entry: BuilderEntry, listener: ReactionListener)
    requires RefIdOf(target) !in t.observers && RefIdOf(target) !in t.builders
    requires Qid(target) !in t.queryIdToRefIds && Qid(target) !in t.listeners
    ensures Detach(Attach(t, target, observer, entry, listener), target, observer) == t
  {
    var r, q := RefIdOf(target), Qid(target);
    var a := Attach(t, target, observer, entry, listener);
    assert a.observers[r] == [observer];
    assert RemoveFirst([observer], observer) == [];
    assert a.queryIdToRefIds[q] == [r];
    assert RemoveFirst([r], r) == [];
    assert a.observers - {r} == t.observers;
    assert a.builders - {r} == t.builders;
    assert a.queryIdToRefIds - {q} == t.queryIdToRefIds;
    assert a.listeners - {q} == t.listeners;
  }

  /** The maps without their objects: listener ids, builder modes, bindings and observers. */
  datatype Registry = Registry(
    listenerIds: set<string>,
    modes: map<string, string>,
    queryIdToRefIds: map<string, seq<string>>,
    observers: map<string, seq<Observer>>)

  function Modes(builders: map<string, BuilderEntry>): map<string, string> {
    map r | r in builders :: builders[r].mode
  }

  function Shape(t: Maps): Registry {
    Registry(t.listeners.Keys, Modes(t.builders), t.queryIdToRefIds, t.observers)
  }

  /** One setup-loop iteration on the registry: watch, bind, pick the builder mode, listen. */
  function Register(g: Registry, target: Target, observer: Observer): Registry {
    var refId, queryId := RefIdOf(target), Qid(target);
    Registry(
      g.listenerIds + {queryId},
      g.modes[refId := ModeOf(target)],
      g.queryIdToRefIds[queryId := AddRef(Bound(g.queryIdToRefIds, queryId), refId)],
      g.observers[refId := ObserversOf(g.observers, refId) + [observer]])
  }

  function RegisterAll(g: Registry, targets: seq<Target>, observer: Observer): Registry {
    if targets == [] then g else Register(RegisterAll(g, targets[..|targets| - 1], observer), targets[|targets| - 1], observer)
  }

  lemma RegisterAllSnoc(g: Registry, targets: seq<Target>, i: nat, observer: Observer)
    requires i < |targets|
    ensures RegisterAll(g, targets[..i + 1], observer) == Register(RegisterAll(g, targets[..i], observer), targets[i], observer)
  {
    assert targets[..i + 1][..i] == targets[..i];
  }

  /** Attaching with an entry of the target's mode is registering. */
  lemma AttachRegisters(t: Maps, target: Target, observer: Observer, entry: BuilderEntry, listener: ReactionListener)
    requires entry.mode == ModeOf(target)
    ensures Shape(Attach(t, target, observer, entry, listener)) == Register(Shape(t), target, observer)
  {
    var a := Attach(t, target, observer, entry, listener);
    assert Modes(a.builders) == Modes(t.builders)[RefIdOf(target) := ModeOf(target)];
  }

  /**
   * After the setup loop, every registered target's observer is watching its refId, its
   * refId is bound to its query id, and its query id has a listener; the refId has a
   * builder, whose mode is that of the last target registered for it.
   */
  lemma {:induction false} RegisterAllWatches(g: Registry, targets: seq<Target>, observer: Observer, i: nat)
    requires i < |targets|
    ensures var g' := RegisterAll(g, targets, observer);
      && observer in ObserversOf(g'.observers, RefIdOf(targets[i]))
      && RefIdOf(targets[i]) in Bound(g'.queryIdToRefIds, Qid(targets[i]))
      && Qid(targets[i]) in g'.listenerIds
      && RefIdOf(targets[i]) in g'.modes
      && ((forall j :: i < j < |targets| ==> RefIdOf(targets[j]) != RefIdOf(targets[i])) ==>
            g'.modes[RefIdOf(targets[i])] == ModeOf(targets[i]))
  {
    var init, last := targets[..|targets| - 1], targets[|targets| - 1];
    if i < |init| {
      assert targets[i] == init[i];
      RegisterAllWatches(g, init, observer, i);
      if forall j :: i < j < |targets| ==> RefIdOf(targets[j]) != RefIdOf(targets[i]) {
        assert RefIdOf(last) != RefIdOf(targets[i]);
        forall j | i < j < |init| ensures RefIdOf(init[j]) != RefIdOf(init[i]) {
          assert init[j] == targets[j];
        }
      }
    }
  }

  /** The reload answer for the `i`-th active target; a missing answer is a timeout. */
  function OutcomeAt(outcomes: seq<ReloadOutcome>, i: nat): ReloadOutcome {
    if i < |outcomes| then outcomes[i] else Failed
  }

  /** The target asks for a start-up snapshot and its reload is rejected. */
  predicate Fails(t: Target, outcome: ReloadOutcome) {
    t.snapshotOnStart && outcome.Failed?
  }

  /** The index of the first target whose start-up snapshot fails, if any. */
  function FirstFailure(active: seq<Target>, outcomes: seq<ReloadOutcome>): (f: Option<nat>)
    ensures f.Some? ==> f.value < |active| && Fails(active[f.value], OutcomeAt(outcomes, f.value))
    ensures f.Some? ==> forall k :: 0 <= k < f.value ==> !Fails(active[k], OutcomeAt(outcomes, k))
    ensures f.None? ==> forall k :: 0 <= k < |active| ==> !Fails(active[k], OutcomeAt(outcomes, k))
  {
    if active == [] then None
    else
      var f := FirstFailure(active[..|active| - 1], outcomes);
      if f.Some? then f
      else if Fails(active[|active| - 1], OutcomeAt(outcomes, |active| - 1)) then Some(|active| - 1)
      else None
  }

  /** A failure found in a prefix is the first failure of the whole sequence. */
  lemma {:induction false} FirstFailurePrefix(active: seq<Target>, outcomes: seq<ReloadOutcome>, j: nat)
    requires j <= |active| && FirstFailure(active[..j], outcomes).Some?
    ensures FirstFailure(active, outcomes) == FirstFailure(active[..j], outcomes)
    decreases |active|
  {
    if j == |active| {
      assert active[..j] == active;
    } else {
      var init := active[..|active| - 1];
      assert init[..j] == active[..j];
      FirstFailurePrefix(init, outcomes, j);
    }
  }

  /** How many targets the setup loop registers: all, or up to and including the first failure. */
  function SetupCount(active: seq<Target>, outcomes: seq<ReloadOutcome>): (n: nat)
    ensures n <= |active|
  {
    var f := FirstFailure(active, outcomes);
    if f.Some? then f.value + 1 else |active|
  }

  // ---------------------------------------------------------------------------
  // Fan-out of one builder action to every bound refId
  // ---------------------------------------------------------------------------

  /** One push per observer, in registration order. */
  function Notify(obs: seq<Observer>, key: string, resp: BuilderResponse): seq<Push> {
    seq(|obs|, i requires 0 <= i < |obs| => Push(obs[i], key, resp.frames, resp.state))
  }

  /** What each builder answers to one action. */
  function Responses(states: map<string, BuilderState>, act: Action): map<string, BuilderResponse> {
    map r | r in states :: Apply(states[r], act).1
  }

  /**
   * The pushes of a fan-out over `refIds`: each refId that has a builder notifies its
   * observers of that builder's response.
   */
  function FanOut(refIds: seq<string>, responses: map<string, BuilderResponse>, observers: map<string, seq<Observer>>): seq<Push> {
    if refIds == [] then []
    else
      var last := refIds[|refIds| - 1];
      FanOut(refIds[..|refIds| - 1], responses, observers)
      + (if last in responses then Notify(ObserversOf(observers, last), last, responses[last]) else [])
  }

  /** The pushes keyed by `key`. */
  function KeyedBy(ps: seq<Push>, key: string): seq<Push> {
    if ps == [] then []
    else KeyedBy(ps[..|ps| - 1], key) + (if ps[|ps| - 1].key == key then [ps[|ps| - 1]] else [])
  }

  lemma {:induction false} KeyedByConcat(a: seq<Push>, b: seq<Push>, key: string)
    ensures KeyedBy(a + b, key) == KeyedBy(a, key) + KeyedBy(b, key)
    decreases |b|
  {
    if b == [] {
      assert a + b == a;
    } else {
      var init, last := b[..|b| - 1], b[|b| - 1];
      assert a + b == (a + init) + [last];
      assert (a + b)[..|a + b| - 1] == a + init;
      KeyedByConcat(a, init, key);
    }
  }

  lemma {:induction false} KeyedByNotify(obs: seq<Observer>, k: string, resp: BuilderResponse, key: string)
    ensures KeyedBy(Notify(obs, k, resp), key) == if k == key then Notify(obs, k, resp) else []
  {
    if obs != [] {
      var init := obs[..|obs| - 1];
      KeyedByNotify(init, k, resp, key);
      assert Notify(obs, k, resp)[..|obs| - 1] == Notify(init, k, resp);
    }
  }

  /**
   * The pushes keyed by one refId are exactly one push per observer of that refId, carrying
   * that refId's builder response, when the refId is bound and has a builder; otherwise
   * there are none. No refId receives another refId's frames.
   */
  lemma {:induction false} FanOutByKey(refIds: seq<string>, responses: map<string, BuilderResponse>,
                                       observers: map<string, seq<Observer>>, key: string)
    requires Distinct(refIds)
    ensures KeyedBy(FanOut(refIds, responses, observers), key) ==
      if key in refIds && key in responses then Notify(ObserversOf(observers, key), key, responses[key]) else []
  {
    if refIds != [] {
      var init, last := refIds[..|refIds| - 1], refIds[|refIds| - 1];
      assert refIds == init + [last];
      assert Distinct(init) && last !in init;
      FanOutByKey(init, responses, observers, key);
      var tail := if last in responses then Notify(ObserversOf(observers, last), last, responses[last]) else [];
      assert FanOut(refIds, responses, observers) == FanOut(init, responses, observers) + tail;
      KeyedByConcat(FanOut(init, responses, observers), tail, key);
      if last in responses {
        KeyedByNotify(ObserversOf(observers, last), last, responses[last], key);
      }
      if key == last {
        assert KeyedBy(FanOut(init, responses, observers), key) == [];
      } else {
        assert KeyedBy(tail, key) == [];
        assert key in refIds <==> key in init;
      }
    }
  }

  /** Every push goes to an observer of its key, and its key is a bound refId with a builder. */
  lemma {:induction false} FanOutKeys(refIds: seq<string>, responses: map<string, BuilderResponse>, observers: map<string, seq<Observer>>)
    ensures forall p | p in FanOut(refIds, responses, observers) ::
      p.key in refIds && p.key in responses && p.to in ObserversOf(observers, p.key)
  {
    if refIds != [] {
      var init, last := refIds[..|refIds| - 1], refIds[|refIds| - 1];
      FanOutKeys(init, responses, observers);
      assert forall r | r in init :: r in refIds;
    }
  }

  /** A reload answers `Done` to every observer of every bound refId. */
  lemma {:induction false} FanOutReloadDone(refIds: seq<string>, states: map<string, BuilderState>,
                                            observers: map<string, seq<Observer>>, data: seq<Row>, now: int)
    requires forall r | r in states :: states[r].Consistent()
    ensures forall p | p in FanOut(refIds, Responses(states, ReloadAction(data, now)), observers) :: p.state == Done
  {
    if refIds != [] {
      var last := refIds[|refIds| - 1];
      FanOutReloadDone(refIds[..|refIds| - 1], states, observers, data, now);
      if last in states {
        ApplyKeepsBuilder(states[last], ReloadAction(data, now));
      }
    }
  }

  /** Every builder is valid and is held under one refId only. */
  ghost predicate EntriesValid(entries: map<string, BuilderEntry>, repr: set<object>)
    reads repr
  {
    && (forall r | r in entries :: entries[r].builder.Obj() in repr && entries[r].builder.Valid())
    && (forall r1, r2 | r1 in entries && r2 in entries && r1 != r2 ::
          entries[r1].builder.Obj() != entries[r2].builder.Obj())
  }

  lemma EntriesValidRemove(entries: map<string, BuilderEntry>, refId: string, repr: set<object>)
    requires EntriesValid(entries, repr)
    ensures EntriesValid(entries - {refId}, repr)
  {
  }

  /** `refIdObservers.forEach(observer => observer.next({ data, state, key }))`. */
  method Deliver(obs: seq<Observer>, key: string, resp: BuilderResponse) returns (pushes: seq<Push>)
    ensures pushes == Notify(obs, key, resp)
  {
    pushes := [];
    for j := 0 to |obs|
      invariant pushes == Notify(obs[..j], key, resp)
    {
      pushes := pushes + [Push(obs[j], key, resp.frames, resp.state)];
    }
    assert obs[..|obs|] == obs;
  }

  // ---------------------------------------------------------------------------
  // The data source
  // ---------------------------------------------------------------------------

  twostate lemma BuilderUnchanged(b: Builder)
    requires unchanged(b.Obj())
    ensures b.Valid() == old(b.Valid()) && b.State() == old(b.State())
  {
  }

  class DataSource {
    var listeners: map<string, ReactionListener>
    var builders: map<string, BuilderEntry>
    var queryIdToRefIds: map<string, seq<string>>
    var observers: map<string, seq<Observer>>

    function Tables(): Maps
      reads this`listeners, this`builders, this`queryIdToRefIds, this`observers
    {
      Maps(listeners, builders, queryIdToRefIds, observers)
    }

    /** The builder objects the data source holds or has held. */
    ghost var Repr: set<object>

    /** The builder objects the data source holds. */
    ghost function Objects(): set<object>
      reads this`builders
    {
      set r | r in builders :: builders[r].builder.Obj()
    }

    /** The state of every builder, by refId. */
    ghost function States(): map<string, BuilderState>
      reads this`builders, Objects()
    {
      map r | r in builders :: builders[r].builder.State()
    }

    ghost predicate Bookkept()
      reads this`queryIdToRefIds, this`observers
    {
      RefSetsDistinct(queryIdToRefIds) && ObserversNonEmpty(observers)
    }

    ghost predicate BuildersValid()
      reads this`builders, this`Repr, Repr
    {
      this !in Repr && EntriesValid(builders, Repr)
    }

    ghost predicate Valid()
      reads this`queryIdToRefIds, this`observers, this`builders, this`Repr, Repr
    {
      Bookkept() && BuildersValid()
    }

    constructor ()
      ensures Valid() && Tables() == Maps(map[], map[], map[], map[])
    {
      listeners := map[];
      builders := map[];
      queryIdToRefIds := map[];
      observers := map[];
      Repr := {};
    }

    /** getOrCreateListener: at most one listener per query id. */
    method GetOrCreateListener(queryId: string) returns (listener: ReactionListener)
      modifies this`listeners
      ensures queryId in listeners && listener == listeners[queryId]
      ensures queryId in old(listeners) ==> listeners == old(listeners)
      ensures queryId !in old(listeners) ==> fresh(listener) && listeners == old(listeners)[queryId := listener]
    {
      if queryId !in listeners {
        listener := new ReactionListener(queryId);
        listeners := listeners[queryId := listener];
      }
      listener := listeners[queryId];
    }

    /**
     * Every builder whose refId is in `refIds` has applied `act` once; every other
     * builder kept its state.
     */
    twostate predicate Applied(refIds: seq<string>, act: Action)
      reads this, Objects()
    {
      && builders == old(builders)
      && forall r | r in builders :: builders[r].builder.State() ==
          if r in refIds then Apply(old(builders[r].builder.State()), act).0 else old(builders[r].builder.State())
    }

    /** The builders other than `refId`'s keep their state across a change of the heap. */
    twostate predicate OthersKept(refId: string)
      reads this, Objects()
    {
      forall r | r in old(builders) && r != refId :: r in builders && builders[r] == old(builders)[r]
        && builders[r].builder.State() == old(builders[r].builder.State())
    }

    /** `existingEntry.builder.clear(); this.builders.delete(refId);` */
    method DropBuilder(refId: string)
      requires Valid() && refId in builders
      modifies this`builders, Repr
      ensures Valid()
      ensures builders == old(builders) - {refId} && OthersKept(refId)
      ensures old(builders)[refId].builder.State().Empty()
    {
      var existing := builders[refId].builder;
      assert forall r | r in builders && r != refId :: builders[r].builder.Obj() != existing.Obj();
      Clear(existing);
      forall r | r in builders && r != refId
        ensures builders[r].builder.Valid() && builders[r].builder.State() == old(builders[r].builder.State())
      {
        BuilderUnchanged(builders[r].builder);
      }
      builders := builders - {refId};
    }

    /** `this.builders.set(refId, { builder: FrameBuilderFactory.createBuilder(mode, queryId, refId), mode })`. */
    method AddBuilder(refId: string, queryId: string, mode: string) returns (b: Builder)
      requires Valid() && refId !in builders
      modifies this`builders, this`Repr
      ensures Valid()
      ensures builders == old(builders)[refId := BuilderEntry(b, mode)] && OthersKept(refId)
      ensures Repr == old(Repr) + {b.Obj()}
      ensures fresh(b.Obj()) && b.State() == F.Initial(F.SelectVariant(Some(mode)), Or(Some(refId), queryId))
    {
      b := F.CreateBuilder(Some(mode), queryId, Some(refId));
      forall r | r in builders
        ensures builders[r].builder.Valid() && builders[r].builder.Obj() != b.Obj()
        ensures builders[r].builder.State() == old(builders[r].builder.State())
      {
        BuilderUnchanged(builders[r].builder);
      }
      builders := builders[refId := BuilderEntry(b, mode)];
      Repr := Repr + {b.Obj()};
    }

    /**
     * getOrCreateBuilder: keep a builder of the same mode, clear and replace one of
     * another mode, create one when there is none.
     */
    method GetOrCreateBuilder(refId: string, queryId: string, mode: string) returns (b: Builder)
      requires Valid()
      modifies this`builders, this`Repr, Repr
      ensures Valid()
      ensures builders == old(builders)[refId := BuilderEntry(b, mode)] && OthersKept(refId)
      ensures Repr == old(Repr) || (fresh(b.Obj()) && Repr == old(Repr) + {b.Obj()})
      ensures refId in old(builders) && old(builders)[refId].mode == mode ==>
        b == old(builders)[refId].builder && b.State() == old(b.State())
      ensures !(refId in old(builders) && old(builders)[refId].mode == mode) ==>
        fresh(b.Obj()) && b.State() == F.Initial(F.SelectVariant(Some(mode)), Or(Some(refId), queryId))
      ensures refId in old(builders) && old(builders)[refId].mode != mode ==>
        old(builders)[refId].builder.State().Empty()
    {
      if refId in builders && builders[refId].mode == mode {
        b := builders[refId].builder;
        return;
      }
      if refId in builders {
        DropBuilder(refId);
      }
      b := AddBuilder(refId, queryId, mode);
    }

    /** `builderEntry.builder.processChange(event)` or `processReload(data)` on one refId's builder. */
    method ApplyToBuilder(refId: string, act: Action) returns (result: BuilderResponse)
      requires Valid() && refId in builders
      modifies Repr
      ensures Valid() && unchanged(this) && Applied([refId], act)
      ensures result == Apply(old(builders[refId].builder.State()), act).1
    {
      var builder := builders[refId].builder;
      if act.ChangeAction? {
        result := ProcessChange(builder, act.event, act.now);
      } else {
        result := ProcessReload(builder, act.data, act.now);
      }
      forall r | r in builders && r != refId
        ensures builders[r].builder.Valid() && builders[r].builder.State() == old(builders[r].builder.State())
      {
        BuilderUnchanged(builders[r].builder);
      }
    }

    /**
     * The builder states are those of `s0` with `act` applied to the builders of `done`;
     * the same builders as in `s0` are present.
     */
    ghost predicate AppliedFrom(s0: map<string, BuilderState>, done: seq<string>, act: Action)
      reads this`builders, Objects()
    {
      && builders.Keys == s0.Keys
      && forall r | r in builders :: builders[r].builder.State() == if r in done then Apply(s0[r], act).0 else s0[r]
    }

    /** One round of the fan-out loop: the refId's builder processes the action, its observers hear the response. */
    method FanOutStep(ghost s0: map<string, BuilderState>, ghost done: seq<string>, refId: string, act: Action)
      returns (delivered: seq<Push>)
      requires Valid() && AppliedFrom(s0, done, act) && refId !in done
      modifies Repr
      ensures Valid() && unchanged(this) && AppliedFrom(s0, done + [refId], act)
      ensures delivered == if refId in s0 then Notify(ObserversOf(observers, refId), refId, Apply(s0[refId], act).1) else []
    {
      delivered := [];
      if refId in builders {
        var result := ApplyToBuilder(refId, act);
        delivered := Deliver(ObserversOf(observers, refId), refId, result);
      }
    }

    /**
     * The listener callback and the reload callback: apply one action to the builder of
     * every refId bound to `queryId` and notify each refId's observers of the response.
     */
    method FanOutAction(queryId: string, act: Action) returns (pushes: seq<Push>)
      requires Valid()
      modifies Repr
      ensures Valid()
      ensures unchanged(this) && Applied(Bound(queryIdToRefIds, queryId), act)
      ensures pushes == FanOut(Bound(queryIdToRefIds, queryId), Responses(old(States()), act), observers)
    {
      var refIds := Bound(queryIdToRefIds, queryId);
      if |refIds| == 0 {
        return [];
      }
      assert Distinct(refIds);
      ghost var s0 := States();
      pushes := [];
      for i := 0 to |refIds|
        invariant Valid() && unchanged(this) && AppliedFrom(s0, refIds[..i], act)
        invariant pushes == FanOut(refIds[..i], Responses(s0, act), observers)
      {
        TakeStep(refIds, i);
        DistinctFresh(refIds, i);
        var delivered := FanOutStep(s0, refIds[..i], refIds[i], act);
        pushes := pushes + delivered;
      }
      TakeAll(refIds);
    }

    /** The listener's change callback. */
    method OnChange(queryId: string, event: ChangeEvent, now: int) returns (pushes: seq<Push>)
      requires Valid()
      modifies Repr
      ensures Valid()
      ensures unchanged(this) && Applied(Bound(queryIdToRefIds, queryId), ChangeAction(event, now))
      ensures pushes == FanOut(Bound(queryIdToRefIds, queryId), Responses(old(States()), ChangeAction(event, now)), observers)
    {
      pushes := FanOutAction(queryId, ChangeAction(event, now));
    }

    /**
     * performReload, with the answer to the reload request as an input; also what the
     * reconnection handler runs.
     */
    method PerformReload(queryId: string, outcome: ReloadOutcome, now: int) returns (result: ReloadResult, pushes: seq<Push>)
      requires Valid()
      modifies this`listeners, Repr
      ensures Valid()
      ensures queryId in listeners && (queryId in old(listeners) ==> listeners == old(listeners))
      ensures listeners.Keys == old(listeners).Keys + {queryId}
      ensures outcome.Failed? ==> result == Rejected && pushes == [] && Applied([], ReloadAction([], now))
      ensures outcome.Delivered? ==> result == Resolved
      ensures outcome.Delivered? ==>
        Applied(Bound(queryIdToRefIds, queryId), ReloadAction(outcome.data, now))
      ensures outcome.Delivered? ==>
        pushes == FanOut(Bound(queryIdToRefIds, queryId), Responses(old(States()), ReloadAction(outcome.data, now)), observers)
      ensures forall p | p in pushes :: p.state == Done && p.key in Bound(queryIdToRefIds, queryId)
    {
      var listener := GetOrCreateListener(queryId);
      if outcome.Failed? {
        return Rejected, [];
      }
      assert States() == old(States());
      ghost var responses := Responses(States(), ReloadAction(outcome.data, now));
      FanOutReloadDone(Bound(queryIdToRefIds, queryId), States(), observers, outcome.data, now);
      FanOutKeys(Bound(queryIdToRefIds, queryId), responses, observers);
      pushes := FanOutAction(queryId, ReloadAction(outcome.data, now));
      result := Resolved;
    }

    /** `this.observers.get(refId)!.push(observer)`, creating the list when missing. */
    method Watch(refId: string, observer: Observer)
      requires Valid()
      modifies this`observers
      ensures Valid() && observers == old(observers)[refId := ObserversOf(old(observers), refId) + [observer]]
    {
      observers := observers[refId := ObserversOf(observers, refId) + [observer]];
    }

    /** `this.queryIdToRefIds.get(queryId)!.add(refId)`, creating the set when missing. */
    method Bind(queryId: string, refId: string)
      requires Valid()
      modifies this`queryIdToRefIds
      ensures Valid()
      ensures queryIdToRefIds == old(queryIdToRefIds)[queryId := AddRef(Bound(old(queryIdToRefIds), queryId), refId)]
    {
      AddRefDistinct(Bound(queryIdToRefIds, queryId), refId);
      queryIdToRefIds := queryIdToRefIds[queryId := AddRef(Bound(queryIdToRefIds, queryId), refId)];
    }

    /**
     * The registration half of one setup-loop iteration: add the observer and the
     * binding, then get or create the builder and the listener.
     */
    method RegisterTarget(target: Target, observer: Observer) returns (builder: Builder)
      requires Valid()
      modifies this, Repr
      ensures Valid()
      ensures forall o | o in Repr :: o in old(Repr) || fresh(o)
      ensures RefIdOf(target) in builders && Qid(target) in listeners
      ensures builder == builders[RefIdOf(target)].builder && builders[RefIdOf(target)].mode == ModeOf(target)
      ensures Tables() == Attach(old(Tables()), target, observer, builders[RefIdOf(target)], listeners[Qid(target)])
    {
      var refId, queryId := RefIdOf(target), Qid(target);
      Watch(refId, observer);
      Bind(queryId, refId);
      builder := Hold(refId, queryId, ModeOf(target));
      var listener := GetOrCreateListener(queryId);
    }

    /**
     * performReload, stated on `before`, the builders' states it starts from: a rejected
     * reload keeps them, a delivered one reloads the bound ones and fans their answers out.
     */
    method Reload(queryId: string, outcome: ReloadOutcome, now: int)
      returns (result: ReloadResult, pushes: seq<Push>, ghost before: map<string, BuilderState>)
      requires Valid()
      modifies this`listeners, Repr
      ensures Valid() && queryId in listeners && (queryId in old(listeners) ==> listeners == old(listeners))
      ensures before == old(States()) && builders == old(builders) && before.Keys == builders.Keys
      ensures result == if outcome.Failed? then Rejected else Resolved
      ensures outcome.Failed? ==> pushes == [] && States() == before
      ensures outcome.Delivered? ==> forall r | r in before ::
        States()[r] == if r in Bound(queryIdToRefIds, queryId) then Apply(before[r], ReloadAction(outcome.data, now)).0 else before[r]
      ensures outcome.Delivered? ==>
        pushes == FanOut(Bound(queryIdToRefIds, queryId), Responses(before, ReloadAction(outcome.data, now)), observers)
      ensures forall p | p in pushes :: p.state == Done && p.key in Bound(queryIdToRefIds, queryId)
    {
      before := States();
      result, pushes := PerformReload(queryId, outcome, now);
    }

    /**
     * The body of one setup-loop iteration: register the observer and the binding, get
     * or create the builder and the listener, run the start-up snapshot if asked, and
     * return the builder's current frames. `ok` is false when the snapshot is rejected.
     */
    method SetupTarget(target: Target, observer: Observer, outcome: ReloadOutcome, now: int)
      returns (ok: bool, frames: seq<Frame>, pushes: seq<Push>)
      requires Valid()
      modifies this, Repr
      ensures Valid()
      ensures forall o | o in Repr :: o in old(Repr) || fresh(o)
      ensures RefIdOf(target) in builders && Qid(target) in listeners
      ensures Shape(Tables()) == Register(Shape(old(Tables())), target, observer)
      ensures ok <==> !Fails(target, outcome)
      ensures ok ==> frames == GetCurrentFrames(builders[RefIdOf(target)].builder)
      ensures forall p | p in pushes :: p.state == Done && p.key in Bound(queryIdToRefIds, Qid(target))
      ensures !target.snapshotOnStart ==> pushes == []
    {
      var builder := RegisterTarget(target, observer);
      AttachRegisters(old(Tables()), target, observer, builders[RefIdOf(target)], listeners[Qid(target)]);
      pushes := [];
      if target.snapshotOnStart {
        var result;
        ghost var before;
        result, pushes, before := Reload(Qid(target), outcome, now);
        if result == Rejected {
          return false, [], pushes;
        }
      }
      frames := GetCurrentFrames(builder);
      ok := true;
    }

    /**
     * The setup loop of query: set the active targets up in order; a rejected start-up
     * snapshot pushes an error keyed by that target's refId and stops the loop.
     * `outcomes[i]` answers the `i`-th target's snapshot request.
     */
    method SetupLoop(active: seq<Target>, observer: Observer, outcomes: seq<ReloadOutcome>, now: int)
      returns (completed: bool, frames: seq<Frame>, pushes: seq<Push>)
      requires Valid()
      modifies this, Repr
      ensures Valid()
      ensures Shape(Tables()) == RegisterAll(Shape(old(Tables())), active[..SetupCount(active, outcomes)], observer)
      ensures completed <==> FirstFailure(active, outcomes).None?
      ensures completed ==> forall p | p in pushes :: p.state == Done
      ensures !completed ==> |pushes| > 0 && forall p | p in pushes[..|pushes| - 1] :: p.state == Done
      ensures !completed ==>
        pushes[|pushes| - 1] == Push(observer, RefIdOf(active[FirstFailure(active, outcomes).value]), [], Error)
    {
      frames, pushes := [], [];
      for i := 0 to |active|
        invariant Valid()
        invariant forall o | o in Repr :: o in old(Repr) || fresh(o)
        invariant Shape(Tables()) == RegisterAll(Shape(old(Tables())), active[..i], observer)
        invariant FirstFailure(active[..i], outcomes).None?
        invariant forall p | p in pushes :: p.state == Done
      {
        var ok, targetFrames, reloadPushes := SetupTarget(active[i], observer, OutcomeAt(outcomes, i), now);
        RegisterAllSnoc(Shape(old(Tables())), active, i, observer);
        TakeStep(active, i);
        pushes := pushes + reloadPushes;
        if !ok {
          FirstFailurePrefix(active, outcomes, i + 1);
          DropLast(pushes, Push(observer, RefIdOf(active[i]), [], Error));
          pushes := pushes + [Push(observer, RefIdOf(active[i]), [], Error)];
          return false, frames, pushes;
        }
        frames := frames + targetFrames;
      }
      TakeAll(active);
      completed := true;
    }

    /**
     * query: keep the targets with a query id, report an error when none is left, and
     * otherwise run the setup loop; when every target is set up, one `Streaming`
     * response carries all their frames under the joined refIds.
     */
    method Query(targets: seq<Target>, observer: Observer, outcomes: seq<ReloadOutcome>, now: int)
      returns (active: seq<Target>, pushes: seq<Push>)
      requires Valid()
      modifies this, Repr
      ensures Valid()
      ensures active == ActiveQueries(targets)
      ensures active == [] ==> pushes == [Push(observer, "error", [], Error)] && Tables() == old(Tables())
      ensures active != [] ==>
        Shape(Tables()) == RegisterAll(Shape(old(Tables())), active[..SetupCount(active, outcomes)], observer)
      ensures |pushes| > 0 && forall p | p in pushes[..|pushes| - 1] :: p.state == Done
      ensures active != [] && FirstFailure(active, outcomes).Some? ==>
        pushes[|pushes| - 1] == Push(observer, RefIdOf(active[FirstFailure(active, outcomes).value]), [], Error)
      ensures active != [] && FirstFailure(active, outcomes).None? ==>
        pushes[|pushes| - 1] == Push(observer, Join(RefIds(active), ","), pushes[|pushes| - 1].frames, Streaming)
    {
      active := ActiveQueries(targets);
      if |active| == 0 {
        return active, [Push(observer, "error", [], Error)];
      }
      var completed, frames;
      completed, frames, pushes := SetupLoop(active, observer, outcomes, now);
      if completed {
        var done := pushes;
        pushes := pushes + [Push(observer, Join(RefIds(active), ","), frames, Streaming)];
        assert pushes[..|pushes| - 1] == done;
      }
    }

    /** `this.builders.delete(refId)`, without clearing the builder. */
    method ForgetBuilder(refId: string)
      requires BuildersValid()
      modifies this`builders
      ensures BuildersValid() && builders == old(builders) - {refId}
    {
      EntriesValidRemove(builders, refId, Repr);
      builders := builders - {refId};
    }

    /** Stores new bookkeeping maps, leaving the builders alone. */
    method SetBookkeeping(l: map<string, ReactionListener>, q: map<string, seq<string>>, o: map<string, seq<Observer>>)
      requires BuildersValid() && RefSetsDistinct(q) && ObserversNonEmpty(o)
      modifies this`listeners, this`queryIdToRefIds, this`observers
      ensures Valid() && listeners == l && queryIdToRefIds == q && observers == o
    {
      listeners, queryIdToRefIds, observers := l, q, o;
    }

    /** The cleanup closure's body for one target. */
    method DetachTarget(target: Target, observer: Observer)
      requires Valid()
      modifies this`observers, this`builders, this`queryIdToRefIds, this`listeners
      ensures Valid()
      ensures Tables() == Detach(old(Tables()), target, observer)
    {
      var refId := RefIdOf(target);
      var t := Detach(Tables(), target, observer);
      DetachWellFormed(Tables(), target, observer);
      DetachBuilders(Tables(), target, observer);
      if refId !in t.builders {
        ForgetBuilder(refId);
      }
      SetBookkeeping(t.listeners, t.queryIdToRefIds, t.observers);
    }

    /** The cleanup closure `query` returns: detach the observer from every active target. */
    method Cleanup(active: seq<Target>, observer: Observer)
      requires Valid()
      modifies this`observers, this`builders, this`queryIdToRefIds, this`listeners
      ensures Valid()
      ensures Tables() == DetachAll(old(Tables()), active, observer)
    {
      for i := 0 to |active|
        invariant Valid()
        invariant Tables() == DetachAll(old(Tables()), active[..i], observer)
      {
        assert active[..i + 1][..i] == active[..i];
        DetachTarget(active[i], observer);
      }
      assert active[..|active|] == active;
    }

    /** getOrCreateBuilder, stated by what the registering callers rely on. */
    method Hold(refId: string, queryId: string, mode: string) returns (b: Builder)
      requires Valid()
      modifies this`builders, this`Repr, Repr
      ensures Valid()
      ensures builders == old(builders)[refId := BuilderEntry(b, mode)]
      ensures forall o | o in Repr :: o in old(Repr) || fresh(o)
    {
      b := GetOrCreateBuilder(refId, queryId, mode);
    }

    /**
     * The set-up half of reloadSnapshot: when no refId is bound to `queryId`, bind
     * `refId` to it, get or create a replace builder for `refId` (kept when `refId`
     * already has one, fresh otherwise) and ensure the listener; otherwise change nothing.
     */
    method Activate(queryId: string, refId: string)
      requires Valid()
      modifies this`queryIdToRefIds, this`builders, this`listeners, this`Repr, Repr
      ensures Valid()
      ensures forall o | o in Repr :: o in old(Repr) || fresh(o)
      ensures Bound(old(queryIdToRefIds), queryId) != [] ==>
        queryIdToRefIds == old(queryIdToRefIds) && builders == old(builders) && States() == old(States())
      ensures Bound(old(queryIdToRefIds), queryId) == [] ==>
        && queryIdToRefIds == old(queryIdToRefIds)[queryId := [refId]]
        && queryId in listeners
        && builders.Keys == old(builders).Keys + {refId} && builders[refId].mode == "replace"
        && (forall r | r in old(builders) && r != refId :: builders[r] == old(builders)[r] && States()[r] == old(States())[r])
        && (refId in old(builders) && old(builders)[refId].mode == "replace" ==> States()[refId] == old(States())[refId])
        && (!(refId in old(builders) && old(builders)[refId].mode == "replace") ==>
              States()[refId] == F.Initial(F.SelectVariant(Some("replace")), Or(Some(refId), queryId)))
    {
      if queryId in queryIdToRefIds && |queryIdToRefIds[queryId]| != 0 {
        return;
      }
      assert AddRef(Bound(queryIdToRefIds, queryId), refId) == [refId];
      Bind(queryId, refId);
      var builder := GetOrCreateBuilder(refId, queryId, "replace");
      var listener := GetOrCreateListener(queryId);
    }

    /**
     * reloadSnapshot: when no refId is bound to the query id, bind `refId || queryId`
     * with a replace builder and a listener first; then performReload. `bound` is the
     * builders' states between the two, which the reload starts from.
     */
    method ReloadSnapshot(queryId: string, refId: Option<string>, outcome: ReloadOutcome, now: int)
      returns (result: ReloadResult, pushes: seq<Push>, ghost bound: map<string, BuilderState>)
      requires Valid()
      modifies this`queryIdToRefIds, this`builders, this`listeners, this`Repr, Repr
      ensures Valid()
      ensures observers == old(observers) && bound.Keys == builders.Keys
      ensures Bound(old(queryIdToRefIds), queryId) != [] ==>
        queryIdToRefIds == old(queryIdToRefIds) && builders == old(builders) && bound == old(States())
      ensures Bound(old(queryIdToRefIds), queryId) == [] ==>
        && queryIdToRefIds == old(queryIdToRefIds)[queryId := [Or(refId, queryId)]]
        && builders.Keys == old(builders).Keys + {Or(refId, queryId)}
        && builders[Or(refId, queryId)].mode == "replace"
        && (forall r | r in old(builders) && r != Or(refId, queryId) :: builders[r] == old(builders)[r] && bound[r] == old(States())[r])
        && (Or(refId, queryId) in old(builders) && old(builders)[Or(refId, queryId)].mode == "replace" ==>
              bound[Or(refId, queryId)] == old(States())[Or(refId, queryId)])
        && (!(Or(refId, queryId) in old(builders) && old(builders)[Or(refId, queryId)].mode == "replace") ==>
              bound[Or(refId, queryId)] == F.Initial(F.SelectVariant(Some("replace")), Or(refId, queryId)))
      ensures queryId in listeners
      ensures result == if outcome.Failed? then Rejected else Resolved
      ensures outcome.Failed? ==> pushes == [] && States() == bound
      ensures outcome.Delivered? ==> forall r | r in bound ::
        States()[r] == if r in Bound(queryIdToRefIds, queryId) then Apply(bound[r], ReloadAction(outcome.data, now)).0 else bound[r]
      ensures outcome.Delivered? ==>
        pushes == FanOut(Bound(queryIdToRefIds, queryId), Responses(bound, ReloadAction(outcome.data, now)), observers)
      ensures forall p | p in pushes :: p.state == Done && p.key in Bound(queryIdToRefIds, queryId)
    {
      var effectiveRefId := Or(refId, queryId);
      Activate(queryId, effectiveRefId);
      result, pushes, bound := Reload(queryId, outcome, now);
    }

    /** dispose: empty all four maps. */
    method Dispose()
      modifies this
      ensures Valid() && Tables() == Maps(map[], map[], map[], map[])
    {
      listeners := map[];
      builders := map[];
      observers := map[];
      queryIdToRefIds := map[];
      Repr := {};
    }
  }
}
