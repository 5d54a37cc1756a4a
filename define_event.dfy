/** index.ts: `defineEvent`, the single-channel prototype of the event bus. Listeners live in two
    JavaScript `Set`s (so adding a present listener changes nothing); `emit(data)` stamps a fresh
    payload for every listener it calls and reports to optional `beforeEmit`/`afterEmit` hooks. */
module DefineEvent {
  import opened Values
  import opened Identifiers

  /** `EventPayload<T>` (index.ts:3-7). */
  datatype EventPayload = EventPayload(id: string, data: Value, timestamp: int)

  /** `generateEventPayload(data)` (index.ts:13-19) for the `n`-th payload of an emission:
      `draws(n)` are the random draws of its `nanoid()`, `clock(n)` is `Date.now()`. */
  function Stamp(draws: nat -> seq<nat>, clock: nat -> int, data: Value, n: nat): (e: EventPayload)
    ensures e.data == data && IsNanoid(e.id) && e.timestamp == clock(n)
  {
    EventPayload(Nanoid(draws(n)), data, clock(n))
  }

  /** A member of the once set: a listener passed to `once`, or the fresh closure `until`
      registers for its promise number `promise` (index.ts:66-69). */
  datatype OnceListener<L> = Fn(fn: L) | Waiter(promise: nat)

  datatype Effect<L> =
    | BeforeEmit                               // props.hooks.beforeEmit()
    | Called(fn: L, payload: EventPayload)     // a listener called with its payload
    | AfterEmit(payload: EventPayload)         // props.hooks.afterEmit(payload)

  /** Which hooks `props` supplies. */
  datatype Hooks = Hooks(beforeEmit: bool, afterEmit: bool)

  /** The channel's state. `untils[k]` is how the listener passed to the `until` behind promise
      `k` ends on a payload. */
  datatype ChannelState<L> = ChannelState(
    listeners: seq<L>,
    onceListeners: seq<OnceListener<L>>,
    log: seq<Effect<L>>,
    promises: seq<PromiseState>,
    untils: seq<EventPayload -> Call>)

  predicate NoDup<T(==)>(s: seq<T>) {
    forall i, j :: 0 <= i < j < |s| ==> s[i] != s[j]
  }

  /** `Set.add(x)`. */
  function Insert<T(==)>(s: seq<T>, x: T): (r: seq<T>)
    ensures NoDup(s) ==> NoDup(r)
    ensures x in r && (forall i :: 0 <= i < |s| ==> s[i] in r) && forall i :: 0 <= i < |r| ==> r[i] in s || r[i] == x
  {
    if x in s then s else s + [x]
  }

  /** `Set.delete(x)`. */
  function Without<T(==)>(s: seq<T>, x: T): seq<T> {
    if s == [] then []
    else if s[0] == x then Without(s[1..], x)
    else [s[0]] + Without(s[1..], x)
  }

  /** After `delete(x)` the set holds exactly its other elements, still once each. */
  lemma {:induction false} WithoutSpec<T>(s: seq<T>, x: T)
    ensures var r := Without(s, x);
      x !in r && (forall i :: 0 <= i < |r| ==> r[i] in s && r[i] != x) &&
      (forall i :: 0 <= i < |s| && s[i] != x ==> s[i] in r) &&
      (NoDup(s) ==> NoDup(r))
  {
    if s != [] {
      WithoutSpec(s[1..], x);
      var t := Without(s[1..], x);
      assert forall i :: 1 <= i < |s| ==> s[i] == s[1..][i - 1];
      if s[0] != x {
        var r := [s[0]] + t;
        assert forall i :: 1 <= i < |r| ==> r[i] == t[i - 1];
        if NoDup(s) {
          assert s[0] !in s[1..];
          assert s[0] !in t;
        }
      }
    }
  }

  lemma {:induction false} WithoutAbsent<T>(s: seq<T>, x: T)
    requires x !in s
    ensures Without(s, x) == s
  {
    if s != [] {
      WithoutAbsent(s[1..], x);
    }
  }

  /** Deleting the element just run, at the head of the not-yet-run part of a set. */
  lemma WithoutHead<T>(s: seq<T>)
    requires s != [] && NoDup(s)
    ensures Without(s, s[0]) == s[1..]
  {
    WithoutAbsent(s[1..], s[0]);
  }

  lemma HeadNotInTail<T>(s: seq<T>)
    requires s != [] && NoDup(s)
    ensures s[0] !in s[1..]
  {
    forall m | 0 <= m < |s| - 1
      ensures s[1..][m] != s[0]
    {
      assert s[1..][m] == s[m + 1];
    }
  }

  lemma NoDupSuffix<T>(s: seq<T>, i: nat)
    requires NoDup(s) && i <= |s|
    ensures NoDup(s[i..])
  {
    forall a, b | 0 <= a < b < |s| - i
      ensures s[i..][a] != s[i..][b]
    {
      assert s[i..][a] == s[i + a] && s[i..][b] == s[i + b];
    }
  }

  // ---------------------------------------------------------------------------------------
  // One emission

  function After<L>(hooks: Hooks, e: EventPayload): seq<Effect<L>> {
    if hooks.afterEmit then [AfterEmit(e)] else []
  }

  /** The first loop of `emit` (index.ts:38-44) over listeners `ls`, whose first payload is the
      emission's `n`-th. */
  function RunListeners<L>(hooks: Hooks, ls: seq<L>, data: Value, draws: nat -> seq<nat>, clock: nat -> int,
                           n: nat, log: seq<Effect<L>>): seq<Effect<L>>
    decreases |ls|
  {
    if ls == [] then log
    else
      var e := Stamp(draws, clock, data, n);
      RunListeners(hooks, ls[1..], data, draws, clock, n + 1, log + [Called(ls[0], e)] + After(hooks, e))
  }

  /** One turn of the second loop of `emit` (index.ts:47-52) for once listener `o` and the
      emission's `n`-th payload: the listener is called, deleted and reported. An `until`
      closure calls its listener and resolves its promise with the result; a listener that
      throws stops the turn before anything changes, and the error is the second component. */
  function OnceStep<L(==)>(hooks: Hooks, o: OnceListener<L>, data: Value, draws: nat -> seq<nat>,
                           clock: nat -> int, n: nat, s: ChannelState<L>): (ChannelState<L>, Option<Value>)
  {
    var e := Stamp(draws, clock, data, n);
    match o
    case Fn(l) =>
      (s.(log := s.log + [Called(l, e)] + After(hooks, e), onceListeners := Without(s.onceListeners, o)), None)
    case Waiter(k) =>
      if k < |s.untils| && k < |s.promises| then
        match s.untils[k](e)
        case Throws(err) => (s, Some(err))
        case Returns(v) =>
          (s.(promises := s.promises[k := Settle(s.promises[k], Fulfilled(v))],
              onceListeners := Without(s.onceListeners, o),
              log := s.log + After(hooks, e)), None)
      else
        (s.(onceListeners := Without(s.onceListeners, o), log := s.log + After(hooks, e)), None)
  }

  /** The second loop of `emit` (index.ts:46-53) from position `i` of the snapshot `os` of the
      once set; the listener at position `i` gets the emission's `n0 + i`-th payload. A throw
      aborts the emission and the error leaves `emit`. */
  function RunOnce<L(==)>(hooks: Hooks, os: seq<OnceListener<L>>, i: nat, data: Value, draws: nat -> seq<nat>,
                          clock: nat -> int, n0: nat, s: ChannelState<L>): (ChannelState<L>, Option<Value>)
    decreases |os| - i
  {
    if i >= |os| then (s, None)
    else
      var step := OnceStep(hooks, os[i], data, draws, clock, n0 + i, s);
      if step.1.Some? then step
      else RunOnce(hooks, os, i + 1, data, draws, clock, n0, step.0)
  }

  /** `emit(data)` (index.ts:35-54): the new state and what the emission threw, if anything. */
  function EmitState<L(==)>(hooks: Hooks, s: ChannelState<L>, data: Value, draws: nat -> seq<nat>,
                            clock: nat -> int): (ChannelState<L>, Option<Value>)
  {
    var log0 := s.log + (if hooks.beforeEmit then [BeforeEmit] else []);
    var log1 := RunListeners(hooks, s.listeners, data, draws, clock, 0, log0);
    RunOnce(hooks, s.onceListeners, 0, data, draws, clock, |s.listeners|, s.(log := log1))
  }

  function UntilState<L>(s: ChannelState<L>, f: EventPayload -> Call): ChannelState<L> {
    s.(onceListeners := s.onceListeners + [Waiter(|s.promises|)],
       promises := s.promises + [Pending],
       untils := s.untils + [f])
  }

  /** Both sets are sets, and every `until` closure has its promise. */
  ghost predicate Coherent<L>(s: ChannelState<L>) {
    NoDup(s.listeners) && NoDup(s.onceListeners) && |s.promises| == |s.untils| &&
    forall i :: 0 <= i < |s.onceListeners| && s.onceListeners[i].Waiter? ==> s.onceListeners[i].promise < |s.promises|
  }

  /** `until` keeps the state coherent: its closure is new to the once set. */
  lemma UntilCoherent<L>(s: ChannelState<L>, f: EventPayload -> Call)
    requires Coherent(s)
    ensures Coherent(UntilState(s, f))
    ensures Waiter(|s.promises|) !in s.onceListeners
  {
    var os := UntilState(s, f).onceListeners;
    assert forall i :: 0 <= i < |s.onceListeners| ==> os[i] == s.onceListeners[i];
  }

  /** A turn for the head of the once set deletes exactly that head and keeps the state coherent. */
  lemma OnceStepCoherent<L>(hooks: Hooks, data: Value, draws: nat -> seq<nat>, clock: nat -> int, n: nat,
                            s: ChannelState<L>)
    requires Coherent(s) && s.onceListeners != []
    ensures Coherent(OnceStep(hooks, s.onceListeners[0], data, draws, clock, n, s).0)
    ensures OnceStep(hooks, s.onceListeners[0], data, draws, clock, n, s).1.None? ==>
      OnceStep(hooks, s.onceListeners[0], data, draws, clock, n, s).0.onceListeners == s.onceListeners[1..]
  {
    var os := s.onceListeners;
    WithoutHead(os);
    NoDupSuffix(os, 1);
    assert forall i :: 0 <= i < |os| - 1 ==> os[1..][i] == os[i + 1];
  }

  // ---------------------------------------------------------------------------------------
  // The channel object

  class Channel<L(==)> {
    var listeners: seq<L>
    var onceListeners: seq<OnceListener<L>>
    var log: seq<Effect<L>>
    var promises: seq<PromiseState>
    var untils: seq<EventPayload -> Call>
    const hooks: Hooks

    function Model(): ChannelState<L>
      reads this
    {
      ChannelState(listeners, onceListeners, log, promises, untils)
    }

    ghost predicate Valid()
      reads this
    {
      Coherent(Model())
    }

    /** `defineEvent(props)`: two empty sets. */
    constructor(hooks: Hooks)
      ensures Valid() && Model() == ChannelState([], [], [], [], []) && this.hooks == hooks
    {
      listeners, onceListeners, log, promises, untils := [], [], [], [], [];
      this.hooks := hooks;
    }

    /** index.ts:55-57. */
    method On(l: L)
      requires Valid()
      modifies this`listeners
      ensures Valid()
      ensures listeners == Insert(old(listeners), l)
    {
      listeners := Insert(listeners, l);
    }

    /** index.ts:58-60. */
    method Once(l: L)
      requires Valid()
      modifies this`onceListeners
      ensures Valid()
      ensures onceListeners == Insert(old(onceListeners), Fn(l))
    {
      onceListeners := Insert(onceListeners, Fn(l));
    }

    /** index.ts:61-63: only the persistent set. */
    method Off(l: L)
      requires Valid()
      modifies this`listeners
      ensures Valid()
      ensures listeners == Without(old(listeners), l)
    {
      WithoutSpec(listeners, l);
      listeners := Without(listeners, l);
    }

    /** index.ts:64-71: promise number `k` and a fresh closure in the once set. */
    method Until(f: EventPayload -> Call) returns (k: nat)
      requires Valid()
      modifies this`onceListeners, this`promises, this`untils
      ensures Valid()
      ensures Model() == UntilState(old(Model()), f)
      ensures k == |old(promises)| && k < |promises| && promises[k] == Pending
    {
      k := |promises|;
      UntilCoherent(Model(), f);
      onceListeners := onceListeners + [Waiter(k)];
      promises := promises + [Pending];
      untils := untils + [f];
    }

    /** The first loop of `emit`. */
    method EmitToListeners(data: Value, draws: nat -> seq<nat>, clock: nat -> int)
      modifies this`log
      ensures log == RunListeners(hooks, listeners, data, draws, clock, 0, old(log))
    {
      var i := 0;
      while i < |listeners|
        invariant 0 <= i <= |listeners|
        invariant RunListeners(hooks, listeners[i..], data, draws, clock, i, log)
               == RunListeners(hooks, listeners, data, draws, clock, 0, old(log))
      {
        var e := Stamp(draws, clock, data, i);
        assert listeners[i..][1..] == listeners[i + 1..];
        log := log + [Called(listeners[i], e)];
        log := log + After(hooks, e);
        i := i + 1;
      }
    }

    /** One turn of the second loop, for the head of the remaining once set. */
    method RunOnceHead(o: OnceListener<L>, data: Value, draws: nat -> seq<nat>, clock: nat -> int, n: nat)
      returns (thrown: Option<Value>)
      requires Valid() && o in onceListeners
      modifies this`log, this`onceListeners, this`promises
      ensures (Model(), thrown) == OnceStep(hooks, o, data, draws, clock, n, old(Model()))
    {
      var e := Stamp(draws, clock, data, n);
      thrown := None;
      match o
      case Fn(l) =>
        log := log + [Called(l, e)] + After(hooks, e);
        onceListeners := Without(onceListeners, o);
      case Waiter(k) =>
        var c := untils[k](e);
        if c.Throws? {
          thrown := Some(c.error);
        } else {
          promises := promises[k := Settle(promises[k], Fulfilled(c.value))];
          onceListeners := Without(onceListeners, o);
          log := log + After(hooks, e);
        }
    }

    /** Turn `i` of the second loop, whose snapshot of the once set is `os`. */
    method OnceTurn(os: seq<OnceListener<L>>, i: nat, data: Value, draws: nat -> seq<nat>, clock: nat -> int)
      returns (thrown: Option<Value>)
      requires Valid() && i < |os| && onceListeners == os[i..]
      modifies this`log, this`onceListeners, this`promises
      ensures Valid()
      ensures thrown.None? ==> onceListeners == os[i + 1..]
      ensures RunOnce(hooks, os, i, data, draws, clock, |listeners|, old(Model()))
           == if thrown.Some? then (Model(), thrown) else RunOnce(hooks, os, i + 1, data, draws, clock, |listeners|, Model())
    {
      ghost var before := Model();
      ghost var step := OnceStep(hooks, os[i], data, draws, clock, |listeners| + i, before);
      assert RunOnce(hooks, os, i, data, draws, clock, |listeners|, before)
          == if step.1.Some? then step else RunOnce(hooks, os, i + 1, data, draws, clock, |listeners|, step.0);
      assert os[i..][0] == os[i] && os[i..][1..] == os[i + 1..];
      OnceStepCoherent(hooks, data, draws, clock, |listeners| + i, before);
      thrown := RunOnceHead(os[i], data, draws, clock, |listeners| + i);
    }

    /** The second loop of `emit`: each once listener runs, is deleted, and is reported. */
    method EmitToOnceListeners(data: Value, draws: nat -> seq<nat>, clock: nat -> int) returns (thrown: Option<Value>)
      requires Valid()
      modifies this`log, this`onceListeners, this`promises
      ensures Valid()
      ensures (Model(), thrown) == RunOnce(hooks, old(onceListeners), 0, data, draws, clock, |listeners|, old(Model()))
    {
      ghost var s0 := Model();
      var os := onceListeners;
      var i := 0;
      while i < |os|
        invariant 0 <= i <= |os|
        invariant Valid()
        invariant onceListeners == os[i..]
        invariant RunOnce(hooks, os, i, data, draws, clock, |listeners|, Model())
               == RunOnce(hooks, os, 0, data, draws, clock, |listeners|, s0)
      {
        thrown := OnceTurn(os, i, data, draws, clock);
        if thrown.Some? {
          return;
        }
        i := i + 1;
      }
      return None;
    }

    /** index.ts:35-54. */
    method Emit(data: Value, draws: nat -> seq<nat>, clock: nat -> int) returns (thrown: Option<Value>)
      requires Valid()
      modifies this`log, this`onceListeners, this`promises
      ensures Valid()
      ensures (Model(), thrown) == EmitState(hooks, old(Model()), data, draws, clock)
    {
      ghost var s0 := Model();
      if hooks.beforeEmit {
        log := log + [BeforeEmit];
      }
      assert log == s0.log + (if hooks.beforeEmit then [BeforeEmit] else []);
      EmitToListeners(data, draws, clock);
      thrown := EmitToOnceListeners(data, draws, clock);
    }
  }
}
