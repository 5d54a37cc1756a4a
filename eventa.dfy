/** eventa.ts: the first-generation API. `defineInvokeEvent` derives three channel names from a
    base tag; `createContext` is the older event context, which has `until` but reports no
    emission to its adapter. */
module Eventa {
  import opened Values
  import opened Identifiers
  import Suffixes
  import opened Context
  import ContextLaws

  // ---------------------------------------------------------------------------------------
  // defineInvokeEvent (eventa.ts:40-54)

  /** The three members of `EventType`. */
  datatype Direction = Inbound | Outbound | OutboundStreamEnd

  function Suffix(d: Direction): string {
    match d
    case Inbound => "-inbound"
    case Outbound => "-outbound"
    case OutboundStreamEnd => "-outbound-stream-end"
  }

  datatype InvokeEvent = InvokeEvent(inboundEvent: string, outboundEvent: string, outboundEventStreamEnd: string)
  {
    function Get(d: Direction): string {
      match d
      case Inbound => inboundEvent
      case Outbound => outboundEvent
      case OutboundStreamEnd => outboundEventStreamEnd
    }
  }

  /** `defineInvokeEvent(tag)`; `picks` are the draws of the `nanoid()` that replaces a falsy tag. */
  function DefineInvokeEvent(tag: Option<string>, picks: seq<nat>): (e: InvokeEvent)
    ensures tag.Some? && tag.value != "" ==>
      e == InvokeEvent(tag.value + "-inbound", tag.value + "-outbound", tag.value + "-outbound-stream-end")
    ensures tag.None? || tag.value == "" ==>
      forall d :: |e.Get(d)| > Size && IsNanoid(e.Get(d)[..Size]) && e.Get(d)[Size..] == Suffix(d)
  {
    var base := if tag.None? || tag.value == "" then Nanoid(picks) else tag.value;
    assert forall d :: (base + Suffix(d))[..|base|] == base && (base + Suffix(d))[|base|..] == Suffix(d);
    InvokeEvent(base + Suffix(Inbound), base + Suffix(Outbound), base + Suffix(OutboundStreamEnd))
  }

  /** No direction's suffix ends another's. */
  lemma SuffixFree(d1: Direction, d2: Direction)
    requires d1 != d2 && |Suffix(d1)| <= |Suffix(d2)|
    ensures !Suffixes.EndsWith(Suffix(d2), Suffix(d1))
  {
    var s1, s2 := Suffix(d1), Suffix(d2);
    assert s2[|s2| - |s1|] != s1[0];
    assert s2[|s2| - |s1|..][0] == s2[|s2| - |s1|];
  }

  /** The derived tags determine the base tag and the direction. */
  lemma {:induction false} Injective(t1: string, d1: Direction, t2: string, d2: Direction)
    requires t1 + Suffix(d1) == t2 + Suffix(d2)
    ensures t1 == t2 && d1 == d2
  {
    Suffixes.SplitEqual(t1, Suffix(d1), t2, Suffix(d2));
    if d1 != d2 {
      if |Suffix(d1)| <= |Suffix(d2)| {
        SuffixFree(d1, d2);
      } else {
        SuffixFree(d2, d1);
      }
      assert false;
    }
  }

  /** The three tags of one definition are pairwise distinct (eventa.ts:45-47). */
  lemma InvokeEventDistinct(tag: Option<string>, picks: seq<nat>, d1: Direction, d2: Direction)
    requires d1 != d2
    ensures DefineInvokeEvent(tag, picks).Get(d1) != DefineInvokeEvent(tag, picks).Get(d2)
  {
    var e := DefineInvokeEvent(tag, picks);
    var base := if tag.None? || tag.value == "" then Nanoid(picks) else tag.value;
    assert e.Get(d1) == base + Suffix(d1) && e.Get(d2) == base + Suffix(d2);
    if e.Get(d1) == e.Get(d2) {
      Injective(base, d1, base, d2);
    }
  }

  /** For non-empty tags, the definition does not depend on the random draws, and distinct
      tags never share a channel (eventa.ts:40-53). */
  lemma InvokeEventDeterministic(t1: string, t2: string, picks1: seq<nat>, picks2: seq<nat>, d: Direction)
    requires t1 != "" && t2 != ""
    ensures DefineInvokeEvent(Some(t1), picks1) == DefineInvokeEvent(Some(t1), picks2)
    ensures t1 != t2 ==> DefineInvokeEvent(Some(t1), picks1).Get(d) != DefineInvokeEvent(Some(t2), picks1).Get(d)
  {
    if t1 != t2 && t1 + Suffix(d) == t2 + Suffix(d) {
      Injective(t1, d, t2, d);
    }
  }

  // ---------------------------------------------------------------------------------------
  // The older createContext (eventa.ts:66-132)

  /** What a wrapper in this context wraps: a handler from `on`/`once`, or the listener of
      the `until` call that created promise number `promise`. */
  datatype Listener<H> = Handler(handler: H) | Resolver(promise: nat)

  /** The state of an older context. `untils[k]` is how the listener passed to the `until`
      call behind promise `k` ends on a payload; `promises[k]` is that promise. */
  datatype LegacyState<H> = LegacyState(
    listeners: Registry<Listener<H>>,
    onceListeners: Registry<Listener<H>>,
    serials: nat,
    log: seq<Effect<H, Value>>,
    promises: seq<PromiseState>,
    untils: seq<Value -> Call>)

  /** How the promise of an `until` settles when its listener ends with `c` (eventa.ts:121-127). */
  function Outcome(c: Call): (r: PromiseState)
    ensures c.Returns? ==> r == Fulfilled(c.value)
    ensures c.Throws? ==> r == Rejected(c.error)
  {
    match c
    case Returns(v) => Fulfilled(v)
    case Throws(e) => Rejected(e)
  }

  /** One wrapper runs (eventa.ts:93-96, 103-106, 120-128): a handler wrapper is run as in
      the newer context, with an `onReceived` notification when the adapter has `onReceive`;
      an `until` wrapper settles its promise and notifies nobody. */
  function Fire<H>(onReceive: bool, tag: Tag, w: Wrapper<Listener<H>>, p: Value, s: LegacyState<H>): LegacyState<H> {
    match w.handler
    case Handler(h) =>
      s.(log := s.log + Run(Present(onReceive), tag, Wrapper(w.serial, h), p))
    case Resolver(k) =>
      if k < |s.promises| && k < |s.untils|
      then s.(promises := s.promises[k := Settle(s.promises[k], Outcome(s.untils[k](p)))])
      else s
  }

  /** The wrappers of a set run in iteration order. */
  function FireAll<H>(onReceive: bool, tag: Tag, ws: seq<Wrapper<Listener<H>>>, p: Value, s: LegacyState<H>): LegacyState<H> {
    if ws == [] then s
    else Fire(onReceive, tag, ws[|ws| - 1], p, FireAll(onReceive, tag, ws[..|ws| - 1], p, s))
  }

  /** `emit(tag, p)` (eventa.ts:70-79): persistent wrappers, then once wrappers, the once set
      emptied; no adapter hook of its own. */
  function LegacyEmit<H>(onReceive: bool, s: LegacyState<H>, tag: Tag, p: Value): LegacyState<H> {
    var s0 := s.(log := s.log + [Emitted(tag, p)]);
    var s1 := FireAll(onReceive, tag, Entry(s.listeners, tag), p, s0);
    var s2 := FireAll(onReceive, tag, Entry(s.onceListeners, tag), p, s1);
    s2.(onceListeners := Remaining(s.onceListeners, tag, []))
  }

  function LegacyUntil<H>(s: LegacyState<H>, tag: Tag, f: Value -> Call): LegacyState<H> {
    s.(onceListeners := Add(s.onceListeners, tag, Wrapper(s.serials, Resolver(|s.promises|))),
       serials := s.serials + 1,
       promises := s.promises + [Pending],
       untils := s.untils + [f])
  }

  /** Only `on` adds to the persistent registry, and it adds handler wrappers. */
  ghost predicate HandlersOnly<H>(r: Registry<Listener<H>>) {
    forall t :: t in r ==> forall i :: 0 <= i < |r[t]| ==> r[t][i].handler.Handler?
  }

  class LegacyContext<H(==)> {
    var listeners: Registry<Listener<H>>
    var onceListeners: Registry<Listener<H>>
    var serials: nat
    var log: seq<Effect<H, Value>>
    var promises: seq<PromiseState>
    var untils: seq<Value -> Call>
    /** Whether the adapter's hooks include `onReceive`. */
    const onReceive: bool

    ghost predicate Valid()
      reads this
    {
      WellFormed(listeners, serials) && WellFormed(onceListeners, serials) && |promises| == |untils| &&
      HandlersOnly(listeners)
    }

    function Model(): LegacyState<H>
      reads this
    {
      LegacyState(listeners, onceListeners, serials, log, promises, untils)
    }

    constructor(onReceive: bool)
      ensures Valid()
      ensures Model() == LegacyState(map[], map[], 0, [], [], []) && this.onReceive == onReceive
    {
      listeners, onceListeners, serials, log, promises, untils := map[], map[], 0, [], [], [];
      this.onReceive := onReceive;
    }

    /** eventa.ts:89-97. */
    method On(tag: Tag, handler: H)
      requires Valid()
      modifies this
      ensures Valid()
      ensures Model() == old(Model()).(listeners := Add(old(listeners), tag, Wrapper(old(serials), Handler(handler))),
                                       serials := old(serials) + 1)
    {
      AddWellFormed(listeners, tag, Handler(handler), serials);
      listeners := Add(listeners, tag, Wrapper(serials, Handler(handler)));
      serials := serials + 1;
    }

    /** eventa.ts:99-107. */
    method Once(tag: Tag, handler: H)
      requires Valid()
      modifies this
      ensures Valid()
      ensures Model() == old(Model()).(onceListeners := Add(old(onceListeners), tag, Wrapper(old(serials), Handler(handler))),
                                       serials := old(serials) + 1)
    {
      AddWellFormed(onceListeners, tag, Handler(handler), serials);
      onceListeners := Add(onceListeners, tag, Wrapper(serials, Handler(handler)));
      serials := serials + 1;
    }

    /** eventa.ts:109-112. */
    method Off(tag: Tag)
      requires Valid()
      modifies this
      ensures Valid()
      ensures Model() == old(Model()).(listeners := old(listeners) - {tag}, onceListeners := old(onceListeners) - {tag})
    {
      listeners := listeners - {tag};
      onceListeners := onceListeners - {tag};
    }

    /** eventa.ts:114-130: a pending promise, number `k`, and a once wrapper that settles it. */
    method Until(tag: Tag, f: Value -> Call) returns (k: nat)
      requires Valid()
      modifies this
      ensures Valid()
      ensures Model() == LegacyUntil(old(Model()), tag, f)
      ensures k == |old(promises)| && k < |promises| && promises[k] == Pending
    {
      k := |promises|;
      AddWellFormed(onceListeners, tag, Resolver(k), serials);
      onceListeners := Add(onceListeners, tag, Wrapper(serials, Resolver(k)));
      serials := serials + 1;
      promises := promises + [Pending];
      untils := untils + [f];
    }

    /** One wrapper runs. */
    method FireOne(tag: Tag, w: Wrapper<Listener<H>>, p: Value)
      modifies this`log, this`promises
      ensures Model() == Fire(onReceive, tag, w, p, old(Model()))
      ensures |promises| == |old(promises)|
    {
      match w.handler
      case Handler(h) =>
        log := log + Run(Present(onReceive), tag, Wrapper(w.serial, h), p);
      case Resolver(k) =>
        if k < |promises| && k < |untils| {
          promises := promises[k := Settle(promises[k], Outcome(untils[k](p)))];
        }
    }

    /** The first loop of `emit`. */
    method FireListeners(tag: Tag, p: Value)
      modifies this`log, this`promises
      ensures Model() == FireAll(onReceive, tag, Entry(listeners, tag), p, old(Model()))
    {
      var ws := Entry(listeners, tag);
      var i := 0;
      while i < |ws|
        invariant 0 <= i <= |ws|
        invariant Model() == FireAll(onReceive, tag, ws[..i], p, old(Model()))
      {
        assert ws[..i + 1][..i] == ws[..i];
        FireOne(tag, ws[i], p);
        i := i + 1;
      }
      assert ws[..i] == ws;
    }

    /** The second loop of `emit`: each once wrapper is deleted right after it ran. */
    method FireOnceListeners(tag: Tag, p: Value)
      requires Valid()
      modifies this`log, this`promises, this`onceListeners
      ensures Valid()
      ensures onceListeners == Remaining(old(onceListeners), tag, [])
      ensures Model() == FireAll(onReceive, tag, Entry(old(onceListeners), tag), p, old(Model())).(onceListeners := onceListeners)
    {
      ghost var o0 := onceListeners;
      var os := Entry(onceListeners, tag);
      assert Increasing(os) by {
        if tag in o0 {
          assert SetOk(o0[tag], serials);
        }
      }
      var i := 0;
      while i < |os|
        invariant 0 <= i <= |os|
        invariant |promises| == |untils|
        invariant onceListeners == Remaining(o0, tag, os[i..])
        invariant Model() == FireAll(onReceive, tag, os[..i], p, old(Model())).(onceListeners := onceListeners)
      {
        assert os[..i + 1][..i] == os[..i];
        FireIgnoresOnceRegistry(onReceive, tag, os[i], p, FireAll(onReceive, tag, os[..i], p, old(Model())), onceListeners);
        FireOne(tag, os[i], p);
        IncreasingSuffix(os, i);
        DeleteFirst(o0, tag, os[i..]);
        onceListeners := DeleteOnce(onceListeners, tag, os[i]);
        assert os[i..][1..] == os[i + 1..];
        i := i + 1;
      }
      assert os[..i] == os;
      RemainingWellFormed(o0, tag, serials);
    }

    /** eventa.ts:70-79. */
    method Emit(tag: Tag, p: Value)
      requires Valid()
      modifies this`log, this`promises, this`onceListeners
      ensures Valid()
      ensures Model() == LegacyEmit(onReceive, old(Model()), tag, p)
    {
      log := log + [Emitted(tag, p)];
      ghost var s0 := Model();
      FireListeners(tag, p);
      FireAllFrame(onReceive, tag, Entry(listeners, tag), p, s0);
      FireOnceListeners(tag, p);
    }
  }

  // ---------------------------------------------------------------------------------------
  // Properties of the older context

  lemma {:induction false} FireAllFrame<H>(onReceive: bool, tag: Tag, ws: seq<Wrapper<Listener<H>>>, p: Value, s: LegacyState<H>)
    ensures var s' := FireAll(onReceive, tag, ws, p, s);
      s'.listeners == s.listeners && s'.onceListeners == s.onceListeners && s'.serials == s.serials &&
      s'.untils == s.untils && |s'.promises| == |s.promises|
  {
    if ws != [] {
      FireAllFrame(onReceive, tag, ws[..|ws| - 1], p, s);
    }
  }

  lemma FireIgnoresOnceRegistry<H>(onReceive: bool, tag: Tag, w: Wrapper<Listener<H>>, p: Value, s: LegacyState<H>,
                                   r: Registry<Listener<H>>)
    ensures Fire(onReceive, tag, w, p, s.(onceListeners := r)) == Fire(onReceive, tag, w, p, s).(onceListeners := r)
  {
  }

  /** The set holds the `until` wrapper of promise `k`. */
  ghost predicate HoldsResolver<H>(ws: seq<Wrapper<Listener<H>>>, k: nat) {
    exists i :: 0 <= i < |ws| && ws[i].handler == Resolver(k)
  }

  lemma HoldsResolverSnoc<H>(ws: seq<Wrapper<Listener<H>>>, k: nat)
    requires ws != []
    ensures HoldsResolver(ws, k) <==> HoldsResolver(ws[..|ws| - 1], k) || ws[|ws| - 1].handler == Resolver(k)
  {
    var init := ws[..|ws| - 1];
    if HoldsResolver(init, k) {
      var i :| 0 <= i < |init| && init[i].handler == Resolver(k);
      assert ws[i] == init[i];
    }
    if HoldsResolver(ws, k) && ws[|ws| - 1].handler != Resolver(k) {
      var i :| 0 <= i < |ws| && ws[i].handler == Resolver(k);
      assert init[i] == ws[i];
    }
  }

  /** How running a set leaves promise `k`: settled by its listener's outcome on `p` when the set
      holds its `until` wrapper, untouched otherwise. */
  lemma {:induction false} FireAllPromise<H>(onReceive: bool, tag: Tag, ws: seq<Wrapper<Listener<H>>>, p: Value,
                                             s: LegacyState<H>, k: nat)
    requires k < |s.promises| && |s.promises| == |s.untils|
    ensures var s' := FireAll(onReceive, tag, ws, p, s);
      |s'.promises| == |s.promises| &&
      s'.promises[k] == if HoldsResolver(ws, k)
                        then Settle(s.promises[k], Outcome(s.untils[k](p)))
                        else s.promises[k]
  {
    FireAllFrame(onReceive, tag, ws, p, s);
    if ws != [] {
      var init := ws[..|ws| - 1];
      FireAllPromise(onReceive, tag, init, p, s, k);
      FireAllFrame(onReceive, tag, init, p, s);
      var o := Outcome(s.untils[k](p));
      HoldsResolverSnoc(ws, k);
      if ws[|ws| - 1].handler == Resolver(k) {
        SettleOnce(s.promises[k], o, o);
      }
    }
  }

  /** The handler wrappers of a set, as wrappers of the newer context. */
  function DirectWrappers<H>(ws: seq<Wrapper<Listener<H>>>): seq<Wrapper<H>> {
    if ws == [] then []
    else DirectWrappers(ws[..|ws| - 1])
         + (if ws[|ws| - 1].handler.Handler? then [Wrapper(ws[|ws| - 1].serial, ws[|ws| - 1].handler.handler)] else [])
  }

  /** The handler wrappers of every set, as a registry of the newer context. */
  function DirectRegistry<H>(r: Registry<Listener<H>>): (d: Registry<H>)
    ensures forall t :: Entry(d, t) == DirectWrappers(Entry(r, t))
  {
    map t | t in r :: DirectWrappers(r[t])
  }

  lemma RunAllSnoc<H>(log: seq<Effect<H, Value>>, hooks: Hooks, tag: Tag, d: seq<Wrapper<H>>, w: Wrapper<H>, p: Value)
    ensures log + RunAll(hooks, tag, d, p) + Run(hooks, tag, w, p) == log + RunAll(hooks, tag, d + [w], p)
  {
    assert (d + [w])[..|d|] == d;
  }

  /** Running a set of the older context logs what the newer context logs for its handler
      wrappers, with an `onReceived` hook exactly when the adapter has `onReceive`; `until`
      wrappers log nothing. */
  lemma {:induction false} FireAllLog<H>(onReceive: bool, tag: Tag, ws: seq<Wrapper<Listener<H>>>, p: Value, s: LegacyState<H>)
    ensures FireAll(onReceive, tag, ws, p, s).log == s.log + RunAll(Present(onReceive), tag, DirectWrappers(ws), p)
  {
    if ws == [] {
      assert s.log + [] == s.log;
    } else {
      var init := ws[..|ws| - 1];
      FireAllLog(onReceive, tag, init, p, s);
      var d := DirectWrappers(init);
      var hooks := Present(onReceive);
      match ws[|ws| - 1].handler {
        case Handler(h) =>
          var w := Wrapper(ws[|ws| - 1].serial, h);
          assert DirectWrappers(ws) == d + [w];
          RunAllSnoc(s.log, hooks, tag, d, w, p);
        case Resolver(k) =>
          assert DirectWrappers(ws) == d;
      }
    }
  }

  /** The older `emit` logs what the newer `emit` logs for the handler wrappers, with
      `onReceive` in the role of `onReceived`, except the final `onSent`: the older context
      makes no adapter call of its own (eventa.ts:70-79, 93-96, 103-106). */
  lemma LegacyEmitMatchesEmit<H>(onReceive: bool, s: LegacyState<H>, tag: Tag, p: Value)
    ensures var s' := LegacyEmit(onReceive, s, tag, p);
      var view := State(DirectRegistry(s.listeners), DirectRegistry(s.onceListeners), s.serials, s.log);
      s'.log + [Sent(tag, p)] == view.log + EmitLog(Present(onReceive), view, tag, p)
  {
    var hooks := Present(onReceive);
    var s0 := s.(log := s.log + [Emitted(tag, p)]);
    var s1 := FireAll(onReceive, tag, Entry(s.listeners, tag), p, s0);
    FireAllLog(onReceive, tag, Entry(s.listeners, tag), p, s0);
    FireAllFrame(onReceive, tag, Entry(s.listeners, tag), p, s0);
    FireAllLog(onReceive, tag, Entry(s.onceListeners, tag), p, s1);
    var view := State(DirectRegistry(s.listeners), DirectRegistry(s.onceListeners), s.serials, s.log);
    EmitLogSplit(hooks, view, tag, p);
  }

  /** One older emission empties the once set of `tag` and changes no other set. */
  lemma LegacyEmitRegistries<H>(onReceive: bool, s: LegacyState<H>, tag: Tag, p: Value)
    ensures var s' := LegacyEmit(onReceive, s, tag, p);
      s'.listeners == s.listeners && Entry(s'.onceListeners, tag) == [] &&
      (forall t :: t != tag ==> Entry(s'.onceListeners, t) == Entry(s.onceListeners, t)) &&
      |s'.promises| == |s.promises| && s'.untils == s.untils
  {
    var s0 := s.(log := s.log + [Emitted(tag, p)]);
    var s1 := FireAll(onReceive, tag, Entry(s.listeners, tag), p, s0);
    FireAllFrame(onReceive, tag, Entry(s.listeners, tag), p, s0);
    FireAllFrame(onReceive, tag, Entry(s.onceListeners, tag), p, s1);
  }

  /** `until(tag, f)` followed by `emit(tag, p)`: the promise resolves with `f(p)`, or rejects
      with what `f` threw, the once set of `tag` is empty, and a later emission never settles
      the promise again (eventa.ts:114-130). */
  lemma UntilSettlesOnce<H>(onReceive: bool, s: LegacyState<H>, tag: Tag, f: Value -> Call, p: Value, q: Value)
    requires |s.promises| == |s.untils| && HandlersOnly(s.listeners)
    ensures var k := |s.promises|;
      var s1 := LegacyEmit(onReceive, LegacyUntil(s, tag, f), tag, p);
      var s2 := LegacyEmit(onReceive, s1, tag, q);
      k < |s1.promises| && k < |s2.promises| &&
      s1.promises[k] == Outcome(f(p)) &&
      Entry(s1.onceListeners, tag) == [] &&
      s2.promises[k] == s1.promises[k]
  {
    var k := |s.promises|;
    var u := LegacyUntil(s, tag, f);
    var os := Entry(u.onceListeners, tag);
    assert os[|os| - 1].handler == Resolver(k);
    assert HoldsResolver(os, k);
    NoResolverIn(Entry(u.listeners, tag), k);
    var u0 := u.(log := u.log + [Emitted(tag, p)]);
    var u1 := FireAll(onReceive, tag, Entry(u.listeners, tag), p, u0);
    FireAllPromise(onReceive, tag, Entry(u.listeners, tag), p, u0, k);
    FireAllFrame(onReceive, tag, Entry(u.listeners, tag), p, u0);
    FireAllPromise(onReceive, tag, os, p, u1, k);
    FireAllFrame(onReceive, tag, os, p, u1);
    var s1 := LegacyEmit(onReceive, u, tag, p);
    LegacyEmitRegistries(onReceive, u, tag, p);
    var v0 := s1.(log := s1.log + [Emitted(tag, q)]);
    NoResolverIn(Entry(s1.listeners, tag), k);
    FireAllPromise(onReceive, tag, Entry(s1.listeners, tag), q, v0, k);
    FireAllFrame(onReceive, tag, Entry(s1.listeners, tag), q, v0);
  }

  /** A set of handler wrappers holds no `until` wrapper. */
  lemma NoResolverIn<H>(ws: seq<Wrapper<Listener<H>>>, k: nat)
    requires forall i :: 0 <= i < |ws| ==> ws[i].handler.Handler?
    ensures !HoldsResolver(ws, k)
  {
  }
}
