/** context.ts: `createContext`, the in-process event context. It keeps two registries from tag
    to listener set (persistent and once), dispatches an emission to both, and reports traffic
    to an optional adapter through `onReceived` (after each listener) and `onSent` (after each
    emission).

    Handlers are opaque values of type `H`; what a handler does when called is recorded in an
    effect log, so the order and multiplicity of calls and hook notifications is observable. */
module Context {

  type Tag = string

  /** One registered listener: the fresh closure that `on`/`once` wraps around `handler`
      (context.ts:46-49, 57-60). `serial` tells apart two wrappers of the same handler. */
  datatype Wrapper<H> = Wrapper(serial: nat, handler: H)

  /** `Map<tag, Set<wrapper>>`; a JavaScript Set iterates in insertion order, so each set is a
      sequence without repetitions. */
  type Registry<H> = map<Tag, seq<Wrapper<H>>>

  /** The hooks the adapter returned (context.ts:16): none, or `onSent` with an optional
      `onReceived`. */
  datatype Hooks = Absent | Present(hasOnReceived: bool)

  /** What an observer of the context sees. */
  datatype Effect<H, P> =
    | Emitted(tag: Tag, payload: P)   // emit(tag, payload) began
    | Called(handler: H, payload: P)  // a wrapper called its handler
    | Received(tag: Tag, payload: P)  // hooks.onReceived(tag, payload)
    | Sent(tag: Tag, payload: P)      // hooks.onSent(tag, payload)

  /** The context's state: both registries, the number of wrappers created so far, and the
      effects so far. */
  datatype State<H, P> = State(
    listeners: Registry<H>,
    onceListeners: Registry<H>,
    serials: nat,
    log: seq<Effect<H, P>>)

  // ---------------------------------------------------------------------------------------
  // Registries

  /** `registry.get(tag) || []`. */
  function Entry<H>(r: Registry<H>, tag: Tag): seq<Wrapper<H>> {
    if tag in r then r[tag] else []
  }

  /** `if (!r.has(tag)) r.set(tag, new Set()); r.get(tag).add(w)` for a wrapper not yet in the set. */
  function Add<H>(r: Registry<H>, tag: Tag, w: Wrapper<H>): (r': Registry<H>)
    ensures tag in r' && r'[tag] == Entry(r, tag) + [w]
    ensures forall t :: t != tag ==> Entry(r', t) == Entry(r, t) && (t in r' <==> t in r)
  {
    r[tag := Entry(r, tag) + [w]]
  }

  /** `Set.delete(w)`. */
  function Remove<H(==)>(ws: seq<Wrapper<H>>, w: Wrapper<H>): (rest: seq<Wrapper<H>>)
    ensures w !in rest
    ensures forall i :: 0 <= i < |rest| ==> rest[i] in ws
    ensures forall i :: 0 <= i < |ws| && ws[i] != w ==> ws[i] in rest
  {
    if ws == [] then []
    else (if ws[0] == w then [] else [ws[0]]) + Remove(ws[1..], w)
  }

  /** `onceListeners.get(tag)?.delete(w)`: only an existing entry changes. */
  function DeleteOnce<H(==)>(r: Registry<H>, tag: Tag, w: Wrapper<H>): (r': Registry<H>)
    ensures r'.Keys == r.Keys
    ensures forall t :: t != tag ==> Entry(r', t) == Entry(r, t)
  {
    if tag in r then r[tag := Remove(r[tag], w)] else r
  }

  /** Serials strictly increase along a set: wrappers are appended with fresh serials. */
  predicate Increasing<H>(ws: seq<Wrapper<H>>) {
    forall i, j :: 0 <= i < j < |ws| ==> ws[i].serial < ws[j].serial
  }

  /** A set is increasing and uses only serials below `serials`. */
  predicate SetOk<H>(ws: seq<Wrapper<H>>, serials: nat) {
    Increasing(ws) && forall i :: 0 <= i < |ws| ==> ws[i].serial < serials
  }

  /** Every set of the registry is well formed. */
  predicate WellFormed<H>(r: Registry<H>, serials: nat) {
    forall t :: t in r ==> SetOk(r[t], serials)
  }

  lemma {:induction false} RemoveAbsent<H>(ws: seq<Wrapper<H>>, w: Wrapper<H>)
    requires w !in ws
    ensures Remove(ws, w) == ws
  {
    if ws != [] {
      RemoveAbsent(ws[1..], w);
    }
  }

  /** Deleting the first element of an increasing set leaves the rest in order. */
  lemma RemoveFirst<H>(ws: seq<Wrapper<H>>)
    requires ws != [] && Increasing(ws)
    ensures Remove(ws, ws[0]) == ws[1..]
  {
    RemoveAbsent(ws[1..], ws[0]);
  }

  lemma {:induction false} RemoveIncreasing<H>(ws: seq<Wrapper<H>>, w: Wrapper<H>)
    requires Increasing(ws)
    ensures Increasing(Remove(ws, w))
    ensures |Remove(ws, w)| <= |ws|
  {
    if ws != [] {
      RemoveIncreasing(ws[1..], w);
    }
  }

  lemma ConsumeWellFormed<H>(r: Registry<H>, tag: Tag, w: Wrapper<H>, serials: nat)
    requires WellFormed(r, serials)
    ensures WellFormed(DeleteOnce(r, tag, w), serials)
  {
    if tag in r {
      RemoveIncreasing(r[tag], w);
    }
  }

  /** The once registry while `emit` works through its set for `tag`: `rest` is still pending. */
  function Remaining<H>(r: Registry<H>, tag: Tag, rest: seq<Wrapper<H>>): Registry<H> {
    if tag in r then r[tag := rest] else r
  }

  lemma IncreasingSuffix<H>(ws: seq<Wrapper<H>>, k: nat)
    requires Increasing(ws) && k <= |ws|
    ensures Increasing(ws[k..])
  {
    forall i, j | 0 <= i < j < |ws| - k
      ensures ws[k..][i].serial < ws[k..][j].serial
    {
      assert ws[k..][i] == ws[k + i] && ws[k..][j] == ws[k + j];
    }
  }

  /** Consuming the first pending wrapper leaves the rest pending. */
  lemma DeleteFirst<H>(r0: Registry<H>, tag: Tag, rest: seq<Wrapper<H>>)
    requires rest != [] && Increasing(rest)
    ensures DeleteOnce(Remaining(r0, tag, rest), tag, rest[0]) == Remaining(r0, tag, rest[1..])
  {
    if tag in r0 {
      RemoveFirst(rest);
    }
  }

  lemma RemainingWellFormed<H>(r0: Registry<H>, tag: Tag, serials: nat)
    requires WellFormed(r0, serials)
    ensures WellFormed(Remaining(r0, tag, []), serials)
  {
  }

  lemma AddWellFormed<H>(r: Registry<H>, tag: Tag, h: H, serials: nat)
    requires WellFormed(r, serials)
    ensures WellFormed(Add(r, tag, Wrapper(serials, h)), serials + 1)
  {
  }

  // ---------------------------------------------------------------------------------------
  // Effects of one emission

  /** `hooks?.onReceived?.(tag, payload)` in a wrapper. */
  function ReceivedHook<H, P>(hooks: Hooks, tag: Tag, p: P): seq<Effect<H, P>> {
    if hooks.Present? && hooks.hasOnReceived then [Received(tag, p)] else []
  }

  /** `hooks?.onSent(tag, payload)` at the end of `emit`. */
  function SentHook<H, P>(hooks: Hooks, tag: Tag, p: P): seq<Effect<H, P>> {
    if hooks.Present? then [Sent(tag, p)] else []
  }

  /** Running one wrapper: its handler, then the `onReceived` hook. */
  function Run<H, P>(hooks: Hooks, tag: Tag, w: Wrapper<H>, p: P): seq<Effect<H, P>> {
    [Called(w.handler, p)] + ReceivedHook(hooks, tag, p)
  }

  /** Running a set's wrappers in iteration order. */
  function RunAll<H, P>(hooks: Hooks, tag: Tag, ws: seq<Wrapper<H>>, p: P): seq<Effect<H, P>>
  {
    if ws == [] then []
    else RunAll(hooks, tag, ws[..|ws| - 1], p) + Run(hooks, tag, ws[|ws| - 1], p)
  }

  /** The log of running `ws[i..j]` is that of `ws[i..j - 1]` followed by the last one's. */
  lemma RunAllSlice<H, P>(hooks: Hooks, tag: Tag, ws: seq<Wrapper<H>>, i: nat, j: nat, p: P)
    requires i < j <= |ws|
    ensures RunAll(hooks, tag, ws[i..j], p) == RunAll(hooks, tag, ws[i..j - 1], p) + Run(hooks, tag, ws[j - 1], p)
  {
    assert ws[i..j][..j - 1 - i] == ws[i..j - 1];
  }

  /** Everything `emit(tag, p)` adds to the log (context.ts:18-29). */
  function EmitLog<H, P>(hooks: Hooks, s: State<H, P>, tag: Tag, p: P): seq<Effect<H, P>> {
    [Emitted(tag, p)]
      + RunAll(hooks, tag, Entry(s.listeners, tag), p)
      + RunAll(hooks, tag, Entry(s.onceListeners, tag), p)
      + SentHook(hooks, tag, p)
  }

  /** One more wrapper run extends the log of a loop over `ws`. */
  lemma RunAllStep<H, P>(log: seq<Effect<H, P>>, hooks: Hooks, tag: Tag, ws: seq<Wrapper<H>>, i: nat, p: P)
    requires i < |ws|
    ensures log + RunAll(hooks, tag, ws[..i], p) + Run(hooks, tag, ws[i], p)
         == log + RunAll(hooks, tag, ws[..i + 1], p)
  {
    assert ws[..i + 1][..i] == ws[..i];
  }

  /** The emission's log, in the order the steps of `emit` append it. */
  lemma EmitLogSplit<H, P>(hooks: Hooks, s: State<H, P>, tag: Tag, p: P)
    ensures s.log + EmitLog(hooks, s, tag, p)
         == s.log + [Emitted(tag, p)] + RunAll(hooks, tag, Entry(s.listeners, tag), p)
            + RunAll(hooks, tag, Entry(s.onceListeners, tag), p) + SentHook(hooks, tag, p)
  {
  }

  // ---------------------------------------------------------------------------------------
  // The operations on the state

  function OnState<H, P>(s: State<H, P>, tag: Tag, h: H): State<H, P> {
    s.(listeners := Add(s.listeners, tag, Wrapper(s.serials, h)), serials := s.serials + 1)
  }

  function OnceState<H, P>(s: State<H, P>, tag: Tag, h: H): State<H, P> {
    s.(onceListeners := Add(s.onceListeners, tag, Wrapper(s.serials, h)), serials := s.serials + 1)
  }

  function OffState<H, P>(s: State<H, P>, tag: Tag): State<H, P> {
    s.(listeners := s.listeners - {tag}, onceListeners := s.onceListeners - {tag})
  }

  /** After `emit`, the once set of `tag` is empty if it existed; nothing else in either
      registry changes. */
  function EmitState<H, P>(hooks: Hooks, s: State<H, P>, tag: Tag, p: P): State<H, P> {
    s.(onceListeners := Remaining(s.onceListeners, tag, []), log := s.log + EmitLog(hooks, s, tag, p))
  }

  // ---------------------------------------------------------------------------------------
  // The context object

  class EventContext<H(==), P> {
    var listeners: Registry<H>
    var onceListeners: Registry<H>
    var serials: nat
    var log: seq<Effect<H, P>>
    const hooks: Hooks

    ghost predicate Valid()
      reads this
    {
      WellFormed(listeners, serials) && WellFormed(onceListeners, serials)
    }

    function Model(): State<H, P>
      reads this
    {
      State(listeners, onceListeners, serials, log)
    }

    /** `createContext({ adapter })`: both registries empty. */
    constructor(hooks: Hooks)
      ensures Valid()
      ensures Model() == State(map[], map[], 0, []) && this.hooks == hooks
    {
      listeners, onceListeners, serials, log := map[], map[], 0, [];
      this.hooks := hooks;
    }

    /** context.ts:42-50. */
    method On(tag: Tag, handler: H)
      requires Valid()
      modifies this
      ensures Valid()
      ensures Model() == OnState(old(Model()), tag, handler)
    {
      AddWellFormed(listeners, tag, handler, serials);
      listeners := Add(listeners, tag, Wrapper(serials, handler));
      serials := serials + 1;
    }

    /** context.ts:52-61. */
    method Once(tag: Tag, handler: H)
      requires Valid()
      modifies this
      ensures Valid()
      ensures Model() == OnceState(old(Model()), tag, handler)
    {
      AddWellFormed(onceListeners, tag, handler, serials);
      onceListeners := Add(onceListeners, tag, Wrapper(serials, handler));
      serials := serials + 1;
    }

    /** context.ts:63-66. */
    method Off(tag: Tag)
      requires Valid()
      modifies this
      ensures Valid()
      ensures Model() == OffState(old(Model()), tag)
    {
      listeners := listeners - {tag};
      onceListeners := onceListeners - {tag};
    }

    // The steps of `emit`. `Emit` below runs them for handlers that do nothing but get
    // called; the invoke and stream models run them around listeners of their own.

    /** Entering `emit(tag, p)`. */
    method Begin(tag: Tag, p: P)
      modifies this`log
      ensures log == old(log) + [Emitted(tag, p)]
    {
      log := log + [Emitted(tag, p)];
    }

    /** A wrapper calls its handler. */
    method Enter(w: Wrapper<H>, p: P)
      modifies this`log
      ensures log == old(log) + [Called(w.handler, p)]
    {
      log := log + [Called(w.handler, p)];
    }

    /** A wrapper's handler returned: `hooks?.onReceived?.(tag, p)`. */
    method Leave(tag: Tag, p: P)
      modifies this`log
      ensures log == old(log) + ReceivedHook(hooks, tag, p)
    {
      log := log + ReceivedHook(hooks, tag, p);
    }

    /** `onceListeners.get(tag)?.delete(w)` (context.ts:25). */
    method Consume(tag: Tag, w: Wrapper<H>)
      modifies this`onceListeners
      ensures onceListeners == DeleteOnce(old(onceListeners), tag, w)
    {
      onceListeners := DeleteOnce(onceListeners, tag, w);
    }

    /** `hooks?.onSent(tag, p)` (context.ts:28). */
    method End(tag: Tag, p: P)
      modifies this`log
      ensures log == old(log) + SentHook(hooks, tag, p)
    {
      log := log + SentHook(hooks, tag, p);
    }

    /** A wrapper runs: its handler is called, then `onReceived` is notified. */
    method RunOne(tag: Tag, w: Wrapper<H>, p: P)
      modifies this`log
      ensures log == old(log) + Run(hooks, tag, w, p)
    {
      Enter(w, p);
      Leave(tag, p);
    }

    /** The first loop of `emit`: every persistent wrapper of `tag` in insertion order. */
    method RunListeners(tag: Tag, p: P)
      modifies this`log
      ensures log == old(log) + RunAll(hooks, tag, Entry(listeners, tag), p)
    {
      var ws := Entry(listeners, tag);
      var i := 0;
      while i < |ws|
        invariant 0 <= i <= |ws|
        invariant log == old(log) + RunAll(hooks, tag, ws[..i], p)
      {
        RunAllStep(old(log), hooks, tag, ws, i, p);
        RunOne(tag, ws[i], p);
        i := i + 1;
      }
      assert ws[..i] == ws;
    }

    /** The second loop of `emit`: every once wrapper of `tag`, each deleted from its set
        right after it ran, which leaves the set empty. */
    method RunOnceListeners(tag: Tag, p: P)
      requires Valid()
      modifies this`log, this`onceListeners
      ensures Valid()
      ensures onceListeners == Remaining(old(onceListeners), tag, [])
      ensures log == old(log) + RunAll(hooks, tag, Entry(old(onceListeners), tag), p)
    {
      ghost var o0 := onceListeners;
      var os := Entry(onceListeners, tag);
      assert Increasing(os) by {
        if tag in o0 {
          assert SetOk(o0[tag], serials);
        }
      }
      var i := 0;
      while i < |os|
        invariant 0 <= i <= |os|
        invariant onceListeners == Remaining(o0, tag, os[i..])
        invariant log == old(log) + RunAll(hooks, tag, os[..i], p)
      {
        RunAllStep(old(log), hooks, tag, os, i, p);
        RunOne(tag, os[i], p);
        IncreasingSuffix(os, i);
        DeleteFirst(o0, tag, os[i..]);
        Consume(tag, os[i]);
        assert os[i..][1..] == os[i + 1..];
        i := i + 1;
      }
      assert os[..i] == os;
      RemainingWellFormed(o0, tag, serials);
    }

    /** context.ts:18-29: every persistent wrapper of `tag`, then every once wrapper (each
        deleted right after it ran), then `onSent`. */
    method Emit(tag: Tag, p: P)
      requires Valid()
      modifies this`log, this`onceListeners
      ensures Valid()
      ensures Model() == EmitState(hooks, old(Model()), tag, p)
    {
      ghost var s0 := Model();
      Begin(tag, p);
      RunListeners(tag, p);
      RunOnceListeners(tag, p);
      End(tag, p);
      EmitLogSplit(hooks, s0, tag, p);
    }
  }
}
