/** What `createContext` of context.ts promises its users, stated over the state functions of
    `Context` (which `EventContext`'s methods are proved to follow). */
module ContextLaws {
  import opened Context

  /** The handlers of a listener set, in iteration order. */
  function Handlers<H>(ws: seq<Wrapper<H>>): (hs: seq<H>)
    ensures |hs| == |ws| && forall i :: 0 <= i < |ws| ==> hs[i] == ws[i].handler
  {
    if ws == [] then [] else Handlers(ws[..|ws| - 1]) + [ws[|ws| - 1].handler]
  }

  lemma HandlersSnoc<H>(ws: seq<Wrapper<H>>, w: Wrapper<H>)
    ensures Handlers(ws + [w]) == Handlers(ws) + [w.handler]
  {
    assert (ws + [w])[..|ws|] == ws;
  }

  /** The handlers called in a log, in call order. */
  function CalledHandlers<H, P>(log: seq<Effect<H, P>>): seq<H> {
    if log == [] then []
    else CalledHandlers(log[..|log| - 1])
         + (if log[|log| - 1].Called? then [log[|log| - 1].handler] else [])
  }

  /** How many times a log calls `h`. */
  ghost function Calls<H, P>(log: seq<Effect<H, P>>, h: H): nat {
    multiset(CalledHandlers(log))[h]
  }

  /** How many wrappers of `h` a set holds. */
  ghost function Registered<H>(ws: seq<Wrapper<H>>, h: H): nat {
    multiset(Handlers(ws))[h]
  }

  lemma {:induction false} CalledHandlersAppend<H, P>(a: seq<Effect<H, P>>, b: seq<Effect<H, P>>)
    ensures CalledHandlers(a + b) == CalledHandlers(a) + CalledHandlers(b)
    decreases |b|
  {
    if b == [] {
      assert a + b == a;
    } else {
      var b' := b[..|b| - 1];
      assert (a + b)[..|a + b| - 1] == a + b';
      CalledHandlersAppend(a, b');
    }
  }

  lemma CalledHandlersNone<H, P>(log: seq<Effect<H, P>>)
    requires forall i :: 0 <= i < |log| ==> !log[i].Called?
    ensures CalledHandlers(log) == []
  {
    if log != [] {
      CalledHandlersNone(log[..|log| - 1]);
    }
  }

  /** Running a set calls exactly its handlers, in iteration order. */
  lemma {:induction false} RunAllCalls<H, P>(hooks: Hooks, tag: Tag, ws: seq<Wrapper<H>>, p: P)
    ensures CalledHandlers(RunAll(hooks, tag, ws, p)) == Handlers(ws)
  {
    if ws != [] {
      var init := ws[..|ws| - 1];
      RunAllCalls(hooks, tag, init, p);
      CalledHandlersAppend(RunAll(hooks, tag, init, p), Run(hooks, tag, ws[|ws| - 1], p));
      var r := Run(hooks, tag, ws[|ws| - 1], p);
      CalledHandlersAppend([r[0]], r[1..]);
      assert [r[0]] + r[1..] == r;
      CalledHandlersNone(r[1..]);
      assert CalledHandlers([r[0]]) == [] + [ws[|ws| - 1].handler];
    }
  }

  /** Every effect of `log` carries `p`. */
  ghost predicate Carries<H, P>(log: seq<Effect<H, P>>, p: P) {
    forall i :: 0 <= i < |log| ==> log[i].payload == p
  }

  /** Each call in `log` is followed at once by `onReceived(tag, p)`. */
  ghost predicate ReceivedAfterCalls<H, P>(log: seq<Effect<H, P>>, tag: Tag, p: P) {
    forall i :: 0 <= i < |log| && log[i].Called? ==> i + 1 < |log| && log[i + 1] == Received(tag, p)
  }

  predicate NoSent<H, P>(log: seq<Effect<H, P>>) {
    forall i :: 0 <= i < |log| ==> !log[i].Sent?
  }

  lemma ReceivedAfterCallsAppend<H, P>(a: seq<Effect<H, P>>, b: seq<Effect<H, P>>, tag: Tag, p: P)
    requires ReceivedAfterCalls(a, tag, p) && ReceivedAfterCalls(b, tag, p)
    ensures ReceivedAfterCalls(a + b, tag, p)
  {
    var ab := a + b;
    forall i | 0 <= i < |ab| && ab[i].Called?
      ensures i + 1 < |ab| && ab[i + 1] == Received(tag, p)
    {
      if i < |a| {
        assert ab[i] == a[i] && ab[i + 1] == a[i + 1];
      } else {
        assert ab[i] == b[i - |a|] && ab[i + 1] == b[i - |a| + 1];
      }
    }
  }

  /** Running a set: every effect carries the payload, no `onSent` occurs, and with an
      `onReceived` hook each call is followed by its notification (context.ts:46-49, 57-60). */
  lemma {:induction false} RunAllShape<H, P>(hooks: Hooks, tag: Tag, ws: seq<Wrapper<H>>, p: P)
    ensures var log := RunAll(hooks, tag, ws, p);
      Carries(log, p) && NoSent(log) &&
      (hooks.Present? && hooks.hasOnReceived ==> ReceivedAfterCalls(log, tag, p))
  {
    if ws != [] {
      var init := ws[..|ws| - 1];
      RunAllShape(hooks, tag, init, p);
      var r := Run(hooks, tag, ws[|ws| - 1], p);
      var log0 := RunAll(hooks, tag, init, p);
      assert RunAll(hooks, tag, ws, p) == log0 + r;
      if hooks.Present? && hooks.hasOnReceived {
        assert r == [Called(ws[|ws| - 1].handler, p), Received(tag, p)];
        ReceivedAfterCallsAppend(log0, r, tag, p);
      }
    }
  }

  /** Handlers called by `emit`: the persistent set's, then the once set's, each in
      registration order (context.ts:19-26). */
  lemma EmitCallOrder<H, P>(hooks: Hooks, s: State<H, P>, tag: Tag, p: P)
    ensures CalledHandlers(EmitLog(hooks, s, tag, p))
         == Handlers(Entry(s.listeners, tag)) + Handlers(Entry(s.onceListeners, tag))
  {
    var a := RunAll(hooks, tag, Entry(s.listeners, tag), p);
    var b := RunAll(hooks, tag, Entry(s.onceListeners, tag), p);
    var e: seq<Effect<H, P>> := [Emitted(tag, p)];
    var c := SentHook(hooks, tag, p);
    var ea := e + a;
    var eab := ea + b;
    assert EmitLog(hooks, s, tag, p) == eab + c;
    CalledHandlersNone(e);
    CalledHandlersNone(c);
    RunAllCalls(hooks, tag, Entry(s.listeners, tag), p);
    RunAllCalls(hooks, tag, Entry(s.onceListeners, tag), p);
    CalledHandlersAppend(e, a);
    assert CalledHandlers(ea) == Handlers(Entry(s.listeners, tag));
    CalledHandlersAppend(ea, b);
    assert CalledHandlers(eab) == Handlers(Entry(s.listeners, tag)) + Handlers(Entry(s.onceListeners, tag));
    CalledHandlersAppend(eab, c);
  }

  /** `emit` calls a handler once per wrapper of it in either set of `tag`. */
  lemma EmitCallCount<H, P>(hooks: Hooks, s: State<H, P>, tag: Tag, p: P, h: H)
    ensures Calls(EmitLog(hooks, s, tag, p), h)
         == Registered(Entry(s.listeners, tag), h) + Registered(Entry(s.onceListeners, tag), h)
  {
    EmitCallOrder(hooks, s, tag, p);
  }

  /** Every effect of `emit(tag, p)` carries `p`; `onSent` comes exactly once, last, and only
      with hooks; `onReceived` follows each call when the adapter has it (context.ts:18-29,
      46-49, 57-60). */
  lemma EmitShape<H, P>(hooks: Hooks, s: State<H, P>, tag: Tag, p: P)
    ensures var log := EmitLog(hooks, s, tag, p);
      log[0] == Emitted(tag, p) && Carries(log, p) &&
      NoSent(log[..|log| - 1]) &&
      (hooks.Present? <==> log[|log| - 1] == Sent(tag, p)) &&
      (hooks.Present? && hooks.hasOnReceived ==> ReceivedAfterCalls(log, tag, p))
  {
    var a := RunAll(hooks, tag, Entry(s.listeners, tag), p);
    var b := RunAll(hooks, tag, Entry(s.onceListeners, tag), p);
    var e: seq<Effect<H, P>> := [Emitted(tag, p)];
    var c := SentHook(hooks, tag, p);
    var eab := e + a + b;
    var log := EmitLog(hooks, s, tag, p);
    assert log == eab + c;
    RunAllShape(hooks, tag, Entry(s.listeners, tag), p);
    RunAllShape(hooks, tag, Entry(s.onceListeners, tag), p);
    assert NoSent(eab) && Carries(eab, p);
    assert log[..|log| - 1] == if c == [] then eab[..|eab| - 1] else eab;
    if hooks.Present? && hooks.hasOnReceived {
      ReceivedAfterCallsAppend(e, a, tag, p);
      ReceivedAfterCallsAppend(e + a, b, tag, p);
      ReceivedAfterCallsAppend(eab, c, tag, p);
    }
  }

  /** After `on(tag, h)` for a handler not yet registered under `tag`, one `emit(tag, p)` calls
      `h` exactly once, and with `p` (context.ts:42-50, 19-21). */
  lemma OnThenEmitCallsOnce<H, P>(hooks: Hooks, s: State<H, P>, tag: Tag, h: H, p: P)
    requires Registered(Entry(s.listeners, tag), h) == 0
    requires Registered(Entry(s.onceListeners, tag), h) == 0
    ensures var log := EmitLog(hooks, OnState(s, tag, h), tag, p);
      Calls(log, h) == 1 && exists i :: 0 <= i < |log| && log[i] == Called(h, p)
  {
    var s1 := OnState(s, tag, h);
    var ps := Entry(s1.listeners, tag);
    assert ps == Entry(s.listeners, tag) + [Wrapper(s.serials, h)];
    assert Handlers(ps) == Handlers(Entry(s.listeners, tag)) + [h];
    EmitCallCount(hooks, s1, tag, p, h);
    EmitShape(hooks, s1, tag, p);
    ExistsCall(hooks, s1, tag, p, h);
  }

  /** A handler some set of `tag` holds appears in the emission's log as a call with `p`. */
  lemma ExistsCall<H, P>(hooks: Hooks, s: State<H, P>, tag: Tag, p: P, h: H)
    requires Calls(EmitLog(hooks, s, tag, p), h) > 0
    ensures var log := EmitLog(hooks, s, tag, p);
      exists i :: 0 <= i < |log| && log[i] == Called(h, p)
  {
    var log := EmitLog(hooks, s, tag, p);
    CalledIn(log, h);
    EmitShape(hooks, s, tag, p);
  }

  lemma {:induction false} CalledIn<H, P>(log: seq<Effect<H, P>>, h: H)
    requires Calls(log, h) > 0
    ensures exists i :: 0 <= i < |log| && log[i].Called? && log[i].handler == h
  {
    var last := log[|log| - 1];
    var init := log[..|log| - 1];
    if last.Called? && last.handler == h {
      assert log[|log| - 1].Called?;
    } else {
      assert CalledHandlers(log) == CalledHandlers(init) + (if last.Called? then [last.handler] else []);
      CalledIn(init, h);
      var i :| 0 <= i < |init| && init[i].Called? && init[i].handler == h;
      assert log[i] == init[i];
    }
  }

  /** Every `on`/`once` adds a fresh wrapper: registering a handler twice makes one emission
      call it twice (context.ts:46, 57). */
  lemma DuplicateRegistrationRunsTwice<H, P>(hooks: Hooks, s: State<H, P>, tag: Tag, h: H, p: P)
    requires Registered(Entry(s.listeners, tag), h) == 0
    requires Registered(Entry(s.onceListeners, tag), h) == 0
    ensures Calls(EmitLog(hooks, OnState(OnState(s, tag, h), tag, h), tag, p), h) == 2
  {
    var s1 := OnState(s, tag, h);
    var s2 := OnState(s1, tag, h);
    HandlersSnoc(Entry(s.listeners, tag), Wrapper(s.serials, h));
    HandlersSnoc(Entry(s1.listeners, tag), Wrapper(s1.serials, h));
    EmitCallCount(hooks, s2, tag, p, h);
  }

  /** A `once` handler fires on the first following emission only: that emission calls it once
      and leaves the once set of `tag` empty; the next one does not call it (context.ts:23-26). */
  lemma OnceFiresOnlyFirst<H, P>(hooks: Hooks, s: State<H, P>, tag: Tag, h: H, p: P, q: P)
    requires Registered(Entry(s.listeners, tag), h) == 0
    requires Registered(Entry(s.onceListeners, tag), h) == 0
    ensures var s1 := OnceState(s, tag, h);
      var s2 := EmitState(hooks, s1, tag, p);
      Calls(EmitLog(hooks, s1, tag, p), h) == 1 &&
      Entry(s2.onceListeners, tag) == [] &&
      Calls(EmitLog(hooks, s2, tag, q), h) == 0
  {
    var s1 := OnceState(s, tag, h);
    var s2 := EmitState(hooks, s1, tag, p);
    assert Handlers(Entry(s1.onceListeners, tag)) == Handlers(Entry(s.onceListeners, tag)) + [h];
    EmitCallCount(hooks, s1, tag, p, h);
    EmitCallCount(hooks, s2, tag, q, h);
    assert Handlers(Entry(s2.onceListeners, tag)) == [];
  }

  /** After `off(tag)` an emission of `tag` calls no listener: the log holds the emission and
      (with hooks) `onSent` only (context.ts:63-66). */
  lemma OffSilences<H, P>(hooks: Hooks, s: State<H, P>, tag: Tag, p: P)
    ensures var s1 := OffState(s, tag);
      tag !in s1.listeners && tag !in s1.onceListeners &&
      EmitLog(hooks, s1, tag, p) == [Emitted(tag, p)] + SentHook(hooks, tag, p)
  {
  }

  /** `on`, `once`, `off` and `emit` for one tag leave every other tag's sets alone, and `emit`
      creates no entry (context.ts:19, 23, 42-66). */
  lemma OtherTagsUntouched<H, P>(hooks: Hooks, s: State<H, P>, tag: Tag, h: H, p: P, t: Tag)
    requires t != tag
    ensures var on := OnState(s, tag, h);
      Entry(on.listeners, t) == Entry(s.listeners, t) && on.onceListeners == s.onceListeners
    ensures var once := OnceState(s, tag, h);
      Entry(once.onceListeners, t) == Entry(s.onceListeners, t) && once.listeners == s.listeners
    ensures var off := OffState(s, tag);
      Entry(off.listeners, t) == Entry(s.listeners, t) && Entry(off.onceListeners, t) == Entry(s.onceListeners, t)
    ensures var e := EmitState(hooks, s, tag, p);
      e.listeners == s.listeners && Entry(e.onceListeners, t) == Entry(s.onceListeners, t) &&
      e.onceListeners.Keys == s.onceListeners.Keys
  {
  }
}
