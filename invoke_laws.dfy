/** What a call through `defineInvoke` / `defineInvokeHandler` does end to end. */
module InvokeLaws {
  import opened Values
  import opened Identifiers
  import opened InvokeShared
  import opened Context
  import opened Invoke

  /** The three channels the exchange uses are pairwise distinct. */
  predicate Distinct(ev: InvokeEventa) {
    ev.sendEvent != ev.receiveEvent && ev.sendEvent != ev.receiveEventError
    && ev.receiveEvent != ev.receiveEventError
  }

  /** Every bundle `defineInvokeEventa` returns keeps its channels apart. */
  lemma DefinedDistinct(tag: Option<string>, picks: seq<nat>)
    ensures Distinct(DefineInvokeEventa(tag, picks))
  {
    BundleDistinct(tag, picks, SendEvent, ReceiveEvent);
    BundleDistinct(tag, picks, SendEvent, ReceiveEventError);
    BundleDistinct(tag, picks, ReceiveEvent, ReceiveEventError);
  }

  /** No listener of call `id` is registered yet: `nanoid()` gave a new id. */
  predicate Fresh(r: Registry<Kind>, id: string) {
    forall t, j :: t in r && 0 <= j < |r[t]| ==> r[t][j].handler != Reply(id) && r[t][j].handler != ReplyError(id)
  }

  /** The state without its effect log. */
  function Strip(s: RState): RState {
    s.(ctx := s.ctx.(log := []))
  }

  /** A listener that does nothing but log when called with `p` at depth `d`. */
  predicate Inert(d: nat, k: Kind, p: Value) {
    match k
    case Reply(x) => !Answers(p, x)
    case ReplyError(x) => !Answers(p, x)
    case Serve => d == 0 || !WellFormedRequest(p)
  }

  /** An inert listener leaves the state alone. */
  lemma InertHandle(c: Config, d: nat, s: RState, k: Kind, p: Value)
    requires Inert(d, k, p)
    ensures HandleState(c, d, s, k, p) == s
  {
  }

  /** Running inert wrappers `ws[i..j]` only logs their calls. */
  lemma {:induction false} Skip(c: Config, d: nat, s: RState, tag: Tag, ws: seq<Wrapper<Kind>>, i: nat, j: nat, p: Value)
    requires i <= j <= |ws|
    requires forall m :: i <= m < j ==> Inert(d, ws[m].handler, p)
    ensures FireAllState(c, d, s, tag, ws, i, p)
         == FireAllState(c, d, Log(s, RunAll(c.hooks, tag, ws[i..j], p)), tag, ws, j, p)
    decreases j - i
  {
    if j == i {
      assert ws[i..j] == [];
      assert s.ctx.log + [] == s.ctx.log;
    } else {
      Skip(c, d, s, tag, ws, i, j - 1, p);
      var q := Log(s, RunAll(c.hooks, tag, ws[i..j - 1], p));
      InertFire(c, d, q, tag, ws[j - 1], p);
      RunAllSlice(c.hooks, tag, ws, i, j, p);
      LogTwice(s, RunAll(c.hooks, tag, ws[i..j - 1], p), Run(c.hooks, tag, ws[j - 1], p));
    }
  }

  /** Running an inert wrapper only logs. */
  lemma InertFire(c: Config, d: nat, q: RState, tag: Tag, w: Wrapper<Kind>, p: Value)
    requires Inert(d, w.handler, p)
    ensures FireState(c, d, q, tag, w, p) == Log(q, Run(c.hooks, tag, w, p))
  {
    InertHandle(c, d, Log(q, [Called(w.handler, p)]), w.handler, p);
  }

  /** Logging twice is logging the concatenation. */
  lemma LogTwice(s: RState, a: seq<Effect<Kind, Value>>, b: seq<Effect<Kind, Value>>)
    ensures Log(Log(s, a), b) == Log(s, a + b)
  {
    assert s.ctx.log + a + b == s.ctx.log + (a + b);
  }

  /** An emission whose listeners are all inert but the last one, a client listener, has
      the effect of that last listener alone (apart from the log). */
  lemma OnlyLastActs(c: Config, d: nat, s: RState, tag: Tag, p: Value)
    requires var ws := Entry(s.ctx.listeners, tag);
      ws != [] && !ws[|ws| - 1].handler.Serve?
      && forall m :: 0 <= m < |ws| - 1 ==> Inert(d, ws[m].handler, p)
    ensures var ws := Entry(s.ctx.listeners, tag);
      Strip(DispatchState(c, d, s, tag, p)) == Strip(HandleState(c, d, s, ws[|ws| - 1].handler, p))
  {
    var ws := Entry(s.ctx.listeners, tag);
    var n := |ws| - 1;
    var z := Log(s, [Emitted(tag, p)]);
    Skip(c, d, z, tag, ws, 0, n, p);
    var q := Log(z, RunAll(c.hooks, tag, ws[0..n], p));
    assert FireAllState(c, d, q, tag, ws, n, p) == FireState(c, d, q, tag, ws[n], p);
    var y := Log(q, [Called(ws[n].handler, p)]);
    assert Strip(y) == Strip(s);
    ClientHandleStrip(c, d, y, s, tag, ws[n].handler, p);
  }

  /** A client listener does the same to two states that differ only in their logs. */
  lemma ClientHandleStrip(c: Config, d: nat, y: RState, s: RState, tag: Tag, k: Kind, p: Value)
    requires Strip(y) == Strip(s) && !k.Serve?
    ensures Strip(Log(HandleState(c, d, y, k, p), ReceivedHook(c.hooks, tag, p))) == Strip(HandleState(c, d, s, k, p))
  {
  }

  /** The request, answered by the one bound handler, turns into the handler's emission of
      its response at depth 0; `y` is the state that emission starts from. */
  lemma ServeStep(c: Config, s1: RState, id: string, req: Value) returns (y: RState)
    requires |Entry(s1.ctx.listeners, c.ev.sendEvent)| == 1
    requires Entry(s1.ctx.listeners, c.ev.sendEvent)[0].handler == Serve
    requires id != ""
    ensures Strip(y) == Strip(s1)
    ensures var p := RequestPayload(c.ev, id, req);
      var r := Response(c, Body(p));
      Strip(DispatchState(c, 1, s1, c.ev.sendEvent, p)) == Strip(DispatchState(c, 0, y, r.0, r.1))
  {
    var p := RequestPayload(c.ev, id, req);
    var r := Response(c, Body(p));
    var w := Entry(s1.ctx.listeners, c.ev.sendEvent)[0];
    assert Entry(s1.ctx.listeners, c.ev.sendEvent) == [w];
    var x := Log(s1, [Emitted(c.ev.sendEvent, p)]);
    y := Log(x, [Called(Serve, p)]);
    assert HandleState(c, 1, y, Serve, p) == DispatchState(c, 0, y, r.0, r.1);
    assert FireState(c, 1, x, c.ev.sendEvent, w, p) == Log(DispatchState(c, 0, y, r.0, r.1), ReceivedHook(c.hooks, c.ev.sendEvent, p));
    assert FireAllState(c, 1, x, c.ev.sendEvent, [w], 0, p) == FireState(c, 1, x, c.ev.sendEvent, w, p);
  }

  /** What a call leaves behind apart from the outcome of its promise: the promise is added
      after the earlier ones and the id leaves both maps. */
  predicate Bookkeeping(s: RState, r: RState, id: string) {
    |r.promises| == |s.promises| + 1 && r.promises[..|s.promises|] == s.promises
    && r.resolvers == s.resolvers - {id} && r.rejectors == s.rejectors - {id}
    && r.ctx.serials == s.ctx.serials + 2
  }

  /** The client state just before the request, with the two listeners of call `id`. */
  function Registered(c: Config, s: RState, id: string): State<Kind, Value> {
    OnState(OnState(s.ctx, c.ev.receiveEvent, Reply(id)), c.ev.receiveEventError, ReplyError(id))
  }

  /** The reply to a call reaches only the call's own receive listener. */
  lemma {:induction false} ReplyReaches(c: Config, s: RState, req: Value, picks: seq<nat>) returns (y: RState)
    requires Distinct(c.ev)
    requires |Entry(s.ctx.listeners, c.ev.sendEvent)| == 1
    requires Entry(s.ctx.listeners, c.ev.sendEvent)[0].handler == Serve
    requires Fresh(s.ctx.listeners, Nanoid(picks))
    ensures Strip(y) == Strip(RegisterState(c, s, Nanoid(picks)))
    ensures var id := Nanoid(picks);
      var resp := Response(c, Body(RequestPayload(c.ev, id, req)));
      var k := if c.fn(req).Returns? then Reply(id) else ReplyError(id);
      Strip(InvokeState(c, s, req, picks)) == Strip(HandleState(c, 0, y, k, resp.1))
  {
    var id := Nanoid(picks);
    NanoidNonEmpty(picks);
    var s1 := RegisterState(c, s, id);
    var p := RequestPayload(c.ev, id, req);
    y := ServeStep(c, s1, id, req);
    var resp := Response(c, Body(p));
    var ws := Entry(y.ctx.listeners, resp.0);
    assert Answers(resp.1, id);
    if c.fn(req).Returns? {
      assert ws == Entry(s.ctx.listeners, c.ev.receiveEvent) + [Wrapper(s.ctx.serials, Reply(id))];
      EarlierInert(s.ctx.listeners, c.ev.receiveEvent, id, Wrapper(s.ctx.serials, Reply(id)), ws, resp.1);
    } else {
      assert ws == Entry(s.ctx.listeners, c.ev.receiveEventError) + [Wrapper(s.ctx.serials + 1, ReplyError(id))];
      EarlierInert(s.ctx.listeners, c.ev.receiveEventError, id, Wrapper(s.ctx.serials + 1, ReplyError(id)), ws, resp.1);
    }
    OnlyLastActs(c, 0, y, resp.0, resp.1);
  }

  /** The listeners registered before a new call's are all inert to that call's reply. */
  lemma EarlierInert(r: Registry<Kind>, tag: Tag, id: string, w: Wrapper<Kind>, ws: seq<Wrapper<Kind>>, p: Value)
    requires Fresh(r, id) && Answers(p, id)
    requires ws == Entry(r, tag) + [w]
    ensures forall m :: 0 <= m < |ws| - 1 ==> Inert(0, ws[m].handler, p)
  {
    forall m | 0 <= m < |ws| - 1
      ensures Inert(0, ws[m].handler, p)
    {
      assert ws[m] == Entry(r, tag)[m] == r[tag][m];
    }
  }

  /** The round trip of a call that the one bound handler answers (invoke.ts:9-63), with a
      new invoke id: the call's promise is fulfilled with the handler function's result and
      the id leaves both maps. The reply removes every listener of the receive channel,
      including those of other pending calls; the call's error listener stays registered. */
  lemma {:induction false} InvokeResolves(c: Config, s: RState, req: Value, picks: seq<nat>)
    requires Distinct(c.ev)
    requires |Entry(s.ctx.listeners, c.ev.sendEvent)| == 1
    requires Entry(s.ctx.listeners, c.ev.sendEvent)[0].handler == Serve
    requires Fresh(s.ctx.listeners, Nanoid(picks))
    requires c.fn(req).Returns?
    ensures var r := InvokeState(c, s, req, picks);
      Bookkeeping(s, r, Nanoid(picks))
      && r.promises[|s.promises|] == Fulfilled(c.fn(req).value)
      && r.ctx.listeners == Registered(c, s, Nanoid(picks)).listeners - {c.ev.receiveEvent}
  {
    var id := Nanoid(picks);
    var y := ReplyReaches(c, s, req, picks);
    var resp := Response(c, Body(RequestPayload(c.ev, id, req)));
    ResolvedOutcome(c, s, y, InvokeState(c, s, req, picks), id, resp.1);
  }

  /** Resolving the new call's promise, from a state that differs from the registered one
      only in its log. */
  lemma ResolvedOutcome(c: Config, s: RState, y: RState, r: RState, id: string, p: Value)
    requires Strip(y) == Strip(RegisterState(c, s, id))
    requires Answers(p, id)
    requires Strip(r) == Strip(Resolve(c.ev, y, id, p))
    ensures Bookkeeping(s, r, id)
    ensures r.promises[|s.promises|] == Fulfilled(Field(Body(p), "content"))
    ensures r.ctx.listeners == Registered(c, s, id).listeners - {c.ev.receiveEvent}
  {
    assert y.promises == s.promises + [Pending] && y.resolvers == s.resolvers[id := |s.promises|];
    assert y.ctx.listeners == Registered(c, s, id).listeners;
    assert (s.promises + [Pending])[..|s.promises|] == s.promises;
  }

  /** The round trip of a call whose handler function throws: the call's promise is
      rejected with the `error` property of what the handler emitted as content, the id
      leaves both maps, and no listener is removed, so both listeners of the failed call
      stay registered. */
  lemma {:induction false} InvokeRejects(c: Config, s: RState, req: Value, picks: seq<nat>)
    requires Distinct(c.ev)
    requires |Entry(s.ctx.listeners, c.ev.sendEvent)| == 1
    requires Entry(s.ctx.listeners, c.ev.sendEvent)[0].handler == Serve
    requires Fresh(s.ctx.listeners, Nanoid(picks))
    requires c.fn(req).Throws?
    ensures var r := InvokeState(c, s, req, picks);
      Bookkeeping(s, r, Nanoid(picks))
      && r.promises[|s.promises|] == Rejected(Field(ErrorContent(c, c.fn(req).error), "error"))
      && r.ctx.listeners == Registered(c, s, Nanoid(picks)).listeners
  {
    var id := Nanoid(picks);
    var y := ReplyReaches(c, s, req, picks);
    var resp := Response(c, Body(RequestPayload(c.ev, id, req)));
    RejectedOutcome(c, s, y, InvokeState(c, s, req, picks), id, resp.1);
  }

  /** Rejecting the new call's promise, from a state that differs from the registered one
      only in its log. */
  lemma RejectedOutcome(c: Config, s: RState, y: RState, r: RState, id: string, p: Value)
    requires Strip(y) == Strip(RegisterState(c, s, id))
    requires Answers(p, id)
    requires Strip(r) == Strip(Reject(y, id, p))
    ensures Bookkeeping(s, r, id)
    ensures r.promises[|s.promises|] == Rejected(Field(Field(Body(p), "content"), "error"))
    ensures r.ctx.listeners == Registered(c, s, id).listeners
  {
    assert y.promises == s.promises + [Pending] && y.rejectors == s.rejectors[id := |s.promises|];
    assert y.ctx.listeners == Registered(c, s, id).listeners;
    assert (s.promises + [Pending])[..|s.promises|] == s.promises;
  }

  /** An emission whose every listener is inert changes nothing but the log: a reply with no
      body or with another call's id (invoke.ts:16-21, 31-36), and a request with no body
      or a falsy invoke id (invoke.ts:50-55). */
  lemma UnansweredIgnored(c: Config, d: nat, s: RState, tag: Tag, p: Value)
    requires forall j :: 0 <= j < |Entry(s.ctx.listeners, tag)| ==> Inert(d, Entry(s.ctx.listeners, tag)[j].handler, p)
    ensures Strip(DispatchState(c, d, s, tag, p)) == Strip(s)
  {
    var ws := Entry(s.ctx.listeners, tag);
    Skip(c, d, Log(s, [Emitted(tag, p)]), tag, ws, 0, |ws|, p);
  }

  /** The handler emits nothing for a request with no body or a falsy invoke id, so no
      client state changes (invoke.ts:50-55). */
  lemma MalformedRequestIgnored(c: Config, d: nat, s: RState, p: Value)
    requires forall j :: 0 <= j < |Entry(s.ctx.listeners, c.ev.sendEvent)| ==> Entry(s.ctx.listeners, c.ev.sendEvent)[j].handler == Serve
    requires !WellFormedRequest(p)
    ensures var r := DispatchState(c, d, s, c.ev.sendEvent, p);
      r.promises == s.promises && r.resolvers == s.resolvers && r.rejectors == s.rejectors
      && r.ctx.listeners == s.ctx.listeners
  {
    UnansweredIgnored(c, d, s, c.ev.sendEvent, p);
  }

  /** After one call succeeds, the receive channel has no listener left, so no later reply
      reaches any call that was still pending (invoke.ts:27). */
  lemma {:induction false} SuccessOrphansPendingCalls(c: Config, s: RState, req: Value, picks: seq<nat>, d: nat, p: Value)
    requires Distinct(c.ev)
    requires |Entry(s.ctx.listeners, c.ev.sendEvent)| == 1
    requires Entry(s.ctx.listeners, c.ev.sendEvent)[0].handler == Serve
    requires Fresh(s.ctx.listeners, Nanoid(picks))
    requires c.fn(req).Returns?
    ensures var r := InvokeState(c, s, req, picks);
      Entry(r.ctx.listeners, c.ev.receiveEvent) == []
      && DispatchState(c, d, r, c.ev.receiveEvent, p).promises == r.promises
  {
    InvokeResolves(c, s, req, picks);
    var r := InvokeState(c, s, req, picks);
    UnansweredIgnored(c, d, r, c.ev.receiveEvent, p);
  }

  /** As written (invoke.ts:60-63 against invoke.ts:38): the handler emits what its function
      threw as the content, and the client rejects with that content's `error` property. A
      thrown `Error` object, which has a `message` but no `error` property, therefore
      reaches the caller as a rejection with `undefined`. */
  lemma ThrownErrorLost(c: Config, s: RState, req: Value, picks: seq<nat>, m: string)
    requires Distinct(c.ev)
    requires |Entry(s.ctx.listeners, c.ev.sendEvent)| == 1
    requires Entry(s.ctx.listeners, c.ev.sendEvent)[0].handler == Serve
    requires Fresh(s.ctx.listeners, Nanoid(picks))
    requires !c.wrapErrors && c.fn(req) == Throws(Obj(map["message" := Str(m)]))
    ensures var r := InvokeState(c, s, req, picks);
      |r.promises| == |s.promises| + 1 && r.promises[|s.promises|] == Rejected(Undefined)
  {
    InvokeRejects(c, s, req, picks);
  }

  /** Corrected: with the thrown value sent as `{ error }`, the caller's promise is rejected
      with exactly what the handler function threw. */
  lemma WrappedErrorDelivered(c: Config, s: RState, req: Value, picks: seq<nat>)
    requires Distinct(c.ev)
    requires |Entry(s.ctx.listeners, c.ev.sendEvent)| == 1
    requires Entry(s.ctx.listeners, c.ev.sendEvent)[0].handler == Serve
    requires Fresh(s.ctx.listeners, Nanoid(picks))
    requires c.wrapErrors && c.fn(req).Throws?
    ensures var r := InvokeState(c, s, req, picks);
      |r.promises| == |s.promises| + 1 && r.promises[|s.promises|] == Rejected(c.fn(req).error)
  {
    InvokeRejects(c, s, req, picks);
  }

  // ---------------------------------------------------------------------------------------
  // The effect log only grows

  ghost predicate Prefix<T>(x: seq<T>, y: seq<T>) {
    |x| <= |y| && y[..|x|] == x
  }

  lemma PrefixTrans<T>(x: seq<T>, y: seq<T>, z: seq<T>)
    requires Prefix(x, y) && Prefix(y, z)
    ensures Prefix(x, z)
  {
    assert z[..|y|][..|x|] == z[..|x|];
  }

  lemma PrefixAppend<T>(x: seq<T>, l: seq<T>)
    ensures Prefix(x, x + l)
  {
    assert (x + l)[..|x|] == x;
  }

  /** An emission's first effect is its own `Emitted` entry, after the effects before it. */
  lemma {:induction false} DispatchExtends(c: Config, d: nat, s: RState, tag: Tag, p: Value)
    ensures Prefix(s.ctx.log + [Emitted(tag, p)], DispatchState(c, d, s, tag, p).ctx.log)
    decreases d, 2, 0
  {
    var z := Log(s, [Emitted(tag, p)]);
    var f := FireAllState(c, d, z, tag, Entry(s.ctx.listeners, tag), 0, p);
    FireAllExtends(c, d, z, tag, Entry(s.ctx.listeners, tag), 0, p);
    PrefixAppend(f.ctx.log, SentHook(c.hooks, tag, p));
    PrefixTrans(z.ctx.log, f.ctx.log, f.ctx.log + SentHook(c.hooks, tag, p));
  }

  lemma {:induction false} FireAllExtends(c: Config, d: nat, s: RState, tag: Tag, ws: seq<Wrapper<Kind>>, i: nat, p: Value)
    ensures Prefix(s.ctx.log, FireAllState(c, d, s, tag, ws, i, p).ctx.log)
    decreases d, 1, |ws| - i
  {
    if i >= |ws| {
      PrefixAppend(s.ctx.log, []);
      assert s.ctx.log + [] == s.ctx.log;
    } else {
      var f := FireState(c, d, s, tag, ws[i], p);
      FireExtends(c, d, s, tag, ws[i], p);
      FireAllExtends(c, d, f, tag, ws, i + 1, p);
      PrefixTrans(s.ctx.log, f.ctx.log, FireAllState(c, d, s, tag, ws, i, p).ctx.log);
    }
  }

  lemma {:induction false} FireExtends(c: Config, d: nat, s: RState, tag: Tag, w: Wrapper<Kind>, p: Value)
    ensures Prefix(s.ctx.log, FireState(c, d, s, tag, w, p).ctx.log)
    decreases d, 0, 1
  {
    var y := Log(s, [Called(w.handler, p)]);
    var h := HandleState(c, d, y, w.handler, p);
    PrefixAppend(s.ctx.log, [Called(w.handler, p)]);
    HandleExtends(c, d, y, w.handler, p);
    PrefixTrans(s.ctx.log, y.ctx.log, h.ctx.log);
    PrefixAppend(h.ctx.log, ReceivedHook(c.hooks, tag, p));
    PrefixTrans(s.ctx.log, h.ctx.log, h.ctx.log + ReceivedHook(c.hooks, tag, p));
  }

  lemma {:induction false} HandleExtends(c: Config, d: nat, s: RState, k: Kind, p: Value)
    ensures Prefix(s.ctx.log, HandleState(c, d, s, k, p).ctx.log)
    decreases d, 0, 0
  {
    match k
    case Reply(id) =>
      assert HandleState(c, d, s, k, p).ctx.log == s.ctx.log;
    case ReplyError(id) =>
      assert HandleState(c, d, s, k, p).ctx.log == s.ctx.log;
    case Serve =>
      if !WellFormedRequest(p) || d == 0 {
        assert HandleState(c, d, s, k, p) == s;
      } else {
        var r := Response(c, Body(p));
        DispatchExtends(c, d - 1, s, r.0, r.1);
        PrefixAppend(s.ctx.log, [Emitted(r.0, r.1)]);
        PrefixTrans(s.ctx.log, s.ctx.log + [Emitted(r.0, r.1)], HandleState(c, d, s, k, p).ctx.log);
      }
  }

  /** A call's first effect is the emission of its request, `{ invokeId, content: req }` on
      the send channel, made once both listeners are registered (invoke.ts:11-15, 30, 44). */
  lemma InvokeEmitsRequest(c: Config, s: RState, req: Value, picks: seq<nat>)
    ensures var r := InvokeState(c, s, req, picks);
      var p := RequestPayload(c.ev, Nanoid(picks), req);
      |r.ctx.log| > |s.ctx.log| && r.ctx.log[..|s.ctx.log|] == s.ctx.log
      && r.ctx.log[|s.ctx.log|] == Emitted(c.ev.sendEvent, p)
      && Field(Body(p), "invokeId") == Str(Nanoid(picks)) && Field(Body(p), "content") == req
  {
    var id := Nanoid(picks);
    var s1 := RegisterState(c, s, id);
    var p := RequestPayload(c.ev, id, req);
    var r := InvokeState(c, s, req, picks);
    DispatchExtends(c, 1, s1, c.ev.sendEvent, p);
    var l0 := s.ctx.log + [Emitted(c.ev.sendEvent, p)];
    assert r.ctx.log[..|l0|] == l0;
    assert r.ctx.log[|s.ctx.log|] == r.ctx.log[..|l0|][|s.ctx.log|];
    assert r.ctx.log[..|s.ctx.log|] == r.ctx.log[..|l0|][..|s.ctx.log|];
  }
}
