/** invoke.ts: request/response over an event context. `defineInvoke` returns a caller that
    registers a reply listener and an error listener per call and emits the request;
    `defineInvokeHandler` binds a listener that answers every well-formed request with one
    reply (or one error reply when the handler function throws).

    Client and handler share one in-process context here, so a reply is emitted while the
    request is still being dispatched, exactly as the synchronous JavaScript code nests the
    two `emit` calls. */
module Invoke {
  import opened Values
  import opened Identifiers
  import opened InvokeShared
  import opened Context

  /** The listeners this code registers, by what their closures do. */
  datatype Kind =
    | Reply(invokeId: string)       // the client's receive listener of one call (invoke.ts:15-28)
    | ReplyError(invokeId: string)  // the client's error listener of one call (invoke.ts:30-42)
    | Serve                         // the handler's request listener (invoke.ts:49-65)

  /** What the code closes over: the event bundle, the handler function (its outcome per
      request), the context's adapter hooks, and whether the handler wraps a thrown error
      in an `{ error }` envelope (`false` is the code as written; see `Response`). */
  datatype Config = Config(ev: InvokeEventa, fn: Value -> Call, hooks: Hooks, wrapErrors: bool)

  /** The context, the two maps from invoke id to the promise a call returned, and the
      state of those promises. */
  datatype RState = RState(
    ctx: State<Kind, Value>,
    resolvers: map<string, nat>,
    rejectors: map<string, nat>,
    promises: seq<PromiseState>)

  /** The descriptor `defineEventa` returns for a channel, spread into each payload. */
  function Descriptor(tag: Tag): Value {
    Obj(map["id" := Str(tag)])
  }

  function Body(p: Value): Value {
    Field(p, "body")
  }

  /** The two guards of a client listener: a truthy body carrying this call's id. */
  predicate Answers(p: Value, id: string) {
    !Falsy(Body(p)) && Field(Body(p), "invokeId") == Str(id)
  }

  /** The two guards of the handler's listener: a truthy body with a truthy invoke id. */
  predicate WellFormedRequest(p: Value) {
    !Falsy(Body(p)) && !Falsy(Field(Body(p), "invokeId"))
  }

  /** The payload of a request (invoke.ts:44). */
  function RequestPayload(ev: InvokeEventa, id: string, req: Value): (p: Value)
    ensures Answers(p, id) && Field(Body(p), "content") == req
    ensures id != "" ==> WellFormedRequest(p)
  {
    With(Descriptor(ev.sendEvent), "body", Obj(map["invokeId" := Str(id), "content" := req]))
  }

  /** The envelope of a thrown error when `wrapErrors` is set. */
  function ErrorContent(c: Config, e: Value): Value {
    if c.wrapErrors then Obj(map["error" := e]) else e
  }

  /** The channel and payload of the handler's answer to a request body (invoke.ts:56-63):
      the body is kept, its `content` replaced by the result or by the thrown error. */
  function Response(c: Config, body: Value): (r: (Tag, Value))
    ensures !Falsy(Body(r.1))
    ensures Field(Body(r.1), "invokeId") == Field(body, "invokeId")
    ensures Field(r.1, "id") == Str(r.0)
    ensures c.fn(Field(body, "content")).Returns? ==>
      r.0 == c.ev.receiveEvent && Field(Body(r.1), "content") == c.fn(Field(body, "content")).value
    ensures c.fn(Field(body, "content")).Throws? ==>
      r.0 == c.ev.receiveEventError
      && Field(Body(r.1), "content") == ErrorContent(c, c.fn(Field(body, "content")).error)
  {
    match c.fn(Field(body, "content"))
    case Returns(v) => (c.ev.receiveEvent, With(Descriptor(c.ev.receiveEvent), "body", With(body, "content", v)))
    case Throws(e) =>
      (c.ev.receiveEventError, With(Descriptor(c.ev.receiveEventError), "body", With(body, "content", ErrorContent(c, e))))
  }

  /** `map.get(id)?.(outcome)`: settles the promise registered under `id`, if any. */
  function SettleAt(promises: seq<PromiseState>, m: map<string, nat>, id: string, outcome: PromiseState): (r: seq<PromiseState>)
    requires !outcome.Pending?
    ensures |r| == |promises|
    ensures forall k :: 0 <= k < |r| ==>
      r[k] == (if id in m && m[id] == k then Settle(promises[k], outcome) else promises[k])
  {
    if id in m && m[id] < |promises| then promises[m[id] := Settle(promises[m[id]], outcome)] else promises
  }

  function Log(s: RState, l: seq<Effect<Kind, Value>>): RState {
    s.(ctx := s.ctx.(log := s.ctx.log + l))
  }

  /** The receive listener of call `id` (invoke.ts:15-28): on its own reply it resolves the
      call, forgets the id in both maps and removes every listener of the receive channel. */
  function Resolve(ev: InvokeEventa, s: RState, id: string, p: Value): (r: RState)
    ensures !Answers(p, id) ==> r == s
    ensures Answers(p, id) ==>
      && id !in r.resolvers && id !in r.rejectors
      && r.ctx.listeners == s.ctx.listeners - {ev.receiveEvent}
      && |r.promises| == |s.promises|
      && (forall k :: 0 <= k < |s.promises| && (id !in s.resolvers || s.resolvers[id] != k) ==> r.promises[k] == s.promises[k])
      && (id in s.resolvers && s.resolvers[id] < |s.promises| && s.promises[s.resolvers[id]].Pending? ==>
            r.promises[s.resolvers[id]] == Fulfilled(Field(Body(p), "content")))
  {
    if !Answers(p, id) then s
    else
      s.(promises := SettleAt(s.promises, s.resolvers, id, Fulfilled(Field(Body(p), "content"))),
         resolvers := s.resolvers - {id},
         rejectors := s.rejectors - {id},
         ctx := OffState(s.ctx, ev.receiveEvent))
  }

  /** The error listener of call `id` (invoke.ts:30-42): on its own error reply it rejects the
      call with the `error` property of the content and forgets the id; no listener is
      removed. */
  function Reject(s: RState, id: string, p: Value): (r: RState)
    ensures !Answers(p, id) ==> r == s
    ensures Answers(p, id) ==>
      && id !in r.resolvers && id !in r.rejectors
      && r.ctx == s.ctx
      && |r.promises| == |s.promises|
      && (forall k :: 0 <= k < |s.promises| && (id !in s.rejectors || s.rejectors[id] != k) ==> r.promises[k] == s.promises[k])
      && (id in s.rejectors && s.rejectors[id] < |s.promises| && s.promises[s.rejectors[id]].Pending? ==>
            r.promises[s.rejectors[id]] == Rejected(Field(Field(Body(p), "content"), "error")))
  {
    if !Answers(p, id) then s
    else
      s.(promises := SettleAt(s.promises, s.rejectors, id, Rejected(Field(Field(Body(p), "content"), "error"))),
         rejectors := s.rejectors - {id},
         resolvers := s.resolvers - {id})
  }

  // ---------------------------------------------------------------------------------------
  // Dispatch. `depth` bounds how deeply emissions nest: a request emitted at depth `d`
  // is answered at depth `d - 1`, and the handler does not answer at depth 0.

  /** `emit(tag, p)` on the shared context. Its once set is empty (this code registers no
      once listener), so only the persistent wrappers run. */
  function DispatchState(c: Config, depth: nat, s: RState, tag: Tag, p: Value): RState
    decreases depth, 2, 0
  {
    var s1 := FireAllState(c, depth, Log(s, [Emitted(tag, p)]), tag, Entry(s.ctx.listeners, tag), 0, p);
    Log(s1, SentHook(c.hooks, tag, p))
  }

  /** The wrappers of the set as it was when the emission began, from position `i` on. */
  function FireAllState(c: Config, depth: nat, s: RState, tag: Tag, ws: seq<Wrapper<Kind>>, i: nat, p: Value): RState
    decreases depth, 1, |ws| - i
  {
    if i >= |ws| then s
    else FireAllState(c, depth, FireState(c, depth, s, tag, ws[i], p), tag, ws, i + 1, p)
  }

  /** One wrapper: its handler, then `onReceived`. */
  function FireState(c: Config, depth: nat, s: RState, tag: Tag, w: Wrapper<Kind>, p: Value): RState
    decreases depth, 0, 1
  {
    var s1 := HandleState(c, depth, Log(s, [Called(w.handler, p)]), w.handler, p);
    Log(s1, ReceivedHook(c.hooks, tag, p))
  }

  function HandleState(c: Config, depth: nat, s: RState, k: Kind, p: Value): RState
    decreases depth, 0, 0
  {
    match k
    case Reply(id) => Resolve(c.ev, s, id, p)
    case ReplyError(id) => Reject(s, id, p)
    case Serve =>
      if !WellFormedRequest(p) || depth == 0 then s
      else
        var r := Response(c, Body(p));
        DispatchState(c, depth - 1, s, r.0, r.1)
  }

  /** One call of the function `defineInvoke` returns (invoke.ts:9-45): a fresh id, both map
      entries, a pending promise, the two listeners, then the request. */
  function InvokeState(c: Config, s: RState, req: Value, picks: seq<nat>): RState {
    var id := Nanoid(picks);
    DispatchState(c, 1, RegisterState(c, s, id), c.ev.sendEvent, RequestPayload(c.ev, id, req))
  }

  /** The part of a call before its request is emitted (invoke.ts:10-42). */
  function RegisterState(c: Config, s: RState, id: string): (r: RState)
    ensures r.resolvers == s.resolvers[id := |s.promises|] && r.rejectors == s.rejectors[id := |s.promises|]
    ensures r.promises == s.promises + [Pending]
    ensures r.ctx.serials == s.ctx.serials + 2 && r.ctx.log == s.ctx.log
    ensures c.ev.receiveEvent != c.ev.receiveEventError ==>
      && Entry(r.ctx.listeners, c.ev.receiveEvent) == Entry(s.ctx.listeners, c.ev.receiveEvent) + [Wrapper(s.ctx.serials, Reply(id))]
      && Entry(r.ctx.listeners, c.ev.receiveEventError) == Entry(s.ctx.listeners, c.ev.receiveEventError) + [Wrapper(s.ctx.serials + 1, ReplyError(id))]
      && forall t :: t != c.ev.receiveEvent && t != c.ev.receiveEventError ==> Entry(r.ctx.listeners, t) == Entry(s.ctx.listeners, t)
  {
    var k := |s.promises|;
    s.(resolvers := s.resolvers[id := k],
       rejectors := s.rejectors[id := k],
       promises := s.promises + [Pending],
       ctx := OnState(OnState(s.ctx, c.ev.receiveEvent, Reply(id)), c.ev.receiveEventError, ReplyError(id)))
  }

  // ---------------------------------------------------------------------------------------
  // The runtime object

  /** One context with one `defineInvoke` caller on it; `BindHandler` is
      `defineInvokeHandler(ctx, ev, fn)`. */
  class Runtime {
    const ctx: EventContext<Kind, Value>
    const cfg: Config
    var resolvers: map<string, nat>
    var rejectors: map<string, nat>
    var promises: seq<PromiseState>

    ghost predicate Valid()
      reads this, ctx
    {
      ctx.Valid() && ctx.onceListeners == map[] && ctx.hooks == cfg.hooks
    }

    function Model(): RState
      reads this, ctx
    {
      RState(ctx.Model(), resolvers, rejectors, promises)
    }

    constructor(cfg: Config)
      ensures Valid() && fresh(ctx) && this.cfg == cfg
      ensures Model() == RState(State(map[], map[], 0, []), map[], map[], [])
    {
      this.cfg := cfg;
      ctx := new EventContext(cfg.hooks);
      resolvers, rejectors, promises := map[], map[], [];
    }

    /** `defineInvokeHandler(ctx, ev, fn)` (invoke.ts:48-49). */
    method BindHandler()
      requires Valid()
      modifies ctx
      ensures Valid()
      ensures Model() == old(Model()).(ctx := OnState(old(Model()).ctx, cfg.ev.sendEvent, Serve))
    {
      ctx.On(cfg.ev.sendEvent, Serve);
    }

    /** Calling the function `defineInvoke` returned; `k` names the promise it returns and
        `picks` are the draws of `nanoid()`. */
    method Invoke(req: Value, picks: seq<nat>) returns (k: nat)
      requires Valid()
      modifies this, ctx
      ensures Valid()
      ensures k == |old(promises)|
      ensures Model() == InvokeState(cfg, old(Model()), req, picks)
    {
      var id := Nanoid(picks);
      k := |promises|;
      resolvers := resolvers[id := k];
      rejectors := rejectors[id := k];
      promises := promises + [Pending];
      ctx.On(cfg.ev.receiveEvent, Reply(id));
      ctx.On(cfg.ev.receiveEventError, ReplyError(id));
      Emit(cfg.ev.sendEvent, RequestPayload(cfg.ev, id, req), 1);
    }

    /** `ctx.emit(tag, p)` with the listeners above. */
    method Emit(tag: Tag, p: Value, depth: nat)
      requires Valid()
      modifies this, ctx
      ensures Valid()
      ensures Model() == DispatchState(cfg, depth, old(Model()), tag, p)
      decreases depth, 2, 0
    {
      ghost var s1 := Log(Model(), [Emitted(tag, p)]);
      ctx.Begin(tag, p);
      var ws := Entry(ctx.listeners, tag);
      var i := 0;
      while i < |ws|
        invariant i <= |ws|
        invariant Valid()
        invariant FireAllState(cfg, depth, Model(), tag, ws, i, p) == FireAllState(cfg, depth, s1, tag, ws, 0, p)
      {
        ghost var before := Model();
        Fire(tag, ws[i], p, depth);
        assert FireAllState(cfg, depth, before, tag, ws, i, p)
            == FireAllState(cfg, depth, Model(), tag, ws, i + 1, p);
        i := i + 1;
      }
      assert Entry(ctx.onceListeners, tag) == [];
      ctx.RunOnceListeners(tag, p);
      ctx.End(tag, p);
    }

    /** One wrapper of an emission. */
    method Fire(tag: Tag, w: Wrapper<Kind>, p: Value, depth: nat)
      requires Valid()
      modifies this, ctx
      ensures Valid()
      ensures Model() == FireState(cfg, depth, old(Model()), tag, w, p)
      decreases depth, 0, 1
    {
      ctx.Enter(w, p);
      Handle(w.handler, p, depth);
      ctx.Leave(tag, p);
    }

    /** The body of the closure a wrapper calls. */
    method Handle(k: Kind, p: Value, depth: nat)
      requires Valid()
      modifies this, ctx
      ensures Valid()
      ensures Model() == HandleState(cfg, depth, old(Model()), k, p)
      decreases depth, 0, 0
    {
      var body := Field(p, "body");
      match k
      case Reply(id) =>
        if !Falsy(body) && Field(body, "invokeId") == Str(id) {
          promises := SettleAt(promises, resolvers, id, Fulfilled(Field(body, "content")));
          resolvers := resolvers - {id};
          rejectors := rejectors - {id};
          ctx.Off(cfg.ev.receiveEvent);
        }
      case ReplyError(id) =>
        if !Falsy(body) && Field(body, "invokeId") == Str(id) {
          promises := SettleAt(promises, rejectors, id, Rejected(Field(Field(body, "content"), "error")));
          rejectors := rejectors - {id};
          resolvers := resolvers - {id};
        }
      case Serve =>
        if !Falsy(body) && !Falsy(Field(body, "invokeId")) && depth > 0 {
          var r := Response(cfg, body);
          Emit(r.0, r.1, depth - 1);
        }
    }
  }
}
