/** stream.ts, client and handler: `defineStreamInvoke` returns a caller that opens a
    `ReadableStream` fed by three listeners of one call (items, an error, the end) and emits
    the request; `defineStreamInvokeHandler` binds an async listener that replays what the
    handler's generator produces as one reply per item, then one stream-end.

    The stream's controller is an explicit state machine with a queue. The handler's listener
    is `async`: everything after its first `await` runs once the request's emission is over,
    so an accepted request becomes a pending job that `RunJob` later carries out. */
module Stream {
  import opened Values
  import opened Identifiers
  import opened InvokeShared
  import opened Context
  import opened Invoke

  /** The controller's state: still open, closed by the producer, or errored with a reason. */
  datatype Status = Active | Closed | Errored(reason: Value)

  /** A stream as its reader sees it: the state and the chunks queued and not yet read. */
  datatype Stream = Stream(status: Status, queue: seq<Value>)

  /** `controller.enqueue(x)`: only an open stream takes a chunk. */
  function Enqueue(st: Stream, x: Value): (r: Stream)
    ensures st.status.Active? ==> r == Stream(Active, st.queue + [x])
    ensures !st.status.Active? ==> r == st
  {
    if st.status.Active? then st.(queue := st.queue + [x]) else st
  }

  /** `controller.close()`: an open stream closes; the queued chunks stay readable. */
  function Close(st: Stream): (r: Stream)
    ensures st.status.Active? ==> r == Stream(Closed, st.queue)
    ensures !st.status.Active? ==> r == st
  {
    if st.status.Active? then st.(status := Closed) else st
  }

  /** `controller.error(e)`: an open stream errors and its queue is discarded. */
  function Error(st: Stream, e: Value): (r: Stream)
    ensures st.status.Active? ==> r == Stream(Errored(e), [])
    ensures !st.status.Active? ==> r == st
  {
    if st.status.Active? then Stream(Errored(e), []) else st
  }

  /** The reader side is still readable: open, or closed by the producer with chunks still
      queued (a stream only becomes "closed" for its reader once its queue drains, section
      4.2.4 of the Streams Standard). Cancelling such a stream runs the source's `cancel`. */
  predicate Readable(st: Stream) {
    st.status.Active? || (st.status.Closed? && st.queue != [])
  }

  /** The listeners this code registers; `stream` is the index of the call's stream. */
  datatype SKind =
    | Item(invokeId: string, stream: nat)  // stream.ts:18-27
    | Fail(invokeId: string, stream: nat)  // stream.ts:28-37
    | End(invokeId: string, stream: nat)   // stream.ts:38-47
    | Generate                             // stream.ts:60-74

  /** What the handler's async generator does for one request: the items it yields, in
      order, then how it stops (`Returns` when it finishes, `Throws(e)` when it throws). */
  datatype Generator = Generator(items: seq<Value>, ending: Call)

  /** The event bundle, the generator each request starts, the adapter hooks, and whether the
      handler reports a throwing generator on the error channel (`false` is the code as
      written). */
  datatype SConfig = SConfig(ev: InvokeEventa, gen: Value -> Generator, hooks: Hooks, reportErrors: bool)

  /** The context, every stream a call opened, and the request bodies the handler accepted
      whose generators have not run yet. */
  datatype SState = SState(ctx: State<SKind, Value>, streams: seq<Stream>, jobs: seq<Value>)

  function SLog(s: SState, l: seq<Effect<SKind, Value>>): SState {
    s.(ctx := s.ctx.(log := s.ctx.log + l))
  }

  /** `controller` is the call's stream; a listener acts only on its own call's payloads. */
  function HandleS(s: SState, k: SKind, p: Value): SState {
    match k
    case Item(id, j) =>
      if Answers(p, id) && j < |s.streams| then s.(streams := s.streams[j := Enqueue(s.streams[j], Field(Body(p), "content"))]) else s
    case Fail(id, j) =>
      if Answers(p, id) && j < |s.streams| then s.(streams := s.streams[j := Error(s.streams[j], Field(Body(p), "content"))]) else s
    case End(id, j) =>
      if Answers(p, id) && j < |s.streams| then s.(streams := s.streams[j := Close(s.streams[j])]) else s
    case Generate =>
      if WellFormedRequest(p) then s.(jobs := s.jobs + [Body(p)]) else s
  }

  function FireS(c: SConfig, s: SState, tag: Tag, w: Wrapper<SKind>, p: Value): SState {
    SLog(HandleS(SLog(s, [Called(w.handler, p)]), w.handler, p), ReceivedHook(c.hooks, tag, p))
  }

  function FireAllS(c: SConfig, s: SState, tag: Tag, ws: seq<Wrapper<SKind>>, i: nat, p: Value): SState
    decreases |ws| - i
  {
    if i >= |ws| then s else FireAllS(c, FireS(c, s, tag, ws[i], p), tag, ws, i + 1, p)
  }

  /** `emit(tag, p)` on the shared context; no once listener is ever registered. */
  function DispatchS(c: SConfig, s: SState, tag: Tag, p: Value): SState {
    SLog(FireAllS(c, SLog(s, [Emitted(tag, p)]), tag, Entry(s.ctx.listeners, tag), 0, p), SentHook(c.hooks, tag, p))
  }

  /** Emissions in order. */
  function EmitSeq(c: SConfig, s: SState, es: seq<(Tag, Value)>): SState {
    if es == [] then s
    else DispatchS(c, EmitSeq(c, s, es[..|es| - 1]), es[|es| - 1].0, es[|es| - 1].1)
  }

  /** Emitting the replies `es[..i + 1]` is emitting `es[..i]`, then `es[i]`. */
  lemma EmitSeqSnoc(c: SConfig, s: SState, es: seq<(Tag, Value)>, i: nat)
    requires i < |es|
    ensures EmitSeq(c, s, es[..i + 1]) == DispatchS(c, EmitSeq(c, s, es[..i]), es[i].0, es[i].1)
  {
    assert es[..i + 1][..i] == es[..i];
  }

  /** The handler's reply carrying `x` on channel `tag`: the request body with its content
      replaced (stream.ts:70, 73). */
  function ReplyTo(tag: Tag, body: Value, x: Value): (r: (Tag, Value))
    ensures r.0 == tag && Field(r.1, "id") == Str(tag)
    ensures !Falsy(Body(r.1)) && Field(Body(r.1), "content") == x
    ensures Field(Body(r.1), "invokeId") == Field(body, "invokeId")
  {
    (tag, With(Descriptor(tag), "body", With(body, "content", x)))
  }

  function ItemReplies(c: SConfig, body: Value, items: seq<Value>): (es: seq<(Tag, Value)>)
    ensures |es| == |items|
    ensures forall i :: 0 <= i < |items| ==> es[i] == ReplyTo(c.ev.receiveEvent, body, items[i])
  {
    seq(|items|, i requires 0 <= i < |items| => ReplyTo(c.ev.receiveEvent, body, items[i]))
  }

  /** What the handler emits for an accepted request body (stream.ts:68-73): one reply per
      item, then a stream-end with content `undefined` when the generator finishes; when it
      throws, nothing more as written, or one error reply when `reportErrors` is set. */
  function Replies(c: SConfig, body: Value): seq<(Tag, Value)> {
    var g := c.gen(Field(body, "content"));
    ItemReplies(c, body, g.items)
      + (if g.ending.Returns? then [ReplyTo(c.ev.receiveEventStreamEnd, body, Undefined)]
         else if c.reportErrors then [ReplyTo(c.ev.receiveEventError, body, g.ending.error)]
         else [])
  }

  /** The oldest accepted request, if any, runs its generator to the end. */
  function RunJobState(c: SConfig, s: SState): SState {
    if s.jobs == [] then s else EmitSeq(c, s.(jobs := s.jobs[1..]), Replies(c, s.jobs[0]))
  }

  /** The part of a stream call before its request is emitted: a new open stream and its
      three listeners, registered by the stream's `start` (stream.ts:14-48). */
  function OpenState(c: SConfig, s: SState, id: string): (r: SState)
    ensures r.streams == s.streams + [Stream(Active, [])] && r.jobs == s.jobs
    ensures r.ctx.serials == s.ctx.serials + 3 && r.ctx.log == s.ctx.log
  {
    var k := |s.streams|;
    var ctx1 := OnState(OnState(OnState(s.ctx, c.ev.receiveEvent, Item(id, k)), c.ev.receiveEventError, Fail(id, k)),
                        c.ev.receiveEventStreamEnd, End(id, k));
    s.(streams := s.streams + [Stream(Active, [])], ctx := ctx1)
  }

  /** One call of the function `defineStreamInvoke` returns (stream.ts:13-56). */
  function CallState(c: SConfig, s: SState, req: Value, picks: seq<nat>): SState {
    var id := Nanoid(picks);
    DispatchS(c, OpenState(c, s, id), c.ev.sendEvent, RequestPayload(c.ev, id, req))
  }

  /** The stream's `cancel` (stream.ts:49-51): on a readable stream every listener of the
      receive channel goes, and the stream closes and drops its queue. A stream that is
      drained and closed, or errored, ignores the cancel. */
  function CancelState(c: SConfig, s: SState, k: nat): SState
    requires k < |s.streams|
  {
    if Readable(s.streams[k]) then
      s.(ctx := OffState(s.ctx, c.ev.receiveEvent), streams := s.streams[k := Stream(Closed, [])])
    else s
  }

  // ---------------------------------------------------------------------------------------
  // The runtime object

  /** One context with one `defineStreamInvoke` caller on it; `BindHandler` is
      `defineStreamInvokeHandler(ctx, ev, fn)`. */
  class StreamRuntime {
    const ctx: EventContext<SKind, Value>
    const cfg: SConfig
    var streams: seq<Stream>
    var jobs: seq<Value>

    ghost predicate Valid()
      reads this, ctx
    {
      ctx.Valid() && ctx.onceListeners == map[] && ctx.hooks == cfg.hooks
    }

    function Model(): SState
      reads this, ctx
    {
      SState(ctx.Model(), streams, jobs)
    }

    constructor(cfg: SConfig)
      ensures Valid() && fresh(ctx) && this.cfg == cfg
      ensures Model() == SState(State(map[], map[], 0, []), [], [])
    {
      this.cfg := cfg;
      ctx := new EventContext(cfg.hooks);
      streams, jobs := [], [];
    }

    /** `defineStreamInvokeHandler(ctx, ev, fn)` (stream.ts:59-60). */
    method BindHandler()
      requires Valid()
      modifies ctx
      ensures Valid()
      ensures Model() == old(Model()).(ctx := OnState(old(Model()).ctx, cfg.ev.sendEvent, Generate))
    {
      ctx.On(cfg.ev.sendEvent, Generate);
    }

    /** Calling the function `defineStreamInvoke` returned; `k` names the stream it returns. */
    method Call(req: Value, picks: seq<nat>) returns (k: nat)
      requires Valid()
      modifies this, ctx
      ensures Valid()
      ensures k == |old(streams)|
      ensures Model() == CallState(cfg, old(Model()), req, picks)
    {
      var id := Nanoid(picks);
      k := |streams|;
      streams := streams + [Stream(Active, [])];
      ctx.On(cfg.ev.receiveEvent, Item(id, k));
      ctx.On(cfg.ev.receiveEventError, Fail(id, k));
      ctx.On(cfg.ev.receiveEventStreamEnd, End(id, k));
      Emit(cfg.ev.sendEvent, RequestPayload(cfg.ev, id, req));
    }

    /** The reader cancels stream `k`. */
    method Cancel(k: nat)
      requires Valid() && k < |streams|
      modifies this, ctx
      ensures Valid()
      ensures Model() == CancelState(cfg, old(Model()), k)
    {
      if Readable(streams[k]) {
        streams := streams[k := Stream(Closed, [])];
        ctx.Off(cfg.ev.receiveEvent);
      }
    }

    /** The rest of the handler's listener for the oldest accepted request: the `for await`
        loop over the generator, then the stream-end (stream.ts:68-73). */
    method RunJob()
      requires Valid() && jobs != []
      modifies this, ctx
      ensures Valid()
      ensures Model() == RunJobState(cfg, old(Model()))
    {
      var body := jobs[0];
      jobs := jobs[1..];
      ghost var s1 := Model();
      ghost var es := Replies(cfg, body);
      var g := cfg.gen(Field(body, "content"));
      var items := ItemReplies(cfg, body, g.items);
      assert es[..|items|] == items;
      var i := 0;
      while i < |g.items|
        invariant i <= |g.items|
        invariant Valid()
        invariant Model() == EmitSeq(cfg, s1, es[..i])
      {
        var r := ReplyTo(cfg.ev.receiveEvent, body, g.items[i]);
        Emit(r.0, r.1);
        EmitSeqSnoc(cfg, s1, es, i);
        i := i + 1;
      }
      if g.ending.Returns? {
        var r := ReplyTo(cfg.ev.receiveEventStreamEnd, body, Undefined);
        Emit(r.0, r.1);
        EmitSeqSnoc(cfg, s1, es, i);
      } else if cfg.reportErrors {
        var r := ReplyTo(cfg.ev.receiveEventError, body, g.ending.error);
        Emit(r.0, r.1);
        EmitSeqSnoc(cfg, s1, es, i);
      }
      assert es[..|es|] == es;
    }

    /** `ctx.emit(tag, p)` with the listeners above. */
    method Emit(tag: Tag, p: Value)
      requires Valid()
      modifies this, ctx
      ensures Valid()
      ensures Model() == DispatchS(cfg, old(Model()), tag, p)
    {
      ghost var s1 := SLog(Model(), [Emitted(tag, p)]);
      ctx.Begin(tag, p);
      var ws := Entry(ctx.listeners, tag);
      var i := 0;
      while i < |ws|
        invariant i <= |ws|
        invariant Valid()
        invariant FireAllS(cfg, Model(), tag, ws, i, p) == FireAllS(cfg, s1, tag, ws, 0, p)
      {
        ghost var before := Model();
        ctx.Enter(ws[i], p);
        Handle(ws[i].handler, p);
        ctx.Leave(tag, p);
        assert Model() == FireS(cfg, before, tag, ws[i], p);
        i := i + 1;
      }
      assert Entry(ctx.onceListeners, tag) == [];
      ctx.RunOnceListeners(tag, p);
      ctx.End(tag, p);
    }

    /** The body of the closure a wrapper calls; the handler's listener only gets as far as
        its first `await`. */
    method Handle(k: SKind, p: Value)
      requires Valid()
      modifies this
      ensures Valid()
      ensures Model() == HandleS(old(Model()), k, p)
    {
      var body := Field(p, "body");
      match k
      case Item(id, j) =>
        if !Falsy(body) && Field(body, "invokeId") == Str(id) && j < |streams| {
          streams := streams[j := Enqueue(streams[j], Field(body, "content"))];
        }
      case Fail(id, j) =>
        if !Falsy(body) && Field(body, "invokeId") == Str(id) && j < |streams| {
          streams := streams[j := Error(streams[j], Field(body, "content"))];
        }
      case End(id, j) =>
        if !Falsy(body) && Field(body, "invokeId") == Str(id) && j < |streams| {
          streams := streams[j := Close(streams[j])];
        }
      case Generate =>
        if !Falsy(body) && !Falsy(Field(body, "invokeId")) {
          jobs := jobs + [body];
        }
    }
  }
}
