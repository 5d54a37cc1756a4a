/** What a stream call through `defineStreamInvoke` / `defineStreamInvokeHandler` does end
    to end. */
module StreamLaws {
  import opened Values
  import opened Identifiers
  import opened InvokeShared
  import opened Context
  import opened Invoke
  import opened Stream

  /** The four channels a stream call uses are pairwise distinct. */
  predicate Distinct4(ev: InvokeEventa) {
    ev.sendEvent != ev.receiveEvent && ev.sendEvent != ev.receiveEventError
    && ev.sendEvent != ev.receiveEventStreamEnd && ev.receiveEvent != ev.receiveEventError
    && ev.receiveEvent != ev.receiveEventStreamEnd && ev.receiveEventError != ev.receiveEventStreamEnd
  }

  /** Every bundle `defineInvokeEventa` returns keeps the four channels apart. */
  lemma DefinedDistinct4(tag: Option<string>, picks: seq<nat>)
    ensures Distinct4(DefineInvokeEventa(tag, picks))
  {
    BundleDistinct(tag, picks, SendEvent, ReceiveEvent);
    BundleDistinct(tag, picks, SendEvent, ReceiveEventError);
    BundleDistinct(tag, picks, SendEvent, ReceiveEventStreamEnd);
    BundleDistinct(tag, picks, ReceiveEvent, ReceiveEventError);
    BundleDistinct(tag, picks, ReceiveEvent, ReceiveEventStreamEnd);
    BundleDistinct(tag, picks, ReceiveEventError, ReceiveEventStreamEnd);
  }

  predicate Client(k: SKind) {
    k.Item? || k.Fail? || k.End?
  }

  /** Each listener sits on the channel its code registers it on. */
  predicate Placed(ev: InvokeEventa, r: Registry<SKind>) {
    forall t, j :: t in r && 0 <= j < |r[t]| ==>
      (r[t][j].handler.Generate? ==> t == ev.sendEvent)
      && (r[t][j].handler.Item? ==> t == ev.receiveEvent)
      && (r[t][j].handler.Fail? ==> t == ev.receiveEventError)
      && (r[t][j].handler.End? ==> t == ev.receiveEventStreamEnd)
  }

  /** No listener of call `id` is registered yet. */
  predicate FreshId(r: Registry<SKind>, id: string) {
    forall t, j :: t in r && 0 <= j < |r[t]| && Client(r[t][j].handler) ==> r[t][j].handler.invokeId != id
  }

  /** Exactly one wrapper of `ws` runs `h`; every other one is another call's client
      listener. */
  predicate Routes(ws: seq<Wrapper<SKind>>, h: SKind)
    requires Client(h)
  {
    exists j :: 0 <= j < |ws| && ws[j].handler == h
      && forall m :: 0 <= m < |ws| && m != j ==> Client(ws[m].handler) && ws[m].handler.invokeId != h.invokeId
  }

  function StripS(s: SState): SState {
    s.(ctx := s.ctx.(log := []))
  }

  /** A listener that does nothing but log when called with `p`. */
  predicate InertS(k: SKind, p: Value) {
    if Client(k) then !Answers(p, k.invokeId) else !WellFormedRequest(p)
  }

  lemma InertHandleS(s: SState, k: SKind, p: Value)
    requires InertS(k, p)
    ensures HandleS(s, k, p) == s
  {
  }

  /** Running inert wrappers `ws[i..j]` only logs their calls. */
  lemma {:induction false} SkipS(c: SConfig, s: SState, tag: Tag, ws: seq<Wrapper<SKind>>, i: nat, j: nat, p: Value)
    requires i <= j <= |ws|
    requires forall m :: i <= m < j ==> InertS(ws[m].handler, p)
    ensures FireAllS(c, s, tag, ws, i, p) == FireAllS(c, SLog(s, RunAll(c.hooks, tag, ws[i..j], p)), tag, ws, j, p)
    decreases j - i
  {
    if j == i {
      assert ws[i..j] == [];
      assert s.ctx.log + [] == s.ctx.log;
    } else {
      SkipS(c, s, tag, ws, i, j - 1, p);
      var q := SLog(s, RunAll(c.hooks, tag, ws[i..j - 1], p));
      InertFireS(c, q, tag, ws[j - 1], p);
      RunAllSlice(c.hooks, tag, ws, i, j, p);
      SLogTwice(s, RunAll(c.hooks, tag, ws[i..j - 1], p), Run(c.hooks, tag, ws[j - 1], p));
    }
  }

  /** Running an inert wrapper only logs. */
  lemma InertFireS(c: SConfig, q: SState, tag: Tag, w: Wrapper<SKind>, p: Value)
    requires InertS(w.handler, p)
    ensures FireS(c, q, tag, w, p) == SLog(q, Run(c.hooks, tag, w, p))
  {
    InertHandleS(SLog(q, [Called(w.handler, p)]), w.handler, p);
  }

  /** Logging twice is logging the concatenation. */
  lemma SLogTwice(s: SState, a: seq<Effect<SKind, Value>>, b: seq<Effect<SKind, Value>>)
    ensures SLog(SLog(s, a), b) == SLog(s, a + b)
  {
    assert s.ctx.log + a + b == s.ctx.log + (a + b);
  }

  /** A listener's effect does not depend on the log. */
  lemma HandleIgnoresLog(s: SState, t: SState, k: SKind, p: Value)
    requires StripS(s) == StripS(t)
    ensures StripS(HandleS(s, k, p)) == StripS(HandleS(t, k, p))
  {
    assert s.streams == t.streams && s.jobs == t.jobs && s.ctx.listeners == t.ctx.listeners;
  }

  /** An emission whose every listener is inert changes nothing but the log: a reply with no
      body or another call's id (stream.ts:19-24, 29-34, 39-44), and a request with no body
      or a falsy invoke id (stream.ts:61-66). */
  lemma UnansweredIgnoredS(c: SConfig, s: SState, tag: Tag, p: Value)
    requires forall j :: 0 <= j < |Entry(s.ctx.listeners, tag)| ==> InertS(Entry(s.ctx.listeners, tag)[j].handler, p)
    ensures StripS(DispatchS(c, s, tag, p)) == StripS(s)
  {
    var ws := Entry(s.ctx.listeners, tag);
    SkipS(c, SLog(s, [Emitted(tag, p)]), tag, ws, 0, |ws|, p);
  }

  /** An emission in which only wrapper `j` acts has that wrapper's effect alone. */
  lemma OneActs(c: SConfig, s: SState, tag: Tag, p: Value, j: nat)
    requires j < |Entry(s.ctx.listeners, tag)|
    requires forall m :: 0 <= m < |Entry(s.ctx.listeners, tag)| && m != j ==> InertS(Entry(s.ctx.listeners, tag)[m].handler, p)
    ensures StripS(DispatchS(c, s, tag, p)) == StripS(HandleS(s, Entry(s.ctx.listeners, tag)[j].handler, p))
  {
    var ws := Entry(s.ctx.listeners, tag);
    var z := SLog(s, [Emitted(tag, p)]);
    SkipS(c, z, tag, ws, 0, j, p);
    var q := SLog(z, RunAll(c.hooks, tag, ws[0..j], p));
    var f := FireS(c, q, tag, ws[j], p);
    assert FireAllS(c, q, tag, ws, j, p) == FireAllS(c, f, tag, ws, j + 1, p);
    SkipS(c, f, tag, ws, j + 1, |ws|, p);
    HandleIgnoresLog(SLog(q, [Called(ws[j].handler, p)]), s, ws[j].handler, p);
  }

  /** The reply for call `id` reaches only that call's listener on a routed channel. */
  lemma Routed(c: SConfig, s: SState, tag: Tag, h: SKind, body: Value, x: Value)
    requires Client(h) && Routes(Entry(s.ctx.listeners, tag), h)
    requires Field(body, "invokeId") == Str(h.invokeId)
    ensures StripS(DispatchS(c, s, tag, ReplyTo(tag, body, x).1)) == StripS(HandleS(s, h, ReplyTo(tag, body, x).1))
  {
    var ws := Entry(s.ctx.listeners, tag);
    var j :| 0 <= j < |ws| && ws[j].handler == h
      && forall m :: 0 <= m < |ws| && m != j ==> Client(ws[m].handler) && ws[m].handler.invokeId != h.invokeId;
    OneActs(c, s, tag, ReplyTo(tag, body, x).1, j);
  }

  /** The generator's items reach the call's stream one by one, in order, and nothing else
      changes (stream.ts:18-27, 69-71). */
  lemma {:induction false} DeliverItems(c: SConfig, t: SState, id: string, k: nat, body: Value, items: seq<Value>, q0: seq<Value>)
    requires Routes(Entry(t.ctx.listeners, c.ev.receiveEvent), Item(id, k))
    requires Field(body, "invokeId") == Str(id)
    requires k < |t.streams| && t.streams[k] == Stream(Active, q0)
    ensures StripS(EmitSeq(c, t, ItemReplies(c, body, items)))
         == StripS(t.(streams := t.streams[k := Stream(Active, q0 + items)]))
  {
    if items == [] {
      assert ItemReplies(c, body, items) == [];
      assert q0 + items == q0;
    } else {
      var n := |items| - 1;
      DeliverItems(c, t, id, k, body, items[..n], q0);
      DeliverLast(c, t, id, k, body, items, q0);
    }
  }

  /** The last item of a run, once the earlier ones have been delivered. */
  lemma DeliverLast(c: SConfig, t: SState, id: string, k: nat, body: Value, items: seq<Value>, q0: seq<Value>)
    requires Routes(Entry(t.ctx.listeners, c.ev.receiveEvent), Item(id, k))
    requires Field(body, "invokeId") == Str(id)
    requires k < |t.streams| && t.streams[k] == Stream(Active, q0)
    requires items != []
    requires var n := |items| - 1;
      StripS(EmitSeq(c, t, ItemReplies(c, body, items[..n])))
      == StripS(t.(streams := t.streams[k := Stream(Active, q0 + items[..n])]))
    ensures StripS(EmitSeq(c, t, ItemReplies(c, body, items)))
         == StripS(t.(streams := t.streams[k := Stream(Active, q0 + items)]))
  {
    var n := |items| - 1;
    var es := ItemReplies(c, body, items);
    ItemRepliesLast(c, body, items);
    EmitSeqLast(c, t, es);
    var t1 := t.(streams := t.streams[k := Stream(Active, q0 + items[..n])]);
    ItemStepStrip(c, EmitSeq(c, t, es[..n]), t1, id, k, body, items[n]);
    AppendLast(q0, items);
  }

  lemma AppendLast<T>(q0: seq<T>, items: seq<T>)
    requires items != []
    ensures q0 + items[..|items| - 1] + [items[|items| - 1]] == q0 + items
  {
    assert items[..|items| - 1] + [items[|items| - 1]] == items;
  }

  /** The last emission of a sequence comes after all the others. */
  lemma EmitSeqLast(c: SConfig, t: SState, es: seq<(Tag, Value)>)
    requires es != []
    ensures EmitSeq(c, t, es) == DispatchS(c, EmitSeq(c, t, es[..|es| - 1]), es[|es| - 1].0, es[|es| - 1].1)
  {
  }

  /** The replies to all items but the last, and the last one's reply. */
  lemma ItemRepliesLast(c: SConfig, body: Value, items: seq<Value>)
    requires items != []
    ensures ItemReplies(c, body, items)[..|items| - 1] == ItemReplies(c, body, items[..|items| - 1])
    ensures ItemReplies(c, body, items)[|items| - 1] == ReplyTo(c.ev.receiveEvent, body, items[|items| - 1])
  {
  }

  /** One item reaches the call's stream, from any state that differs only in its log. */
  lemma ItemStepStrip(c: SConfig, x: SState, t1: SState, id: string, k: nat, body: Value, item: Value)
    requires StripS(x) == StripS(t1)
    requires Routes(Entry(t1.ctx.listeners, c.ev.receiveEvent), Item(id, k))
    requires Field(body, "invokeId") == Str(id)
    requires k < |t1.streams| && t1.streams[k].status.Active?
    ensures StripS(DispatchS(c, x, c.ev.receiveEvent, ReplyTo(c.ev.receiveEvent, body, item).1))
         == StripS(t1.(streams := t1.streams[k := Stream(Active, t1.streams[k].queue + [item])]))
  {
    assert x.ctx.listeners == StripS(x).ctx.listeners == t1.ctx.listeners;
    assert x.streams == t1.streams;
    ItemStep(c, x, id, k, body, item);
  }

  /** One item reaches the call's stream. */
  lemma ItemStep(c: SConfig, x: SState, id: string, k: nat, body: Value, item: Value)
    requires Routes(Entry(x.ctx.listeners, c.ev.receiveEvent), Item(id, k))
    requires Field(body, "invokeId") == Str(id)
    requires k < |x.streams| && x.streams[k].status.Active?
    ensures StripS(DispatchS(c, x, c.ev.receiveEvent, ReplyTo(c.ev.receiveEvent, body, item).1))
         == StripS(x.(streams := x.streams[k := Stream(Active, x.streams[k].queue + [item])]))
  {
    Routed(c, x, c.ev.receiveEvent, Item(id, k), body, item);
  }

  /** A channel holding the new call's listener after the listeners of other calls. */
  lemma OpenRoutes(c: SConfig, s: SState, id: string, tag: Tag, h: SKind)
    requires Distinct4(c.ev) && Placed(c.ev, s.ctx.listeners) && FreshId(s.ctx.listeners, id)
    requires || (h == Item(id, |s.streams|) && tag == c.ev.receiveEvent)
             || (h == Fail(id, |s.streams|) && tag == c.ev.receiveEventError)
             || (h == End(id, |s.streams|) && tag == c.ev.receiveEventStreamEnd)
    ensures Routes(Entry(OpenState(c, s, id).ctx.listeners, tag), h)
  {
    var ws := Entry(OpenState(c, s, id).ctx.listeners, tag);
    var old_ := Entry(s.ctx.listeners, tag);
    assert ws[..|old_|] == old_ && ws[|old_|].handler == h;
    forall m | 0 <= m < |ws| && m != |old_|
      ensures Client(ws[m].handler) && ws[m].handler.invokeId != h.invokeId
    {
      assert ws[m] == old_[m] == s.ctx.listeners[tag][m];
    }
  }

  /** The request of a stream call reaches the one bound handler, which accepts it as a
      job; the call's stream is open and empty (stream.ts:14-54, 60-68). */
  lemma {:induction false} CallAccepted(c: SConfig, s: SState, req: Value, picks: seq<nat>)
    requires Distinct4(c.ev)
    requires |Entry(s.ctx.listeners, c.ev.sendEvent)| == 1
    requires Entry(s.ctx.listeners, c.ev.sendEvent)[0].handler == Generate
    ensures var id := Nanoid(picks);
      var o := OpenState(c, s, id);
      StripS(CallState(c, s, req, picks)) == StripS(o.(jobs := s.jobs + [Body(RequestPayload(c.ev, id, req))]))
  {
    var id := Nanoid(picks);
    NanoidNonEmpty(picks);
    var o := OpenState(c, s, id);
    assert Entry(o.ctx.listeners, c.ev.sendEvent) == Entry(s.ctx.listeners, c.ev.sendEvent);
    OneActs(c, o, c.ev.sendEvent, RequestPayload(c.ev, id, req), 0);
  }

  /** Everything before the generator's ending: after the call and the job's items, the
      call's stream holds exactly the generated items, no other stream changed, and the
      routing of the three reply channels is as right after the call. */
  lemma {:induction false} ItemsDelivered(c: SConfig, s: SState, req: Value, picks: seq<nat>) returns (x: SState)
    requires Distinct4(c.ev) && Placed(c.ev, s.ctx.listeners) && FreshId(s.ctx.listeners, Nanoid(picks))
    requires |Entry(s.ctx.listeners, c.ev.sendEvent)| == 1
    requires Entry(s.ctx.listeners, c.ev.sendEvent)[0].handler == Generate
    requires s.jobs == []
    ensures var id := Nanoid(picks);
      var body := Body(RequestPayload(c.ev, id, req));
      var g := c.gen(req);
      var o := OpenState(c, s, id);
      && StripS(x) == StripS(o.(streams := s.streams + [Stream(Active, g.items)]))
      && Field(body, "invokeId") == Str(id)
      && (g.ending.Returns? ==> RunJobState(c, CallState(c, s, req, picks))
                                 == DispatchS(c, x, c.ev.receiveEventStreamEnd, ReplyTo(c.ev.receiveEventStreamEnd, body, Undefined).1))
      && (g.ending.Throws? && c.reportErrors ==>
            RunJobState(c, CallState(c, s, req, picks))
              == DispatchS(c, x, c.ev.receiveEventError, ReplyTo(c.ev.receiveEventError, body, g.ending.error).1))
      && (g.ending.Throws? && !c.reportErrors ==> RunJobState(c, CallState(c, s, req, picks)) == x)
  {
    var id := Nanoid(picks);
    var body := Body(RequestPayload(c.ev, id, req));
    var g := c.gen(req);
    var o := OpenState(c, s, id);
    var k := |s.streams|;
    CallAccepted(c, s, req, picks);
    var s2 := CallState(c, s, req, picks);
    TakeJob(s2, o, body);
    OpenRoutes(c, s, id, c.ev.receiveEvent, Item(id, k));
    ItemsFromOpen(c, s2.(jobs := []), o, id, k, body, g.items);
    x := EmitSeq(c, s2.(jobs := []), ItemReplies(c, body, g.items));
    SnocUpdate(s.streams, Stream(Active, []), Stream(Active, g.items));
    RunJobEnding(c, s2, body);
  }

  /** Taking the one pending job off a state that differs from `o` in its log and that job. */
  lemma TakeJob(s2: SState, o: SState, body: Value)
    requires o.jobs == []
    requires StripS(s2) == StripS(o.(jobs := o.jobs + [body]))
    ensures s2.jobs == [body] && StripS(s2.(jobs := [])) == StripS(o)
  {
    assert s2.jobs == StripS(s2).jobs;
  }

  /** Two states that differ only in their logs have the same listeners, streams and jobs. */
  lemma StripSame(x: SState, y: SState)
    requires StripS(x) == StripS(y)
    ensures x.ctx.listeners == y.ctx.listeners && x.streams == y.streams && x.jobs == y.jobs
  {
    assert x.ctx.listeners == StripS(x).ctx.listeners && y.ctx.listeners == StripS(y).ctx.listeners;
    assert x.streams == StripS(x).streams && y.streams == StripS(y).streams;
  }

  /** Replacing the element just appended. */
  lemma SnocUpdate<T>(xs: seq<T>, a: T, b: T)
    ensures (xs + [a])[|xs| := b] == xs + [b]
  {
  }

  /** The items of a job reach a stream opened empty, from a state that differs from the
      opening one only in its log. */
  lemma ItemsFromOpen(c: SConfig, t: SState, o: SState, id: string, k: nat, body: Value, items: seq<Value>)
    requires StripS(t) == StripS(o)
    requires Routes(Entry(o.ctx.listeners, c.ev.receiveEvent), Item(id, k))
    requires Field(body, "invokeId") == Str(id)
    requires k < |o.streams| && o.streams[k] == Stream(Active, [])
    ensures StripS(EmitSeq(c, t, ItemReplies(c, body, items))) == StripS(o.(streams := o.streams[k := Stream(Active, items)]))
  {
    StripSame(t, o);
    DeliverItems(c, t, id, k, body, items, []);
    assert [] + items == items;
    assert StripS(t.(streams := t.streams[k := Stream(Active, items)])) == StripS(t).(streams := t.streams[k := Stream(Active, items)]);
    assert StripS(o.(streams := o.streams[k := Stream(Active, items)])) == StripS(o).(streams := o.streams[k := Stream(Active, items)]);
  }

  /** The stream-end reply closes the call's stream, from a state that differs from `o`
      only in its log. */
  lemma EndStep(c: SConfig, x: SState, o: SState, id: string, k: nat, body: Value)
    requires StripS(x) == StripS(o)
    requires Routes(Entry(o.ctx.listeners, c.ev.receiveEventStreamEnd), End(id, k))
    requires Field(body, "invokeId") == Str(id)
    requires k < |o.streams|
    ensures DispatchS(c, x, c.ev.receiveEventStreamEnd, ReplyTo(c.ev.receiveEventStreamEnd, body, Undefined).1).streams
         == o.streams[k := Close(o.streams[k])]
  {
    StripSame(x, o);
    var tag := c.ev.receiveEventStreamEnd;
    var r := ReplyTo(tag, body, Undefined).1;
    Routed(c, x, tag, End(id, k), body, Undefined);
    assert DispatchS(c, x, tag, r).streams == StripS(DispatchS(c, x, tag, r)).streams;
    assert HandleS(x, End(id, k), r).streams == StripS(HandleS(x, End(id, k), r)).streams;
    assert Answers(r, id);
  }

  /** The error reply errors the call's stream with the reply's content, from a state that
      differs from `o` only in its log. */
  lemma FailStep(c: SConfig, x: SState, o: SState, id: string, k: nat, body: Value, e: Value)
    requires StripS(x) == StripS(o)
    requires Routes(Entry(o.ctx.listeners, c.ev.receiveEventError), Fail(id, k))
    requires Field(body, "invokeId") == Str(id)
    requires k < |o.streams|
    ensures DispatchS(c, x, c.ev.receiveEventError, ReplyTo(c.ev.receiveEventError, body, e).1).streams
         == o.streams[k := Error(o.streams[k], e)]
  {
    StripSame(x, o);
    var tag := c.ev.receiveEventError;
    var r := ReplyTo(tag, body, e).1;
    Routed(c, x, tag, Fail(id, k), body, e);
    assert DispatchS(c, x, tag, r).streams == StripS(DispatchS(c, x, tag, r)).streams;
    assert HandleS(x, Fail(id, k), r).streams == StripS(HandleS(x, Fail(id, k), r)).streams;
    assert Answers(r, id) && Field(Body(r), "content") == e;
  }

  /** Running a single pending job: its item replies, then the ending's reply, if any. */
  lemma RunJobEnding(c: SConfig, s2: SState, body: Value)
    requires s2.jobs == [body]
    ensures var t := s2.(jobs := []);
      var g := c.gen(Field(body, "content"));
      var x := EmitSeq(c, t, ItemReplies(c, body, g.items));
      && (g.ending.Returns? ==>
            RunJobState(c, s2) == DispatchS(c, x, c.ev.receiveEventStreamEnd, ReplyTo(c.ev.receiveEventStreamEnd, body, Undefined).1))
      && (g.ending.Throws? && c.reportErrors ==>
            RunJobState(c, s2) == DispatchS(c, x, c.ev.receiveEventError, ReplyTo(c.ev.receiveEventError, body, g.ending.error).1))
      && (g.ending.Throws? && !c.reportErrors ==> RunJobState(c, s2) == x)
  {
    var t := s2.(jobs := []);
    var g := c.gen(Field(body, "content"));
    var items := ItemReplies(c, body, g.items);
    var es := Replies(c, body);
    assert s2.jobs[1..] == [];
    if g.ending.Returns? || c.reportErrors {
      assert es[..|es| - 1] == items;
      EmitSeqLast(c, t, es);
    } else {
      assert es == items;
    }
  }

  /** The round trip of a stream call whose generator finishes: the call's stream ends
      closed, holding every generated item in generator order, and no other stream changes
      (stream.ts:13-73). */
  lemma StreamDelivers(c: SConfig, s: SState, req: Value, picks: seq<nat>)
    requires Distinct4(c.ev) && Placed(c.ev, s.ctx.listeners) && FreshId(s.ctx.listeners, Nanoid(picks))
    requires |Entry(s.ctx.listeners, c.ev.sendEvent)| == 1
    requires Entry(s.ctx.listeners, c.ev.sendEvent)[0].handler == Generate
    requires s.jobs == []
    requires c.gen(req).ending.Returns?
    ensures RunJobState(c, CallState(c, s, req, picks)).streams == s.streams + [Stream(Closed, c.gen(req).items)]
  {
    var id := Nanoid(picks);
    var k := |s.streams|;
    var o := OpenState(c, s, id);
    var x := ItemsDelivered(c, s, req, picks);
    OpenRoutes(c, s, id, c.ev.receiveEventStreamEnd, End(id, k));
    EndStep(c, x, o.(streams := s.streams + [Stream(Active, c.gen(req).items)]), id, k, Body(RequestPayload(c.ev, id, req)));
    SnocUpdate(s.streams, Stream(Active, c.gen(req).items), Stream(Closed, c.gen(req).items));
  }

  /** As written (stream.ts:68-73): when the generator throws, the handler emits neither a
      stream-end nor an error, so the call's stream stays open forever with the items
      produced before the throw. */
  lemma StreamHangsOnThrow(c: SConfig, s: SState, req: Value, picks: seq<nat>)
    requires Distinct4(c.ev) && Placed(c.ev, s.ctx.listeners) && FreshId(s.ctx.listeners, Nanoid(picks))
    requires |Entry(s.ctx.listeners, c.ev.sendEvent)| == 1
    requires Entry(s.ctx.listeners, c.ev.sendEvent)[0].handler == Generate
    requires s.jobs == []
    requires c.gen(req).ending.Throws? && !c.reportErrors
    ensures RunJobState(c, CallState(c, s, req, picks)).streams == s.streams + [Stream(Active, c.gen(req).items)]
  {
    var x := ItemsDelivered(c, s, req, picks);
  }

  /** Corrected: a handler that reports the throw on the error channel errors the call's
      stream with what the generator threw. */
  lemma StreamErrorsOnThrow(c: SConfig, s: SState, req: Value, picks: seq<nat>)
    requires Distinct4(c.ev) && Placed(c.ev, s.ctx.listeners) && FreshId(s.ctx.listeners, Nanoid(picks))
    requires |Entry(s.ctx.listeners, c.ev.sendEvent)| == 1
    requires Entry(s.ctx.listeners, c.ev.sendEvent)[0].handler == Generate
    requires s.jobs == []
    requires c.gen(req).ending.Throws? && c.reportErrors
    ensures RunJobState(c, CallState(c, s, req, picks)).streams
         == s.streams + [Stream(Errored(c.gen(req).ending.error), [])]
  {
    var id := Nanoid(picks);
    var k := |s.streams|;
    var o := OpenState(c, s, id);
    var e := c.gen(req).ending.error;
    var x := ItemsDelivered(c, s, req, picks);
    OpenRoutes(c, s, id, c.ev.receiveEventError, Fail(id, k));
    FailStep(c, x, o.(streams := s.streams + [Stream(Active, c.gen(req).items)]), id, k, Body(RequestPayload(c.ev, id, req)), e);
    SnocUpdate(s.streams, Stream(Active, c.gen(req).items), Stream(Errored(e), []));
  }

  /** Cancelling one readable stream, open or closed with unread chunks, removes the receive
      listeners of every call, so no later item reaches any stream; the error and end
      listeners stay, and only the cancelled stream changes (stream.ts:49-51). */
  lemma CancelSilencesAllStreams(c: SConfig, s: SState, k: nat, p: Value)
    requires Distinct4(c.ev)
    requires k < |s.streams| && Readable(s.streams[k])
    ensures var r := CancelState(c, s, k);
      && Entry(r.ctx.listeners, c.ev.receiveEvent) == []
      && Entry(r.ctx.listeners, c.ev.receiveEventError) == Entry(s.ctx.listeners, c.ev.receiveEventError)
      && Entry(r.ctx.listeners, c.ev.receiveEventStreamEnd) == Entry(s.ctx.listeners, c.ev.receiveEventStreamEnd)
      && r.streams == s.streams[k := Stream(Closed, [])]
      && DispatchS(c, r, c.ev.receiveEvent, p).streams == r.streams
  {
    var r := CancelState(c, s, k);
    UnansweredIgnoredS(c, r, c.ev.receiveEvent, p);
  }

  /** A stream that is drained and closed, or errored, ignores `cancel`: no listener goes. */
  lemma CancelAfterEndIgnored(c: SConfig, s: SState, k: nat)
    requires k < |s.streams| && !Readable(s.streams[k])
    ensures CancelState(c, s, k) == s
  {
  }

  /** Cancelling a stream that its producer already closed, before reading its chunks, still
      stops item delivery to another call's open stream. */
  lemma CancelClosedSilencesOthers(c: SConfig, s: SState, k: nat, j: nat, x: Value, p: Value)
    requires Distinct4(c.ev)
    requires k < |s.streams| && s.streams[k] == Stream(Closed, [x])
    requires j < |s.streams| && j != k && s.streams[j].status.Active?
    ensures var r := CancelState(c, s, k);
      && Entry(r.ctx.listeners, c.ev.receiveEvent) == []
      && DispatchS(c, r, c.ev.receiveEvent, p).streams[j] == s.streams[j]
  {
    CancelSilencesAllStreams(c, s, k, p);
  }

  /** The handler's replies for one accepted request: one receive per item, in generator
      order and with the request's invoke id and the item as content, then a single
      stream-end with content `undefined` if and only if the generator finishes; as written,
      a throwing generator adds no error reply (stream.ts:68-73). */
  lemma RepliesShape(c: SConfig, body: Value)
    requires !c.reportErrors
    ensures var g := c.gen(Field(body, "content"));
      var es := Replies(c, body);
      && |es| == |g.items| + (if g.ending.Returns? then 1 else 0)
      && (forall i :: 0 <= i < |g.items| ==>
            es[i].0 == c.ev.receiveEvent && Field(Body(es[i].1), "content") == g.items[i]
            && Field(Body(es[i].1), "invokeId") == Field(body, "invokeId"))
      && (g.ending.Returns? ==>
            es[|g.items|].0 == c.ev.receiveEventStreamEnd && Field(Body(es[|g.items|].1), "content") == Undefined
            && Field(Body(es[|g.items|].1), "invokeId") == Field(body, "invokeId"))
  {
    var g := c.gen(Field(body, "content"));
    var es := Replies(c, body);
    assert es[..|g.items|] == ItemReplies(c, body, g.items);
    forall i | 0 <= i < |g.items|
      ensures es[i] == ReplyTo(c.ev.receiveEvent, body, g.items[i])
    {
      assert es[i] == es[..|g.items|][i];
    }
  }
}
