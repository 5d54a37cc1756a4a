/** index.ts:100-115: the local `defineInvoke(fn)` built from two `defineEvent` channels. The
    server channel holds one listener, the relay, which answers a request by emitting
    `fn(request)` on the client channel; a call emits the request and then waits, with `until`,
    for the next payload on the client channel. Both channels are made without hooks. */
module LocalInvoke {
  import opened Values
  import opened DefineEvent
  import opened DefineEventLaws

  /** The server channel's single listener (index.ts:104-106). */
  datatype Relay = Relay

  /** What a call gives back: the promise `until` returned, or the value `fn` threw out of the
      relay, which leaves the call before it reaches `until`. */
  datatype Invocation = Promise(index: nat) | Threw(error: Value)

  const NoHooks := Hooks(false, false)

  /** The listener every call passes to `until` (index.ts:111-113). */
  function PayloadData(e: EventPayload): Call {
    Returns(e.data)
  }

  /** The client channel as calls leave it: no persistent listeners, and every once listener is
      a call's `until` closure waiting for the payload's data. */
  ghost predicate ClientShape(c: ChannelState<Relay>) {
    Coherent(c) && c.listeners == [] &&
    (forall i :: 0 <= i < |c.onceListeners| ==>
       c.onceListeners[i].Waiter? && c.promises[c.onceListeners[i].promise] == Pending) &&
    forall k :: 0 <= k < |c.untils| ==> c.untils[k] == PayloadData
  }

  /** With only `until` closures that return, an emission on the client channel never throws. */
  lemma {:induction false} ClientNeverThrows(os: seq<OnceListener<Relay>>, i: nat, data: Value,
                                             draws: nat -> seq<nat>, clock: nat -> int, n0: nat,
                                             s: ChannelState<Relay>)
    requires forall k :: 0 <= k < |s.untils| ==> s.untils[k] == PayloadData
    ensures RunOnce(NoHooks, os, i, data, draws, clock, n0, s).1 == None
    decreases |os| - i
  {
    if i < |os| {
      var step := OnceStep(NoHooks, os[i], data, draws, clock, n0 + i, s);
      assert step.1 == None;
      ClientNeverThrows(os, i + 1, data, draws, clock, n0, step.0);
    }
  }

  /** The client emission of one answer `v`: it resolves every waiting call, oldest first. */
  function Answer(c: ChannelState<Relay>, v: Value, draws: nat -> seq<nat>, clock: nat -> int): ChannelState<Relay> {
    EmitState(NoHooks, c, v, draws, clock).0
  }

  /** index.ts:108-114 as written: the request is emitted (the relay answers at once), and only
      then does the call register its `until`. */
  function AsWritten(c: ChannelState<Relay>, fn: Value -> Call, req: Value, draws: nat -> seq<nat>,
                     clock: nat -> int): (ChannelState<Relay>, Invocation)
  {
    match fn(req)
    case Throws(err) => (c, Threw(err))
    case Returns(v) =>
      var c1 := Answer(c, v, draws, clock);
      (UntilState(c1, PayloadData), Promise(|c1.promises|))
  }

  /** The evidently intended order: register the `until` first, then emit the request. */
  function Corrected(c: ChannelState<Relay>, fn: Value -> Call, req: Value, draws: nat -> seq<nat>,
                     clock: nat -> int): (ChannelState<Relay>, Invocation)
  {
    var c1 := UntilState(c, PayloadData);
    match fn(req)
    case Throws(err) => (c1, Threw(err))
    case Returns(v) => (Answer(c1, v, draws, clock), Promise(|c.promises|))
  }

  /** An answer settles every waiting call with that answer and keeps the client's shape. */
  lemma AnswerSettlesAll(c: ChannelState<Relay>, v: Value, draws: nat -> seq<nat>, clock: nat -> int)
    requires ClientShape(c)
    ensures var c' := Answer(c, v, draws, clock);
      ClientShape(c') && c'.onceListeners == [] && |c'.promises| == |c.promises| &&
      forall k :: 0 <= k < |c.promises| && Waiter(k) in c.onceListeners ==> c'.promises[k] == Fulfilled(v)
  {
    assert c.onceListeners[0..] == c.onceListeners;
    var log1 := RunListeners(NoHooks, c.listeners, v, draws, clock, 0, c.log);
    var s2 := c.(log := log1);
    ClientNeverThrows(c.onceListeners, 0, v, draws, clock, 0, s2);
    RunOnceFrame(NoHooks, c.onceListeners, 0, v, draws, clock, 0, s2);
    RunOnceSet(NoHooks, c.onceListeners, 0, v, draws, clock, 0, s2);
    assert c.log + [] == c.log;
    assert Answer(c, v, draws, clock) == RunOnce(NoHooks, c.onceListeners, 0, v, draws, clock, 0, s2).0;
    forall k | 0 <= k < |c.promises| && Waiter(k) in c.onceListeners
      ensures Answer(c, v, draws, clock).promises[k] == Fulfilled(v)
    {
      var i :| 0 <= i < |c.onceListeners| && c.onceListeners[i] == Waiter(k);
      WaiterSettled(c.onceListeners, 0, v, draws, clock, s2, k);
    }
  }

  /** The closure of call `k`, anywhere in the once set, resolves that call with the answer. */
  lemma {:induction false} WaiterSettled(os: seq<OnceListener<Relay>>, i: nat, v: Value, draws: nat -> seq<nat>,
                                         clock: nat -> int, s: ChannelState<Relay>, k: nat)
    requires NoDup(os) && i <= |os| && Waiter(k) in os[i..]
    requires k < |s.promises| == |s.untils| && s.promises[k] == Pending && forall q :: 0 <= q < |s.untils| ==> s.untils[q] == PayloadData
    ensures var r := RunOnce(NoHooks, os, i, v, draws, clock, 0, s).0;
      k < |r.promises| && r.promises[k] == Fulfilled(v)
    decreases |os| - i
  {
    var step := OnceStep(NoHooks, os[i], v, draws, clock, i, s);
    ClientNeverThrows(os, i, v, draws, clock, 0, s);
    RunOnceFrame(NoHooks, os, i + 1, v, draws, clock, 0, step.0);
    assert os[i..] == [os[i]] + os[i + 1..];
    if os[i] == Waiter(k) {
      assert step.0.promises[k] == Fulfilled(v);
      PromiseKept(os, i + 1, v, draws, clock, step.0, k);
    } else {
      WaiterSettled(os, i + 1, v, draws, clock, step.0, k);
    }
  }

  /** A settled promise stays as it is: settling is first-wins (`Settle`). */
  lemma {:induction false} PromiseKept(os: seq<OnceListener<Relay>>, i: nat, v: Value, draws: nat -> seq<nat>,
                                       clock: nat -> int, s: ChannelState<Relay>, k: nat)
    requires k < |s.promises| && s.promises[k] == Fulfilled(v)
    ensures var r := RunOnce(NoHooks, os, i, v, draws, clock, 0, s).0;
      k < |r.promises| && r.promises[k] == Fulfilled(v)
    decreases |os| - i
  {
    if i < |os| {
      var step := OnceStep(NoHooks, os[i], v, draws, clock, i, s);
      if step.1.None? {
        PromiseKept(os, i + 1, v, draws, clock, step.0, k);
      }
    }
  }

  /** A call's `until` keeps the client's shape. */
  lemma UntilKeepsShape(c: ChannelState<Relay>)
    requires ClientShape(c)
    ensures ClientShape(UntilState(c, PayloadData))
  {
    UntilCoherent(c, PayloadData);
    var c1 := UntilState(c, PayloadData);
    assert forall i :: 0 <= i < |c.onceListeners| ==> c1.onceListeners[i] == c.onceListeners[i];
  }

  /** index.ts:108-114 as written: the relay's answer to a call settles the calls that were
      already waiting, and the call's own promise, created after that answer, is left pending. */
  lemma AsWrittenAnswersEarlierCalls(c: ChannelState<Relay>, fn: Value -> Call, req: Value, draws: nat -> seq<nat>,
                                     clock: nat -> int)
    requires ClientShape(c) && fn(req).Returns?
    ensures var (c', r) := AsWritten(c, fn, req, draws, clock);
      ClientShape(c') && r == Promise(|c.promises|) && |c'.promises| == |c.promises| + 1 &&
      c'.promises[r.index] == Pending && c'.onceListeners == [Waiter(r.index)] &&
      forall k :: 0 <= k < |c.promises| && Waiter(k) in c.onceListeners ==> c'.promises[k] == Fulfilled(fn(req).value)
  {
    AnswerSettlesAll(c, fn(req).value, draws, clock);
    UntilKeepsShape(Answer(c, fn(req).value, draws, clock));
  }

  /** The discrepancy, from a fresh client: the first call's promise is still pending after the
      call, and the second call's answer `fn(req2)` is what resolves it. */
  lemma AsWrittenFirstCallGetsSecondAnswer(fn: Value -> Call, req1: Value, req2: Value, draws: nat -> seq<nat>,
                                           clock: nat -> int)
    requires fn(req1).Returns? && fn(req2).Returns?
    ensures var (c1, r1) := AsWritten(ChannelState([], [], [], [], []), fn, req1, draws, clock);
      var (c2, r2) := AsWritten(c1, fn, req2, draws, clock);
      r1 == Promise(0) && r2 == Promise(1) && c1.promises == [Pending] &&
      c2.promises == [Fulfilled(fn(req2).value), Pending]
  {
    var c0: ChannelState<Relay> := ChannelState([], [], [], [], []);
    AsWrittenAnswersEarlierCalls(c0, fn, req1, draws, clock);
    var c1 := AsWritten(c0, fn, req1, draws, clock).0;
    AsWrittenAnswersEarlierCalls(c1, fn, req2, draws, clock);
    assert Waiter(0) in c1.onceListeners;
  }

  /** With `until` registered first, a call is settled by its own answer: its promise resolves
      with `fn(req)`, together with any call still waiting, and the client keeps its shape. */
  lemma CorrectedAnswersOwnCall(c: ChannelState<Relay>, fn: Value -> Call, req: Value, draws: nat -> seq<nat>,
                                clock: nat -> int)
    requires ClientShape(c) && fn(req).Returns?
    ensures var (c', r) := Corrected(c, fn, req, draws, clock);
      ClientShape(c') && r == Promise(|c.promises|) && |c'.promises| == |c.promises| + 1 &&
      c'.promises[r.index] == Fulfilled(fn(req).value) && c'.onceListeners == []
  {
    UntilKeepsShape(c);
    var c1 := UntilState(c, PayloadData);
    assert c1.onceListeners[|c.onceListeners|] == Waiter(|c.promises|);
    AnswerSettlesAll(c1, fn(req).value, draws, clock);
  }

  /** A throwing `fn` ends the call before `until` in the code as written, and after it in the
      corrected order, where the call stays waiting. */
  lemma ThrowingRelay(c: ChannelState<Relay>, fn: Value -> Call, req: Value, draws: nat -> seq<nat>, clock: nat -> int)
    requires fn(req).Throws?
    ensures AsWritten(c, fn, req, draws, clock) == (c, Threw(fn(req).error))
    ensures var (c', r) := Corrected(c, fn, req, draws, clock);
      r == Threw(fn(req).error) && c'.promises == c.promises + [Pending] &&
      c'.onceListeners == c.onceListeners + [Waiter(|c.promises|)]
  {
  }

  /** The two channels of one `defineInvoke(fn)`. */
  class Invoker {
    const server: Channel<Relay>
    const client: Channel<Relay>
    const fn: Value -> Call

    ghost predicate Valid()
      reads this, server, client
    {
      server != client && server.hooks == NoHooks && client.hooks == NoHooks &&
      server.Valid() && server.listeners == [Relay] && server.onceListeners == [] &&
      client.Valid() && ClientShape(client.Model())
    }

    /** index.ts:100-106: two fresh channels, the relay registered on the server one. */
    constructor(fn: Value -> Call)
      ensures Valid() && fresh(server) && fresh(client) && this.fn == fn
      ensures client.Model() == ChannelState([], [], [], [], []) && server.log == []
    {
      this.fn := fn;
      server := new Channel(NoHooks);
      client := new Channel(NoHooks);
      new;
      server.On(Relay);
    }

    /** index.ts:108-114: one call of the function `defineInvoke` returns. */
    method Call(req: Value, draws: nat -> seq<nat>, clock: nat -> int) returns (r: Invocation)
      requires Valid()
      modifies server, client
      ensures Valid()
      ensures server.log == old(server.log) + [Called(Relay, Stamp(draws, clock, req, 0))]
      ensures (client.Model(), r) == AsWritten(old(client.Model()), fn, req, draws, clock)
    {
      ghost var s0 := server.Model();
      var thrown := server.Emit(req, draws, clock);
      assert server.log == s0.log + [Called(Relay, Stamp(draws, clock, req, 0))] by {
        assert s0.log + [] == s0.log;
        assert [Relay][1..] == [];
      }
      var c := fn(req);
      if c.Throws? {
        return Threw(c.error);
      }
      AnswerSettlesAll(client.Model(), c.value, draws, clock);
      thrown := client.Emit(c.value, draws, clock);
      UntilKeepsShape(client.Model());
      var k := client.Until(PayloadData);
      r := Promise(k);
    }
  }
}
