/** What one `emit` of index.ts's `defineEvent` channel does, stated over the pure model of the
    channel state. */
module DefineEventLaws {
  import opened Values
  import opened Identifiers
  import opened DefineEvent

  /** How many times the log calls listener `l`. */
  function CalledCount<L(==)>(log: seq<Effect<L>>, l: L): nat {
    if log == [] then 0
    else CalledCount(log[..|log| - 1], l) + (if log[|log| - 1].Called? && log[|log| - 1].fn == l then 1 else 0)
  }

  lemma {:induction false} CalledCountAppend<L>(a: seq<Effect<L>>, b: seq<Effect<L>>, l: L)
    ensures CalledCount(a + b, l) == CalledCount(a, l) + CalledCount(b, l)
    decreases |b|
  {
    if b == [] {
      assert a + b == a;
    } else {
      assert (a + b)[..|a + b| - 1] == a + b[..|b| - 1];
      CalledCountAppend(a, b[..|b| - 1], l);
    }
  }

  /** The log of one persistent-listener turn: `l'` is called, and the hook reports. */
  lemma TurnCount<L>(hooks: Hooks, log: seq<Effect<L>>, l': L, e: EventPayload, l: L)
    ensures CalledCount(log + [Called(l', e)] + After(hooks, e), l)
         == CalledCount(log, l) + (if l' == l then 1 else 0)
  {
    CalledCountAppend(log + [Called(l', e)], After(hooks, e), l);
    CalledCountAppend(log, [Called(l', e)], l);
    assert [Called(l', e)][..0] == [];
    if hooks.afterEmit {
      assert After<L>(hooks, e)[..0] == [];
    }
  }

  /** Position of the `j`-th listener's entry when every turn writes `Slot(hooks, 1)` entries. */
  function Slot(hooks: Hooks, j: nat): nat {
    if hooks.afterEmit then 2 * j else j
  }

  /** index.ts:38-44: with the listeners in a set, every persistent listener is called exactly
      once per emission, and nothing else is. */
  lemma {:induction false} RunListenersCount<L>(hooks: Hooks, ls: seq<L>, data: Value, draws: nat -> seq<nat>,
                                                clock: nat -> int, n: nat, log: seq<Effect<L>>, l: L)
    requires NoDup(ls)
    ensures CalledCount(RunListeners(hooks, ls, data, draws, clock, n, log), l)
         == CalledCount(log, l) + (if l in ls then 1 else 0)
    decreases |ls|
  {
    if ls != [] {
      var e := Stamp(draws, clock, data, n);
      NoDupSuffix(ls, 1);
      TurnCount(hooks, log, ls[0], e, l);
      RunListenersCount(hooks, ls[1..], data, draws, clock, n + 1, log + [Called(ls[0], e)] + After(hooks, e), l);
      assert ls == [ls[0]] + ls[1..];
      if l == ls[0] {
        assert l !in ls[1..] by {
          forall m | 0 <= m < |ls| - 1 ensures ls[1..][m] != l {
            assert ls[1..][m] == ls[m + 1];
          }
        }
      }
    }
  }

  /** index.ts:55-57 with 38-44: `on(l)` twice leaves the set as after one `on(l)`, so the next
      emission calls `l` once. */
  lemma OnTwiceCallsOnce<L>(hooks: Hooks, ls: seq<L>, l: L, data: Value, draws: nat -> seq<nat>,
                            clock: nat -> int, log: seq<Effect<L>>)
    requires NoDup(ls)
    ensures Insert(Insert(ls, l), l) == Insert(ls, l)
    ensures CalledCount(RunListeners(hooks, Insert(Insert(ls, l), l), data, draws, clock, 0, log), l)
         == CalledCount(log, l) + 1
  {
    RunListenersCount(hooks, Insert(ls, l), data, draws, clock, 0, log, l);
  }

  /** index.ts:38-44: the persistent loop only appends to the log, `Slot(hooks, 1)` entries per
      listener. */
  lemma {:induction false} RunListenersLength<L>(hooks: Hooks, ls: seq<L>, data: Value, draws: nat -> seq<nat>,
                                                 clock: nat -> int, n: nat, log: seq<Effect<L>>)
    ensures var r := RunListeners(hooks, ls, data, draws, clock, n, log);
      |r| == |log| + Slot(hooks, |ls|) && r[..|log|] == log
    decreases |ls|
  {
    if ls != [] {
      var e := Stamp(draws, clock, data, n);
      var log' := log + [Called(ls[0], e)] + After(hooks, e);
      RunListenersLength(hooks, ls[1..], data, draws, clock, n + 1, log');
      var r := RunListeners(hooks, ls[1..], data, draws, clock, n + 1, log');
      assert r[..|log'|][..|log|] == log'[..|log|];
    }
  }

  /** index.ts:38-44: the persistent loop calls the listeners in set order, the `j`-th with a
      payload of its own (the emission's `n + j`-th), and reports that same payload to
      `afterEmit` right after the call. */
  lemma {:induction false} RunListenersLayout<L>(hooks: Hooks, ls: seq<L>, data: Value, draws: nat -> seq<nat>,
                                                 clock: nat -> int, n: nat, log: seq<Effect<L>>, j: nat)
    requires j < |ls|
    ensures var r := RunListeners(hooks, ls, data, draws, clock, n, log);
      |log| + Slot(hooks, j) < |r| &&
      r[|log| + Slot(hooks, j)] == Called(ls[j], Stamp(draws, clock, data, n + j)) &&
      (hooks.afterEmit ==> |log| + 2 * j + 1 < |r| && r[|log| + 2 * j + 1] == AfterEmit(Stamp(draws, clock, data, n + j)))
    decreases j
  {
    var e := Stamp(draws, clock, data, n);
    var log' := log + [Called(ls[0], e)] + After(hooks, e);
    var r := RunListeners(hooks, ls[1..], data, draws, clock, n + 1, log');
    RunListenersLength(hooks, ls[1..], data, draws, clock, n + 1, log');
    if j == 0 {
      assert r[..|log'|][|log|] == log'[|log|];
      if hooks.afterEmit {
        assert r[..|log'|][|log| + 1] == log'[|log| + 1];
      }
    } else {
      RunListenersLayout(hooks, ls[1..], data, draws, clock, n + 1, log', j - 1);
      assert ls[1..][j - 1] == ls[j];
    }
  }

  /** What the once loop leaves alone: the persistent set, the `until` listeners, the number of
      promises and the log so far. */
  lemma {:induction false} RunOnceFrame<L>(hooks: Hooks, os: seq<OnceListener<L>>, i: nat, data: Value,
                                           draws: nat -> seq<nat>, clock: nat -> int, n0: nat, s: ChannelState<L>)
    ensures var r := RunOnce(hooks, os, i, data, draws, clock, n0, s).0;
      r.listeners == s.listeners && r.untils == s.untils && |r.promises| == |s.promises| &&
      |s.log| <= |r.log| && r.log[..|s.log|] == s.log
    decreases |os| - i
  {
    if i < |os| {
      var step := OnceStep(hooks, os[i], data, draws, clock, n0 + i, s);
      if step.1.None? {
        RunOnceFrame(hooks, os, i + 1, data, draws, clock, n0, step.0);
        var r := RunOnce(hooks, os, i + 1, data, draws, clock, n0, step.0).0;
        assert r.log[..|step.0.log|][..|s.log|] == step.0.log[..|s.log|];
      }
    }
  }

  /** index.ts:46-53: when no `until` listener throws, the once loop empties the once set, so a
      later emission meets none of its listeners; when one throws, the emission stops there, and
      that listener and all after it stay in the set. */
  lemma {:induction false} RunOnceSet<L>(hooks: Hooks, os: seq<OnceListener<L>>, i: nat, data: Value,
                                         draws: nat -> seq<nat>, clock: nat -> int, n0: nat, s: ChannelState<L>)
    requires NoDup(os) && i <= |os| && s.onceListeners == os[i..]
    ensures var (r, thrown) := RunOnce(hooks, os, i, data, draws, clock, n0, s);
      (thrown.None? ==> r.onceListeners == []) &&
      (thrown.Some? ==> exists j :: i <= j < |os| && os[j].Waiter? && r.onceListeners == os[j..])
    decreases |os| - i
  {
    if i < |os| {
      var step := OnceStep(hooks, os[i], data, draws, clock, n0 + i, s);
      assert os[i..][0] == os[i] && os[i..][1..] == os[i + 1..];
      NoDupSuffix(os, i);
      WithoutHead(os[i..]);
      if step.1.None? {
        RunOnceSet(hooks, os, i + 1, data, draws, clock, n0, step.0);
      } else {
        assert os[i].Waiter?;
      }
    }
  }

  /** index.ts:46-53: the once loop calls each `once` listener at most once, and exactly once
      when no `until` listener throws. */
  lemma {:induction false} RunOnceCalls<L>(hooks: Hooks, os: seq<OnceListener<L>>, i: nat, data: Value,
                                           draws: nat -> seq<nat>, clock: nat -> int, n0: nat,
                                           s: ChannelState<L>, l: L)
    requires NoDup(os) && i <= |os|
    ensures var (r, thrown) := RunOnce(hooks, os, i, data, draws, clock, n0, s);
      CalledCount(r.log, l) <= CalledCount(s.log, l) + (if Fn(l) in os[i..] then 1 else 0) &&
      (thrown.None? ==> CalledCount(r.log, l) == CalledCount(s.log, l) + (if Fn(l) in os[i..] then 1 else 0))
    decreases |os| - i
  {
    if i < |os| {
      var e := Stamp(draws, clock, data, n0 + i);
      var step := OnceStep(hooks, os[i], data, draws, clock, n0 + i, s);
      assert os[i..][0] == os[i] && os[i..][1..] == os[i + 1..];
      NoDupSuffix(os, i);
      if step.1.None? {
        RunOnceCalls(hooks, os, i + 1, data, draws, clock, n0, step.0, l);
        assert os[i..] == [os[i]] + os[i + 1..];
        match os[i]
        case Fn(l') =>
          TurnCount(hooks, s.log, l', e, l);
          if l' == l {
            HeadNotInTail(os[i..]);
          }
        case Waiter(k) =>
          CalledCountAppend(s.log, After(hooks, e), l);
          if hooks.afterEmit {
            assert After<L>(hooks, e)[..0] == [];
          }
      }
    }
  }

  /** index.ts:61-63: after `off(l)` the next emission calls `l` only through the once set,
      which `off` leaves alone: at most once, and not at all when `l` is not a `once` listener. */
  lemma OffThenEmit<L>(hooks: Hooks, s: ChannelState<L>, l: L, data: Value, draws: nat -> seq<nat>, clock: nat -> int)
    requires Coherent(s)
    ensures CalledCount(EmitState(hooks, s.(listeners := Without(s.listeners, l)), data, draws, clock).0.log, l)
         <= CalledCount(s.log, l) + (if Fn(l) in s.onceListeners then 1 else 0)
  {
    var s' := s.(listeners := Without(s.listeners, l));
    var before: seq<Effect<L>> := if hooks.beforeEmit then [BeforeEmit] else [];
    var log0 := s.log + before;
    CalledCountAppend(s.log, before, l);
    if hooks.beforeEmit {
      assert before[..0] == [];
    }
    WithoutSpec(s.listeners, l);
    var log1 := RunListeners(hooks, s'.listeners, data, draws, clock, 0, log0);
    RunListenersCount(hooks, s'.listeners, data, draws, clock, 0, log0, l);
    assert s.onceListeners[0..] == s.onceListeners;
    RunOnceCalls(hooks, s.onceListeners, 0, data, draws, clock, |s'.listeners|, s'.(log := log1), l);
    assert EmitState(hooks, s', data, draws, clock)
        == RunOnce(hooks, s.onceListeners, 0, data, draws, clock, |s'.listeners|, s'.(log := log1));
  }

  /** The `until` closure for promise `k`, last in the once set: the emission reaches it unless an
      earlier one throws, and then resolves the promise with what the listener returned for its
      payload; a throw anywhere leaves the promise pending. */
  lemma {:induction false} RunOnceWaiter<L>(hooks: Hooks, os: seq<OnceListener<L>>, i: nat, data: Value,
                                            draws: nat -> seq<nat>, clock: nat -> int, n0: nat,
                                            s: ChannelState<L>, k: nat)
    requires i < |os| && os[|os| - 1] == Waiter(k) && Waiter(k) !in os[..|os| - 1]
    requires k < |s.promises| && k < |s.untils| && s.promises[k] == Pending
    ensures var (r, thrown) := RunOnce(hooks, os, i, data, draws, clock, n0, s);
      var c := s.untils[k](Stamp(draws, clock, data, n0 + |os| - 1));
      k < |r.promises| &&
      (thrown.None? ==> c.Returns? && r.promises[k] == Fulfilled(c.value)) &&
      (thrown.Some? ==> r.promises[k] == Pending)
    decreases |os| - i
  {
    var step := OnceStep(hooks, os[i], data, draws, clock, n0 + i, s);
    RunOnceFrame(hooks, os, i, data, draws, clock, n0, s);
    if i < |os| - 1 {
      assert os[..|os| - 1][i] == os[i];
      if step.1.None? {
        RunOnceWaiter(hooks, os, i + 1, data, draws, clock, n0, step.0, k);
      }
    }
  }

  /** index.ts:64-71: `until(f)` adds one closure behind a new pending promise; the next
      emission, unless a listener throws, resolves that promise with `f` of its payload (the one
      after every other listener's) and consumes the closure. When a throw stops the emission,
      the promise stays pending and the closure stays registered. */
  lemma UntilResolvesOnNextEmit<L>(hooks: Hooks, s: ChannelState<L>, f: EventPayload -> Call, data: Value,
                                   draws: nat -> seq<nat>, clock: nat -> int)
    requires Coherent(s)
    ensures var k := |s.promises|;
      var e := Stamp(draws, clock, data, |s.listeners| + |s.onceListeners|);
      var (r, thrown) := EmitState(hooks, UntilState(s, f), data, draws, clock);
      |r.promises| == k + 1 &&
      (thrown.None? ==> f(e).Returns? && r.promises[k] == Fulfilled(f(e).value) && r.onceListeners == []) &&
      (thrown.Some? ==> r.promises[k] == Pending && Waiter(k) in r.onceListeners)
  {
    var k := |s.promises|;
    var s1 := UntilState(s, f);
    UntilCoherent(s, f);
    var os := s1.onceListeners;
    assert os[..|os| - 1] == s.onceListeners;
    var log0 := s1.log + (if hooks.beforeEmit then [BeforeEmit] else []);
    var log1 := RunListeners(hooks, s1.listeners, data, draws, clock, 0, log0);
    var s2 := s1.(log := log1);
    assert EmitState(hooks, s1, data, draws, clock) == RunOnce(hooks, os, 0, data, draws, clock, |s.listeners|, s2);
    assert os[0..] == os;
    RunOnceFrame(hooks, os, 0, data, draws, clock, |s.listeners|, s2);
    RunOnceSet(hooks, os, 0, data, draws, clock, |s.listeners|, s2);
    RunOnceWaiter(hooks, os, 0, data, draws, clock, |s.listeners|, s2, k);
    var (r, thrown) := RunOnce(hooks, os, 0, data, draws, clock, |s.listeners|, s2);
    if thrown.Some? {
      var j :| 0 <= j < |os| && os[j].Waiter? && r.onceListeners == os[j..];
      assert r.onceListeners[|os| - 1 - j] == Waiter(k);
    }
  }

  /** From position `from` on, the log holds only listener calls and `afterEmit` reports, each
      with a payload carrying `data` under an identifier of `nanoid()`'s shape. */
  ghost predicate Stamped<L>(log: seq<Effect<L>>, from: nat, data: Value) {
    forall m :: from <= m < |log| ==>
      !log[m].BeforeEmit? && log[m].payload.data == data && IsNanoid(log[m].payload.id)
  }

  /** index.ts:13-19, 39-43: each payload of the persistent loop is freshly stamped with the
      emitted data. */
  lemma {:induction false} RunListenersStamped<L>(hooks: Hooks, ls: seq<L>, data: Value, draws: nat -> seq<nat>,
                                                  clock: nat -> int, n: nat, log: seq<Effect<L>>)
    ensures Stamped(RunListeners(hooks, ls, data, draws, clock, n, log), |log|, data)
    decreases |ls|
  {
    if ls != [] {
      var e := Stamp(draws, clock, data, n);
      var log' := log + [Called(ls[0], e)] + After(hooks, e);
      RunListenersStamped(hooks, ls[1..], data, draws, clock, n + 1, log');
      RunListenersLength(hooks, ls[1..], data, draws, clock, n + 1, log');
      var r := RunListeners(hooks, ls[1..], data, draws, clock, n + 1, log');
      forall m | |log| <= m < |log'|
        ensures !r[m].BeforeEmit? && r[m].payload.data == data && IsNanoid(r[m].payload.id)
      {
        assert r[..|log'|][m] == log'[m];
      }
    }
  }

  /** index.ts:13-19, 47-52: so is each payload of the once loop. */
  lemma {:induction false} RunOnceStamped<L>(hooks: Hooks, os: seq<OnceListener<L>>, i: nat, data: Value,
                                             draws: nat -> seq<nat>, clock: nat -> int, n0: nat, s: ChannelState<L>)
    ensures Stamped(RunOnce(hooks, os, i, data, draws, clock, n0, s).0.log, |s.log|, data)
    decreases |os| - i
  {
    if i < |os| {
      var step := OnceStep(hooks, os[i], data, draws, clock, n0 + i, s);
      if step.1.None? {
        RunOnceStamped(hooks, os, i + 1, data, draws, clock, n0, step.0);
        RunOnceFrame(hooks, os, i + 1, data, draws, clock, n0, step.0);
        var r := RunOnce(hooks, os, i + 1, data, draws, clock, n0, step.0).0.log;
        forall m | |s.log| <= m < |step.0.log|
          ensures !r[m].BeforeEmit? && r[m].payload.data == data && IsNanoid(r[m].payload.id)
        {
          assert r[..|step.0.log|][m] == step.0.log[m];
        }
      }
    }
  }

  /** The log of an emission, phase by phase: `log0` after `beforeEmit`, `log1` after the
      persistent loop; the once loop only appends to `log1`. */
  lemma EmitPhases<L>(hooks: Hooks, s: ChannelState<L>, data: Value, draws: nat -> seq<nat>, clock: nat -> int)
    returns (log0: seq<Effect<L>>, log1: seq<Effect<L>>)
    ensures log0 == s.log + (if hooks.beforeEmit then [BeforeEmit] else [])
    ensures log1 == RunListeners(hooks, s.listeners, data, draws, clock, 0, log0)
    ensures var r := EmitState(hooks, s, data, draws, clock).0.log;
      |log0| <= |log1| <= |r| && (forall m :: 0 <= m < |log1| ==> r[m] == log1[m]) &&
      Stamped(r, |log1|, data)
  {
    log0 := s.log + (if hooks.beforeEmit then [BeforeEmit] else []);
    log1 := RunListeners(hooks, s.listeners, data, draws, clock, 0, log0);
    var s2 := s.(log := log1);
    RunListenersLength(hooks, s.listeners, data, draws, clock, 0, log0);
    RunOnceFrame(hooks, s.onceListeners, 0, data, draws, clock, |s.listeners|, s2);
    RunOnceStamped(hooks, s.onceListeners, 0, data, draws, clock, |s.listeners|, s2);
    var r := RunOnce(hooks, s.onceListeners, 0, data, draws, clock, |s.listeners|, s2).0.log;
    forall m | 0 <= m < |log1|
      ensures r[m] == log1[m]
    {
      assert r[..|log1|][m] == log1[m];
    }
  }

  /** index.ts:35-54: an emission appends to the log; `beforeEmit` is reported once, first, and
      every entry after it is a listener call or an `afterEmit` report whose payload carries the
      emitted data under a `nanoid()`-shaped identifier. */
  lemma EmitStamped<L>(hooks: Hooks, s: ChannelState<L>, data: Value, draws: nat -> seq<nat>, clock: nat -> int)
    ensures var r := EmitState(hooks, s, data, draws, clock).0.log;
      var b := if hooks.beforeEmit then 1 else 0;
      |s.log| + b <= |r| && r[..|s.log|] == s.log &&
      (hooks.beforeEmit ==> r[|s.log|] == BeforeEmit) &&
      Stamped(r, |s.log| + b, data)
  {
    var log0, log1 := EmitPhases(hooks, s, data, draws, clock);
    RunListenersStamped(hooks, s.listeners, data, draws, clock, 0, log0);
    RunListenersLength(hooks, s.listeners, data, draws, clock, 0, log0);
    var r := EmitState(hooks, s, data, draws, clock).0.log;
    forall m | 0 <= m < |log0|
      ensures r[m] == log0[m]
    {
      assert log1[..|log0|][m] == log0[m];
    }
  }

  /** index.ts:38-44: within an emission, the `j`-th persistent listener is called, in set order,
      with the emission's `j`-th payload, right after the `beforeEmit` report. */
  lemma EmitCallsInOrder<L>(hooks: Hooks, s: ChannelState<L>, data: Value, draws: nat -> seq<nat>, clock: nat -> int,
                            j: nat)
    requires j < |s.listeners|
    ensures var r := EmitState(hooks, s, data, draws, clock).0.log;
      var b := if hooks.beforeEmit then 1 else 0;
      |s.log| + b + Slot(hooks, j) < |r| &&
      r[|s.log| + b + Slot(hooks, j)] == Called(s.listeners[j], Stamp(draws, clock, data, j))
  {
    var log0, log1 := EmitPhases(hooks, s, data, draws, clock);
    RunListenersLayout(hooks, s.listeners, data, draws, clock, 0, log0, j);
    var m := |log0| + Slot(hooks, j);
    assert m < |log1|;
    assert EmitState(hooks, s, data, draws, clock).0.log[m] == log1[m];
  }
}
