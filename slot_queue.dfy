/** stream.ts:77-120, `toStreamHandler`: adapts a handler that calls `emit` repeatedly into an
    async generator. Every `emit` resolves the newest promise in `values` and pushes a fresh
    one; the handler's settlement resolves the newest promise with the done marker (and, on
    rejection, records `handlerError`); the generator reads `values` in index order.

    Promise scheduling is made explicit: the producer's steps (`Emit`, `Finish`, `Fail`) and
    the consumer's steps (`Next`) are separate calls, in any interleaving. */
module SlotQueue {
  import opened Values

  /** One entry of `values`: a promise not yet resolved, one resolved with `[value, done]`,
      or the hole `delete values[i]` leaves. */
  datatype Slot = Waiting | Ready(value: Value, done: bool) | Deleted

  /** What one turn of the generator's loop produces. */
  datatype Next =
    | Yield(value: Value)  // `yield val`
    | Finished             // the loop ended (or had ended): the generator is done
    | Raise(error: Value)  // `throw handlerError`
    | Blocked              // `await values[i]` is still waiting

  /** The closure's state: `values`, `handlerError`, the loop index `i`, and whether the
      generator has returned or thrown. */
  datatype Queue = Queue(values: seq<Slot>, handlerError: Value, pos: nat, over: bool)

  /** The state right after `toStreamHandler(handler)(payload)` (stream.ts:79-85). */
  const Start := Queue([Waiting], Null, 0, false)

  /** `resolve(x)`: settles the newest promise; a settled promise ignores it. */
  function ResolveLast(values: seq<Slot>, x: Value, done: bool): (r: seq<Slot>)
    requires values != []
    ensures |r| == |values| && r[..|r| - 1] == values[..|values| - 1]
    ensures values[|values| - 1] == Waiting ==> r[|r| - 1] == Ready(x, done)
    ensures values[|values| - 1] != Waiting ==> r == values
  {
    if values[|values| - 1] == Waiting then values[|values| - 1 := Ready(x, done)] else values
  }

  /** `emit(data)` (stream.ts:87-92). */
  function EmitQ(q: Queue, x: Value): Queue
    requires q.values != []
  {
    q.(values := ResolveLast(q.values, x, false) + [Waiting])
  }

  /** The handler's promise fulfils (stream.ts:96-98). */
  function FinishQ(q: Queue): Queue
    requires q.values != []
  {
    q.(values := ResolveLast(q.values, Undefined, true))
  }

  /** The handler's promise rejects with `e` (stream.ts:99-102). */
  function FailQ(q: Queue, e: Value): Queue
    requires q.values != []
  {
    q.(handlerError := e, values := ResolveLast(q.values, Undefined, true))
  }

  /** One turn of the generator's loop (stream.ts:106-117): wait for slot `i`, delete it,
      throw a truthy `handlerError`, else yield the value or stop at the done marker. */
  function NextQ(q: Queue): (Queue, Next) {
    if q.over then (q, Finished)
    else if q.pos >= |q.values| then (q, Blocked)
    else match q.values[q.pos]
      case Waiting => (q, Blocked)
      case Deleted => (q, Blocked)
      case Ready(v, done) =>
        var q1 := q.(values := q.values[q.pos := Deleted]);
        if !Falsy(q.handlerError) then (q1.(over := true), Raise(q.handlerError))
        else if !done then (q1.(pos := q.pos + 1), Yield(v))
        else (q1.(over := true), Finished)
  }

  function Measure(q: Queue): nat {
    if q.over || q.pos > |q.values| then 0 else |q.values| - q.pos + 1
  }

  /** The consumer pulls until the generator blocks or stops: what it yields, and how it
      stops. */
  function DrainQ(q: Queue): (Queue, seq<Value>, Next)
    decreases Measure(q)
  {
    var (q1, r) := NextQ(q);
    if r.Yield? then
      var (q2, out, last) := DrainQ(q1);
      (q2, [r.value] + out, last)
    else (q1, [], r)
  }

  /** The queue matches the producer's history: `emitted` are the values passed to `emit`
      so far and `settled` says whether the handler's promise has settled. Slots before the
      loop index are deleted, the rest hold the emitted values in order, and the newest
      slot waits, or holds the done marker once the handler settled. */
  ghost predicate Inv(q: Queue, emitted: seq<Value>, settled: bool) {
    && |q.values| == |emitted| + 1
    && q.pos <= |emitted|
    && (q.over ==> settled)
    && (!settled ==> q.handlerError == Null)
    && (!q.over ==>
          && (forall i :: 0 <= i < |emitted| ==>
                q.values[i] == if i < q.pos then Deleted else Ready(emitted[i], false))
          && q.values[|emitted|] == if settled then Ready(Undefined, true) else Waiting)
  }

  lemma EmitInv(q: Queue, emitted: seq<Value>, x: Value)
    requires Inv(q, emitted, false)
    ensures Inv(EmitQ(q, x), emitted + [x], false)
  {
    var r := EmitQ(q, x).values;
    forall i | 0 <= i < |emitted| + 1
      ensures r[i] == if i < q.pos then Deleted else Ready((emitted + [x])[i], false)
    {
      if i < |emitted| {
        assert r[i] == ResolveLast(q.values, x, false)[..|emitted|][i];
      }
    }
  }

  lemma FinishInv(q: Queue, emitted: seq<Value>)
    requires Inv(q, emitted, false)
    ensures Inv(FinishQ(q), emitted, true)
  {
    var r := FinishQ(q).values;
    forall i | 0 <= i < |emitted|
      ensures r[i] == q.values[i]
    {
      assert r[i] == r[..|emitted|][i];
    }
  }

  lemma FailInv(q: Queue, emitted: seq<Value>, e: Value)
    requires Inv(q, emitted, false)
    ensures Inv(FailQ(q, e), emitted, true)
  {
    var r := FailQ(q, e).values;
    forall i | 0 <= i < |emitted|
      ensures r[i] == q.values[i]
    {
      assert r[i] == r[..|emitted|][i];
    }
  }

  /** One turn of the loop keeps the queue in step with the producer, yields the emitted
      values in emission order, blocks only while the handler runs and everything emitted
      has been read, and raises only a truthy recorded error. */
  lemma NextInv(q: Queue, emitted: seq<Value>, settled: bool)
    requires Inv(q, emitted, settled)
    ensures var (q1, r) := NextQ(q);
      && Inv(q1, emitted, settled)
      && (r.Yield? ==> q.pos < |emitted| && r.value == emitted[q.pos] && q1.pos == q.pos + 1 && !q1.over)
      && (!r.Yield? ==> q1.pos == q.pos)
      && (r.Blocked? ==> !settled && q.pos == |emitted| && q1 == q)
      && (r.Raise? ==> settled && !q.over && r.error == q.handlerError && !Falsy(q.handlerError) && q1.over)
      && (r.Finished? ==> q1.over && (q.over || (settled && q.pos == |emitted| && Falsy(q.handlerError))))
  {
    var (q1, r) := NextQ(q);
    if !q.over && q.pos < |emitted| {
      assert q.values[q.pos] == Ready(emitted[q.pos], false);
      if r.Yield? {
        forall i | 0 <= i < |emitted|
          ensures q1.values[i] == if i < q1.pos then Deleted else Ready(emitted[i], false)
        {
        }
      }
    }
  }

  /** Once the handler has fulfilled, the consumer yields every value not yet read, in the
      order `emit` was called, and then stops at the done marker (stream.ts:106-117). */
  lemma {:induction false} DrainAfterFinish(q: Queue, emitted: seq<Value>)
    requires Inv(q, emitted, true) && !q.over && Falsy(q.handlerError)
    ensures DrainQ(q).1 == emitted[q.pos..] && DrainQ(q).2 == Finished
    decreases |emitted| - q.pos
  {
    NextInv(q, emitted, true);
    var (q1, r) := NextQ(q);
    if q.pos < |emitted| {
      assert r == Yield(emitted[q.pos]);
      DrainAfterFinish(q1, emitted);
      assert emitted[q.pos..] == [emitted[q.pos]] + emitted[q1.pos..];
    } else {
      assert r == Finished;
    }
  }

  /** After a rejection with a truthy error, the next slot the consumer reads makes it throw
      that error, with nothing yielded first, and the generator is over
      (stream.ts:99-101, 110-112). */
  lemma FailureRaisesNext(q: Queue, emitted: seq<Value>, e: Value)
    requires Inv(q, emitted, false) && !Falsy(e)
    ensures DrainQ(FailQ(q, e)).1 == [] && DrainQ(FailQ(q, e)).2 == Raise(e)
    ensures DrainQ(FailQ(q, e)).0.over
  {
    FailInv(q, emitted, e);
    NextInv(FailQ(q, e), emitted, true);
  }

  /** A rejection with a falsy reason (`undefined`, `null`, `0`, `""`, `false`) is not
      recorded as an error by the `if (handlerError)` test: the consumer drains every
      emitted value and finishes as if the handler had fulfilled. */
  lemma FalsyFailureLooksFinished(q: Queue, emitted: seq<Value>, e: Value)
    requires Inv(q, emitted, false) && Falsy(e)
    ensures DrainQ(FailQ(q, e)).1 == DrainQ(FinishQ(q)).1 == emitted[q.pos..]
    ensures DrainQ(FailQ(q, e)).2 == DrainQ(FinishQ(q)).2 == Finished
  {
    FailInv(q, emitted, e);
    FinishInv(q, emitted);
    DrainAfterFinish(FailQ(q, e), emitted);
    DrainAfterFinish(FinishQ(q), emitted);
  }

  // ---------------------------------------------------------------------------------------
  // The closure's state as an object

  /** One generator returned by `toStreamHandler(handler)(payload)`, with the ghost history
      of what the handler emitted and what the generator has yielded. */
  class SlotQueue {
    var values: seq<Slot>
    var handlerError: Value
    var pos: nat
    var over: bool
    ghost var emitted: seq<Value>
    ghost var settled: bool
    ghost var yielded: seq<Value>

    function Model(): Queue
      reads this
    {
      Queue(values, handlerError, pos, over)
    }

    /** The queue matches the producer's history, and the generator has yielded exactly the
        first `pos` emitted values, in emission order. */
    ghost predicate Valid()
      reads this
    {
      Inv(Model(), emitted, settled) && yielded == emitted[..pos]
    }

    constructor()
      ensures Valid() && Model() == Start
      ensures emitted == [] && !settled && yielded == []
    {
      values, handlerError, pos, over := [Waiting], Null, 0, false;
      emitted, settled, yielded := [], false, [];
    }

    /** `emit(data)`, called by the handler while it runs. */
    method Emit(x: Value)
      requires Valid() && !settled
      modifies this
      ensures Valid()
      ensures Model() == EmitQ(old(Model()), x)
      ensures emitted == old(emitted) + [x] && !settled && yielded == old(yielded)
    {
      EmitInv(Model(), emitted, x);
      values := ResolveLast(values, x, false) + [Waiting];
      emitted := emitted + [x];
      assert emitted[..pos] == old(emitted)[..pos];
    }

    /** The handler's promise fulfils. */
    method Finish()
      requires Valid() && !settled
      modifies this
      ensures Valid()
      ensures Model() == FinishQ(old(Model()))
      ensures emitted == old(emitted) && settled && yielded == old(yielded)
    {
      FinishInv(Model(), emitted);
      values := ResolveLast(values, Undefined, true);
      settled := true;
    }

    /** The handler's promise rejects with `e`. */
    method Fail(e: Value)
      requires Valid() && !settled
      modifies this
      ensures Valid()
      ensures Model() == FailQ(old(Model()), e)
      ensures emitted == old(emitted) && settled && yielded == old(yielded)
    {
      FailInv(Model(), emitted, e);
      handlerError := e;
      values := ResolveLast(values, Undefined, true);
      settled := true;
    }

    /** One turn of the generator's loop. */
    method Next() returns (r: Next)
      requires Valid()
      modifies this
      ensures Valid()
      ensures (Model(), r) == NextQ(old(Model()))
      ensures emitted == old(emitted) && settled == old(settled)
      ensures r.Yield? ==> yielded == old(yielded) + [r.value]
      ensures !r.Yield? ==> yielded == old(yielded)
    {
      NextInv(Model(), emitted, settled);
      if over {
        return Finished;
      }
      if pos >= |values| {
        return Blocked;
      }
      match values[pos]
      case Waiting => r := Blocked;
      case Deleted => r := Blocked;
      case Ready(v, done) =>
        values := values[pos := Deleted];
        if !Falsy(handlerError) {
          over := true;
          r := Raise(handlerError);
        } else if !done {
          yielded := yielded + [v];
          pos := pos + 1;
          r := Yield(v);
          assert emitted[..pos] == emitted[..pos - 1] + [v];
        } else {
          over := true;
          r := Finished;
        }
    }

    /** The consumer pulls turn after turn until the generator blocks or stops. */
    method Consume() returns (out: seq<Value>, last: Next)
      requires Valid()
      modifies this
      ensures Valid()
      ensures (Model(), out, last) == DrainQ(old(Model()))
      ensures yielded == old(yielded) + out
    {
      out := [];
      ghost var q0 := Model();
      assert out + DrainQ(q0).1 == DrainQ(q0).1;
      while true
        invariant Valid() && emitted == old(emitted) && settled == old(settled)
        invariant yielded == old(yielded) + out
        invariant DrainQ(q0) == (DrainQ(Model()).0, out + DrainQ(Model()).1, DrainQ(Model()).2)
        decreases Measure(Model())
      {
        ghost var before := Model();
        var r := Next();
        if !r.Yield? {
          assert DrainQ(before) == (Model(), [], r);
          last := r;
          assert out + [] == out;
          return;
        }
        assert DrainQ(before) == (DrainQ(Model()).0, [r.value] + DrainQ(Model()).1, DrainQ(Model()).2);
        assert out + ([r.value] + DrainQ(Model()).1) == (out + [r.value]) + DrainQ(Model()).1;
        out := out + [r.value];
      }
    }
  }
}
