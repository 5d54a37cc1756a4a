/** packages/result/src/async.ts: `AsyncResult`, a deferred chain of combinators over a
    `Result`. Each combinator wraps the previous executor in a new one; here the deferral is
    erased and an `AsyncResult` is identified with what its executor's promise settles to,
    which is what `await()` (async.ts:142) returns. */
module AsyncResults {
  import opened Values

  /** The `Result` the combinators consume: `Ok(value)` or `Err(error)`. Its own module
      (`packages/result/src/index.ts`) is not part of this model; only the three methods the
      combinators call are modelled below. */
  datatype Result = Ok(value: Value) | Err(error: Value)

  /** An `AsyncResult`: its executor's promise either fulfils with a `Result` or rejects.
      Executors built by `Async` and by the combinators never reject on their own; one passed
      to `AsyncFromResult` may. */
  datatype AsyncResult = Resolves(result: Result) | Rejects(reason: Value)

  /** What a callback of `then` or `catch` returns: a plain value or a promise (which, once
      awaited, is a `Call`), or another `AsyncResult`, which is flattened. */
  datatype Produced = Plain(call: Call) | Chained(chain: AsyncResult)

  /** `result.orUndefined()`: the success value, or `undefined` for an error. */
  function OrUndefined(r: Result): (v: Value)
    ensures r.Ok? ==> v == r.value
    ensures r.Err? ==> v == Undefined
  {
    if r.Ok? then r.value else Undefined
  }

  /** `result.unwrap()`: returns the success value or throws the error. */
  function UnwrapResult(r: Result): (c: Call)
    ensures c.Returns? <==> r.Ok?
    ensures r.Ok? ==> c.value == r.value
    ensures r.Err? ==> c.error == r.error
  {
    match r
    case Ok(v) => Returns(v)
    case Err(e) => Throws(e)
  }

  /** The value the combinators treat as success: `orUndefined()` is not `undefined`. An
      `Ok(undefined)` fails this test. */
  predicate Succeeded(r: Result) {
    OrUndefined(r) != Undefined
  }

  /** The `error` variable that `mapErr` and `catch` fill by catching `result.unwrap()`: the
      error of an `Err`, and `undefined` when `unwrap` does not throw (an `Ok(undefined)`). */
  function CaughtError(r: Result): (e: Value)
    ensures r.Err? ==> e == r.error
    ensures r.Ok? ==> e == Undefined
  {
    match UnwrapResult(r)
    case Throws(e) => e
    case Returns(_) => Undefined
  }

  /** `Async(fn)` (async.ts:26-35): the value `fn` resolves to, as `Ok`, or what it throws or
      rejects with, as `Err`. */
  function Async(fn: Call): (a: AsyncResult)
    ensures a.Resolves?
    ensures fn.Returns? ==> a.result == Ok(fn.value)
    ensures fn.Throws? ==> a.result == Err(fn.error)
  {
    match fn
    case Returns(v) => Resolves(Ok(v))
    case Throws(e) => Resolves(Err(e))
  }

  /** `AsyncFromResult(fn)` (async.ts:37-39): `fn` is the executor itself. */
  function AsyncFromResult(fn: AsyncResult): AsyncResult {
    fn
  }

  /** `a.map(fn)` (async.ts:43-58): a rejection of the previous executor propagates (it is
      awaited outside the `try`); an unsuccessful result passes through as it is; otherwise
      `fn`'s value becomes `Ok` and what it throws becomes `Err`. */
  function Map(a: AsyncResult, fn: Value -> Call): (r: AsyncResult)
    ensures a.Resolves? <==> r.Resolves?
    ensures a.Rejects? || !Succeeded(a.result) ==> r == a
    ensures a.Resolves? && Succeeded(a.result) ==> r == Async(fn(a.result.value))
  {
    match a
    case Rejects(_) => a
    case Resolves(res) =>
      if !Succeeded(res) then a
      else match fn(res.value)
        case Returns(v) => Resolves(Ok(v))
        case Throws(e) => Resolves(Err(e))
  }

  /** What a call hands on, whether it returned it or threw it. */
  function Carried(c: Call): (v: Value)
    ensures c.Returns? ==> v == c.value
    ensures c.Throws? ==> v == c.error
  {
    match c
    case Returns(v) => v
    case Throws(e) => e
  }

  /** `a.mapErr(fn)` (async.ts:60-82): a successful result passes through; otherwise the
      caught error goes through `fn` and its value, or what it throws, becomes the new `Err`. */
  function MapErr(a: AsyncResult, fn: Value -> Call): (r: AsyncResult)
    ensures a.Resolves? <==> r.Resolves?
    ensures a.Rejects? || Succeeded(a.result) ==> r == a
    ensures a.Resolves? && !Succeeded(a.result) ==> r == Resolves(Err(Carried(fn(CaughtError(a.result)))))
  {
    match a
    case Rejects(_) => a
    case Resolves(res) =>
      if Succeeded(res) then a
      else match fn(CaughtError(res))
        case Returns(v) => Resolves(Err(v))
        case Throws(e) => Resolves(Err(e))
  }

  /** The `'await' in transformed` test of `then` and `catch` on a plain value: an object
      carrying an `await` property is taken for an `AsyncResult`. */
  predicate LooksAsync(v: Value) {
    v.Obj? && "await" in v.fields
  }

  /** What JavaScript throws when the `await` property that `then` or `catch` calls is not a
      function (no modelled value is). */
  const NotAFunction := Obj(map["name" := Str("TypeError")])

  /** The shared tail of `then` and `catch` (async.ts:91-105, 125-138), inside their `try`: a
      returned `AsyncResult` is awaited and its result taken as it is, a rejection of it or a
      throw of the callback becomes `Err`, and a plain value becomes `Ok`. */
  function Flatten(p: Produced): (r: AsyncResult)
    ensures r.Resolves?
    ensures p.Chained? && p.chain.Resolves? ==> r == p.chain
    ensures p.Plain? && p.call.Returns? && !LooksAsync(p.call.value) ==> r.result == Ok(p.call.value)
    ensures p.Plain? && p.call.Returns? && LooksAsync(p.call.value) ==> r.result == Err(NotAFunction)
    ensures p.Plain? && p.call.Throws? ==> r.result == Err(p.call.error)
    ensures p.Chained? && p.chain.Rejects? ==> r.result == Err(p.chain.reason)
  {
    match p
    case Chained(Resolves(res)) => Resolves(res)
    case Chained(Rejects(x)) => Resolves(Err(x))
    case Plain(Throws(e)) => Resolves(Err(e))
    case Plain(Returns(v)) => if LooksAsync(v) then Resolves(Err(NotAFunction)) else Resolves(Ok(v))
  }

  /** `a.then(fn)` (async.ts:85-107): like `map`, but a returned `AsyncResult` is flattened. */
  function Then(a: AsyncResult, fn: Value -> Produced): (r: AsyncResult)
    ensures a.Resolves? ==> r.Resolves?
    ensures a.Rejects? ==> r == a
    ensures a.Resolves? && !Succeeded(a.result) ==> r == a
    ensures a.Resolves? && Succeeded(a.result) ==> r == Flatten(fn(a.result.value))
  {
    match a
    case Rejects(_) => a
    case Resolves(res) => if !Succeeded(res) then a else Flatten(fn(res.value))
  }

  /** `a.catch(fn)` (async.ts:109-140): a successful result passes through; otherwise `fn`
      receives the caught error and what it produces is flattened like in `then`. */
  function Catch(a: AsyncResult, fn: Value -> Produced): (r: AsyncResult)
    ensures a.Resolves? ==> r.Resolves?
    ensures a.Rejects? ==> r == a
    ensures a.Resolves? && Succeeded(a.result) ==> r == a
    ensures a.Resolves? && !Succeeded(a.result) ==> r == Flatten(fn(CaughtError(a.result)))
  {
    match a
    case Rejects(_) => a
    case Resolves(res) => if Succeeded(res) then a else Flatten(fn(CaughtError(res)))
  }

  /** `a.unwrap()` (async.ts:144-147): the success value, or the error thrown; a rejected
      executor rejects it too. */
  function Unwrap(a: AsyncResult): (c: Call)
    ensures c.Returns? <==> a.Resolves? && a.result.Ok?
    ensures a.Resolves? ==> c == UnwrapResult(a.result)
    ensures a.Rejects? ==> c == Throws(a.reason)
  {
    match a
    case Resolves(res) => UnwrapResult(res)
    case Rejects(x) => Throws(x)
  }

  /** `result.expect(message)`: the success value, or a throw. The `Result` module that
      builds the thrown error is not part of this model: the thrown value is taken to be an
      error object whose message is `message`, or the `Err`'s own error when no message is
      given. */
  function ExpectResult(r: Result, message: Option<string>): (c: Call)
    ensures c.Returns? <==> r.Ok?
    ensures r.Ok? ==> c.value == r.value
  {
    match r
    case Ok(v) => Returns(v)
    case Err(e) =>
      match message
      case Some(m) => Throws(Obj(map["message" := Str(m)]))
      case None => Throws(e)
  }

  /** `a.expect(message)` (async.ts:149-152). */
  function Expect(a: AsyncResult, message: Option<string>): (c: Call)
    ensures c.Returns? <==> a.Resolves? && a.result.Ok?
    ensures a.Resolves? && a.result.Ok? ==> c.value == a.result.value
    ensures a.Rejects? ==> c == Throws(a.reason)
  {
    match a
    case Resolves(res) => ExpectResult(res, message)
    case Rejects(x) => Throws(x)
  }
}

/** The laws the combinators obey, the cases where the `orUndefined()` test breaks them, and
    the chains exercised in packages/result/src/async.test.ts. */
module AsyncResultLaws {
  import opened Values
  import opened AsyncResults

  /** `x => x * 2` on the numbers the tests use (`NaN` is not modelled). */
  function Double(x: Value): Call {
    if x.Num? then Returns(Num(x.n * 2)) else Returns(Undefined)
  }

  /** `Async(fn).unwrap()` rethrows exactly what `fn` threw, and returns what it returned. */
  lemma AsyncUnwrapRoundTrip(fn: Call)
    ensures Unwrap(Async(fn)) == fn
  {
  }

  /** `map` with the identity changes nothing, `Ok(undefined)` included. */
  lemma MapIdentity(a: AsyncResult)
    ensures Map(a, x => Returns(x)) == a
  {
  }

  /** `fn` then `g` as one callback of `map`. */
  function ComposeCalls(f: Value -> Call, g: Value -> Call): (h: Value -> Call)
    ensures forall v :: f(v).Throws? ==> h(v) == f(v)
    ensures forall v :: f(v).Returns? ==> h(v) == g(f(v).value)
  {
    v => match f(v) case Returns(w) => g(w) case Throws(e) => Throws(e)
  }

  /** Two `map`s fuse into one, provided the first callback never returns `undefined`. */
  lemma MapFusion(a: AsyncResult, f: Value -> Call, g: Value -> Call)
    requires forall v :: f(v) != Returns(Undefined)
    ensures Map(Map(a, f), g) == Map(a, ComposeCalls(f, g))
  {
    if a.Resolves? && Succeeded(a.result) {
      var v := a.result.value;
      assert Map(a, f) == Async(f(v));
      if f(v).Returns? {
        assert Succeeded(Map(a, f).result);
      }
    }
  }

  /** Without that proviso fusion fails: the second `map` skips the `Ok(undefined)` the first
      one produced, while the fused callback goes on. */
  lemma MapFusionFailsOnUndefined()
    ensures var a := Resolves(Ok(Num(0)));
      var f := (v: Value) => Returns(Undefined);
      var g := (v: Value) => Returns(Num(1));
      && Map(Map(a, f), g) == Resolves(Ok(Undefined))
      && Map(a, ComposeCalls(f, g)) == Resolves(Ok(Num(1)))
  {
  }

  /** `mapErr` with the identity changes nothing, except that it turns `Ok(undefined)` into
      `Err(undefined)`. */
  lemma MapErrIdentity(a: AsyncResult)
    ensures a != Resolves(Ok(Undefined)) ==> MapErr(a, x => Returns(x)) == a
    ensures MapErr(Resolves(Ok(Undefined)), x => Returns(x)) == Resolves(Err(Undefined))
  {
  }

  /** `map` and `then` skip an `Ok(undefined)`; `mapErr` and `catch` hand their callback the
      error `undefined` (async.ts:46, 63, 88, 112). */
  lemma OkUndefinedIsAFailure(f: Value -> Call, g: Value -> Produced)
    ensures var a := Resolves(Ok(Undefined));
      && Map(a, f) == a
      && Then(a, g) == a
      && MapErr(a, f) == Async(match f(Undefined) case Returns(v) => Throws(v) case Throws(e) => Throws(e))
      && Catch(a, g) == Flatten(g(Undefined))
  {
  }

  /** A `then` whose callback returns plain values that do not look like an `AsyncResult` is
      a `map`. */
  lemma ThenOfPlainIsMap(a: AsyncResult, f: Value -> Call)
    requires forall v :: f(v).Returns? ==> !LooksAsync(f(v).value)
    ensures Then(a, v => Plain(f(v))) == Map(a, f)
  {
  }

  /** `then` with callbacks that return `AsyncResult`s is associative: chaining `g` after the
      flattened `f` equals flattening `f` already followed by `g`. */
  lemma ThenAssociative(a: AsyncResult, f: Value -> AsyncResult, g: Value -> Produced)
    ensures Then(Then(a, v => Chained(f(v))), g) == Then(a, v => Chained(Then(f(v), g)))
  {
    if a.Resolves? && Succeeded(a.result) {
      var v := a.result.value;
      assert Then(a, v => Chained(f(v))) == Flatten(Chained(f(v)));
      assert Then(a, v => Chained(Then(f(v), g))) == Flatten(Chained(Then(f(v), g)));
    }
  }

  /** For every callback, a successful `then` hands on what the callback produced: a
      returned `AsyncResult`'s result as it is, a plain value as `Ok`, and a throw or a
      rejection as `Err` carrying what was thrown or rejected. */
  lemma ThenFlattens(v: Value, fn: Value -> Produced)
    requires v != Undefined
    ensures var r := Then(Resolves(Ok(v)), fn);
      && (fn(v).Chained? && fn(v).chain.Resolves? ==> r == fn(v).chain)
      && (fn(v).Chained? && fn(v).chain.Rejects? ==> r == Resolves(Err(fn(v).chain.reason)))
      && (fn(v).Plain? && fn(v).call.Returns? && !LooksAsync(fn(v).call.value) ==> r == Resolves(Ok(fn(v).call.value)))
      && (fn(v).Plain? && fn(v).call.Throws? ==> r == Resolves(Err(fn(v).call.error)))
  {
  }

  /** For every callback, `catch` on an `Err(e)` recovers with what the callback produced
      from `e`, flattened as in `then`. */
  lemma CatchFlattens(e: Value, fn: Value -> Produced)
    ensures var r := Catch(Resolves(Err(e)), fn);
      && (fn(e).Chained? && fn(e).chain.Resolves? ==> r == fn(e).chain)
      && (fn(e).Chained? && fn(e).chain.Rejects? ==> r == Resolves(Err(fn(e).chain.reason)))
      && (fn(e).Plain? && fn(e).call.Returns? && !LooksAsync(fn(e).call.value) ==> r == Resolves(Ok(fn(e).call.value)))
      && (fn(e).Plain? && fn(e).call.Throws? ==> r == Resolves(Err(fn(e).call.error)))
  {
  }

  /** For every callback, `unwrap` after `mapErr` on a failure throws what the callback
      returned or threw on the caught error, and on a success returns the same value. */
  lemma MapErrUnwrap(a: AsyncResult, fn: Value -> Call)
    requires a.Resolves?
    ensures !Succeeded(a.result) ==> Unwrap(MapErr(a, fn)) == Throws(Carried(fn(CaughtError(a.result))))
    ensures Succeeded(a.result) ==> Unwrap(MapErr(a, fn)) == Returns(a.result.value)
  {
  }

  /** Two `mapErr`s fuse into one for all callbacks: the second one sees the first one's
      value or throw as its error, since `Err(x)` fails the `orUndefined()` test for every
      `x`, `undefined` included. */
  lemma MapErrFusion(a: AsyncResult, f: Value -> Call, g: Value -> Call)
    ensures MapErr(MapErr(a, f), g) == MapErr(a, v => g(Carried(f(v))))
  {
  }

  /** For all callbacks, `catch` after `mapErr` is `catch` with the two callbacks composed. */
  lemma CatchAfterMapErr(a: AsyncResult, f: Value -> Call, g: Value -> Produced)
    ensures Catch(MapErr(a, f), g) == Catch(a, v => g(Carried(f(v))))
  {
  }

  /** `catch` with a callback that returns a usable plain value always ends in success. */
  lemma CatchRecovers(a: AsyncResult, x: Value)
    requires a.Resolves? && x != Undefined && !LooksAsync(x)
    ensures Succeeded(Catch(a, e => Plain(Returns(x))).result)
    ensures !Succeeded(a.result) ==> Catch(a, e => Plain(Returns(x))) == Resolves(Ok(x))
  {
  }

  /** async.test.ts:7-13: `Async(42).map(x * 2)` gives 84. */
  lemma MapDoubles()
    ensures Unwrap(Map(Async(Returns(Num(42))), Double)) == Returns(Num(84))
  {
  }

  /** async.test.ts:33-52: `mapErr` replaces the thrown error, and `unwrap` throws the new one. */
  lemma MapErrReplaces(error: Value, newError: Value)
    ensures Unwrap(MapErr(Async(Throws(error)), e => Returns(newError))) == Throws(newError)
  {
  }

  /** async.test.ts:54-61: `Async(10).then(x * 2).then(x => Async(x + 5))` gives 25. */
  lemma ThenChains()
    ensures var step := (x: Value) => Chained(Async(if x.Num? then Returns(Num(x.n + 5)) else Returns(Undefined)));
      Unwrap(Then(Then(Async(Returns(Num(10))), x => Plain(Double(x))), step)) == Returns(Num(25))
  {
  }

  /** async.test.ts:63-71: a thrown error recovered by `catch(() => 42)` gives 42. */
  lemma CatchGives42(error: Value)
    ensures Unwrap(Catch(Async(Throws(error)), e => Plain(Returns(Num(42))))) == Returns(Num(42))
  {
  }

  /** async.test.ts:73-86: `map` over `AsyncFromResult` doubles an `Ok(42)` and leaves an
      `Err` with no success value. */
  lemma FromResultMaps(error: Value)
    ensures Unwrap(Map(AsyncFromResult(Resolves(Ok(Num(42)))), Double)) == Returns(Num(84))
    ensures OrUndefined(Map(AsyncFromResult(Resolves(Err(error))), Double).result) == Undefined
  {
  }
}
