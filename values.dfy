/** The JavaScript values the event bus carries, as far as the modelled code inspects them.
    TypeScript's generic parameters are erased at run time; the code tests values for
    `undefined`, for truthiness and for named properties, so every payload, request, response
    and error is a `Value` here. */
module Values {

  datatype Option<T> = None | Some(value: T)

  /** A JavaScript value: primitives the code distinguishes, and plain objects with named
      properties (arrays, symbols, NaN and floating point are not modelled). */
  datatype Value =
    | Undefined
    | Null
    | Bool(b: bool)
    | Num(n: int)
    | Str(s: string)
    | Obj(fields: map<string, Value>)

  /** `!v` in JavaScript: the falsy values among the modelled ones. */
  predicate Falsy(v: Value) {
    v == Undefined || v == Null || v == Bool(false) || v == Num(0) || v == Str("")
  }

  /** Property read `v.key`: a missing property, or a property of a primitive, reads as
      `undefined` (the TypeError JavaScript raises on `null.key` is not modelled). */
  function Field(v: Value, key: string): Value {
    if v.Obj? && key in v.fields then v.fields[key] else Undefined
  }

  /** Object spread with one property overridden, `{ ...v, key: x }`. Every spread in the
      modelled code is of an object; a non-object `v` is taken to contribute no property,
      which is right for `undefined`, `null`, booleans and numbers but not for a string,
      whose characters JavaScript spreads as indexed properties. */
  function With(v: Value, key: string, x: Value): (r: Value)
    ensures r.Obj? && Field(r, key) == x
    ensures forall k :: k != key ==> Field(r, k) == Field(v, k)
  {
    if v.Obj? then Obj(v.fields[key := x]) else Obj(map[key := x])
  }

  /** How a call into code outside the model ended: it returned a value or threw one.
      A promise that the code awaits counts as the value it resolves to or the reason it
      rejects with. */
  datatype Call = Returns(value: Value) | Throws(error: Value)

  /** The state of a promise: it settles at most once. */
  datatype PromiseState = Pending | Fulfilled(value: Value) | Rejected(reason: Value)

  /** `resolve(v)` / `reject(e)`: only a pending promise changes. */
  function Settle(p: PromiseState, outcome: PromiseState): (r: PromiseState)
    requires !outcome.Pending?
    ensures p.Pending? ==> r == outcome
    ensures !p.Pending? ==> r == p
  {
    if p.Pending? then outcome else p
  }

  /** Settling a promise twice keeps the first outcome. */
  lemma SettleOnce(p: PromiseState, first: PromiseState, second: PromiseState)
    requires !first.Pending? && !second.Pending?
    ensures Settle(Settle(p, first), second) == Settle(p, first)
    ensures !Settle(p, first).Pending?
  {
  }
}
