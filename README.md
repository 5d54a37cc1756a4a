# Typed event bus and AsyncResult combinators, modelled in Dafny

This project models the in-process event bus of `packages/event-core` and the `AsyncResult`
combinator chain of `packages/result` and proves properties of the model.

The event bus has these parts:

- **`createContext`** (`context.ts`) keeps two registries from an event tag to a set of
  listeners, one persistent and one for once-listeners. `emit` runs the persistent listeners
  in registration order. It then runs each once-listener and deletes it, and then calls the
  adapter's `onSent` hook. Each listener is wrapped so that `onReceived` follows its call.
  `Context.EventContext` is a class over these registries and an effect log. `ContextLaws`
  proves the dispatch laws: call order and call counts, once-semantics, `off`, and that other
  tags are left alone.
- **The older `createContext`** (`eventa.ts`) adds `until`, a once-listener that settles a
  promise. It is modelled by `Eventa.LegacyContext`. `Eventa.LegacyEmitMatchesEmit` proves its
  dispatch log is the newer one's without `onSent`. The file's `defineInvokeEvent` tag
  derivation and `nanoid` are modelled in `Eventa` and `Identifiers`.
- **`defineInvokeEventa`** (`invoke-shared.ts`) derives five channel ids from one tag.
  `InvokeShared` proves that the five ids are pairwise distinct, that they determine their tag,
  and that a missing tag falls back to a 16-character nanoid.
- **The remote invoke pair** (`invoke.ts`):
  - `defineInvoke` keeps resolver and rejector maps keyed by invoke id and registers reply
    listeners on the client context.
  - `defineInvokeHandler` answers a request on the receive channel or on the receive-error
    channel.
  - `Invoke.Runtime` drives one shared context through whole emissions, including the
    handler's nested reply.
  - `InvokeLaws` proves the round trip: a call's promise is fulfilled with `fn(req)`, or
    rejected.
- **The stream pair** (`stream.ts`):
  - `defineStreamInvoke` opens a `ReadableStream`, modelled as an explicit
    active/closed/errored queue. It is fed by three listeners per call.
  - `defineStreamInvokeHandler` replays the handler's generator as item replies followed by a
    stream end.
  - `toStreamHandler` turns an `emit`-style handler into an async generator over a queue of
    promise slots. It is modelled by the class `SlotQueue.SlotQueue`, whose producer steps
    and consumer steps interleave freely.
- **`defineEvent` and the local `defineInvoke`** (`index.ts`) form the oldest single-channel
  variant. It has `beforeEmit`/`afterEmit` hooks and stamps every payload with a fresh id and a
  timestamp. It is modelled by `DefineEvent.Channel` and `LocalInvoke.Invoker`.

`AsyncResults` models `Async`, `AsyncFromResult`, `map`, `mapErr`, `then`, `catch`, `unwrap`
and `expect` as functions over a `Result` datatype, with the deferral erased.
`AsyncResultLaws` proves the following:

- the identity and fusion laws of `map`;
- associativity of `then`;
- recovery by `catch`;
- the chains of `async.test.ts`;
- the places where the source's `orUndefined() === undefined` test treats `Ok(undefined)` as
  a failure.

JavaScript values are one datatype, `Values.Value`. It has `undefined`, `null`, booleans,
integers, strings and plain objects, with JavaScript truthiness (`Falsy`) and property reads
(`Field`). Listener functions become closed datatypes of the listener kinds each file
registers. `nanoid()` and `Date.now()` become parameters: the random draws and a clock.

Where the code and its own tests or types disagree, the model follows the code:

- `context.spec.ts` exercises `until` on a context that only `eventa.ts` provides.
- `invoke-shared.ts` imports `defineEventa` from `eventa.ts`, which does not define it. Its
  result is modelled as a descriptor object `{ id: name }` (`Invoke.Descriptor`), whose `id`
  is the derived channel name (`InvokeShared.Id`); it is spread into every payload.

## Model

| member | source | states |
|---|---|---|
| Values.With | packages/event-core/src/invoke.ts:59 | object spread `{ ...body, content: x }` sets the overridden property and keeps every other property |
| Values.SettleOnce | packages/event-core/src/invoke.ts:24-26 | a promise settles at most once: a second resolve or reject leaves the first outcome |
| Identifiers.Nanoid | packages/event-core/src/eventa.ts:11-13 | an id is always 16 characters of the 62-character alphabet, character `i` chosen by draw `i` |
| Identifiers.NanoidCoversShape | packages/event-core/src/eventa.ts:11-13 | every 16-character string over the alphabet is some draw's id, so the range is exactly that shape |
| Identifiers.NanoidNonEmpty | packages/event-core/src/eventa.ts:11-13 | an id is never empty, so the handler's `!invokeId` test never drops a client's request |
| InvokeShared.BaseTag | packages/event-core/src/invoke-shared.ts:27-30 | a non-empty tag is kept; a missing or empty tag is replaced by a nanoid |
| InvokeShared.DefineInvokeEventa | packages/event-core/src/invoke-shared.ts:27-49 | each of the five ids is the base tag followed by its role's suffix |
| InvokeShared.SuffixFree | packages/event-core/src/invoke-shared.ts:32-40 | no role's suffix ends with another role's suffix |
| InvokeShared.IdInjective | packages/event-core/src/invoke-shared.ts:32-40 | a channel id determines both its base tag and its role |
| InvokeShared.BundleDistinct | packages/event-core/src/invoke-shared.ts:32-48 | the five ids of one definition are pairwise distinct |
| InvokeShared.Deterministic | packages/event-core/src/invoke-shared.ts:27-32 | with an explicit tag no randomness is involved, and the send id is `tag-send` |
| InvokeShared.DistinctBases | packages/event-core/src/invoke-shared.ts:32-40 | definitions with different tags never share a channel |
| InvokeShared.FallbackShape | packages/event-core/src/invoke-shared.ts:28-32 | without a tag, the send id is a 16-character nanoid followed by `-send` |
| Context.Add | packages/event-core/src/context.ts:43-46 | registering appends the new wrapper to the tag's set, creating it if needed, and changes no other tag |
| Context.Remove | packages/event-core/src/context.ts:25 | `Set.delete` removes exactly that wrapper and keeps every other one |
| Context.DeleteOnce | packages/event-core/src/context.ts:25 | deleting a once-wrapper touches only that tag's set and removes no key |
| Context.EmitLogSplit | packages/event-core/src/context.ts:18-29 | an emission logs the emission, then the persistent calls, then the once calls, then `onSent` |
| Context.EventContext.constructor | packages/event-core/src/context.ts:12-16 | a new context has empty registries and the adapter's hooks |
| Context.EventContext.On | packages/event-core/src/context.ts:42-50 | the persistent set of the tag gains a fresh wrapper at its end, and wrappers stay in registration order |
| Context.EventContext.Once | packages/event-core/src/context.ts:52-61 | the once set of the tag gains a fresh wrapper at its end |
| Context.EventContext.Off | packages/event-core/src/context.ts:63-66 | both registries lose the tag's entry |
| Context.EventContext.RunOnceListeners | packages/event-core/src/context.ts:23-26 | every once-wrapper of the tag runs in order and is deleted, which leaves the tag's once set empty |
| Context.EventContext.Emit | packages/event-core/src/context.ts:18-29 | the new state is the emission function's state: the log gains the dispatch, and the once set of the tag is emptied |
| ContextLaws.RunAllCalls | packages/event-core/src/context.ts:19-21 | running a set calls exactly its wrappers' handlers, in order |
| ContextLaws.RunAllShape | packages/event-core/src/context.ts:46-49 | every call of a run carries the payload, a run makes no `onSent` call, and with `onReceived` each call is followed by its notification |
| ContextLaws.EmitCallOrder | packages/event-core/src/context.ts:18-26 | an emission calls the persistent handlers in registration order, then the once handlers |
| ContextLaws.EmitCallCount | packages/event-core/src/context.ts:19-26 | a handler is called once per registration of it under the tag |
| ContextLaws.EmitShape | packages/event-core/src/context.ts:18-29 | the log starts with the emission; `onSent` comes last, exactly when hooks exist; every call carries the payload |
| ContextLaws.OnThenEmitCallsOnce | packages/event-core/src/context.ts:42-50 | after `on(tag, h)`, one `emit(tag, p)` calls `h` exactly once, and with `p` |
| ContextLaws.DuplicateRegistrationRunsTwice | packages/event-core/src/context.ts:46 | registering the same handler twice makes it run twice, because every `on` adds a new wrapper |
| ContextLaws.OnceFiresOnlyFirst | packages/event-core/src/context.ts:23-26 | a once handler runs on the first emission only, and the tag's once set is empty afterwards |
| ContextLaws.OffSilences | packages/event-core/src/context.ts:63-66 | after `off(tag)` an emission of the tag calls nobody and only reaches `onSent` |
| ContextLaws.OtherTagsUntouched | packages/event-core/src/context.ts:42-66 | `on`, `once`, `off` and `emit` on one tag leave every other tag's listeners as they were |
| Eventa.DefineInvokeEvent | packages/event-core/src/eventa.ts:40-54 | the three tags are the tag plus `-inbound`, `-outbound` and `-outbound-stream-end`; a missing tag becomes a nanoid |
| Eventa.SuffixFree | packages/event-core/src/eventa.ts:45-47 | no direction's suffix ends with a longer or equal one of another direction |
| Eventa.Injective | packages/event-core/src/eventa.ts:45-47 | a derived tag determines its base tag and its direction |
| Eventa.InvokeEventDistinct | packages/event-core/src/eventa.ts:45-47 | the three tags of one definition are pairwise distinct |
| Eventa.InvokeEventDeterministic | packages/event-core/src/eventa.ts:40-53 | an explicit tag gives the same tags whatever the draws, and different tags never share a channel |
| Eventa.Outcome | packages/event-core/src/eventa.ts:120-128 | `until` resolves with what its listener returns and rejects with what it throws |
| Eventa.LegacyContext.constructor | packages/event-core/src/eventa.ts:66-81 | a new context has empty registries and no promises |
| Eventa.LegacyContext.On | packages/event-core/src/eventa.ts:89-97 | the persistent set gains a fresh handler wrapper |
| Eventa.LegacyContext.Once | packages/event-core/src/eventa.ts:99-107 | the once set gains a fresh handler wrapper |
| Eventa.LegacyContext.Off | packages/event-core/src/eventa.ts:109-112 | both registries lose the tag |
| Eventa.LegacyContext.Until | packages/event-core/src/eventa.ts:114-130 | a new pending promise is created and a once wrapper that settles it is registered |
| Eventa.LegacyContext.FireOnceListeners | packages/event-core/src/eventa.ts:75-78 | every once wrapper runs in order and is deleted |
| Eventa.LegacyContext.Emit | packages/event-core/src/eventa.ts:70-79 | the state becomes the older emit function's state |
| Eventa.FireAllLog | packages/event-core/src/eventa.ts:93-96 | running handler wrappers logs what the newer context logs for the same handlers; `until` wrappers log nothing |
| Eventa.FireAllPromise | packages/event-core/src/eventa.ts:120-128 | a promise changes only when a run wrapper holds its resolver, and then it settles with the listener's outcome |
| Eventa.LegacyEmitMatchesEmit | packages/event-core/src/eventa.ts:70-79 | the older emit logs exactly what the newer one does, minus the final `onSent` |
| Eventa.LegacyEmitRegistries | packages/event-core/src/eventa.ts:70-79 | an emission keeps the persistent registry, empties the tag's once set and keeps other tags' once sets |
| Eventa.UntilSettlesOnce | packages/event-core/src/eventa.ts:114-130 | `until` settles on the next emission with its listener's outcome, and a later emission cannot change it |
| DefineEvent.Stamp | packages/event-core/src/index.ts:13-19 | a payload carries the data, a nanoid-shaped id and the clock's time |
| DefineEvent.Insert | packages/event-core/src/index.ts:55-60 | `Set.add` keeps the set duplicate-free, contains the new element and loses nothing |
| DefineEvent.WithoutSpec | packages/event-core/src/index.ts:61-63 | `Set.delete` removes exactly the element and keeps the set duplicate-free |
| DefineEvent.UntilCoherent | packages/event-core/src/index.ts:64-71 | `until` keeps the channel coherent, and its new waiter is not already registered |
| DefineEvent.Channel.constructor | packages/event-core/src/index.ts:30-32 | a new channel has empty sets |
| DefineEvent.Channel.On | packages/event-core/src/index.ts:55-57 | `on` is `Set.add` on the persistent listeners |
| DefineEvent.Channel.Once | packages/event-core/src/index.ts:58-60 | `once` is `Set.add` on the once listeners |
| DefineEvent.Channel.Off | packages/event-core/src/index.ts:61-63 | `off` removes the listener from the persistent set only |
| DefineEvent.Channel.Until | packages/event-core/src/index.ts:64-71 | `until` adds a pending promise and a waiter once-listener that resolves it |
| DefineEvent.Channel.EmitToListeners | packages/event-core/src/index.ts:38-44 | each persistent listener gets its own freshly stamped payload, followed by `afterEmit` |
| DefineEvent.Channel.EmitToOnceListeners | packages/event-core/src/index.ts:46-53 | once listeners run in order and each is deleted; a throwing one stops the loop |
| DefineEvent.Channel.Emit | packages/event-core/src/index.ts:35-54 | `beforeEmit`, then persistent listeners, then once listeners |
| DefineEventLaws.RunListenersCount | packages/event-core/src/index.ts:38-44 | one emission calls each registered listener exactly once |
| DefineEventLaws.OnTwiceCallsOnce | packages/event-core/src/index.ts:55-57 | adding a listener twice equals adding it once, so it is called once |
| DefineEventLaws.RunListenersLayout | packages/event-core/src/index.ts:38-44 | the `j`-th listener is called with the `j`-th stamped payload, and `afterEmit` follows it |
| DefineEventLaws.RunOnceSet | packages/event-core/src/index.ts:46-53 | once listeners are emptied, unless a throwing waiter stops the loop with itself and the rest still registered |
| DefineEventLaws.RunOnceCalls | packages/event-core/src/index.ts:46-53 | each once listener is called at most once, and exactly once when no waiter throws |
| DefineEventLaws.OffThenEmit | packages/event-core/src/index.ts:61-63 | after `off(l)`, an emission calls `l` only if it is also a once listener |
| DefineEventLaws.RunOnceWaiter | packages/event-core/src/index.ts:64-71 | the last waiter resolves its promise with its listener's value, or leaves it pending when the listener throws |
| DefineEventLaws.UntilResolvesOnNextEmit | packages/event-core/src/index.ts:64-71 | `until` resolves on the next emission with the value its listener returns for that emission's payload |
| DefineEventLaws.EmitPhases | packages/event-core/src/index.ts:35-54 | the log of an emission is `beforeEmit`, then the persistent phase, then stamped once calls |
| DefineEventLaws.EmitStamped | packages/event-core/src/index.ts:35-54 | an emission only appends to the log; `beforeEmit` comes first; every call carries the data |
| DefineEventLaws.EmitCallsInOrder | packages/event-core/src/index.ts:38-44 | persistent listeners are called in set order, each with its own stamped payload |
| LocalInvoke.ClientNeverThrows | packages/event-core/src/index.ts:111-113 | the client's waiters never throw |
| LocalInvoke.AnswerSettlesAll | packages/event-core/src/index.ts:104-106 | an answer on the client channel fulfils every waiting call with that answer and empties the waiters |
| LocalInvoke.AsWrittenAnswersEarlierCalls | packages/event-core/src/index.ts:108-114 | as written, a call's answer settles the calls already waiting, and the call's own promise stays pending |
| LocalInvoke.AsWrittenFirstCallGetsSecondAnswer | packages/event-core/src/index.ts:108-114 | as written, from a fresh client the first call is pending after it returns and is fulfilled with the second call's answer |
| LocalInvoke.CorrectedAnswersOwnCall | packages/event-core/src/index.ts:108-114 | registering `until` before emitting fulfils the call's own promise with `fn(req)` |
| LocalInvoke.ThrowingRelay | packages/event-core/src/index.ts:104-109 | a throwing `fn` ends the call with its error before `until`, as written |
| LocalInvoke.Invoker.constructor | packages/event-core/src/index.ts:100-106 | two fresh channels, with the relay registered on the server channel |
| LocalInvoke.Invoker.Call | packages/event-core/src/index.ts:108-114 | one call relays the request once and leaves the client in the as-written state |
| Invoke.RequestPayload | packages/event-core/src/invoke.ts:44 | the request body carries the invoke id and the request, and is well formed for a non-empty id |
| Invoke.Response | packages/event-core/src/invoke.ts:57-64 | the handler answers on the receive channel with `fn(content)`, or on the error channel with the thrown value, keeping the invoke id |
| Invoke.SettleAt | packages/event-core/src/invoke.ts:24 | only the promise keyed by the id is settled |
| Invoke.Resolve | packages/event-core/src/invoke.ts:15-28 | a reply for another id changes nothing; the matching reply fulfils the call with `content`, deletes the id from both maps and removes the receive channel's listeners |
| Invoke.Reject | packages/event-core/src/invoke.ts:30-42 | the matching error reply rejects the call with `content.error` and deletes the id from both maps; the listeners stay |
| Invoke.RegisterState | packages/event-core/src/invoke.ts:11-42 | a call maps its id to a new pending promise in both maps and appends one listener to each reply channel |
| Invoke.Runtime.constructor | packages/event-core/src/invoke.ts:6-8 | empty correlation maps on a fresh context |
| Invoke.Runtime.BindHandler | packages/event-core/src/invoke.ts:48-49 | the handler is a persistent listener of the send channel |
| Invoke.Runtime.Invoke | packages/event-core/src/invoke.ts:10-45 | one call's state change, including the handler's reply nested in the request's emission |
| Invoke.Runtime.Emit | packages/event-core/src/context.ts:18-29 | an emission on the shared context, interpreting each listener kind |
| Invoke.Runtime.Fire | packages/event-core/src/context.ts:19-21 | one wrapper runs, followed by its `onReceived` notification |
| Invoke.Runtime.Handle | packages/event-core/src/invoke.ts:49-65 | the handler and the client's reply listeners, each as its source does |
| InvokeLaws.DefinedDistinct | packages/event-core/src/invoke-shared.ts:32-40 | the send, receive and receive-error channels of a definition differ |
| InvokeLaws.ServeStep | packages/event-core/src/invoke.ts:49-65 | emitting a well-formed request to the lone handler has the same effect as emitting its response |
| InvokeLaws.ReplyReaches | packages/event-core/src/invoke.ts:10-65 | the handler's reply reaches exactly the call's own reply listener |
| InvokeLaws.InvokeResolves | packages/event-core/src/invoke.ts:15-28 | when `fn(req)` returns `v`, the call's promise is fulfilled with `v` and its map entries are gone |
| InvokeLaws.InvokeRejects | packages/event-core/src/invoke.ts:30-42 | when `fn(req)` throws, the call's promise is rejected with `content.error`, its map entries are gone and both listeners stay |
| InvokeLaws.UnansweredIgnored | packages/event-core/src/invoke.ts:16-21 | replies that match no listener's id change no promise and no map |
| InvokeLaws.MalformedRequestIgnored | packages/event-core/src/invoke.ts:50-55 | a request without a body or an invoke id is dropped by the handler |
| InvokeLaws.SuccessOrphansPendingCalls | packages/event-core/src/invoke.ts:27 | after one success, the receive channel has no listener left, so no other pending call can be fulfilled |
| InvokeLaws.ThrownErrorLost | packages/event-core/src/invoke.ts:38-39 | as written, a thrown `{message}` error rejects the call with `undefined` |
| InvokeLaws.WrappedErrorDelivered | packages/event-core/src/invoke.ts:63 | with the error wrapped as `{ error }`, the call is rejected with the thrown error itself |
| InvokeLaws.DispatchExtends | packages/event-core/src/context.ts:18-29 | an emission only appends to the log, starting with the emission itself |
| InvokeLaws.InvokeEmitsRequest | packages/event-core/src/invoke.ts:44 | a call's first logged effect is the request emission, carrying the invoke id and the request |
| Stream.Enqueue | packages/event-core/src/stream.ts:26 | only an open stream takes a chunk, at the end of its queue |
| Stream.Close | packages/event-core/src/stream.ts:46 | an open stream closes and keeps its queue |
| Stream.Error | packages/event-core/src/stream.ts:36 | an open stream errors with the reason and drops its queue |
| Stream.ReplyTo | packages/event-core/src/stream.ts:70 | a reply is addressed to its channel and carries the request's invoke id and the content |
| Stream.ItemReplies | packages/event-core/src/stream.ts:69-71 | one receive reply per generated item, in order |
| Stream.OpenState | packages/event-core/src/stream.ts:16-48 | a call opens a new active, empty stream and registers three listeners |
| Stream.StreamRuntime.constructor | packages/event-core/src/stream.ts:12-13 | no streams and no jobs on a fresh context |
| Stream.StreamRuntime.BindHandler | packages/event-core/src/stream.ts:59-60 | the handler is a persistent listener of the send channel |
| Stream.StreamRuntime.Call | packages/event-core/src/stream.ts:13-56 | a call opens its stream and emits its request |
| Stream.StreamRuntime.Cancel | packages/event-core/src/stream.ts:49-51 | cancelling a readable stream (open, or closed with unread chunks) removes the receive channel's listeners and closes the stream with an empty queue; a drained or errored stream is left alone |
| Stream.StreamRuntime.RunJob | packages/event-core/src/stream.ts:67-73 | an accepted request emits one reply per item, then the stream end |
| Stream.StreamRuntime.Emit | packages/event-core/src/context.ts:18-29 | an emission on the shared context |
| Stream.StreamRuntime.Handle | packages/event-core/src/stream.ts:60-74 | the handler queues well-formed requests; client listeners feed their own stream |
| StreamLaws.DefinedDistinct4 | packages/event-core/src/invoke-shared.ts:32-40 | the four stream channels of a definition differ |
| StreamLaws.UnansweredIgnoredS | packages/event-core/src/stream.ts:19-24 | replies that match no listener's id change no stream |
| StreamLaws.Routed | packages/event-core/src/stream.ts:18-27 | a reply carrying a call's id reaches exactly that call's listener |
| StreamLaws.ItemStep | packages/event-core/src/stream.ts:26 | one item reply appends the item to the call's open stream |
| StreamLaws.DeliverItems | packages/event-core/src/stream.ts:18-27 | a run of item replies appends all the items, in order, to the call's stream |
| StreamLaws.OpenRoutes | packages/event-core/src/stream.ts:17-47 | after a call opens its stream, each of its three listeners is routed on its channel |
| StreamLaws.CallAccepted | packages/event-core/src/stream.ts:60-67 | a call's request is accepted as one pending job carrying its body |
| StreamLaws.ItemsDelivered | packages/event-core/src/stream.ts:67-73 | running the job delivers every item, then ends with the end reply, the error reply or nothing |
| StreamLaws.StreamDelivers | packages/event-core/src/stream.ts:68-73 | when the generator finishes, the call's stream is closed holding exactly the generated items |
| StreamLaws.StreamHangsOnThrow | packages/event-core/src/stream.ts:68-73 | as written, when the generator throws, the call's stream stays open forever with the items so far |
| StreamLaws.StreamErrorsOnThrow | packages/event-core/src/stream.ts:28-37 | with an error reply, a throwing generator leaves the stream errored with the thrown value |
| StreamLaws.CancelSilencesAllStreams | packages/event-core/src/stream.ts:49-51 | cancelling one readable stream removes every call's item listener, keeps the error and end listeners, changes no other stream, and later items change no stream |
| StreamLaws.CancelAfterEndIgnored | packages/event-core/src/stream.ts:49-51 | cancelling a drained closed stream or an errored one changes nothing |
| StreamLaws.CancelClosedSilencesOthers | packages/event-core/src/stream.ts:49-51 | cancelling a stream closed with an unread chunk still stops items reaching another call's open stream |
| StreamLaws.RepliesShape | packages/event-core/src/stream.ts:68-73 | the handler emits one item reply per item, in order, then one end reply with `undefined` content, all with the request's invoke id |
| SlotQueue.ResolveLast | packages/event-core/src/stream.ts:87-92 | resolving settles only the newest slot, and an already settled slot ignores it |
| SlotQueue.EmitInv | packages/event-core/src/stream.ts:87-92 | `emit` keeps the queue in step with the history and records the value as the next slot |
| SlotQueue.FinishInv | packages/event-core/src/stream.ts:96-98 | fulfilment marks the newest slot done |
| SlotQueue.FailInv | packages/event-core/src/stream.ts:99-102 | rejection records the error and marks the newest slot done |
| SlotQueue.NextInv | packages/event-core/src/stream.ts:106-117 | the consumer yields emitted values in emission order, blocks only while the handler runs with everything read, and throws only a truthy error |
| SlotQueue.DrainAfterFinish | packages/event-core/src/stream.ts:106-117 | after fulfilment, the consumer yields every unread value in emission order and then finishes |
| SlotQueue.FailureRaisesNext | packages/event-core/src/stream.ts:110-112 | after a rejection with a truthy error, the next read throws it, with no value yielded first |
| SlotQueue.FalsyFailureLooksFinished | packages/event-core/src/stream.ts:110 | a rejection with a falsy reason drains like a fulfilment |
| SlotQueue.SlotQueue.constructor | packages/event-core/src/stream.ts:79-85 | one waiting slot, no error |
| SlotQueue.SlotQueue.Emit | packages/event-core/src/stream.ts:87-92 | `emit` resolves the newest slot and pushes a new waiting one |
| SlotQueue.SlotQueue.Finish | packages/event-core/src/stream.ts:96-98 | the handler's fulfilment |
| SlotQueue.SlotQueue.Fail | packages/event-core/src/stream.ts:99-102 | the handler's rejection |
| SlotQueue.SlotQueue.Next | packages/event-core/src/stream.ts:106-117 | one turn of the generator; what it yields extends the yielded history, which stays the emitted prefix |
| SlotQueue.SlotQueue.Consume | packages/event-core/src/stream.ts:105-119 | the consumer pulls until the generator blocks or stops, yielding what the drain function says |
| AsyncResults.OrUndefined | packages/result/src/async.ts:46 | the success value, or `undefined` for an error |
| AsyncResults.UnwrapResult | packages/result/src/async.ts:70 | `unwrap` returns exactly for `Ok`, and throws the error otherwise |
| AsyncResults.CaughtError | packages/result/src/async.ts:67-74 | the caught error is the `Err`'s error, and `undefined` for an `Ok` |
| AsyncResults.Async | packages/result/src/async.ts:26-35 | a returned value becomes `Ok`, a thrown one `Err`; the result never rejects |
| AsyncResults.Map | packages/result/src/async.ts:43-58 | a rejection keeps its reason and an unsuccessful result (`Err` or `Ok(undefined)`) passes through unchanged; otherwise `fn`'s value becomes `Ok` and its throw `Err` |
| AsyncResults.MapErr | packages/result/src/async.ts:60-82 | a rejection and a successful result pass through unchanged; otherwise the new error is what `fn` returned or threw on the caught error |
| AsyncResults.Flatten | packages/result/src/async.ts:91-105 | a returned `AsyncResult` is awaited as it is, a plain value becomes `Ok`, a thrown value or a rejection reason becomes the `Err`, and an `await`-carrying plain object fails with a TypeError |
| AsyncResults.Then | packages/result/src/async.ts:85-107 | a rejection propagates; an unsuccessful result passes through unchanged; a success is replaced by the flattened product of `fn` on its value; a settled input never rejects |
| AsyncResults.Catch | packages/result/src/async.ts:109-140 | a rejection propagates; a successful result passes through unchanged; a failure is replaced by the flattened product of `fn` on the caught error; a settled input never rejects |
| AsyncResults.Unwrap | packages/result/src/async.ts:144-147 | returns exactly for an `Ok`; throws the error, or the executor's rejection |
| AsyncResults.ExpectResult | packages/result/src/async.ts:151 | returns the value exactly for an `Ok` |
| AsyncResults.Expect | packages/result/src/async.ts:149-152 | returns the value exactly for an `Ok`, and a rejection rethrows its reason |
| AsyncResultLaws.AsyncUnwrapRoundTrip | packages/result/src/async.ts:26-35 | `Async(fn).unwrap()` returns what `fn` returned and rethrows exactly what it threw |
| AsyncResultLaws.MapIdentity | packages/result/src/async.ts:43-58 | `map` with the identity changes nothing |
| AsyncResultLaws.MapFusion | packages/result/src/async.ts:43-58 | two `map`s equal one `map` of the composed callback, when the first callback never returns `undefined` |
| AsyncResultLaws.MapFusionFailsOnUndefined | packages/result/src/async.ts:46 | without that proviso, fusion fails, because `Ok(undefined)` counts as a failure |
| AsyncResultLaws.MapErrIdentity | packages/result/src/async.ts:63 | `mapErr` with the identity changes nothing except that `Ok(undefined)` becomes `Err(undefined)` |
| AsyncResultLaws.OkUndefinedIsAFailure | packages/result/src/async.ts:46-112 | `map` and `then` skip an `Ok(undefined)`; `mapErr` and `catch` treat it as the error `undefined` |
| AsyncResultLaws.ThenOfPlainIsMap | packages/result/src/async.ts:85-107 | `then` with plain values is `map` |
| AsyncResultLaws.ThenAssociative | packages/result/src/async.ts:85-107 | `then` over callbacks that return `AsyncResult`s is associative |
| AsyncResultLaws.ThenFlattens | packages/result/src/async.ts:85-107 | for every callback, `then` on `Ok(v)` gives a returned `AsyncResult`'s result, a plain value as `Ok`, and a throw or rejection as `Err` carrying it |
| AsyncResultLaws.CatchFlattens | packages/result/src/async.ts:109-140 | for every callback, `catch` on `Err(e)` recovers with the callback's product on `e`, flattened the same way |
| AsyncResultLaws.MapErrUnwrap | packages/result/src/async.ts:60-82 | for every callback, `unwrap` after `mapErr` throws what the callback returned or threw on the caught error, and returns a success's value |
| AsyncResultLaws.MapErrFusion | packages/result/src/async.ts:60-82 | for all callbacks, two `mapErr`s equal one `mapErr` with the callbacks composed |
| AsyncResultLaws.CatchAfterMapErr | packages/result/src/async.ts:60-140 | for all callbacks, `catch` after `mapErr` equals `catch` with the callbacks composed |
| AsyncResultLaws.CatchRecovers | packages/result/src/async.ts:109-140 | `catch` with a usable plain value always ends in success, and recovers a failure to exactly that value |
| AsyncResultLaws.MapDoubles | packages/result/src/async.test.ts:7-13 | `Async(42).map(x * 2)` unwraps to 84 |
| AsyncResultLaws.MapErrReplaces | packages/result/src/async.test.ts:33-52 | `mapErr` replaces the error and `unwrap` throws the new one |
| AsyncResultLaws.ThenChains | packages/result/src/async.test.ts:54-61 | `Async(10).then(x * 2).then(x => Async(x + 5))` unwraps to 25 |
| AsyncResultLaws.CatchGives42 | packages/result/src/async.test.ts:63-71 | a thrown error recovered by `catch(() => 42)` unwraps to 42 |
| AsyncResultLaws.FromResultMaps | packages/result/src/async.test.ts:73-86 | `map` doubles `Ok(42)` from `AsyncFromResult` and leaves an `Err` without a success value |

## Left out

- The WebSocket, browser and h3 adapters are transport I/O. The model keeps only the hooks
  they return: `onSent` and the optional `onReceived`.
- `nanoid()` and `Date.now()` are foreign calls. They become parameters: the random draws and
  a clock.
- Uniqueness of invoke ids is assumed where a law needs it, as the premise that the drawn id
  is not already registered. Nothing in the code guarantees it.
- Promise scheduling is not modelled. Microtask order, `await` points and re-running a
  deferred executor on every `await()` of an `AsyncResult` are left out. The stream handler's
  async listener runs each accepted request as a separate job after the request's emission,
  one job at a time, with no interleaving between jobs.
- Exceptions inside listeners are not modelled in `context.ts`, `invoke.ts` and `stream.ts`.
  They would stop an emission part-way. Examples are destructuring `content` when it is
  `undefined` or `null` (invoke.ts:38), calling `enqueue` on a closed stream, and an adapter
  with hooks but without `onSent`. In `index.ts` only a throwing `until` waiter is modelled,
  because `until` depends on it. A persistent or plain `once` listener of `index.ts` that
  throws is not modelled: it would abort `emit` before `afterEmit` and leave the later once
  listeners registered.
- The model dispatches over a snapshot of a tag's set. JavaScript iterates the live `Set`. The
  two agree for every mutation these files make during dispatch: `off` replaces the map entry
  without touching the iterated set, and the once loop deletes only the element it has just
  run. Listeners that add to the set being iterated are not modelled.
- Invoke.Runtime.Invoke: the handler's nested reply is modelled one emission deep (`depth`
  1). That is all the remote invoke pair produces, because a reply's listeners do not emit.
- `defineEventa` is imported by `invoke-shared.ts` but is not defined in `eventa.ts`. Its
  result is modelled as a descriptor object `{ id: name }` and nothing else; any further
  property it may carry is not modelled.
- Stream.Error: the subtleties of the WHATWG Streams Standard are left out. This covers
  `error` after `close`, read-side back-pressure, and reads that drain the queue.
- SlotQueue.SlotQueue.Emit: `emit` after the handler has settled is excluded by the
  precondition. In JavaScript it pushes slots nobody reads.
- AsyncResults.ExpectResult: the error `expect` throws is built by the `Result` module
  (`packages/result/src/index.ts`), which is not part of this model. It is taken to be an
  object with the given message, or the `Err`'s own error when no message is given.
- AsyncResults.Map: a callback that returns an `AsyncResult` is not modelled. `map` would hand
  it to `Promise.resolve` as a thenable. Callbacks here return plain values or promises,
  which are seen as their settled `Call`.
- Arrays, symbols, functions as values, `NaN` and floating point are not modelled as
  `Value`s. The `await` property that `then` and `catch` look for is therefore never a
  function, and calling it throws.

## Findings

| source | as written | input that shows it | evidently intended | confidence | as-written member | corrected member |
|---|---|---|---|---|---|---|
| packages/event-core/src/invoke.ts:63 | the handler puts the thrown value itself in `content`, while the client reads `content.error` (invoke.ts:38) | `fn` throws `new Error("boom")`; the call's promise rejects with `undefined` | the call rejects with the thrown error, as the `{ error }` content type of the receive-error event says | not executed | InvokeLaws.ThrownErrorLost | InvokeLaws.WrappedErrorDelivered |
| packages/event-core/src/index.ts:108-114 | the request is emitted before `until` registers the call's waiter | two calls with a returning `fn`: the first promise stays pending and is then fulfilled with the second call's answer | each call resolves with its own answer | not executed | LocalInvoke.AsWrittenFirstCallGetsSecondAnswer | LocalInvoke.CorrectedAnswersOwnCall |
| packages/event-core/src/stream.ts:67-73 | a generator that throws ends the listener with an unhandled rejection and sends nothing | a generator that yields 1 and then throws: the caller's stream holds 1 and stays open forever | the error reaches the caller's error listener (stream.ts:28-37) and errors its stream | not executed | StreamLaws.StreamHangsOnThrow | StreamLaws.StreamErrorsOnThrow |
