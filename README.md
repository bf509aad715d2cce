# FluxTapRestoringThreadLocals in Dafny

A model of reactor-core's `tap` operator in its thread-local-restoring variant
(`FluxTapRestoringThreadLocals`). At subscription, the operator asks a
`SignalListenerFactory` for a per-subscription `SignalListener`. It runs the
listener's `doFirst` and `addToContext` hooks. It then subscribes a
`TapSubscriber` to the source. That subscriber stands between the upstream
`Subscription` and the downstream `CoreSubscriber`. Before each signal it passes
on, it calls the matching listener hook (`doOnNext`, `doOnError`, ...); the one
exception is `tryOnNext`, which delivers the item first and calls `doOnNext`
after. It calls after-hooks and `doFinally` once the sequence has terminated. When a hook
throws, one of four helper routines decides what happens. The three
terminating helpers cancel the upstream, report the error to the listener, and
then error or refuse the downstream. The post-termination helper only reports
the error and drops it.

The project has five files:

- `types.dfy` (module `Types`) holds the values exchanged. It includes:
  - a `Listener` whose hook calls either return or throw a given error;
  - the factory and the downstream;
  - the `Event`s a subscription makes observable: listener calls, signals to the downstream, `request`/`cancel` on the upstream, and dropped items and errors.
- `tap.dfy` (module `Tap`) is the reference semantics.
  - Each `TapSubscriber` method is a function from the two mutable fields (`done`, `s`) to a `Reaction`: the new fields, the events in order, and `tryOnNext`'s result.
  - `Step` dispatches one call and `Run` folds a sequence of calls.
  - `SubscribeReaction` is the operator's `subscribe`.
- `flux_tap.dfy` (module `FluxTap`) is the imperative model.
  - Class `TapSubscriber` keeps the fields `done` and `s` and a ghost `trace` of events. Its methods follow the Java control flow: early `return`, `try`/`catch` as `Outcome` checks, and `finally` as unconditional trailing steps.
  - Each method is proved to produce exactly the new state and the events of the matching `Tap` reaction.
  - Class `FluxTapRestoringThreadLocals` holds the operator's constructor and `Subscribe`.
- `tap_properties.dfy` (module `TapProperties`) proves what the tap promises:
  - each call's hook ordering and error paths;
  - that within one call the downstream never sees anything after a terminal signal, and that every hook that throws is reported;
  - that `done` is absorbing;
  - that the downstream sees at most one terminal signal, when the upstream stops once cancelled and the downstream stops signalling once terminated;
  - fail-fast over a run of items.
- `scenarios.dfy` (module `Scenarios`) holds concrete runs, including four that show signals reaching the downstream after a terminal one.

### Where the code departs from Reactive Streams rule 1.7

Rule 1.7 of the Reactive Streams specification says that once a terminal state
has been signalled (`onError`, `onComplete`), no further signals may occur. As a
Publisher, the operator owes this to its downstream. The code does not always
keep the rule, and the model follows the code:

- `handleListenerErrorAndTerminate` errors the downstream without setting `done`.
  Rules 1.8 and 3.12 oblige a cancelled upstream only to stop *eventually*. An
  upstream signal arriving after the cancel therefore still reaches the downstream.
  `Scenarios.LateCompletionAfterTerminate` shows an `onComplete` after the listener's `onError`.
- `handleListenerErrorPreSubscription` refuses the downstream without setting `done` either.
  A completion needs no demand (rule 2.9), so an upstream that completes after that cancel still completes the refused downstream.
  `Scenarios.LateCompletionAfterRefusal` shows an `onComplete` after the refusal.
- `tryOnNext` never looks at `done`. `Scenarios.TryOnNextAfterCompletion` shows an item delivered after `onComplete`.
- `request` and `cancel` run their hooks whatever `done` is.
  - A throwing `doOnRequest` or `doOnCancel` after termination errors the downstream once more. `Scenarios.LateRequestFailureAfterCompletion` shows an `onError` after `onComplete`.
  - A `cancel()` after completion runs `doFinally` a second time, first with `ON_COMPLETE` and then with `CANCEL` (`Scenarios.DoFinallyTwice`).

What does hold is `TapProperties.AtMostOneTerminal`. Take any run, started before
or after `onSubscribe`, in which:
- the upstream stops at once when it has been cancelled and the downstream has seen a terminal signal: no `onSubscribe`, `onNext`, `onError` or `onComplete` arrives then. After a plain downstream `cancel()`, signals still in flight may arrive (rule 2.8);
- the downstream stops signalling once terminated (rule 2.4): each `request` or `cancel` arrives only before the downstream has seen a terminal signal;
- each `tryOnNext` arrives only before the downstream has seen a terminal signal. `tryOnNext` needs this stronger condition because it never looks at `done` (`Scenarios.TryOnNextAfterCompletion`).

In such a run the downstream sees at most one terminal signal and nothing after it.
`TapProperties.StepShape` proves the same for any single call.

## Model

| member | source | states |
|---|---|---|
| FluxTap.FluxTapRestoringThreadLocals.constructor | reactor-core/src/main/java/reactor/core/publisher/FluxTapRestoringThreadLocals.java:39-43 | the operator keeps its source and factory and computes the shared publisher state once, from the source |
| FluxTap.FluxTapRestoringThreadLocals.Subscribe | reactor-core/src/main/java/reactor/core/publisher/FluxTapRestoringThreadLocals.java:47-86 | causes exactly the events of `SubscribeReaction`; returns a fresh, unterminated, unsubscribed TapSubscriber exactly when all three steps succeed, built on the created listener, whose `currentContext()` is the context `addToContext` returned |
| Tap.SubscribeReaction | reactor-core/src/main/java/reactor/core/publisher/FluxTapRestoringThreadLocals.java:47-86 | the source is subscribed iff the listener is created and doFirst and addToContext both return; a factory failure refuses the downstream with that error and runs no hook; a doFirst failure is reported and refuses the downstream, and addToContext is never called; an addToContext failure is wrapped in IllegalStateException, reported, and refuses the downstream; every failure ends with the one refusal and sends nothing else downstream |
| FluxTap.TapSubscriber.constructor | reactor-core/src/main/java/reactor/core/publisher/FluxTapRestoringThreadLocals.java:107-116 | keeps the downstream (conditional or not), the listener and the context; starts with `done` false and no subscription |
| FluxTap.TapSubscriber.CurrentContext | reactor-core/src/main/java/reactor/core/publisher/FluxTapRestoringThreadLocals.java:124-126 | returns the stored context; `Subscribe` states that it is `addToContext`'s result |
| FluxTap.TapSubscriber.HandleListenerErrorPreSubscription | reactor-core/src/main/java/reactor/core/publisher/FluxTapRestoringThreadLocals.java:146-153 | cancels the prepared subscription, reports the error, then refuses the downstream with it |
| FluxTap.TapSubscriber.HandleListenerErrorAndTerminate | reactor-core/src/main/java/reactor/core/publisher/FluxTapRestoringThreadLocals.java:162-169 | cancels `s`, reports the error, then errors the downstream with it; `done` is untouched |
| FluxTap.TapSubscriber.HandleListenerErrorMultipleAndTerminate | reactor-core/src/main/java/reactor/core/publisher/FluxTapRestoringThreadLocals.java:180-188 | cancels `s`, reports the listener error, then errors the downstream with the listener error combined with the original one |
| FluxTap.TapSubscriber.HandleListenerErrorPostTermination | reactor-core/src/main/java/reactor/core/publisher/FluxTapRestoringThreadLocals.java:196-199 | reports the error, then drops it; nothing reaches the downstream or the upstream |
| FluxTap.TapSubscriber.OnSubscribe | reactor-core/src/main/java/reactor/core/publisher/FluxTapRestoringThreadLocals.java:203-218 | the new fields and the events are those of `OnSubscribeReaction` |
| FluxTap.TapSubscriber.OnNext | reactor-core/src/main/java/reactor/core/publisher/FluxTapRestoringThreadLocals.java:222-243 | the new fields and the events are those of `OnNextReaction` |
| FluxTap.TapSubscriber.TryOnNext | reactor-core/src/main/java/reactor/core/publisher/FluxTapRestoringThreadLocals.java:247-264 | the new fields, the events and the returned boolean are those of `TryOnNextReaction` |
| FluxTap.TapSubscriber.OnError | reactor-core/src/main/java/reactor/core/publisher/FluxTapRestoringThreadLocals.java:268-300 | the new fields and the events are those of `OnErrorReaction` |
| FluxTap.TapSubscriber.OnComplete | reactor-core/src/main/java/reactor/core/publisher/FluxTapRestoringThreadLocals.java:304-333 | the new fields and the events are those of `OnCompleteReaction` |
| FluxTap.TapSubscriber.Request | reactor-core/src/main/java/reactor/core/publisher/FluxTapRestoringThreadLocals.java:337-350 | the new fields and the events are those of `RequestReaction` |
| FluxTap.TapSubscriber.Cancel | reactor-core/src/main/java/reactor/core/publisher/FluxTapRestoringThreadLocals.java:354-374 | the new fields and the events are those of `CancelReaction` |
| Tap.PreSubscriptionError | reactor-core/src/main/java/reactor/core/publisher/FluxTapRestoringThreadLocals.java:146-153 | the just-received subscription is cancelled first, the error is reported, and the refusal with it is the one downstream signal, last |
| Tap.TerminateWith | reactor-core/src/main/java/reactor/core/publisher/FluxTapRestoringThreadLocals.java:162-169 | `s` is cancelled first, the error is reported, and onError with it is the one downstream signal, last |
| Tap.TerminateMultiple | reactor-core/src/main/java/reactor/core/publisher/FluxTapRestoringThreadLocals.java:180-188 | `s` is cancelled first, the listener error is reported, and onError with the listener error combined with the original one is the one downstream signal, last |
| Tap.PostTermination | reactor-core/src/main/java/reactor/core/publisher/FluxTapRestoringThreadLocals.java:196-199 | the error is reported and then dropped; nothing reaches the downstream and nothing is cancelled |
| Tap.Contained | reactor-core/src/main/java/reactor/core/publisher/FluxTapRestoringThreadLocals.java:224-230 | a hook whose failure is reported and dropped: the hook call comes first, and nothing reaches the downstream or cancels the upstream |
| Tap.AfterHooks | reactor-core/src/main/java/reactor/core/publisher/FluxTapRestoringThreadLocals.java:294-299 | the after-hook runs first; the try block (after-hook, then doFinally) sends nothing downstream and cancels nothing, whichever of them throws |
| Tap.OnSubscribeReaction | reactor-core/src/main/java/reactor/core/publisher/FluxTapRestoringThreadLocals.java:203-218 | the first subscription is stored whether or not the hook throws; later ones leave the fields unchanged |
| Tap.OnNextReaction | reactor-core/src/main/java/reactor/core/publisher/FluxTapRestoringThreadLocals.java:222-243 | onNext changes neither field on any path, so in particular the terminate path leaves `done` false |
| Tap.TryOnNextReaction | reactor-core/src/main/java/reactor/core/publisher/FluxTapRestoringThreadLocals.java:247-264 | the result is false exactly when the conditional downstream refuses the item, and true otherwise, even if doOnNext throws; neither field changes |
| Tap.OnErrorReaction | reactor-core/src/main/java/reactor/core/publisher/FluxTapRestoringThreadLocals.java:268-300 | `done` is true afterwards on every path, the hook's failure included |
| Tap.OnCompleteReaction | reactor-core/src/main/java/reactor/core/publisher/FluxTapRestoringThreadLocals.java:304-333 | `done` is true afterwards on every path, the hook's failure included |
| Tap.RequestReaction | reactor-core/src/main/java/reactor/core/publisher/FluxTapRestoringThreadLocals.java:337-350 | request changes neither field |
| Tap.CancelReaction | reactor-core/src/main/java/reactor/core/publisher/FluxTapRestoringThreadLocals.java:354-374 | cancel changes neither field, the terminate paths included |
| Tap.Step | reactor-core/src/main/java/reactor/core/publisher/FluxTapRestoringThreadLocals.java:104-105 | `done` only goes from false to true, exactly on onError and onComplete; `s` is assigned once, by the first onSubscribe |
| Tap.Run | reactor-core/src/main/java/reactor/core/publisher/FluxTapRestoringThreadLocals.java:203-374 | a run starts from a held subscription or with onSubscribe; afterwards the subscription is the one held before, or else the first one received, and never changes again; `done`, once set, stays set |
| TapProperties.OnSubscribeHandshake | reactor-core/src/main/java/reactor/core/publisher/FluxTapRestoringThreadLocals.java:203-218 | a second subscription is rejected with no other effect; the downstream sees onSubscribe iff doOnSubscription returns, and then exactly once, after the hook; if the hook throws, the just-received subscription is cancelled, the error reported, and the downstream refused |
| TapProperties.OnNextForwardsOrTerminates | reactor-core/src/main/java/reactor/core/publisher/FluxTapRestoringThreadLocals.java:233-242 | before termination doOnNext runs first; the item is forwarded iff the hook returns; if it throws: cancel, report, downstream onError with that error, `done` still false |
| TapProperties.MalformedOnNextContained | reactor-core/src/main/java/reactor/core/publisher/FluxTapRestoringThreadLocals.java:223-231 | after termination only doOnMalformedOnNext runs, its failure is reported and dropped, the item is dropped last on both paths, and nothing reaches the downstream or cancels |
| TapProperties.TryOnNextDeliversFirst | reactor-core/src/main/java/reactor/core/publisher/FluxTapRestoringThreadLocals.java:247-264 | a refused item runs no hook; otherwise the item is delivered (tryOnNext or onNext, by the downstream's kind), then doOnNext runs, then the terminate path if it threw |
| TapProperties.TryOnNextIgnoresDone | reactor-core/src/main/java/reactor/core/publisher/FluxTapRestoringThreadLocals.java:247-264 | tryOnNext causes the same events whether `done` is true or false |
| TapProperties.OnErrorHookOrder | reactor-core/src/main/java/reactor/core/publisher/FluxTapRestoringThreadLocals.java:279-299 | a throwing doOnError cancels, reports, and errors the downstream with the combined error, and no later hook runs; otherwise doOnError, downstream onError, doAfterError, doFinally(ON_ERROR), where a failure of doAfterError skips doFinally and either failure is reported and dropped |
| TapProperties.MalformedOnErrorContained | reactor-core/src/main/java/reactor/core/publisher/FluxTapRestoringThreadLocals.java:269-277 | after termination only doOnMalformedOnError runs, its failure is reported and dropped, the error is dropped last on both paths, and nothing reaches the downstream or cancels |
| TapProperties.OnCompleteHookOrder | reactor-core/src/main/java/reactor/core/publisher/FluxTapRestoringThreadLocals.java:313-332 | a throwing doOnComplete cancels, reports, and errors the downstream with the plain listener error, and no later hook runs; otherwise doOnComplete, downstream onComplete, doAfterComplete, doFinally(ON_COMPLETE), and what follows onComplete sends nothing downstream and cancels nothing; a throwing doAfterComplete skips doFinally and is reported and dropped, and a throwing doFinally is reported and dropped, each as an exact trace |
| TapProperties.MalformedOnCompleteContained | reactor-core/src/main/java/reactor/core/publisher/FluxTapRestoringThreadLocals.java:305-311 | after termination only doOnMalformedOnComplete runs, and its failure is reported and dropped; nothing else is dropped, nothing reaches the downstream, nothing is cancelled |
| TapProperties.RequestGate | reactor-core/src/main/java/reactor/core/publisher/FluxTapRestoringThreadLocals.java:337-350 | nothing happens iff `n <= 0`; `s.request(n)` happens iff `n > 0` and doOnRequest returns, right after the hook; a throwing hook runs the terminate path instead |
| TapProperties.CancelAlwaysCancels | reactor-core/src/main/java/reactor/core/publisher/FluxTapRestoringThreadLocals.java:354-374 | the upstream is cancelled on every path; doFinally(CANCEL) runs iff doOnCancel returns; a throwing doOnCancel runs only the terminate path; a throwing doFinally runs the terminate path after it, so the upstream is cancelled twice |
| TapProperties.OnSubscribeShape | reactor-core/src/main/java/reactor/core/publisher/FluxTapRestoringThreadLocals.java:203-218 | nothing reaches the downstream after a terminal signal; every hook that throws is reported |
| TapProperties.OnNextShape | reactor-core/src/main/java/reactor/core/publisher/FluxTapRestoringThreadLocals.java:222-243 | nothing reaches the downstream after a terminal signal; every hook that throws is reported |
| TapProperties.TryOnNextShape | reactor-core/src/main/java/reactor/core/publisher/FluxTapRestoringThreadLocals.java:247-264 | nothing reaches the downstream after a terminal signal; every hook that throws is reported |
| TapProperties.OnErrorShape | reactor-core/src/main/java/reactor/core/publisher/FluxTapRestoringThreadLocals.java:268-300 | nothing reaches the downstream after a terminal signal; every hook that throws is reported |
| TapProperties.OnCompleteShape | reactor-core/src/main/java/reactor/core/publisher/FluxTapRestoringThreadLocals.java:304-333 | nothing reaches the downstream after a terminal signal; every hook that throws is reported |
| TapProperties.RequestShape | reactor-core/src/main/java/reactor/core/publisher/FluxTapRestoringThreadLocals.java:337-350 | nothing reaches the downstream after a terminal signal; every hook that throws is reported |
| TapProperties.CancelShape | reactor-core/src/main/java/reactor/core/publisher/FluxTapRestoringThreadLocals.java:354-374 | nothing reaches the downstream after a terminal signal; every hook that throws is reported |
| TapProperties.StepShape | reactor-core/src/main/java/reactor/core/publisher/FluxTapRestoringThreadLocals.java:203-374 | for any single call, the downstream sees at most one terminal signal and nothing after it, and every hook that throws is reported to the listener |
| TapProperties.StepAfterDone | reactor-core/src/main/java/reactor/core/publisher/FluxTapRestoringThreadLocals.java:222-333 | once `done`, an upstream onSubscribe/onNext/onError/onComplete changes neither field, reaches neither the downstream nor the subscription |
| TapProperties.DoneIsAbsorbing | reactor-core/src/main/java/reactor/core/publisher/FluxTapRestoringThreadLocals.java:222-333 | once `done`, any sequence of such upstream signals leaves the fields unchanged, sends nothing downstream and cancels nothing |
| TapProperties.StepTerminalSetsDone | reactor-core/src/main/java/reactor/core/publisher/FluxTapRestoringThreadLocals.java:203-333 | an upstream signal that terminates the downstream without cancelling the upstream leaves `done` set |
| TapProperties.AtMostOneTerminal | reactor-core/src/main/java/reactor/core/publisher/FluxTapRestoringThreadLocals.java:203-374 | over any run, from before or after onSubscribe, in which no onSubscribe/onNext/onError/onComplete arrives once the upstream is cancelled and the downstream has seen a terminal signal, and tryOnNext, request and cancel only before the downstream has seen a terminal signal, the downstream sees at most one terminal signal and nothing after it; once it has seen one, `done` is set or the upstream cancelled |
| TapProperties.DownstreamTerminalCancels | reactor-core/src/main/java/reactor/core/publisher/FluxTapRestoringThreadLocals.java:337-374 | a terminal signal that request or cancel sends downstream always comes with a cancel of the upstream |
| TapProperties.TryOnNextTerminalCancels | reactor-core/src/main/java/reactor/core/publisher/FluxTapRestoringThreadLocals.java:247-264 | a terminal signal that tryOnNext sends downstream always comes with a cancel of the upstream |
| TapProperties.PassingItemsForwarded | reactor-core/src/main/java/reactor/core/publisher/FluxTapRestoringThreadLocals.java:233-242 | items whose doOnNext returns are each forwarded right after their hook, in order, and `done` stays false |
| TapProperties.FailingItemTerminates | reactor-core/src/main/java/reactor/core/publisher/FluxTapRestoringThreadLocals.java:233-237 | after passing items, a failing one adds exactly its own onNext reaction and leaves the fields unchanged |
| TapProperties.FailFast | reactor-core/src/main/java/reactor/core/publisher/FluxTapRestoringThreadLocals.java:222-243 | when doOnNext throws on the N-th item, the downstream has exactly the N-1 earlier items and then the error; the only cancel is the one right after the failing hook, doFinally never runs, and `done` stays false |
| Scenarios.CooperativeFailFastScenario | reactor-core/src/main/java/reactor/core/publisher/FluxTapRestoringThreadLocals.java:222-243 | items 1 and 2 with doOnNext throwing on 2: item 1 is delivered, then cancel, report, and the downstream onError |
| Scenarios.EmptyCompletionScenario | reactor-core/src/main/java/reactor/core/publisher/FluxTapRestoringThreadLocals.java:304-333 | an empty source completing with all hooks passing: doOnComplete, onComplete, doAfterComplete, doFinally(ON_COMPLETE) |
| Scenarios.IdleCancelScenario | reactor-core/src/main/java/reactor/core/publisher/FluxTapRestoringThreadLocals.java:354-374 | a cancel with all hooks passing: doOnCancel, one upstream cancel, one doFinally(CANCEL) |
| Scenarios.LateCompletionAfterTerminate | reactor-core/src/main/java/reactor/core/publisher/FluxTapRestoringThreadLocals.java:162-169 | after the terminate path, a later upstream onComplete still reaches the downstream, so it sees a second terminal signal |
| Scenarios.LateCompletionAfterRefusal | reactor-core/src/main/java/reactor/core/publisher/FluxTapRestoringThreadLocals.java:146-153 | after a throwing doOnSubscription refuses the downstream, a later upstream onComplete still reaches it, since `done` stays false, so it sees a second terminal signal |
| Scenarios.LateRequestFailureAfterCompletion | reactor-core/src/main/java/reactor/core/publisher/FluxTapRestoringThreadLocals.java:337-350 | after onComplete, a request whose doOnRequest throws runs the terminate path, so the downstream receives onError after onComplete |
| Scenarios.DoFinallyTwice | reactor-core/src/main/java/reactor/core/publisher/FluxTapRestoringThreadLocals.java:354-374 | after onComplete, a cancel runs doOnCancel, cancels the upstream and runs doFinally again, with CANCEL |
| Scenarios.WholeSubscription | reactor-core/src/main/java/reactor/core/publisher/FluxTapRestoringThreadLocals.java:203-333 | onSubscribe, request(1), one item and completion with all hooks passing: the exact events, ending with `done` set and the subscription held |
| Scenarios.TryOnNextAfterCompletion | reactor-core/src/main/java/reactor/core/publisher/FluxTapRestoringThreadLocals.java:247-264 | after onComplete, tryOnNext still delivers the item downstream and runs doOnNext |

## Left out

- Thread-local context restoration (`ContextPropagation.setThreadLocals` and the `ContextSnapshot.Scope` blocks) is a no-op in the model. The thread-local library is not part of this model.
- Concurrency: the model covers sequential interleavings of calls only. The source relies on the Reactive Streams serial-signalling rules and has no synchronisation.
- Nested calls: a downstream or upstream that calls back into the subscriber from inside a call is not modelled. For example, a downstream that cancels from inside the item delivery of `tryOnNext` has that cancel run before `doOnNext`; the model cannot produce this order.
- A conditional downstream's `tryOnNext` answer depends only on the item (`Downstream.rejects`), not on its own history.
- `scanUnsafe` (both classes) and the `actual()` accessor are introspection, not behaviour.
- `onErrorContinue` support exists only as a TODO comment, so there is nothing to model.
- Calls into the upstream `Subscription` and the downstream subscriber are assumed to return normally, following rules 2.13, 3.15 and 3.16 of the Reactive Streams specification.
  - FluxTap.TapSubscriber.Cancel: the `finally` that runs `doFinally(CANCEL)` after a throwing `s.cancel()` is therefore not modelled.
  - What a refused downstream does with `onSubscribe` inside `Operators.error` is not modelled either.
- `handleListenerError` is assumed not to throw. Every other hook returns or throws depending only on the hook and its argument (`Listener.fails`). What hooks record, what `addToContext` computes and what `initializePublisherState` computes are opaque functions.
- The library calls `Operators.error`, `Operators.onNextDropped`, `Operators.onErrorDropped` and `Exceptions.multiple` are opaque events or an opaque constructor (`DownRefused`, `NextDropped`, `ErrorDropped`, `Multiple`).
  - FluxTap.TapSubscriber.Request: `Operators.validate(n)` is modelled as the `n > 0` gate. Its report of a bad request (an `IllegalArgumentException` to the hooks or log) is not modelled.
  - FluxTap.TapSubscriber.OnSubscribe: `Operators.validate(this.s, s)` is not part of this model. Its rejection of a second subscription is the one opaque event `DuplicateRejected`, which stands for whatever `validate` does to the newcomer.
- Every TapSubscriber method except `OnSubscribe` requires a subscription to be held (rule 1.9 of the Reactive Streams specification). Without one, their failure paths would dereference a null `s`, and that is not modelled.
- FluxTap.TapSubscriber.CurrentContext carries no contract of its own. That it returns the context `addToContext` produced is stated by FluxTap.FluxTapRestoringThreadLocals.Subscribe.
- Items are integers and errors are opaque identities. Only their identity matters to the operator.
