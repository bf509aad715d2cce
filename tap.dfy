/** Reference semantics of the tap: what each call into `TapSubscriber` and
    the operator's `subscribe` does, as functions from the state before the
    call to the state after it and the events it causes, in order. */
module Tap {
  import opened Types

  /** The two mutable fields of a TapSubscriber: `done` and `s` (None is null). */
  datatype TapState = TapState(done: bool, s: Option<Sub>)

  const Initial := TapState(false, None)

  /** The calls a TapSubscriber receives: from upstream (`OnSubscribe`,
      `OnNext`, `TryOnNext`, `OnError`, `OnComplete`) and from downstream
      (`Request`, `Cancel`). */
  datatype Signal =
    | OnSubscribe(sub: Sub)
    | OnNext(item: Item)
    | TryOnNext(item: Item)
    | OnError(error: Err)
    | OnComplete
    | Request(n: i64)
    | Cancel

  /** The effect of one call: the new state, the events in order, and the
      boolean `tryOnNext` returns (None for the void methods). */
  datatype Reaction = Reaction(next: TapState, events: seq<Event>, returned: Option<bool>)

  /** handleListenerErrorPreSubscription: cancel the prepared subscription,
      report, then refuse the downstream. */
  function PreSubscriptionError(listenerError: Err, toCancel: Sub): (ev: seq<Event>)
    // the subscription is cancelled first, the error is reported, and the refusal is the one downstream signal, last
    ensures |ev| == 3 && ev[0] == UpCancel(toCancel) && Reported(listenerError) in ev
    ensures ev[|ev| - 1] == DownRefused(listenerError) && NoDownstream(ev[..|ev| - 1])
  {
    [UpCancel(toCancel), Reported(listenerError), DownRefused(listenerError)]
  }

  /** handleListenerErrorAndTerminate: cancel `s`, report, error the downstream. */
  function TerminateWith(listenerError: Err, s: Sub): (ev: seq<Event>)
    // `s` is cancelled first, the error is reported, and onError with it is the one downstream signal, last
    ensures |ev| == 3 && ev[0] == UpCancel(s) && Reported(listenerError) in ev
    ensures ev[|ev| - 1] == DownError(listenerError) && NoDownstream(ev[..|ev| - 1])
  {
    [UpCancel(s), Reported(listenerError), DownError(listenerError)]
  }

  /** handleListenerErrorMultipleAndTerminate: as TerminateWith, but the
      downstream gets the listener error combined with the original one. */
  function TerminateMultiple(listenerError: Err, originalError: Err, s: Sub): (ev: seq<Event>)
    // as TerminateWith, but the downstream error carries both errors, listener error first
    ensures |ev| == 3 && ev[0] == UpCancel(s) && Reported(listenerError) in ev
    ensures ev[|ev| - 1] == DownError(Multiple(listenerError, originalError)) && NoDownstream(ev[..|ev| - 1])
  {
    [UpCancel(s), Reported(listenerError), DownError(Multiple(listenerError, originalError))]
  }

  /** handleListenerErrorPostTermination: report, then drop. */
  function PostTermination(listenerError: Err): (ev: seq<Event>)
    // reported, dropped, and nothing reaches the downstream or cancels the upstream
    ensures |ev| == 2 && Reported(listenerError) in ev && ev[|ev| - 1] == ErrorDropped(listenerError)
    ensures NoDownstream(ev) && !Cancelled(ev)
  {
    [Reported(listenerError), ErrorDropped(listenerError)]
  }

  /** Invoke a hook whose failure is reported and dropped. */
  function Contained(l: Listener, h: Hook): (ev: seq<Event>)
    ensures |ev| > 0 && ev[0] == Invoked(h) && NoDownstream(ev) && !Cancelled(ev)
  {
    [Invoked(h)] + (match l.Call(h)
                    case Fail(e) => PostTermination(e)
                    case Pass => [])
  }

  /** `try { first(); second(); } catch (e) { handleListenerErrorPostTermination(e); }` */
  function AfterHooks(l: Listener, first: Hook, second: Hook): (ev: seq<Event>)
    requires first != second
    ensures |ev| > 0 && ev[0] == Invoked(first) && NoDownstream(ev) && !Cancelled(ev)
  {
    match l.Call(first)
    case Fail(e) => [Invoked(first)] + PostTermination(e)
    case Pass => [Invoked(first)] + Contained(l, second)
  }

  /** `onSubscribe(sub)`. */
  function OnSubscribeReaction(l: Listener, st: TapState, sub: Sub): (r: Reaction)
    // the first subscription is stored whatever the hook does; a second one changes nothing
    ensures r.next == if st.s.None? then st.(s := Some(sub)) else st
    ensures r.returned.None?
  {
    if st.s.Some? then
      Reaction(st, [DuplicateRejected(sub)], None)
    else
      var next := st.(s := Some(sub));
      match l.Call(DoOnSubscription)
      case Fail(e) => Reaction(next, [Invoked(DoOnSubscription)] + PreSubscriptionError(e, sub), None)
      case Pass => Reaction(next, [Invoked(DoOnSubscription), DownSubscribe], None)
  }

  /** `onNext(t)`. */
  function OnNextReaction(l: Listener, st: TapState, t: Item): (r: Reaction)
    requires st.s.Some?
    // in particular the terminate path leaves `done` false
    ensures r.next == st && r.returned.None?
  {
    if st.done then
      Reaction(st, Contained(l, DoOnMalformedOnNext(t)) + [NextDropped(t)], None)
    else
      match l.Call(DoOnNext(t))
      case Fail(e) => Reaction(st, [Invoked(DoOnNext(t))] + TerminateWith(e, st.s.value), None)
      case Pass => Reaction(st, [Invoked(DoOnNext(t)), DownNext(t)], None)
  }

  /** `tryOnNext(t)`; it does not look at `done`. */
  function TryOnNextReaction(l: Listener, d: Downstream, st: TapState, t: Item): (r: Reaction)
    requires st.s.Some?
    ensures r.next == st
    // false exactly when the conditional downstream refuses the item
    ensures r.returned == Some(!(d.conditional && t in d.rejects))
  {
    if d.conditional && t in d.rejects then
      Reaction(st, [DownTryNext(t)], Some(false))
    else
      var delivered := if d.conditional then DownTryNext(t) else DownNext(t);
      match l.Call(DoOnNext(t))
      case Fail(e) => Reaction(st, [delivered, Invoked(DoOnNext(t))] + TerminateWith(e, st.s.value), Some(true))
      case Pass => Reaction(st, [delivered, Invoked(DoOnNext(t))], Some(true))
  }

  /** `onError(t)`. */
  function OnErrorReaction(l: Listener, st: TapState, t: Err): (r: Reaction)
    requires st.s.Some?
    // `done` is set before any hook runs, so on every path
    ensures r.next == st.(done := true) && r.returned.None?
  {
    if st.done then
      Reaction(st, Contained(l, DoOnMalformedOnError(t)) + [ErrorDropped(t)], None)
    else
      var next := st.(done := true);
      match l.Call(DoOnError(t))
      case Fail(e) => Reaction(next, [Invoked(DoOnError(t))] + TerminateMultiple(e, t, st.s.value), None)
      case Pass => Reaction(next, [Invoked(DoOnError(t)), DownError(t)] + AfterHooks(l, DoAfterError(t), DoFinally(OnErrorSignal)), None)
  }

  /** `onComplete()`. */
  function OnCompleteReaction(l: Listener, st: TapState): (r: Reaction)
    requires st.s.Some?
    // `done` is set before any hook runs, so on every path
    ensures r.next == st.(done := true) && r.returned.None?
  {
    if st.done then
      Reaction(st, Contained(l, DoOnMalformedOnComplete), None)
    else
      var next := st.(done := true);
      match l.Call(DoOnComplete)
      case Fail(e) => Reaction(next, [Invoked(DoOnComplete)] + TerminateWith(e, st.s.value), None)
      case Pass => Reaction(next, [Invoked(DoOnComplete), DownComplete] + AfterHooks(l, DoAfterComplete, DoFinally(OnCompleteSignal)), None)
  }

  /** `request(n)`. */
  function RequestReaction(l: Listener, st: TapState, n: i64): (r: Reaction)
    requires st.s.Some?
    ensures r.next == st && r.returned.None?
  {
    if n <= 0 then
      Reaction(st, [], None)
    else
      match l.Call(DoOnRequest(n))
      case Fail(e) => Reaction(st, [Invoked(DoOnRequest(n))] + TerminateWith(e, st.s.value), None)
      case Pass => Reaction(st, [Invoked(DoOnRequest(n)), UpRequest(st.s.value, n)], None)
  }

  /** `cancel()`. */
  function CancelReaction(l: Listener, st: TapState): (r: Reaction)
    requires st.s.Some?
    ensures r.next == st && r.returned.None?
  {
    match l.Call(DoOnCancel)
    case Fail(e) => Reaction(st, [Invoked(DoOnCancel)] + TerminateWith(e, st.s.value), None)
    case Pass =>
      var afterCancel := match l.Call(DoFinally(CancelSignal))
                         case Fail(e) => TerminateWith(e, st.s.value)
                         case Pass => [];
      Reaction(st, [Invoked(DoOnCancel), UpCancel(st.s.value), Invoked(DoFinally(CancelSignal))] + afterCancel, None)
  }

  /** One call into the TapSubscriber. Every signal except the first
      `onSubscribe` arrives after a subscription is held. */
  function Step(l: Listener, d: Downstream, st: TapState, sig: Signal): (r: Reaction)
    requires st.s.Some? || sig.OnSubscribe?
    // `done` only ever goes from false to true, and exactly on onError / onComplete
    ensures r.next.done == (st.done || sig.OnError? || sig.OnComplete?)
    // `s` is assigned at most once
    ensures r.next.s == if st.s.None? then Some(sig.sub) else st.s
  {
    match sig
    case OnSubscribe(sub) => OnSubscribeReaction(l, st, sub)
    case OnNext(t) => OnNextReaction(l, st, t)
    case TryOnNext(t) => TryOnNextReaction(l, d, st, t)
    case OnError(t) => OnErrorReaction(l, st, t)
    case OnComplete => OnCompleteReaction(l, st)
    case Request(n) => RequestReaction(l, st, n)
    case Cancel => CancelReaction(l, st)
  }

  /** The state and the events after a sequence of calls. */
  datatype History = History(state: TapState, events: seq<Event>)

  /** Run a sequence of calls, oldest first, from a subscribed state or
      from one whose first call is `onSubscribe`. */
  function Run(l: Listener, d: Downstream, st: TapState, sigs: seq<Signal>): (h: History)
    requires st.s.Some? || sigs == [] || sigs[0].OnSubscribe?
    // `s` is the one held before, or else the first subscription received
    ensures h.state.s == if st.s.Some? || sigs == [] then st.s else Some(sigs[0].sub)
    ensures st.done ==> h.state.done
    decreases |sigs|
  {
    if sigs == [] then History(st, [])
    else
      var before := Run(l, d, st, sigs[..|sigs| - 1]);
      var r := Step(l, d, before.state, sigs[|sigs| - 1]);
      History(r.next, before.events + r.events)
  }

  /** What `subscribe(actual)` on the operator results in. */
  datatype SubscribeOutcome =
    | Subscribed(listener: Listener, context: Context, events: seq<Event>)
    | Refused(events: seq<Event>)

  /** `FluxTapRestoringThreadLocals.subscribe(actual)`. */
  function SubscribeReaction(f: Factory, source: Source, state: PublisherState, actual: Downstream): (r: SubscribeOutcome)
    // the TapSubscriber is subscribed upstream exactly when the listener is created and doFirst and addToContext pass
    ensures r.Subscribed? <==>
              var c := f.createListener(source, actual.context, state);
              c.Success? && c.value.Call(DoFirst).Pass? && c.value.Call(AddToContext).Pass?
    ensures SourceSubscribed in r.events <==> r.Subscribed?
    // on success: doFirst before addToContext, the downstream untouched, and the altered context kept
    ensures r.Subscribed? ==> r.events == [Invoked(DoFirst), Invoked(AddToContext), SourceSubscribed]
    ensures r.Subscribed? ==> r.listener == f.createListener(source, actual.context, state).value
    ensures r.Subscribed? ==> r.context == r.listener.augment(actual.context)
    // on every failure the downstream is refused once, as the last event, and the upstream is never subscribed
    ensures r.Refused? ==> |r.events| > 0 && r.events[|r.events| - 1].DownRefused? && NoDownstream(r.events[..|r.events| - 1])
    // listener creation fails: nothing but the refusal with that error, no hook
    ensures f.createListener(source, actual.context, state).Failure? ==>
              r.events == [DownRefused(f.createListener(source, actual.context, state).error)]
    // doFirst fails: reported, refused with it, addToContext never called
    ensures var c := f.createListener(source, actual.context, state);
            c.Success? && c.value.Call(DoFirst).Fail? ==>
              var e := c.value.Call(DoFirst).error;
              r.events == [Invoked(DoFirst), Reported(e), DownRefused(e)] && Invoked(AddToContext) !in r.events
    // addToContext fails: wrapped in an IllegalStateException, reported, refused with it
    ensures var c := f.createListener(source, actual.context, state);
            c.Success? && c.value.Call(DoFirst).Pass? && c.value.Call(AddToContext).Fail? ==>
              var e := IllegalState(c.value.Call(AddToContext).error);
              r.events == [Invoked(DoFirst), Invoked(AddToContext), Reported(e), DownRefused(e)]
  {
    match f.createListener(source, actual.context, state)
    case Failure(generatorError) => Refused([DownRefused(generatorError)])
    case Success(l) =>
      match l.Call(DoFirst)
      case Fail(e) => Refused([Invoked(DoFirst), Reported(e), DownRefused(e)])
      case Pass =>
        match l.Call(AddToContext)
        case Fail(e) =>
          var listenerError := IllegalState(e);
          Refused([Invoked(DoFirst), Invoked(AddToContext), Reported(listenerError), DownRefused(listenerError)])
        case Pass =>
          Subscribed(l, l.augment(actual.context), [Invoked(DoFirst), Invoked(AddToContext), SourceSubscribed])
  }
}
