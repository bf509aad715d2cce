/** The operator and its per-subscription interceptor, as objects whose
    methods update `done` and `s` in place and record every effect they
    have on the listener, the upstream Subscription and the downstream
    subscriber in a ghost trace. Each method is proved against the matching
    reaction of module Tap. */
module FluxTap {
  import opened Types
  import opened Tap

  class TapSubscriber {
    /** The downstream subscriber; `actualConditional` is non-null exactly when `actual.conditional`. */
    const actual: Downstream
    const context: Context
    const listener: Listener

    var done: bool
    var s: Option<Sub>

    /** Every effect of this subscription so far, oldest first. */
    ghost var trace: seq<Event>

    /** `new TapSubscriber(actual, signalListener, ctx)`; `prior` is what the
        subscription already caused before the subscriber existed. */
    constructor (actual: Downstream, signalListener: Listener, ctx: Context, ghost prior: seq<Event>)
      ensures this.actual == actual && listener == signalListener && context == ctx
      ensures State() == Initial && trace == prior
    {
      this.actual := actual;
      this.listener := signalListener;
      this.context := ctx;
      done := false;
      s := None;
      trace := prior;
    }

    function State(): TapState
      reads this
    {
      TapState(done, s)
    }

    /** `currentContext()`: the context the subscriber was built with. */
    function CurrentContext(): Context
    {
      context
    }

    /** A call of one listener hook; it either returns or throws. */
    method Invoke(h: Hook) returns (o: Outcome)
      modifies this`trace
      ensures trace == old(trace) + [Invoked(h)] && o == listener.Call(h)
    {
      trace := trace + [Invoked(h)];
      o := listener.Call(h);
    }

    method HandleListenerErrorPreSubscription(listenerError: Err, toCancel: Sub)
      modifies this`trace
      ensures trace == old(trace) + PreSubscriptionError(listenerError, toCancel)
    {
      trace := trace + [UpCancel(toCancel)];
      trace := trace + [Reported(listenerError)];
      trace := trace + [DownRefused(listenerError)];
    }

    method HandleListenerErrorAndTerminate(listenerError: Err)
      requires s.Some?
      modifies this`trace
      ensures trace == old(trace) + TerminateWith(listenerError, s.value)
    {
      trace := trace + [UpCancel(s.value)];
      trace := trace + [Reported(listenerError)];
      trace := trace + [DownError(listenerError)];
    }

    method HandleListenerErrorMultipleAndTerminate(listenerError: Err, originalError: Err)
      requires s.Some?
      modifies this`trace
      ensures trace == old(trace) + TerminateMultiple(listenerError, originalError, s.value)
    {
      trace := trace + [UpCancel(s.value)];
      trace := trace + [Reported(listenerError)];
      var multiple := Multiple(listenerError, originalError);
      trace := trace + [DownError(multiple)];
    }

    method HandleListenerErrorPostTermination(listenerError: Err)
      modifies this`trace
      ensures trace == old(trace) + PostTermination(listenerError)
    {
      trace := trace + [Reported(listenerError)];
      trace := trace + [ErrorDropped(listenerError)];
    }

    method OnSubscribe(sub: Sub)
      modifies this`s, this`trace
      ensures var r := OnSubscribeReaction(listener, old(State()), sub);
              State() == r.next && trace == old(trace) + r.events
    {
      if s.Some? {
        // Operators.validate(this.s, s) refuses a second subscription
        trace := trace + [DuplicateRejected(sub)];
        return;
      }
      s := Some(sub);
      var o := Invoke(DoOnSubscription);
      if o.Fail? {
        HandleListenerErrorPreSubscription(o.error, sub);
        return;
      }
      trace := trace + [DownSubscribe];
    }

    method OnNext(t: Item)
      requires s.Some?
      modifies this`trace
      ensures var r := OnNextReaction(listener, old(State()), t);
              State() == r.next && trace == old(trace) + r.events
    {
      if done {
        var o := Invoke(DoOnMalformedOnNext(t));
        if o.Fail? {
          HandleListenerErrorPostTermination(o.error);
        }
        // finally
        trace := trace + [NextDropped(t)];
        return;
      }
      var o := Invoke(DoOnNext(t));
      if o.Fail? {
        HandleListenerErrorAndTerminate(o.error);
        return;
      }
      trace := trace + [DownNext(t)];
    }

    method TryOnNext(t: Item) returns (consumed: bool)
      requires s.Some?
      modifies this`trace
      ensures var r := TryOnNextReaction(listener, actual, old(State()), t);
              State() == r.next && trace == old(trace) + r.events && consumed == r.returned.value
    {
      ghost var before := trace;
      var delivered := if actual.conditional then DownTryNext(t) else DownNext(t);
      trace := trace + [delivered];
      if actual.conditional && t in actual.rejects {
        return false;
      }
      var o := Invoke(DoOnNext(t));
      if o.Fail? {
        HandleListenerErrorAndTerminate(o.error);
        assert trace == before + ([delivered, Invoked(DoOnNext(t))] + TerminateWith(o.error, s.value));
      }
      return true;
    }

    method OnError(t: Err)
      requires s.Some?
      modifies this`done, this`trace
      ensures var r := OnErrorReaction(listener, old(State()), t);
              State() == r.next && trace == old(trace) + r.events
    {
      ghost var before := trace;
      if done {
        ghost var r := OnErrorReaction(listener, old(State()), t);
        var o := Invoke(DoOnMalformedOnError(t));
        if o.Fail? {
          HandleListenerErrorPostTermination(o.error);
        }
        // finally
        trace := trace + [ErrorDropped(t)];
        assert r.events == Contained(listener, DoOnMalformedOnError(t)) + [ErrorDropped(t)];
        assert trace == before + r.events;
        return;
      }
      done := true;
      var o := Invoke(DoOnError(t));
      if o.Fail? {
        HandleListenerErrorMultipleAndTerminate(o.error, t);
        return;
      }
      trace := trace + [DownError(t)];
      ghost var terminated := trace;
      assert OnErrorReaction(listener, old(State()), t).events
          == [Invoked(DoOnError(t)), DownError(t)] + AfterHooks(listener, DoAfterError(t), DoFinally(OnErrorSignal));
      o := Invoke(DoAfterError(t));
      if o.Pass? {
        o := Invoke(DoFinally(OnErrorSignal));
      }
      if o.Fail? {
        HandleListenerErrorPostTermination(o.error);
      }
      assert trace == terminated + AfterHooks(listener, DoAfterError(t), DoFinally(OnErrorSignal));
    }

    method OnComplete()
      requires s.Some?
      modifies this`done, this`trace
      ensures var r := OnCompleteReaction(listener, old(State()));
              State() == r.next && trace == old(trace) + r.events
    {
      if done {
        var o := Invoke(DoOnMalformedOnComplete);
        if o.Fail? {
          HandleListenerErrorPostTermination(o.error);
        }
        return;
      }
      done := true;
      var o := Invoke(DoOnComplete);
      if o.Fail? {
        HandleListenerErrorAndTerminate(o.error);
        return;
      }
      trace := trace + [DownComplete];
      o := Invoke(DoAfterComplete);
      if o.Pass? {
        o := Invoke(DoFinally(OnCompleteSignal));
      }
      if o.Fail? {
        HandleListenerErrorPostTermination(o.error);
      }
    }

    method Request(n: i64)
      requires s.Some?
      modifies this`trace
      ensures var r := RequestReaction(listener, old(State()), n);
              State() == r.next && trace == old(trace) + r.events
    {
      // Operators.validate(n)
      if n > 0 {
        var o := Invoke(DoOnRequest(n));
        if o.Fail? {
          HandleListenerErrorAndTerminate(o.error);
          return;
        }
        trace := trace + [UpRequest(s.value, n)];
      }
    }

    method Cancel()
      requires s.Some?
      modifies this`trace
      ensures var r := CancelReaction(listener, old(State()));
              State() == r.next && trace == old(trace) + r.events
    {
      var o := Invoke(DoOnCancel);
      if o.Fail? {
        HandleListenerErrorAndTerminate(o.error);
        return;
      }
      trace := trace + [UpCancel(s.value)];
      // finally
      o := Invoke(DoFinally(CancelSignal));
      if o.Fail? {
        HandleListenerErrorAndTerminate(o.error); // redundant s.cancel()
      }
    }
  }

  /** The assembled operator: one per `tap(...)` call, shared by all its subscriptions. */
  class FluxTapRestoringThreadLocals {
    const source: Source
    const tapFactory: Factory
    const commonTapState: PublisherState

    constructor (source: Source, tapFactory: Factory)
      ensures this.source == source && this.tapFactory == tapFactory
      ensures commonTapState == tapFactory.initializePublisherState(source)
    {
      this.source := source;
      this.tapFactory := tapFactory;
      this.commonTapState := tapFactory.initializePublisherState(source);
    }

    /** `subscribe(actual)`: returns the TapSubscriber subscribed to the source,
        or null when one of the three early exits was taken; `events` is what
        the call caused. */
    method Subscribe(actual: Downstream) returns (tap: TapSubscriber?, ghost events: seq<Event>)
      ensures var r := SubscribeReaction(tapFactory, source, commonTapState, actual);
              events == r.events && (tap != null <==> r.Subscribed?) &&
              (tap != null ==>
                 fresh(tap) && tap.State() == Initial && tap.trace == events &&
                 tap.actual == actual && tap.listener == r.listener && tap.CurrentContext() == r.context)
    {
      var created := tapFactory.createListener(source, actual.context, commonTapState);
      if created.Failure? {
        events := [DownRefused(created.error)];
        return null, events;
      }
      var signalListener := created.value;
      events := [Invoked(DoFirst)];
      var o := signalListener.Call(DoFirst);
      if o.Fail? {
        events := events + [Reported(o.error), DownRefused(o.error)];
        return null, events;
      }
      events := events + [Invoked(AddToContext)];
      o := signalListener.Call(AddToContext);
      if o.Fail? {
        var listenerError := IllegalState(o.error);
        events := events + [Reported(listenerError), DownRefused(listenerError)];
        return null, events;
      }
      var alteredContext := signalListener.augment(actual.context);
      events := events + [SourceSubscribed];
      tap := new TapSubscriber(actual, signalListener, alteredContext, events);
    }
  }
}
