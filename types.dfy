/** Values exchanged between the tap operator, its signal listener, the
    upstream Subscription and the downstream subscriber, and the events a
    subscription makes observable. */
module Types {

  /** A Java `long`: the demand passed to `request`. */
  newtype i64 = x: int | -0x8000_0000_0000_0000 <= x < 0x8000_0000_0000_0000

  /** Items flowing through the stream; only their identity matters here. */
  type Item = int

  /** Identity of an upstream Subscription object. */
  type Sub = nat

  /** Identity of the upstream Flux the operator wraps. */
  type Source = nat

  /** The opaque state the listener factory computes once per assembled operator. */
  type PublisherState = int

  datatype Option<+T> = None | Some(value: T)

  /** Throwables. What a hook throws is opaque; the operator builds two compound forms. */
  datatype Err =
    | Thrown(id: nat)
      /** `new IllegalStateException("Unable to augment tap Context ...", cause)` */
    | IllegalState(cause: Err)
      /** `Exceptions.multiple(first, second)` */
    | Multiple(first: Err, second: Err)

  /** A Reactor Context: an immutable key/value snapshot. */
  datatype Context = Context(entries: map<string, string>)

  /** The `SignalType` handed to `doFinally`. */
  datatype SignalType = OnErrorSignal | OnCompleteSignal | CancelSignal

  /** One invocation of a SignalListener hook, with its argument. */
  datatype Hook =
    | DoFirst
    | AddToContext
    | DoOnSubscription
    | DoOnNext(item: Item)
    | DoOnMalformedOnNext(item: Item)
    | DoOnError(error: Err)
    | DoOnMalformedOnError(error: Err)
    | DoAfterError(error: Err)
    | DoOnComplete
    | DoOnMalformedOnComplete
    | DoAfterComplete
    | DoFinally(kind: SignalType)
    | DoOnRequest(n: i64)
    | DoOnCancel

  /** Whether a call returned normally or threw. */
  datatype Outcome = Pass | Fail(error: Err)

  datatype Result<+R> = Success(value: R) | Failure(error: Err)

  /** A SignalListener, seen only as succeed-or-throw: each hook invocation
      listed in `fails` throws the error it maps to, every other one returns
      normally. `augment` is what `addToContext` returns when it does not
      throw. `handleListenerError` never throws. */
  datatype Listener = Listener(fails: map<Hook, Err>, augment: Context -> Context)
  {
    function Call(h: Hook): Outcome
    {
      if h in fails then Fail(fails[h]) else Pass
    }
  }

  /** A SignalListenerFactory. */
  datatype Factory = Factory(
    initializePublisherState: Source -> PublisherState,
    createListener: (Source, Context, PublisherState) -> Result<Listener>)

  /** The downstream CoreSubscriber: its context, whether it is a
      ConditionalSubscriber, and (if so) which items its `tryOnNext` refuses. */
  datatype Downstream = Downstream(context: Context, conditional: bool, rejects: set<Item>)

  /** Every observable effect of a subscription. */
  datatype Event =
      /** a listener hook was called (whether or not it threw) */
    | Invoked(hook: Hook)
      /** `listener.handleListenerError(error)` */
    | Reported(error: Err)
      /** `actual.onSubscribe(this)` */
    | DownSubscribe
      /** `actual.onNext(item)` */
    | DownNext(item: Item)
      /** `actualConditional.tryOnNext(item)` */
    | DownTryNext(item: Item)
      /** `actual.onError(error)` */
    | DownError(error: Err)
      /** `actual.onComplete()` */
    | DownComplete
      /** `Operators.error(actual, error)`: the downstream is given an empty
          subscription and terminated with `error` */
    | DownRefused(error: Err)
      /** `s.request(n)` on the upstream subscription `sub` */
    | UpRequest(sub: Sub, n: i64)
      /** `cancel()` on the upstream subscription `sub` */
    | UpCancel(sub: Sub)
      /** `Operators.validate(this.s, sub)` refused a second subscription */
    | DuplicateRejected(sub: Sub)
      /** `Operators.onNextDropped(item, ...)` */
    | NextDropped(item: Item)
      /** `Operators.onErrorDropped(error, ...)` */
    | ErrorDropped(error: Err)
      /** `source.subscribe(new TapSubscriber(...))` */
    | SourceSubscribed

  /** A signal the downstream subscriber receives. */
  predicate IsDownstream(e: Event)
  {
    e.DownSubscribe? || e.DownNext? || e.DownTryNext? || e.DownError? || e.DownComplete? || e.DownRefused?
  }

  /** A terminal signal the downstream subscriber receives. */
  predicate IsTerminal(e: Event)
  {
    e.DownError? || e.DownComplete? || e.DownRefused?
  }

  predicate NoDownstream(ev: seq<Event>)
  {
    forall i :: 0 <= i < |ev| ==> !IsDownstream(ev[i])
  }

  predicate HasTerminal(ev: seq<Event>)
  {
    exists i :: 0 <= i < |ev| && IsTerminal(ev[i])
  }

  predicate Cancelled(ev: seq<Event>)
  {
    exists i :: 0 <= i < |ev| && ev[i].UpCancel?
  }

  /** The downstream's part of the protocol: once it has seen a terminal
      signal it sees nothing more (so in particular at most one terminal). */
  predicate TerminalLast(ev: seq<Event>)
  {
    forall i, j :: 0 <= i < j < |ev| && IsTerminal(ev[i]) ==> !IsDownstream(ev[j])
  }
}
