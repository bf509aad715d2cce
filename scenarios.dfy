/** Concrete runs of the tap: the usual stories, and runs that show the
    implementation sending the downstream signals after a terminal one. */
module Scenarios {
  import opened Types
  import opened Tap
  import opened TapProperties

  const Sub0: Sub := 0
  const Fault := Thrown(7)
  const Plain := Downstream(Context(map[]), false, {})

  /** A listener whose hooks all return normally. */
  function Quiet(): Listener
  {
    Listener(map[], c => c)
  }

  /** A listener whose doOnNext throws on item 2 only. */
  function FailsOnTwo(): Listener
  {
    Listener(map[DoOnNext(2) := Fault], c => c)
  }

  const Held := TapState(false, Some(Sub0))

  /** A source of items 1, 2, 3 then completion, doOnNext throwing on 2, and
      an upstream that stops once cancelled, so item 3 and the completion are
      never sent: the downstream gets item 1 and the listener's error, the
      upstream is cancelled once, doFinally never runs. */
  lemma CooperativeFailFastScenario()
    ensures var h := Run(FailsOnTwo(), Plain, Held, [OnNext(1), OnNext(2)]);
            h.events == [Invoked(DoOnNext(1)), DownNext(1), Invoked(DoOnNext(2)), UpCancel(Sub0), Reported(Fault), DownError(Fault)] &&
            h.state == Held
  {
  }

  /** An upstream that completes normally with no items, all hooks passing:
      only onComplete reaches the downstream, between doOnComplete and
      doAfterComplete, and doFinally(ON_COMPLETE) runs last. */
  lemma EmptyCompletionScenario()
    ensures OnCompleteReaction(Quiet(), Held).events
         == [Invoked(DoOnComplete), DownComplete, Invoked(DoAfterComplete), Invoked(DoFinally(OnCompleteSignal))]
  {
  }

  /** The downstream cancels while the upstream is idle: doOnCancel, one
      cancel of the upstream, one doFinally(CANCEL). */
  lemma IdleCancelScenario()
    ensures CancelReaction(Quiet(), Held).events
         == [Invoked(DoOnCancel), UpCancel(Sub0), Invoked(DoFinally(CancelSignal))]
  {
  }

  /** The same faulty listener, but the upstream goes on to complete after
      the cancel (rules 1.8 and 3.12 of the Reactive Streams specification
      only require it to stop eventually): the terminate path did not set
      `done`, so the downstream receives onComplete after the listener's
      onError. */
  lemma LateCompletionAfterTerminate()
    ensures var h := Run(FailsOnTwo(), Plain, Held, [OnNext(2), OnComplete]);
            h.events == [Invoked(DoOnNext(2)), UpCancel(Sub0), Reported(Fault), DownError(Fault),
                         Invoked(DoOnComplete), DownComplete, Invoked(DoAfterComplete), Invoked(DoFinally(OnCompleteSignal))] &&
            !TerminalLast(h.events)
  {
    var sigs := [OnNext(2), OnComplete];
    assert sigs[..1] == [OnNext(2)] && [OnNext(2)][..0] == [];
    var h := Run(FailsOnTwo(), Plain, Held, sigs);
    assert IsTerminal(h.events[3]) && IsDownstream(h.events[5]);
  }

  /** tryOnNext does not look at `done`: after onComplete, an item offered
      through it still reaches the downstream. */
  lemma TryOnNextAfterCompletion()
    ensures var h := Run(Quiet(), Plain, Held, [OnComplete, TryOnNext(5)]);
            h.events == [Invoked(DoOnComplete), DownComplete, Invoked(DoAfterComplete), Invoked(DoFinally(OnCompleteSignal)),
                         DownNext(5), Invoked(DoOnNext(5))] &&
            !TerminalLast(h.events)
  {
    var sigs := [OnComplete, TryOnNext(5)];
    assert sigs[..1] == [OnComplete] && [OnComplete][..0] == [];
    var h := Run(Quiet(), Plain, Held, sigs);
    assert IsTerminal(h.events[1]) && IsDownstream(h.events[4]);
  }

  /** A listener whose doOnRequest throws on a demand of 1 only. */
  function FailsOnRequest(): Listener
  {
    Listener(map[DoOnRequest(1) := Fault], c => c)
  }

  /** request runs its hook whatever `done` is: after onComplete, a
      downstream request whose doOnRequest throws runs the terminate path,
      and the downstream receives onError after onComplete. */
  lemma LateRequestFailureAfterCompletion()
    ensures var h := Run(FailsOnRequest(), Plain, Held, [OnComplete, Request(1)]);
            h.events == [Invoked(DoOnComplete), DownComplete, Invoked(DoAfterComplete), Invoked(DoFinally(OnCompleteSignal)),
                         Invoked(DoOnRequest(1)), UpCancel(Sub0), Reported(Fault), DownError(Fault)] &&
            !TerminalLast(h.events)
  {
    var sigs := [OnComplete, Request(1)];
    assert sigs[..1] == [OnComplete] && [OnComplete][..0] == [];
    var h := Run(FailsOnRequest(), Plain, Held, sigs);
    assert IsTerminal(h.events[1]) && IsDownstream(h.events[7]);
  }

  /** cancel runs its hooks whatever `done` is: a downstream cancel after
      onComplete runs doFinally a second time, now with CANCEL. */
  lemma DoFinallyTwice()
    ensures var h := Run(Quiet(), Plain, Held, [OnComplete, Cancel]);
            h.events == [Invoked(DoOnComplete), DownComplete, Invoked(DoAfterComplete), Invoked(DoFinally(OnCompleteSignal)),
                         Invoked(DoOnCancel), UpCancel(Sub0), Invoked(DoFinally(CancelSignal))]
  {
    var sigs := [OnComplete, Cancel];
    assert sigs[..1] == [OnComplete] && [OnComplete][..0] == [];
  }

  /** A whole subscription from the start: onSubscribe, a request for one
      item, the item, completion. */
  lemma WholeSubscription()
    ensures var h := Run(Quiet(), Plain, Initial, [OnSubscribe(Sub0), Request(1), OnNext(4), OnComplete]);
            h.events == [Invoked(DoOnSubscription), DownSubscribe, Invoked(DoOnRequest(1)), UpRequest(Sub0, 1),
                         Invoked(DoOnNext(4)), DownNext(4), Invoked(DoOnComplete), DownComplete,
                         Invoked(DoAfterComplete), Invoked(DoFinally(OnCompleteSignal))] &&
            h.state == TapState(true, Some(Sub0))
  {
    var l, st := Quiet(), Initial;
    var sigs := [OnSubscribe(Sub0), Request(1), OnNext(4), OnComplete];
    assert sigs[..1] == [OnSubscribe(Sub0)] && sigs[..1][..0] == [];
    assert Run(l, Plain, st, []) == History(st, []);
    assert l.Call(DoOnSubscription) == Pass;
    var h1 := Run(l, Plain, st, sigs[..1]);
    assert h1 == History(Held, [Invoked(DoOnSubscription), DownSubscribe]);
    assert sigs[..2][..1] == sigs[..1];
    var h2 := Run(l, Plain, st, sigs[..2]);
    assert h2 == History(Held, h1.events + [Invoked(DoOnRequest(1)), UpRequest(Sub0, 1)]);
    assert sigs[..3][..2] == sigs[..2];
    var h3 := Run(l, Plain, st, sigs[..3]);
    assert h3 == History(Held, h2.events + [Invoked(DoOnNext(4)), DownNext(4)]);
    assert sigs[..3] == sigs[..|sigs| - 1];
  }

  /** A listener whose doOnSubscription throws. */
  function FailsOnSubscription(): Listener
  {
    Listener(map[DoOnSubscription := Fault], c => c)
  }

  /** The pre-subscription error path refuses the downstream but, like the
      terminate path, leaves `done` false: an upstream that completes after
      the cancel (a completion needs no demand) still completes the refused
      downstream. */
  lemma LateCompletionAfterRefusal()
    ensures var h := Run(FailsOnSubscription(), Plain, Initial, [OnSubscribe(Sub0), OnComplete]);
            h.events == [Invoked(DoOnSubscription), UpCancel(Sub0), Reported(Fault), DownRefused(Fault),
                         Invoked(DoOnComplete), DownComplete, Invoked(DoAfterComplete), Invoked(DoFinally(OnCompleteSignal))] &&
            h.state == TapState(true, Some(Sub0)) &&
            !TerminalLast(h.events)
  {
    var l, st := FailsOnSubscription(), Initial;
    var sigs := [OnSubscribe(Sub0), OnComplete];
    assert sigs[..1] == [OnSubscribe(Sub0)] && sigs[..1][..0] == [];
    assert Run(l, Plain, st, []) == History(st, []);
    assert l.Call(DoOnSubscription) == Fail(Fault);
    var h1 := Run(l, Plain, st, sigs[..1]);
    assert h1 == History(Held, [Invoked(DoOnSubscription), UpCancel(Sub0), Reported(Fault), DownRefused(Fault)]);
    assert l.Call(DoOnComplete) == Pass && l.Call(DoAfterComplete) == Pass && l.Call(DoFinally(OnCompleteSignal)) == Pass;
    var h := Run(l, Plain, st, sigs);
    assert h == History(TapState(true, Some(Sub0)), h1.events + OnCompleteReaction(l, Held).events);
    assert IsTerminal(h.events[3]) && IsDownstream(h.events[5]);
  }
}
