/** What the tap promises, proved about the reference semantics of module
    Tap: per call (ordering of hooks and forwarding, the error paths, what
    never happens) and over sequences of calls (`done` is absorbing, at most
    one terminal signal downstream when the upstream honours cancellation,
    fail-fast on a faulty `doOnNext`). */
module TapProperties {
  import opened Types
  import opened Tap

  // ----- sequences of events -----

  lemma NoDownstreamConcat(a: seq<Event>, b: seq<Event>)
    ensures NoDownstream(a + b) <==> NoDownstream(a) && NoDownstream(b)
  {
    if NoDownstream(a) && NoDownstream(b) {
      forall i | 0 <= i < |a + b| ensures !IsDownstream((a + b)[i]) {
        if i >= |a| { assert (a + b)[i] == b[i - |a|]; } else { assert (a + b)[i] == a[i]; }
      }
    }
    if NoDownstream(a + b) {
      forall i | 0 <= i < |a| ensures !IsDownstream(a[i]) {
        assert a[i] == (a + b)[i];
      }
      forall i | 0 <= i < |b| ensures !IsDownstream(b[i]) {
        assert b[i] == (a + b)[|a| + i];
      }
    }
  }

  lemma CancelledConcat(a: seq<Event>, b: seq<Event>)
    ensures Cancelled(a + b) <==> Cancelled(a) || Cancelled(b)
  {
    if Cancelled(a + b) {
      var i :| 0 <= i < |a + b| && (a + b)[i].UpCancel?;
      if i >= |a| { assert b[i - |a|] == (a + b)[i]; } else { assert a[i] == (a + b)[i]; }
    }
    if Cancelled(a) {
      var i :| 0 <= i < |a| && a[i].UpCancel?;
      assert (a + b)[i] == a[i];
    }
    if Cancelled(b) {
      var i :| 0 <= i < |b| && b[i].UpCancel?;
      assert (a + b)[|a| + i] == b[i];
    }
  }

  lemma HasTerminalConcat(a: seq<Event>, b: seq<Event>)
    ensures HasTerminal(a + b) <==> HasTerminal(a) || HasTerminal(b)
  {
    if HasTerminal(a + b) {
      var i :| 0 <= i < |a + b| && IsTerminal((a + b)[i]);
      if i >= |a| { assert b[i - |a|] == (a + b)[i]; } else { assert a[i] == (a + b)[i]; }
    }
    if HasTerminal(a) {
      var i :| 0 <= i < |a| && IsTerminal(a[i]);
      assert (a + b)[i] == a[i];
    }
    if HasTerminal(b) {
      var i :| 0 <= i < |b| && IsTerminal(b[i]);
      assert (a + b)[|a| + i] == b[i];
    }
  }

  /** Appending events that do not reach the downstream keeps the protocol. */
  lemma TerminalLastQuietSuffix(a: seq<Event>, b: seq<Event>)
    requires TerminalLast(a) && NoDownstream(b)
    ensures TerminalLast(a + b)
  {
  }

  /** Events before any terminal one can precede a well-formed sequence. */
  lemma TerminalLastNoTerminalPrefix(a: seq<Event>, b: seq<Event>)
    requires !HasTerminal(a) && TerminalLast(b)
    ensures TerminalLast(a + b)
  {
  }

  // ----- one call at a time -----

  /** `onSubscribe`: the handshake with the downstream, or the pre-subscription error path. */
  lemma OnSubscribeHandshake(l: Listener, st: TapState, sub: Sub)
    ensures var r := OnSubscribeReaction(l, st, sub);
            // a second subscription is refused and nothing else happens
            (st.s.Some? ==> r.events == [DuplicateRejected(sub)]) &&
            // the downstream sees onSubscribe exactly when the hook passes, once, after it
            (DownSubscribe in r.events <==> st.s.None? && l.Call(DoOnSubscription).Pass?) &&
            (DownSubscribe in r.events ==> r.events == [Invoked(DoOnSubscription), DownSubscribe]) &&
            // a failing hook: cancel the just-received subscription, report, refuse the downstream
            (st.s.None? && l.Call(DoOnSubscription).Fail? ==>
               var e := l.Call(DoOnSubscription).error;
               r.events == [Invoked(DoOnSubscription), UpCancel(sub), Reported(e), DownRefused(e)])
  {
  }

  /** `onNext` before termination: doOnNext first; the item is forwarded exactly when it passes. */
  lemma OnNextForwardsOrTerminates(l: Listener, st: TapState, t: Item)
    requires st.s.Some? && !st.done
    ensures var r := OnNextReaction(l, st, t);
            (DownNext(t) in r.events <==> l.Call(DoOnNext(t)).Pass?) &&
            (l.Call(DoOnNext(t)).Pass? ==> r.events == [Invoked(DoOnNext(t)), DownNext(t)]) &&
            (l.Call(DoOnNext(t)).Fail? ==>
               var e := l.Call(DoOnNext(t)).error;
               r.events == [Invoked(DoOnNext(t)), UpCancel(st.s.value), Reported(e), DownError(e)] &&
               !r.next.done)
  {
  }

  /** `onNext` after termination: the malformed hook, its error reported and dropped, then the item dropped. */
  lemma MalformedOnNextContained(l: Listener, st: TapState, t: Item)
    requires st.s.Some? && st.done
    ensures var r := OnNextReaction(l, st, t);
            NoDownstream(r.events) && !Cancelled(r.events) &&
            r.events[0] == Invoked(DoOnMalformedOnNext(t)) &&
            r.events[|r.events| - 1] == NextDropped(t) &&
            (l.Call(DoOnMalformedOnNext(t)).Pass? ==> r.events == [Invoked(DoOnMalformedOnNext(t)), NextDropped(t)]) &&
            (l.Call(DoOnMalformedOnNext(t)).Fail? ==>
               var e := l.Call(DoOnMalformedOnNext(t)).error;
               r.events == [Invoked(DoOnMalformedOnNext(t)), Reported(e), ErrorDropped(e), NextDropped(t)])
  {
  }

  /** `tryOnNext`: a refusal runs no hook; otherwise delivery first, doOnNext after, and true even if it throws. */
  lemma TryOnNextDeliversFirst(l: Listener, d: Downstream, st: TapState, t: Item)
    requires st.s.Some?
    ensures var r := TryOnNextReaction(l, d, st, t);
            (!r.returned.value ==> r.events == [DownTryNext(t)]) &&
            (r.returned.value ==>
               |r.events| >= 2 &&
               r.events[0] == (if d.conditional then DownTryNext(t) else DownNext(t)) &&
               r.events[1] == Invoked(DoOnNext(t)) &&
               r.events[2..] == (if l.Call(DoOnNext(t)).Fail?
                                 then TerminateWith(l.Call(DoOnNext(t)).error, st.s.value)
                                 else []))
  {
  }

  /** `tryOnNext` behaves the same whether or not the subscriber is terminated. */
  lemma TryOnNextIgnoresDone(l: Listener, d: Downstream, st: TapState, t: Item)
    requires st.s.Some?
    ensures TryOnNextReaction(l, d, st.(done := true), t).events == TryOnNextReaction(l, d, st.(done := false), t).events
  {
  }

  /** `onError` before termination: the hook chain and its two error treatments. */
  lemma OnErrorHookOrder(l: Listener, st: TapState, t: Err)
    requires st.s.Some? && !st.done
    ensures var r := OnErrorReaction(l, st, t);
            // doOnError throws: the combined error downstream, no later hook
            (l.Call(DoOnError(t)).Fail? ==>
               var e := l.Call(DoOnError(t)).error;
               r.events == [Invoked(DoOnError(t)), UpCancel(st.s.value), Reported(e), DownError(Multiple(e, t))]) &&
            // otherwise: hook, downstream, doAfterError, doFinally(ON_ERROR) ...
            (l.Call(DoOnError(t)).Pass? && l.Call(DoAfterError(t)).Pass? && l.Call(DoFinally(OnErrorSignal)).Pass? ==>
               r.events == [Invoked(DoOnError(t)), DownError(t), Invoked(DoAfterError(t)), Invoked(DoFinally(OnErrorSignal))]) &&
            // ... and a failure in the last two is reported and dropped, doFinally skipped after doAfterError
            (l.Call(DoOnError(t)).Pass? && l.Call(DoAfterError(t)).Fail? ==>
               var e := l.Call(DoAfterError(t)).error;
               r.events == [Invoked(DoOnError(t)), DownError(t), Invoked(DoAfterError(t)), Reported(e), ErrorDropped(e)]) &&
            (l.Call(DoOnError(t)).Pass? && l.Call(DoAfterError(t)).Pass? && l.Call(DoFinally(OnErrorSignal)).Fail? ==>
               var e := l.Call(DoFinally(OnErrorSignal)).error;
               r.events == [Invoked(DoOnError(t)), DownError(t), Invoked(DoAfterError(t)), Invoked(DoFinally(OnErrorSignal)),
                            Reported(e), ErrorDropped(e)])
  {
  }

  /** `onError` after termination: the malformed hook, its error reported and dropped, then `t` dropped. */
  lemma MalformedOnErrorContained(l: Listener, st: TapState, t: Err)
    requires st.s.Some? && st.done
    ensures var r := OnErrorReaction(l, st, t);
            NoDownstream(r.events) && !Cancelled(r.events) &&
            (l.Call(DoOnMalformedOnError(t)).Pass? ==> r.events == [Invoked(DoOnMalformedOnError(t)), ErrorDropped(t)]) &&
            (l.Call(DoOnMalformedOnError(t)).Fail? ==>
               var e := l.Call(DoOnMalformedOnError(t)).error;
               r.events == [Invoked(DoOnMalformedOnError(t)), Reported(e), ErrorDropped(e), ErrorDropped(t)])
  {
  }

  /** `onComplete` before termination: the hook chain and its two error treatments. */
  lemma OnCompleteHookOrder(l: Listener, st: TapState)
    requires st.s.Some? && !st.done
    ensures var r := OnCompleteReaction(l, st);
            // doOnComplete throws: the plain listener error downstream, no later hook
            (l.Call(DoOnComplete).Fail? ==>
               var e := l.Call(DoOnComplete).error;
               r.events == [Invoked(DoOnComplete), UpCancel(st.s.value), Reported(e), DownError(e)]) &&
            // otherwise: hook, downstream, doAfterComplete, doFinally(ON_COMPLETE) ...
            (l.Call(DoOnComplete).Pass? && l.Call(DoAfterComplete).Pass? && l.Call(DoFinally(OnCompleteSignal)).Pass? ==>
               r.events == [Invoked(DoOnComplete), DownComplete, Invoked(DoAfterComplete), Invoked(DoFinally(OnCompleteSignal))]) &&
            // ... and a failure in the last two is reported and dropped, with no further downstream signal
            (l.Call(DoOnComplete).Pass? ==>
               |r.events| > 2 && r.events[..2] == [Invoked(DoOnComplete), DownComplete] &&
               NoDownstream(r.events[2..]) && !Cancelled(r.events)) &&
            (l.Call(DoOnComplete).Pass? && l.Call(DoAfterComplete).Fail? ==>
               var e := l.Call(DoAfterComplete).error;
               r.events == [Invoked(DoOnComplete), DownComplete, Invoked(DoAfterComplete), Reported(e), ErrorDropped(e)]) &&
            (l.Call(DoOnComplete).Pass? && l.Call(DoAfterComplete).Pass? && l.Call(DoFinally(OnCompleteSignal)).Fail? ==>
               var e := l.Call(DoFinally(OnCompleteSignal)).error;
               r.events == [Invoked(DoOnComplete), DownComplete, Invoked(DoAfterComplete), Invoked(DoFinally(OnCompleteSignal)),
                            Reported(e), ErrorDropped(e)])
  {
  }

  /** `onComplete` after termination: only the malformed hook; nothing but its own error is dropped. */
  lemma MalformedOnCompleteContained(l: Listener, st: TapState)
    requires st.s.Some? && st.done
    ensures var r := OnCompleteReaction(l, st);
            NoDownstream(r.events) && !Cancelled(r.events) &&
            (l.Call(DoOnMalformedOnComplete).Pass? ==> r.events == [Invoked(DoOnMalformedOnComplete)]) &&
            (l.Call(DoOnMalformedOnComplete).Fail? ==>
               var e := l.Call(DoOnMalformedOnComplete).error;
               r.events == [Invoked(DoOnMalformedOnComplete), Reported(e), ErrorDropped(e)])
  {
  }

  /** `request(n)`: nothing unless `n > 0`; doOnRequest before `s.request(n)`, which a throwing hook prevents. */
  lemma RequestGate(l: Listener, st: TapState, n: i64)
    requires st.s.Some?
    ensures var r := RequestReaction(l, st, n);
            (n <= 0 <==> r.events == []) &&
            (UpRequest(st.s.value, n) in r.events <==> n > 0 && l.Call(DoOnRequest(n)).Pass?) &&
            (n > 0 && l.Call(DoOnRequest(n)).Pass? ==> r.events == [Invoked(DoOnRequest(n)), UpRequest(st.s.value, n)]) &&
            (n > 0 && l.Call(DoOnRequest(n)).Fail? ==>
               var e := l.Call(DoOnRequest(n)).error;
               r.events == [Invoked(DoOnRequest(n)), UpCancel(st.s.value), Reported(e), DownError(e)])
  {
  }

  /** `cancel()`: the upstream is cancelled on every path; doFinally(CANCEL) runs exactly when doOnCancel passes. */
  lemma CancelAlwaysCancels(l: Listener, st: TapState)
    requires st.s.Some?
    ensures var r := CancelReaction(l, st);
            var s := st.s.value;
            UpCancel(s) in r.events &&
            (Invoked(DoFinally(CancelSignal)) in r.events <==> l.Call(DoOnCancel).Pass?) &&
            (l.Call(DoOnCancel).Fail? ==>
               var e := l.Call(DoOnCancel).error;
               r.events == [Invoked(DoOnCancel), UpCancel(s), Reported(e), DownError(e)]) &&
            (l.Call(DoOnCancel).Pass? && l.Call(DoFinally(CancelSignal)).Pass? ==>
               r.events == [Invoked(DoOnCancel), UpCancel(s), Invoked(DoFinally(CancelSignal))]) &&
            // a failing doFinally runs the terminate path, with a second cancel
            (l.Call(DoOnCancel).Pass? && l.Call(DoFinally(CancelSignal)).Fail? ==>
               var e := l.Call(DoFinally(CancelSignal)).error;
               r.events == [Invoked(DoOnCancel), UpCancel(s), Invoked(DoFinally(CancelSignal)), UpCancel(s), Reported(e), DownError(e)] &&
               multiset(r.events)[UpCancel(s)] == 2)
  {
  }

  /** Every hook that threw is handed to `handleListenerError` within the same events. */
  ghost predicate ReportsFailures(l: Listener, ev: seq<Event>)
  {
    forall h :: Invoked(h) in ev && l.Call(h).Fail? ==> Reported(l.Call(h).error) in ev
  }

  lemma OnSubscribeShape(l: Listener, st: TapState, sub: Sub)
    ensures TerminalLast(OnSubscribeReaction(l, st, sub).events)
    ensures ReportsFailures(l, OnSubscribeReaction(l, st, sub).events)
  {
  }

  lemma OnNextShape(l: Listener, st: TapState, t: Item)
    requires st.s.Some?
    ensures TerminalLast(OnNextReaction(l, st, t).events)
    ensures ReportsFailures(l, OnNextReaction(l, st, t).events)
  {
  }

  lemma TryOnNextShape(l: Listener, d: Downstream, st: TapState, t: Item)
    requires st.s.Some?
    ensures TerminalLast(TryOnNextReaction(l, d, st, t).events)
    ensures ReportsFailures(l, TryOnNextReaction(l, d, st, t).events)
  {
  }

  lemma OnErrorShape(l: Listener, st: TapState, t: Err)
    requires st.s.Some?
    ensures TerminalLast(OnErrorReaction(l, st, t).events)
    ensures ReportsFailures(l, OnErrorReaction(l, st, t).events)
  {
    if !st.done {
      match l.Call(DoOnError(t))
      case Fail(e) =>
      case Pass =>
    }
  }

  lemma OnCompleteShape(l: Listener, st: TapState)
    requires st.s.Some?
    ensures TerminalLast(OnCompleteReaction(l, st).events)
    ensures ReportsFailures(l, OnCompleteReaction(l, st).events)
  {
  }

  lemma RequestShape(l: Listener, st: TapState, n: i64)
    requires st.s.Some?
    ensures TerminalLast(RequestReaction(l, st, n).events)
    ensures ReportsFailures(l, RequestReaction(l, st, n).events)
  {
  }

  lemma CancelShape(l: Listener, st: TapState)
    requires st.s.Some?
    ensures TerminalLast(CancelReaction(l, st).events)
    ensures ReportsFailures(l, CancelReaction(l, st).events)
  {
  }

  /** Within one call the downstream sees at most one terminal signal and
      nothing after it, and every hook that throws is reported. */
  lemma StepShape(l: Listener, d: Downstream, st: TapState, sig: Signal)
    requires st.s.Some? || sig.OnSubscribe?
    ensures TerminalLast(Step(l, d, st, sig).events)
    ensures ReportsFailures(l, Step(l, d, st, sig).events)
  {
    match sig
    case OnSubscribe(sub) => OnSubscribeShape(l, st, sub);
    case OnNext(t) => OnNextShape(l, st, t);
    case TryOnNext(t) => TryOnNextShape(l, d, st, t);
    case OnError(t) => OnErrorShape(l, st, t);
    case OnComplete => OnCompleteShape(l, st);
    case Request(n) => RequestShape(l, st, n);
    case Cancel => CancelShape(l, st);
  }

  /** A signal the upstream Publisher sends through the plain Subscriber methods. */
  predicate FromUpstream(sig: Signal)
  {
    sig.OnSubscribe? || sig.OnNext? || sig.OnError? || sig.OnComplete?
  }

  /** Once `done`, upstream signals other than tryOnNext reach neither the downstream nor the subscription. */
  lemma StepAfterDone(l: Listener, d: Downstream, st: TapState, sig: Signal)
    requires st.s.Some? && st.done && FromUpstream(sig)
    ensures Step(l, d, st, sig).next == st
    ensures NoDownstream(Step(l, d, st, sig).events) && !Cancelled(Step(l, d, st, sig).events)
  {
  }

  // ----- sequences of calls -----

  /** Once `done`, no sequence of upstream signals (tryOnNext aside) reaches the downstream, cancels, or changes the state. */
  lemma {:induction false} DoneIsAbsorbing(l: Listener, d: Downstream, st: TapState, sigs: seq<Signal>)
    requires st.s.Some? && st.done
    requires forall i :: 0 <= i < |sigs| ==> FromUpstream(sigs[i])
    ensures Run(l, d, st, sigs).state == st
    ensures NoDownstream(Run(l, d, st, sigs).events) && !Cancelled(Run(l, d, st, sigs).events)
  {
    if sigs != [] {
      var prefix := sigs[..|sigs| - 1];
      DoneIsAbsorbing(l, d, st, prefix);
      var before := Run(l, d, st, prefix);
      StepAfterDone(l, d, before.state, sigs[|sigs| - 1]);
      var r := Step(l, d, before.state, sigs[|sigs| - 1]);
      NoDownstreamConcat(before.events, r.events);
      CancelledConcat(before.events, r.events);
    }
  }

  /** The downstream sees at most one terminal signal and nothing after it,
      over any run, started before or after `onSubscribe`, in which
      - no upstream signal (onSubscribe, onNext, onError, onComplete)
        arrives once the upstream is cancelled and the downstream has seen a
        terminal signal, that is, the source stops once cancelled by a
        terminate path (rules 1.8 and 3.12 of the Reactive Streams
        specification, with "eventually" taken as "at once"); after a plain
        downstream cancel, signals still in flight may arrive (rule 2.8), and
      - each `request` or `cancel` arrives only while the downstream has not
        seen a terminal signal, that is, the downstream stops signalling once
        terminated (rule 2.4 of the Reactive Streams specification), and
      - each `tryOnNext` arrives only while the downstream has not seen a
        terminal signal: unlike onNext it never looks at `done`, so after a
        terminal signal it would deliver the item regardless.
      Once a terminal signal has been sent, `done` is set or the upstream is
      cancelled. */
  lemma {:induction false} AtMostOneTerminal(l: Listener, d: Downstream, st: TapState, sigs: seq<Signal>)
    requires st.s.Some? || sigs == [] || sigs[0].OnSubscribe?
    requires forall k :: 0 <= k < |sigs| ==>
               (FromUpstream(sigs[k]) && !(Cancelled(Run(l, d, st, sigs[..k]).events) && HasTerminal(Run(l, d, st, sigs[..k]).events))) ||
               ((sigs[k].TryOnNext? || sigs[k].Request? || sigs[k].Cancel?) && !HasTerminal(Run(l, d, st, sigs[..k]).events))
    ensures TerminalLast(Run(l, d, st, sigs).events)
    ensures HasTerminal(Run(l, d, st, sigs).events) ==> Run(l, d, st, sigs).state.done || Cancelled(Run(l, d, st, sigs).events)
  {
    if sigs != [] {
      var n := |sigs| - 1;
      var prefix := sigs[..n];
      forall k | 0 <= k < |prefix|
        ensures (FromUpstream(prefix[k]) && !(Cancelled(Run(l, d, st, prefix[..k]).events) && HasTerminal(Run(l, d, st, prefix[..k]).events))) ||
                ((prefix[k].TryOnNext? || prefix[k].Request? || prefix[k].Cancel?) && !HasTerminal(Run(l, d, st, prefix[..k]).events))
      {
        assert prefix[..k] == sigs[..k];
      }
      AtMostOneTerminal(l, d, st, prefix);
      var before := Run(l, d, st, prefix);
      assert prefix == sigs[..n];
      var sig := sigs[n];
      var r := Step(l, d, before.state, sig);
      StepShape(l, d, before.state, sig);
      HasTerminalConcat(before.events, r.events);
      CancelledConcat(before.events, r.events);
      if FromUpstream(sig) {
        if HasTerminal(before.events) {
          // the earlier terminal came without a cancel, so it set `done`: everything since is quiet
          assert prefix != [];
          StepAfterDone(l, d, before.state, sig);
          TerminalLastQuietSuffix(before.events, r.events);
        } else {
          TerminalLastNoTerminalPrefix(before.events, r.events);
          StepTerminalSetsDone(l, d, before.state, sig);
        }
      } else if sig.TryOnNext? {
        // a tryOnNext before any terminal signal: a terminal it causes comes with a cancel
        TerminalLastNoTerminalPrefix(before.events, r.events);
        TryOnNextTerminalCancels(l, d, before.state, sig.item);
      } else {
        // a request or cancel before any terminal signal: a terminal it causes comes with a cancel
        TerminalLastNoTerminalPrefix(before.events, r.events);
        DownstreamTerminalCancels(l, d, before.state, sig);
      }
    }
  }

  /** A terminal signal sent downstream without cancelling the upstream comes from onError / onComplete, which set `done`. */
  lemma StepTerminalSetsDone(l: Listener, d: Downstream, st: TapState, sig: Signal)
    requires (st.s.Some? || sig.OnSubscribe?) && FromUpstream(sig)
    ensures var r := Step(l, d, st, sig);
            HasTerminal(r.events) && !Cancelled(r.events) ==> r.next.done
  {
    var ev := Step(l, d, st, sig).events;
    if sig.OnNext? && !st.done && l.Call(DoOnNext(sig.item)).Fail? {
      assert ev[1].UpCancel?;
    }
    if sig.OnSubscribe? && st.s.None? && l.Call(DoOnSubscription).Fail? {
      assert ev[1].UpCancel?;
    }
  }

  /** A terminal signal caused by `request` or `cancel` always comes with a cancel of the upstream. */
  lemma DownstreamTerminalCancels(l: Listener, d: Downstream, st: TapState, sig: Signal)
    requires st.s.Some? && (sig.Request? || sig.Cancel?)
    ensures HasTerminal(Step(l, d, st, sig).events) ==> Cancelled(Step(l, d, st, sig).events)
  {
    var ev := Step(l, d, st, sig).events;
    if sig.Cancel? || (sig.n > 0 && l.Call(DoOnRequest(sig.n)).Fail?) {
      assert ev[1].UpCancel?;
    }
  }

  /** A terminal signal caused by `tryOnNext` (its doOnNext throwing) always comes with a cancel of the upstream. */
  lemma TryOnNextTerminalCancels(l: Listener, d: Downstream, st: TapState, t: Item)
    requires st.s.Some?
    ensures HasTerminal(TryOnNextReaction(l, d, st, t).events) ==> Cancelled(TryOnNextReaction(l, d, st, t).events)
  {
    var ev := TryOnNextReaction(l, d, st, t).events;
    if !(d.conditional && t in d.rejects) && l.Call(DoOnNext(t)).Fail? {
      assert ev[2].UpCancel?;
    }
  }

  /** The signals `onNext(items[0]), onNext(items[1]), ...`. */
  function OnNexts(items: seq<Item>): (sigs: seq<Signal>)
    ensures |sigs| == |items|
    ensures forall i :: 0 <= i < |items| ==> sigs[i] == OnNext(items[i])
  {
    if items == [] then [] else OnNexts(items[..|items| - 1]) + [OnNext(items[|items| - 1])]
  }

  /** The events of items that pass doOnNext: each hook call followed by the item going downstream. */
  function Forwarded(items: seq<Item>): (ev: seq<Event>)
    ensures |ev| == 2 * |items|
    ensures forall i :: 0 <= i < |items| ==> ev[2 * i] == Invoked(DoOnNext(items[i])) && ev[2 * i + 1] == DownNext(items[i])
    ensures forall j :: 0 <= j < |ev| ==> ev[j].DownNext? || (ev[j].Invoked? && ev[j].hook.DoOnNext?)
  {
    if items == [] then [] else Forwarded(items[..|items| - 1]) + [Invoked(DoOnNext(items[|items| - 1])), DownNext(items[|items| - 1])]
  }

  lemma {:induction false} PassingItemsForwarded(l: Listener, d: Downstream, sub: Sub, items: seq<Item>)
    requires forall i :: 0 <= i < |items| ==> l.Call(DoOnNext(items[i])).Pass?
    ensures Run(l, d, TapState(false, Some(sub)), OnNexts(items)) == History(TapState(false, Some(sub)), Forwarded(items))
  {
    if items != [] {
      var n := |items| - 1;
      PassingItemsForwarded(l, d, sub, items[..n]);
      assert OnNexts(items)[..n] == OnNexts(items[..n]);
    }
  }

  lemma FailingItemTerminates(l: Listener, d: Downstream, sub: Sub, good: seq<Item>, bad: Item)
    requires forall i :: 0 <= i < |good| ==> l.Call(DoOnNext(good[i])).Pass?
    requires l.Call(DoOnNext(bad)).Fail?
    ensures var h := Run(l, d, TapState(false, Some(sub)), OnNexts(good + [bad]));
            h.events == Forwarded(good) + OnNextReaction(l, TapState(false, Some(sub)), bad).events &&
            h.state == TapState(false, Some(sub))
  {
    PassingItemsForwarded(l, d, sub, good);
    assert OnNexts(good + [bad]) == OnNexts(good) + [OnNext(bad)] by {
      assert (good + [bad])[..|good|] == good;
    }
  }

  /** Fail-fast: when doOnNext throws on the N-th item, the downstream has
      received exactly the N-1 items before it, each after its hook, then the
      listener's error; the upstream is cancelled once, `doFinally` never
      runs, and `done` stays false. */
  lemma FailFast(l: Listener, d: Downstream, sub: Sub, good: seq<Item>, bad: Item)
    requires forall i :: 0 <= i < |good| ==> l.Call(DoOnNext(good[i])).Pass?
    requires l.Call(DoOnNext(bad)).Fail?
    ensures var h := Run(l, d, TapState(false, Some(sub)), OnNexts(good + [bad]));
            var e := l.Call(DoOnNext(bad)).error;
            h.events == Forwarded(good) + [Invoked(DoOnNext(bad)), UpCancel(sub), Reported(e), DownError(e)] &&
            // the only cancel is the terminate path's, right after the failing hook
            (forall j :: 0 <= j < |h.events| && h.events[j].UpCancel? ==> j == 2 * |good| + 1) &&
            (forall k :: Invoked(DoFinally(k)) !in h.events) &&
            h.state == TapState(false, Some(sub))
  {
    var e := l.Call(DoOnNext(bad)).error;
    var tail: seq<Event> := [Invoked(DoOnNext(bad)), UpCancel(sub), Reported(e), DownError(e)];
    FailingItemTerminates(l, d, sub, good, bad);
    var fw := Forwarded(good);
    forall j | 0 <= j < |fw + tail| && (fw + tail)[j].UpCancel? ensures j == 2 * |good| + 1 {
    }
  }
}
