/** What publishers and waiting callers get from the session input broker (internal/eventbus/broker.go):
    what an answer holds, which inputs are accepted, and what a departure discards. Everything is stated
    over runs of the broker, through their actions. */
module SessionInputDelivery {
  import opened SessionInputBroker

  // ---------------------------------------------------------------- one worker under any step

  predicate StepOf(a: Action, w: nat) { IsSessionStep(a) && a.w == w }

  /** Steps of other goroutines leave a worker's answers and started callbacks alone and, except that an
      ending worker goes on ending, do not move its goroutine. */
  ghost predicate Untouched(s: Session, s': Session) {
    && s'.key == s.key && s'.answers == s.answers && s'.started == s.started && s.rejecting <= s'.rejecting
    && (s'.pc == s.pc || (s.pc.Failing? && s'.pc.Returning?) || (s.pc.Returning? && s'.pc.Gone?))
    && (s'.q.inFlight == s.q.inFlight)
  }

  ghost predicate AllUntouched(b: Broker, b': Broker) {
    |b.pool| <= |b'.pool| && forall w :: 0 <= w < |b.pool| ==> Untouched(b.pool[w], b'.pool[w])
  }

  lemma CutsTouchNothing(s: Session)
    ensures Untouched(s, Stopped(s)) && Untouched(s, Completed(s))
  {
  }

  lemma FailTouchesNothing(b: Broker, w: nat)
    requires w < |b.pool|
    ensures AllUntouched(b, Fail(b, w)) && |Fail(b, w).pool| == |b.pool|
  {
    CutsTouchNothing(b.pool[w]);
    hide Stopped;
  }

  lemma DepartureTouchesNothing(b: Broker, a: Action)
    requires a.CancelSession? || a.CompleteSession?
    ensures AllUntouched(b, LockedStep(b, a))
  {
    hide Stopped;
    hide Completed;
    if a.key in b.workers && b.workers[a.key] < |b.pool| { CutsTouchNothing(b.pool[b.workers[a.key]]); }
  }

  lemma ReportTouchesNothing(b: Broker, a: Action)
    requires a.ReportOverrun? || a.ReportFailure?
    ensures AllUntouched(b, LockedStep(b, a))
  {
    if a.ReportOverrun? && a.sequence in b.overruns && b.overruns[a.sequence] < |b.pool| {
      FailTouchesNothing(b, b.overruns[a.sequence]);
      hide Fail;
      hide Untouched;
    } else if a.ReportFailure? && a.w < |b.pool| && b.pool[a.w].pc.Failing? {
      FailTouchesNothing(b, a.w);
      assert Untouched(b.pool[a.w], Fail(b, a.w).pool[a.w].(pc := Returning));
      hide Fail;
      hide Untouched;
    } else {
      QueueTouchesNothing(b, a);
      hide AllUntouched;
    }
  }

  lemma LockedTouchesNothing(b: Broker, a: Action)
    requires b.lock.Free?
    ensures AllUntouched(b, LockedStep(b, a))
  {
    if a.ReportOverrun? || a.ReportFailure? {
      ReportTouchesNothing(b, a);
      hide LockedStep;
    } else if a.CancelSession? || a.CompleteSession? {
      DepartureTouchesNothing(b, a);
      hide LockedStep;
    }
  }

  lemma RegionTouchesNothing(b: Broker, a: Action)
    requires !b.lock.Free?
    ensures AllUntouched(b, RegionStep(b, a))
  {
    hide Stopped;
    if a.StopNext? && a.key in b.workers && b.workers[a.key] < |b.pool| {
      CutsTouchNothing(b.pool[b.workers[a.key]]);
    }
  }

  lemma QueueTouchesNothing(b: Broker, a: Action)
    ensures AllUntouched(b, b)
    ensures a.QueuePublished? ==> AllUntouched(b, QueuePublishedStep(b, a.sequence))
  {
  }

  lemma OthersTouchNothing(b: Broker, a: Action, w: nat)
    requires w < |b.pool| && !StepOf(a, w)
    ensures w < |Step(b, a).pool| && Untouched(b.pool[w], Step(b, a).pool[w])
  {
    hide Rejecting;
    hide SessionStep;
    hide LockedStep;
    hide RegionStep;
    hide QueuePublishedStep;
    hide Untouched;
    if IsSessionStep(a) || a.QueuePublished? || Rejecting(b) {
      QueueTouchesNothing(b, a);
    } else if b.lock.Free? {
      LockedTouchesNothing(b, a);
    } else {
      RegionTouchesNothing(b, a);
    }
  }

  /** A worker's goroutine starts to respond only as its callback returns, and only the answer it responds
      with is ever delivered. */
  lemma OwnStep(s: Session, a: Action)
    ensures var s' := SessionStep(s, a);
      && (s'.pc.Responding? && s'.pc != s.pc ==>
            a.CallbackReturns? && s.pc == Delivering(s'.pc.d) && a.outcome == s'.pc.outcome && !s.q.stopped)
      && (forall n :: n in s'.answers && s'.answers[n].Delivered? ==>
            || (n in s.answers && s.answers[n] == s'.answers[n])
            || (s.pc.Responding? && s.pc.d.waiting && s.pc.d.sequence == n
                && s'.answers[n] == Delivered(s.pc.outcome)))
  {
  }

  // ---------------------------------------------------------------- what an answer holds

  /** Action k of the run returns outcome o from worker w's callback for d, and w had not been stopped. */
  ghost predicate ReturnedAt(actions: seq<Action>, k: nat, w: nat, d: Delivery, o: Outcome) {
    && k < |actions| && actions[k] == CallbackReturns(w, o)
    && w < |Run(actions[..k]).pool|
    && Run(actions[..k]).pool[w].pc == Delivering(d) && !Run(actions[..k]).pool[w].q.stopped
  }

  ghost predicate Sourced(actions: seq<Action>, w: nat, n: nat, o: Outcome) {
    exists k: nat, d: Delivery :: ReturnedAt(actions, k, w, d, o) && d.sequence == n && d.waiting
  }

  ghost predicate Origins(actions: seq<Action>, w: nat)
    requires w < |Run(actions).pool|
  {
    var s := Run(actions).pool[w];
    && (s.pc.Responding? ==> exists k: nat :: ReturnedAt(actions, k, w, s.pc.d, s.pc.outcome))
    && (forall n :: n in s.answers && s.answers[n].Delivered? ==> Sourced(actions, w, n, s.answers[n].outcome))
  }

  lemma ReturnedStays(actions: seq<Action>, a: Action, k: nat, w: nat, d: Delivery, o: Outcome)
    requires ReturnedAt(actions, k, w, d, o)
    ensures ReturnedAt(actions + [a], k, w, d, o)
  {
    assert (actions + [a])[..k] == actions[..k];
  }

  lemma SourcedStays(actions: seq<Action>, a: Action, w: nat, n: nat, o: Outcome)
    requires Sourced(actions, w, n, o)
    ensures Sourced(actions + [a], w, n, o)
  {
    var k: nat, d: Delivery :| ReturnedAt(actions, k, w, d, o) && d.sequence == n && d.waiting;
    ReturnedStays(actions, a, k, w, d, o);
  }

  lemma NewWorkersAreBlank(b: Broker, a: Action, w: nat)
    requires |b.pool| <= w < |Step(b, a).pool|
    ensures a.Publish? && w == |b.pool| && Step(b, a).pool[w] == NewSession(Step(b, a).pool[w].key)
  {
    hide SessionStep;
    hide Stopped;
    hide Completed;
    hide Rejecting;
  }

  /** The same for any step. */
  ghost predicate FromCallback(s: Session, a: Action, w: nat, s': Session) {
    && (s'.pc.Responding? && s'.pc != s.pc ==>
          a == CallbackReturns(w, s'.pc.outcome) && s.pc == Delivering(s'.pc.d) && !s.q.stopped)
    && (forall n :: n in s'.answers && s'.answers[n].Delivered? ==>
          || (n in s.answers && s.answers[n] == s'.answers[n])
          || (s.pc.Responding? && s.pc.d.waiting && s.pc.d.sequence == n
              && s'.answers[n] == Delivered(s.pc.outcome)))
  }

  lemma AnyStep(b: Broker, a: Action, w: nat)
    requires w < |b.pool|
    ensures w < |Step(b, a).pool| && FromCallback(b.pool[w], a, w, Step(b, a).pool[w])
  {
    if StepOf(a, w) {
      OwnStep(b.pool[w], a);
      hide SessionStep;
    } else {
      OthersTouchNothing(b, a, w);
      hide Step;
    }
  }

  lemma OriginsStep(actions: seq<Action>, a: Action, w: nat)
    requires w < |Run(actions).pool| && Origins(actions, w)
    requires w < |Run(actions + [a]).pool|
    ensures Run(actions + [a]) == Step(Run(actions), a) && Origins(actions + [a], w)
  {
    hide Step;
    assert (actions + [a])[..|actions|] == actions;
    var b := Run(actions);
    var s, s' := b.pool[w], Step(b, a).pool[w];
    AnyStep(b, a, w);
    if s'.pc.Responding? {
      if s'.pc == s.pc {
        var k: nat :| ReturnedAt(actions, k, w, s.pc.d, s.pc.outcome);
        ReturnedStays(actions, a, k, w, s.pc.d, s.pc.outcome);
      } else {
        assert ReturnedAt(actions + [a], |actions|, w, s'.pc.d, s'.pc.outcome);
      }
    }
    forall n | n in s'.answers && s'.answers[n].Delivered?
      ensures Sourced(actions + [a], w, n, s'.answers[n].outcome)
    {
      if n in s.answers && s.answers[n] == s'.answers[n] {
        SourcedStays(actions, a, w, n, s.answers[n].outcome);
      } else {
        var k: nat :| ReturnedAt(actions, k, w, s.pc.d, s.pc.outcome);
        assert Sourced(actions, w, n, s.pc.outcome);
        SourcedStays(actions, a, w, n, s.pc.outcome);
      }
    }
  }

  lemma {:induction false} OriginsKnown(actions: seq<Action>, w: nat)
    requires w < |Run(actions).pool|
    ensures Origins(actions, w)
  {
    if actions == [] { return; }
    var before, a := actions[..|actions| - 1], actions[|actions| - 1];
    assert actions == before + [a];
    if w < |Run(before).pool| {
      OriginsKnown(before, w);
      OriginsStep(before, a, w);
    } else {
      NewWorkersAreBlank(Run(before), a, w);
    }
  }

  /** A delivered answer is the outcome the callback for exactly that input returned, earlier in the run,
      on a worker nobody had stopped. */
  lemma AnswersComeFromCallbacks(actions: seq<Action>, w: nat, n: nat)
    requires w < |Run(actions).pool| && n in Run(actions).pool[w].answers && Run(actions).pool[w].answers[n].Delivered?
    ensures exists k: nat, d: Delivery ::
              ReturnedAt(actions, k, w, d, Run(actions).pool[w].answers[n].outcome) && d.sequence == n && d.waiting
  {
    OriginsKnown(actions, w);
  }

  /** The answer to d is o, given already or next. */
  ghost predicate Destined(s: Session, d: Delivery, o: Outcome) {
    || (d.sequence in s.answers && s.answers[d.sequence] == Delivered(o))
    || (d.sequence !in s.answers && d.sequence !in s.rejecting && s.pc.Responding? && s.pc.d == d && s.pc.outcome == o)
  }

  /** The places Conserved keeps apart. */
  ghost predicate Apart(s: Session) {
    && s.rejecting !! s.answers.Keys
    && (s.pc.Responding? && s.pc.d.waiting ==> s.pc.d.sequence !in s.rejecting && s.pc.d.sequence !in s.answers)
  }

  lemma SessionsAreApart(b: Broker, w: nat)
    requires BrokerInv(b) && w < |b.pool|
    ensures Apart(b.pool[w])
  {
    assert Conserved(b.pool[w]);
  }

  lemma OwnStepDestined(s: Session, a: Action, d: Delivery, o: Outcome)
    requires Apart(s) && d.waiting && Destined(s, d, o)
    ensures Destined(SessionStep(s, a), d, o)
  {
  }

  lemma OwnStepDoomed(s: Session, a: Action, n: nat)
    requires Apart(s) && Doomed(s, n)
    ensures Doomed(SessionStep(s, a), n)
  {
  }

  lemma DestinedStep(b: Broker, a: Action, w: nat, d: Delivery, o: Outcome)
    requires BrokerInv(b) && w < |b.pool| && d.waiting && Destined(b.pool[w], d, o)
    ensures BrokerInv(Step(b, a)) && w < |Step(b, a).pool| && Destined(Step(b, a).pool[w], d, o)
  {
    SessionsAreApart(b, w);
    StepKeeps(b, a);
    if StepOf(a, w) {
      OwnStepDestined(b.pool[w], a, d, o);
      hide Destined;
      hide SessionStep;
      hide BrokerInv;
      hide Apart;
    } else {
      OthersTouchNothing(b, a, w);
      SessionsAreApart(Step(b, a), w);
      hide BrokerInv;
      hide Step;
    }
  }

  lemma {:induction false} DestinedThroughout(b: Broker, more: seq<Action>, w: nat, d: Delivery, o: Outcome)
    requires BrokerInv(b) && w < |b.pool| && d.waiting && Destined(b.pool[w], d, o)
    ensures BrokerInv(RunFrom(b, more)) && w < |RunFrom(b, more).pool| && Destined(RunFrom(b, more).pool[w], d, o)
    decreases |more|
  {
    hide BrokerInv;
    hide Step;
    hide Destined;
    if more != [] {
      DestinedStep(b, more[0], w, d, o);
      DestinedThroughout(Step(b, more[0]), more[1..], w, d, o);
    }
  }

  /** Once the callback for a waiting input has returned on a worker not stopped by then, whatever happens
      afterwards the caller can only receive that outcome, and has received it when the worker ends. */
  lemma CallbackOutcomeIsTheAnswer(actions: seq<Action>, w: nat, d: Delivery, o: Outcome, more: seq<Action>)
    requires w < |Run(actions).pool| && Run(actions).pool[w].pc == Delivering(d) && !Run(actions).pool[w].q.stopped
    requires d.waiting
    ensures var b := Run(actions + [CallbackReturns(w, o)] + more);
      && w < |b.pool|
      && (d.sequence in b.pool[w].answers ==> b.pool[w].answers[d.sequence] == Delivered(o))
      && (b.pool[w].pc.Gone? ==> d.sequence in b.pool[w].answers)
  {
    var b, a := Run(actions), CallbackReturns(w, o);
    RunKeeps(actions);
    StepKeeps(b, a);
    HeadAlwaysMatches(b.pool[w]);
    assert Conserved(Step(b, a).pool[w]);
    assert Destined(Step(b, a).pool[w], d, o);
    hide BrokerInv;
    assert (actions + [a])[..|actions|] == actions;
    assert Run(actions + [a]) == Step(b, a);
    hide Step;
    RunSplits(actions + [a], more);
    DestinedThroughout(Step(b, a), more, w, d, o);
  }

  /** The answer to input n is an invalidation, given already or owed. */
  ghost predicate Doomed(s: Session, n: nat) {
    n in s.rejecting || (n in s.answers && s.answers[n] == Invalidated)
  }

  lemma DoomedStep(b: Broker, a: Action, w: nat, n: nat)
    requires BrokerInv(b) && w < |b.pool| && Doomed(b.pool[w], n)
    ensures BrokerInv(Step(b, a)) && w < |Step(b, a).pool| && Doomed(Step(b, a).pool[w], n)
  {
    SessionsAreApart(b, w);
    StepKeeps(b, a);
    hide BrokerInv;
    if StepOf(a, w) {
      OwnStepDoomed(b.pool[w], a, n);
      hide Doomed;
      hide SessionStep;
      hide Apart;
    } else {
      OthersTouchNothing(b, a, w);
      hide Step;
    }
  }

  lemma {:induction false} DoomedThroughout(b: Broker, more: seq<Action>, w: nat, n: nat)
    requires BrokerInv(b) && w < |b.pool| && Doomed(b.pool[w], n)
    ensures BrokerInv(RunFrom(b, more)) && w < |RunFrom(b, more).pool| && Doomed(RunFrom(b, more).pool[w], n)
    decreases |more|
  {
    hide BrokerInv;
    hide Step;
    hide Doomed;
    if more != [] {
      DoomedStep(b, more[0], w, n);
      DoomedThroughout(Step(b, more[0]), more[1..], w, n);
    }
  }

  predicate Discards(b: Broker, a: Action, w: nat, d: Delivery) {
    && w < |b.pool| && d in b.pool[w].q.items
    && w < |Step(b, a).pool| && d !in Step(b, a).pool[w].q.items
  }

  /** A waiting input that leaves the queue other than by its callback's return, cut by Cancel, Complete,
      Apply, Close or a failure, can only be answered as invalidated, and has been when the worker ends. */
  lemma DiscardedInputsAreInvalidated(actions: seq<Action>, a: Action, w: nat, d: Delivery, more: seq<Action>)
    requires Discards(Run(actions), a, w, d) && d.waiting && !(a.CallbackReturns? && a.w == w)
    ensures var b := Run(actions + [a] + more);
      && w < |b.pool|
      && (d.sequence in b.pool[w].answers ==> b.pool[w].answers[d.sequence] == Invalidated)
      && (b.pool[w].pc.Gone? ==> d.sequence in b.pool[w].answers)
  {
    var b := Run(actions);
    RunKeeps(actions);
    StepKeeps(b, a);
    assert (actions + [a])[..|actions|] == actions;
    assert Run(actions + [a]) == Step(b, a);
    assert w < |Step(b, a).pool|;
    hide Step;
    hide BrokerInv;
    hide Doomed;
    CutsDoom(b, a, w, d);
    hide Discards;
    RunSplits(actions + [a], more);
    DoomedThroughout(Step(b, a), more, w, d.sequence);
    GoneHasNoRejections(RunFrom(Step(b, a), more), w, d.sequence);
  }

  lemma GoneHasNoRejections(b: Broker, w: nat, n: nat)
    requires BrokerInv(b) && w < |b.pool| && Doomed(b.pool[w], n)
    ensures n in b.pool[w].answers ==> b.pool[w].answers[n] == Invalidated
    ensures b.pool[w].pc.Gone? ==> n in b.pool[w].answers
  {
    SessionsAreApart(b, w);
  }

  lemma QueuedIsConserved(s: Session, s': Session, d: Delivery)
    requires SessionInv(s) && SessionInv(s') && s.accepted <= s'.accepted && s'.answers == s.answers
    requires s'.pc.Responding? ==> s'.pc == s.pc
    requires d in s.q.items && d.waiting && d !in s'.q.items
    ensures Doomed(s', d.sequence)
  {
    assert d in s.accepted;
    assert d.sequence in WaitingSeqs(s.q.items) && d.sequence in WaitingSeqs(s'.accepted);
    hide GoroutineOk;
    assert forall x :: x in s'.q.items ==> x in s'.accepted && d in s'.accepted && x.sequence != d.sequence;
    assert Conserved(s) && Conserved(s');
  }

  lemma OwnStepsKeepQueue(s: Session, a: Action)
    ensures !a.CallbackReturns? ==> SessionStep(s, a).q.items == s.q.items
  {
  }

  lemma CutsDoom(b: Broker, a: Action, w: nat, d: Delivery)
    requires BrokerInv(b) && BrokerInv(Step(b, a)) && Discards(b, a, w, d) && d.waiting
    requires !(a.CallbackReturns? && a.w == w)
    ensures Doomed(Step(b, a).pool[w], d.sequence)
  {
    if StepOf(a, w) { OwnStepsKeepQueue(b.pool[w], a); } else { OthersTouchNothing(b, a, w); }
    StepExtends(b, a);
    assert SessionInv(b.pool[w]) && SessionInv(Step(b, a).pool[w]);
    hide SessionInv;
    hide SessionStep;
    hide LockedStep;
    hide RegionStep;
    hide QueuePublishedStep;
    hide Doomed;
    if !StepOf(a, w) { QueuedIsConserved(b.pool[w], Step(b, a).pool[w], d); }
  }

  /** The goroutine is past its last callback. */
  predicate Spent(s: Session) {
    (s.pc.Responding? && s.pc.outcome.Failed?) || s.pc.Failing? || s.pc.Returning? || s.pc.Gone?
  }

  lemma SpentStep(b: Broker, a: Action, w: nat)
    requires w < |b.pool| && Spent(b.pool[w])
    ensures var b' := Step(b, a); w < |b'.pool| && Spent(b'.pool[w]) && b'.pool[w].started == b.pool[w].started
  {
    if !StepOf(a, w) {
      OthersTouchNothing(b, a, w);
      hide Step;
    }
  }

  lemma {:induction false} SpentThroughout(b: Broker, more: seq<Action>, w: nat)
    requires w < |b.pool| && Spent(b.pool[w])
    ensures var b' := RunFrom(b, more); w < |b'.pool| && Spent(b'.pool[w]) && b'.pool[w].started == b.pool[w].started
    decreases |more|
  {
    hide Step;
    if more != [] {
      SpentStep(b, more[0], w);
      SpentThroughout(Step(b, more[0]), more[1..], w);
    }
  }

  /** A callback that fails is the worker's last: whatever happens afterwards, no other input is started. */
  lemma FailedCallbackIsLast(actions: seq<Action>, w: nat, code: int, more: seq<Action>)
    requires w < |Run(actions).pool| && Run(actions).pool[w].pc.Delivering?
    ensures var b := Run(actions + [CallbackReturns(w, Failed(code))] + more);
      w < |b.pool| && b.pool[w].started == Run(actions).pool[w].started
  {
    var b, a := Run(actions), CallbackReturns(w, Failed(code));
    assert (actions + [a])[..|actions|] == actions;
    assert Run(actions + [a]) == Step(b, a);
    assert Spent(Step(b, a).pool[w]) && Step(b, a).pool[w].started == b.pool[w].started;
    hide Step;
    RunSplits(actions + [a], more);
    SpentThroughout(Step(b, a), more, w);
  }

  // ---------------------------------------------------------------- every queued input can be answered

  function SessionRun(s: Session, actions: seq<Action>): Session
    decreases |actions|
  {
    if actions == [] then s else SessionRun(SessionStep(s, actions[0]), actions[1..])
  }

  predicate AllStepsOf(actions: seq<Action>, w: nat) { forall i :: 0 <= i < |actions| ==> StepOf(actions[i], w) }

  lemma {:induction false} OwnRun(b: Broker, w: nat, actions: seq<Action>)
    requires w < |b.pool| && AllStepsOf(actions, w)
    ensures RunFrom(b, actions) == b.(pool := b.pool[w := SessionRun(b.pool[w], actions)])
    decreases |actions|
  {
    if actions == [] {
      assert b.pool[w := b.pool[w]] == b.pool;
    } else {
      var s' := SessionStep(b.pool[w], actions[0]);
      var b' := Step(b, actions[0]);
      assert b' == b.(pool := b.pool[w := s']);
      OwnRun(b', w, actions[1..]);
      assert b.pool[w := s'][w := SessionRun(s', actions[1..])] == b.pool[w := SessionRun(s', actions[1..])];
      hide SessionStep;
    }
  }

  /** No callback of the worker has failed, and nobody has stopped or completed it. */
  predicate Healthy(s: Session) {
    !s.q.Unavailable() && !s.pc.Failing? && !(s.pc.Responding? && s.pc.outcome.Failed?)
  }

  function Distance(s: Session): nat {
    match s.pc
    case Responding(_, _, _) => 4
    case Waiting => if s.notify then 2 else 3
    case Draining => 1
    case _ => 0
  }

  function NextStep(s: Session, w: nat, o: Outcome): Action {
    match s.pc
    case Responding(_, _, _) => SendAnswer(w)
    case Waiting => if s.notify then TakeNotify(w) else Wake(w)
    case Draining => BeginCallback(w)
    case _ => CallbackReturns(w, o)
  }

  /** A healthy worker with work comes nearer to its next callback. */
  lemma HealthyProgress(s: Session, w: nat, o: Outcome)
    requires SessionInv(s) && Healthy(s) && s.q.items != [] && !s.pc.Delivering?
    ensures var s' := SessionStep(s, NextStep(s, w, o));
      SessionInv(s') && Healthy(s') && s'.q.items == s.q.items && Distance(s') < Distance(s)
  {
    SessionStepKeeps(s, NextStep(s, w, o));
    assert s.pc.Responding? && s.pc.d.waiting ==> CanSend(s, s.pc.d.sequence) by { assert Conserved(s); }
    hide Conserved;
    hide InOrder;
  }

  lemma DeliveringProgress(s: Session, w: nat, o: Outcome)
    requires SessionInv(s) && Healthy(s) && s.pc.Delivering?
    ensures s.q.items != [] && s.q.items[0] == s.pc.d && s.pc.d in s.started
    ensures var s' := SessionStep(s, CallbackReturns(w, o));
      && SessionInv(s') && s'.pc == Responding(s.q.items[0], o, o.Failed?)
      && s'.q.items == s.q.items[1..] && !s'.q.Unavailable() && s'.started == s.started
  {
    HeadAlwaysMatches(s);
    SessionStepKeeps(s, CallbackReturns(w, o));
    assert s.started[|s.started| - 1] in s.started;
  }

  lemma {:induction false} SessionCanAnswer(s: Session, w: nat, i: nat, o: Outcome) returns (more: seq<Action>)
    requires SessionInv(s) && Healthy(s) && i < |s.q.items|
    ensures AllStepsOf(more, w)
    ensures var s', d := SessionRun(s, more), s.q.items[i];
      d in s'.started && (d.waiting ==> d.sequence in s'.answers && s'.answers[d.sequence] == Delivered(o))
    decreases i, Distance(s)
  {
    hide SessionInv;
    if !s.pc.Delivering? {
      HealthyProgress(s, w, o);
      hide SessionStep;
      more := SessionCanAnswer(SessionStep(s, NextStep(s, w, o)), w, i, o);
      more := [NextStep(s, w, o)] + more;
    } else if i > 0 {
      DeliveringProgress(s, w, Succeeded(0));
      hide SessionStep;
      more := SessionCanAnswer(SessionStep(s, CallbackReturns(w, Succeeded(0))), w, i - 1, o);
      more := [CallbackReturns(w, Succeeded(0))] + more;
    } else {
      DeliveringProgress(s, w, o);
      more := [CallbackReturns(w, o), SendAnswer(w)];
      var s1 := SessionStep(s, more[0]);
      AnsweredKeeps(s1);
      hide SessionStep;
      assert more[1..] == [SendAnswer(w)] && more[1..][1..] == [];
      assert SessionRun(s1, more[1..]) == SessionRun(SessionStep(s1, SendAnswer(w)), []);
    }
  }

  /** In every reachable state, any input queued on a healthy worker can still be delivered and, if its caller
      waits, be answered with whatever its callback returns; the worker's own steps are enough. */
  lemma QueuedInputsCanBeAnswered(actions: seq<Action>, w: nat, i: nat, o: Outcome) returns (more: seq<Action>)
    requires w < |Run(actions).pool| && Healthy(Run(actions).pool[w]) && i < |Run(actions).pool[w].q.items|
    ensures AllStepsOf(more, w)
    ensures var b, d := Run(actions + more), Run(actions).pool[w].q.items[i];
      && w < |b.pool| && d in b.pool[w].started
      && (d.waiting ==> d.sequence in b.pool[w].answers && b.pool[w].answers[d.sequence] == Delivered(o))
  {
    RunKeeps(actions);
    more := SessionCanAnswer(Run(actions).pool[w], w, i, o);
    OwnRun(Run(actions), w, more);
    RunSplits(actions, more);
  }

  // ---------------------------------------------------------------- what is accepted

  /** A goroutine can take the broker lock. */
  predicate Available(b: Broker) { b.lock.Free? && !Rejecting(b) }

  predicate Live(b: Broker, key: SessionKey, w: nat) {
    w < |b.pool| && b.pool[w].key == key && !b.pool[w].pc.Gone?
  }

  predicate Keeps(targets: map<string, string>, key: SessionKey) {
    key.instanceId in targets && targets[key.instanceId] == key.pluginId
  }

  predicate Routes(targets: map<string, string>, key: SessionKey) { Keeps(targets, key) && key.pluginId != "" }

  /** The session an input is for, given the routing. */
  function KeyOf(b: Broker, a: Action): SessionKey
    requires a.Publish?
  {
    SessionKey(if a.instanceId in b.targets then b.targets[a.instanceId] else "", a.instanceId, a.generation, a.token)
  }

  lemma LiveIsTabled(b: Broker, key: SessionKey, w: nat)
    requires BrokerInv(b)
    ensures Live(b, key, w) <==> key in b.workers && b.workers[key] == w
  {
  }

  /** Publishing is refused, without effect, exactly on a closed broker, an unrouted instance, an invalidated
      session, a session being stopped or completed, or an invalid request. Otherwise the input gets the next
      sequence number and goes to its session's live worker, a new one exactly if there is none. */
  lemma PublishEffect(actions: seq<Action>, a: Action)
    requires a.Publish? && Available(Run(actions))
    ensures var b, b' := Run(actions), Step(Run(actions), a);
      var key := KeyOf(b, a);
      && (b' != b <==>
            (!b.closed && Routes(b.targets, key) && key !in b.invalid && a.valid
             && forall w: nat :: Live(b, key, w) ==> !b.pool[w].q.Unavailable()))
      && (b' != b ==>
            && b'.next == b.next + 1 && b'.next in b'.publishing && b'.publishing[b'.next].1 == a.waiting
            && Live(b', key, b'.publishing[b'.next].0)
            && b' == b.(next := b'.next, pool := b'.pool, workers := b'.workers,
                        publishing := b.publishing[b'.next := b'.publishing[b'.next]])
            && ((exists w: nat :: Live(b, key, w)) ==> b'.pool == b.pool)
            && ((forall w: nat :: !Live(b, key, w)) ==> b'.pool == b.pool + [NewSession(key)]))
  {
    var b, key := Run(actions), KeyOf(Run(actions), a);
    RunKeeps(actions);
    hide SessionInv;
    hide Rejecting;
    if key in b.workers {
      LiveIsTabled(b, key, b.workers[key]);
      forall w: nat ensures Live(b, key, w) ==> w == b.workers[key] { LiveIsTabled(b, key, w); }
    } else {
      forall w: nat ensures !Live(b, key, w) { LiveIsTabled(b, key, w); }
    }
    hide TableOk;
    hide ShutdownOk;
    hide FreshOk;
  }

  /** A published input joins its worker's queue, waking it, if the worker is available and has fewer than 64
      inputs; a full queue leaves a failure to report; nothing else changes. */
  lemma QueueEffect(actions: seq<Action>, n: nat)
    requires n in Run(actions).publishing
    ensures var b, b' := Run(actions), Step(Run(actions), QueuePublished(n));
      var w := b.publishing[n].0;
      && w < |b.pool| && |b'.pool| == |b.pool|
      && (forall v :: 0 <= v < |b.pool| && v != w ==> b'.pool[v] == b.pool[v])
      && b' == b.(pool := b'.pool, publishing := b'.publishing, overruns := b'.overruns)
      && b'.publishing.Keys == b.publishing.Keys - {n}
      && (forall m :: m in b'.publishing ==> b'.publishing[m] == b.publishing[m])
      && var s, s', d := b.pool[w], b'.pool[w], Delivery(n, b.publishing[n].1);
         if s.q.Unavailable() then s' == s && b'.overruns == b.overruns
         else if |s.q.items| == 64 then s' == s && b'.overruns == b.overruns[n := w]
         else
           && s'.q.items == s.q.items + [d] && s'.accepted == s.accepted + [d] && s'.wakes == s.wakes + 1
           && s' == s.(q := s.q.(items := s'.q.items), accepted := s'.accepted, wakes := s'.wakes)
           && b'.overruns == b.overruns
  {
    RunKeeps(actions);
    var w := Run(actions).publishing[n].0;
    assert SessionInv(Run(actions).pool[w]);
    hide InOrder;
    hide GoroutineOk;
    hide Conserved;
  }

  // ---------------------------------------------------------------- what departures and failures do

  /** The queue is cut whole: nothing is left, and every waiting caller in it is owed a rejection. */
  ghost predicate CutWhole(s: Session, s': Session) {
    s' == s.(q := s.q.(stopped := true, items := []), rejecting := s.rejecting + WaitingSeqs(s.q.items))
  }

  /** The input in flight stays, everything behind it is cut. */
  ghost predicate CutBehind(s: Session, s': Session) {
    && s.q.items != []
    && s' == s.(q := s.q.(completing := true, items := [s.q.items[0]]),
                rejecting := s.rejecting + WaitingSeqs(s.q.items[1..]))
  }

  ghost predicate OnlyChanges(b: Broker, b': Broker, w: nat) {
    && |b'.pool| == |b.pool| && (forall v :: 0 <= v < |b.pool| && v != w ==> b'.pool[v] == b.pool[v])
    && b' == b.(pool := b'.pool, invalid := b'.invalid, overruns := b'.overruns)
  }

  /** Cancel stops the live worker of exactly that session and lets the session start again. */
  lemma CancelEffect(actions: seq<Action>, key: SessionKey, w: nat)
    requires Available(Run(actions))
    ensures var b, b' := Run(actions), Step(Run(actions), CancelSession(key));
      && b'.invalid == b.invalid - {key} && b'.overruns == b.overruns
      && (Live(b, key, w) ==> OnlyChanges(b, b', w) && CutWhole(b.pool[w], b'.pool[w]))
      && ((forall v: nat :: !Live(b, key, v)) ==> b' == b.(invalid := b'.invalid))
  {
    var b := Run(actions);
    RunKeeps(actions);
    LockIsTaken(b, CancelSession(key));
    TabledLive(b, key);
    StopCuts(b, w);
    hide Stopped;
    hide BrokerInv;
    hide Live;
    hide CutWhole;
    hide CutBehind;
    hide Available;
    hide Step;
  }

  lemma LockIsTaken(b: Broker, a: Action)
    requires Available(b) && !IsSessionStep(a) && !a.QueuePublished?
    ensures Step(b, a) == LockedStep(b, a)
  {
  }

  /** What the table says of one session. */
  ghost predicate Tabled(b: Broker, key: SessionKey) {
    && (forall v: nat :: Live(b, key, v) <==> key in b.workers && b.workers[key] == v)
    && (key in b.workers ==> b.workers[key] < |b.pool| && Live(b, key, b.workers[key]))
  }

  lemma TabledLive(b: Broker, key: SessionKey)
    requires BrokerInv(b)
    ensures Tabled(b, key)
  {
    forall v: nat ensures Live(b, key, v) <==> key in b.workers && b.workers[key] == v { LiveIsTabled(b, key, v); }
  }

  lemma StopCuts(b: Broker, w: nat)
    requires BrokerInv(b)
    ensures w < |b.pool| ==> CutWhole(b.pool[w], Stopped(b.pool[w]))
  {
    if w < |b.pool| && b.pool[w].q.stopped {
      assert SessionInv(b.pool[w]);
      assert WaitingSeqs([]) == {};
    }
  }

  lemma CompleteLocked(b: Broker, key: SessionKey, w: nat)
    requires Tabled(b, key)
    ensures var b' := LockedStep(b, CompleteSession(key));
      && b'.invalid == b.invalid - {key} && b'.overruns == b.overruns
      && (Live(b, key, w) ==> OnlyChanges(b, b', w) && b'.pool[w] == Completed(b.pool[w]))
      && ((forall v: nat :: !Live(b, key, v)) ==> b' == b.(invalid := b'.invalid))
  {
    hide Completed;
    hide Live;
    hide Stopped;
    hide Fail;
    hide PublishStep;
  }

  /** Complete lets a callback under way finish and cuts the rest; a session with none is stopped at once. */
  lemma CompleteEffect(actions: seq<Action>, key: SessionKey, w: nat)
    requires Available(Run(actions))
    ensures var b, b' := Run(actions), Step(Run(actions), CompleteSession(key));
      && b'.invalid == b.invalid - {key} && b'.overruns == b.overruns
      && (Live(b, key, w) ==>
            && OnlyChanges(b, b', w)
            && var s, s' := b.pool[w], b'.pool[w];
               if s.q.Unavailable() then s' == s
               else if s.pc.Delivering? then CutBehind(s, s')
               else s'.q.completing && CutWhole(s.(q := s.q.(completing := true)), s'))
      && ((forall v: nat :: !Live(b, key, v)) ==> b' == b.(invalid := b'.invalid))
  {
    var b := Run(actions);
    RunKeeps(actions);
    LockIsTaken(b, CompleteSession(key));
    TabledLive(b, key);
    CompleteLocked(b, key, w);
    CompleteCuts(b, w);
    hide LockedStep;
    hide Tabled;
    hide OnlyChanges;
    hide Completed;
    hide BrokerInv;
    hide CutWhole;
    hide CutBehind;
    hide Available;
    hide Step;
  }

  lemma CompleteCuts(b: Broker, w: nat)
    requires BrokerInv(b)
    ensures w < |b.pool| ==>
      var s, s' := b.pool[w], Completed(b.pool[w]);
      if s.q.Unavailable() then s' == s
      else if s.pc.Delivering? then CutBehind(s, s')
      else CutWhole(s.(q := s.q.(completing := true)), s')
  {
    if w < |b.pool| {
      var s := b.pool[w];
      assert SessionInv(s);
      if s.pc.Delivering? && !s.q.Unavailable() { assert s.q.items[..1] == [s.q.items[0]]; }
    }
  }

  lemma FailCuts(b: Broker, w: nat)
    requires BrokerInv(b) && w < |b.pool|
    ensures var s, f := b.pool[w], Fail(b, w);
      if s.q.Unavailable() || s.pc.Gone? then f == b
      else
        && f.invalid == b.invalid + {s.key} && OnlyChanges(b, f, w) && f.overruns == b.overruns
        && CutWhole(s, f.pool[w])
  {
    LiveIsTabled(b, b.pool[w].key, w);
    StopCuts(b, w);
    hide Stopped;
    hide BrokerInv;
    hide CutWhole;
  }

  /** A failed callback, or an overrun, stops its worker and invalidates the session, unless the worker has
      been stopped or completed, or has ended, in the meantime. */
  lemma FailureEffect(actions: seq<Action>, a: Action, w: nat)
    requires Available(Run(actions))
    requires var b := Run(actions);
      || (a == ReportFailure(w) && w < |b.pool| && b.pool[w].pc.Failing?)
      || (a.ReportOverrun? && a.sequence in b.overruns && b.overruns[a.sequence] == w)
    ensures var b, b' := Run(actions), Step(Run(actions), a);
      && w < |b.pool| && OnlyChanges(b, b', w)
      && b'.overruns.Keys == b.overruns.Keys - (if a.ReportOverrun? then {a.sequence} else {})
      && var s, pc := b.pool[w], if a.ReportFailure? then Returning else b.pool[w].pc;
         if s.q.Unavailable() || s.pc.Gone? then b'.invalid == b.invalid && b'.pool[w] == s.(pc := pc)
         else b'.invalid == b.invalid + {s.key} && CutWhole(s.(pc := pc), b'.pool[w])
  {
    var b := Run(actions);
    RunKeeps(actions);
    LockIsTaken(b, a);
    assert w < |b.pool|;
    FailCuts(b, w);
    hide Fail;
    hide BrokerInv;
    hide Available;
    hide Step;
  }

  // ---------------------------------------------------------------- Apply and Close

  /** Workers that run are routed; while a table is being applied, those it drops are waiting to be stopped,
      and only those. */
  ghost predicate RoutingOk(b: Broker) {
    && (forall w :: 0 <= w < |b.pool| && !b.pool[w].q.stopped ==>
          && Routes(b.targets, b.pool[w].key)
          && (b.lock.Applying? && !Keeps(b.lock.next, b.pool[w].key) ==> b.pool[w].key in b.lock.todo))
    && (b.lock.Applying? ==> forall k :: k in b.lock.todo ==> !Keeps(b.lock.next, k))
  }

  /** Only the broker lock's holder changes routing, and only one holder at a time. */
  lemma RoutingFrame(b: Broker, a: Action)
    requires IsSessionStep(a) || a.QueuePublished? || Rejecting(b)
      || (b.lock.Free? && !a.BeginApply? && !a.BeginClose?)
    ensures Step(b, a).lock == b.lock && Step(b, a).targets == b.targets && Step(b, a).closed == b.closed
  {
    hide Rejecting;
    hide SessionStep;
    if !(IsSessionStep(a) || a.QueuePublished? || Rejecting(b)) {
      LockedFrame(b, a);
      hide LockedStep;
    }
  }

  lemma LockedFrame(b: Broker, a: Action)
    requires b.lock.Free? && !a.BeginApply? && !a.BeginClose?
    ensures var b' := LockedStep(b, a); b'.lock == b.lock && b'.targets == b.targets && b'.closed == b.closed
  {
    FailFrame(b);
    hide Stopped;
    hide Completed;
    hide Fail;
  }

  lemma FailFrame(b: Broker)
    ensures forall w: nat :: w < |b.pool| ==>
      var f := Fail(b, w);
      |f.pool| == |b.pool| && f.lock == b.lock && f.targets == b.targets && f.closed == b.closed
  {
    hide Stopped;
  }

  lemma RunningAreTabled(b: Broker)
    requires BrokerInv(b)
    ensures forall w :: 0 <= w < |b.pool| && !b.pool[w].q.stopped ==> b.pool[w].key in b.workers
    ensures forall w, v: nat :: 0 <= w < |b.pool| && !b.pool[w].q.stopped && Live(b, b.pool[w].key, v) ==> v == w
  {
    forall w: nat, v: nat | w < |b.pool| && !b.pool[w].q.stopped && Live(b, b.pool[w].key, v) ensures v == w {
      assert SessionInv(b.pool[w]);
      LiveIsTabled(b, b.pool[w].key, w);
      LiveIsTabled(b, b.pool[w].key, v);
    }
    assert forall w :: 0 <= w < |b.pool| ==> SessionInv(b.pool[w]);
    hide InOrder;
    hide Conserved;
  }

  lemma RoutingStep(b: Broker, a: Action)
    requires BrokerInv(b) && RoutingOk(b)
    ensures RoutingOk(Step(b, a))
  {
    var b' := Step(b, a);
    StepExtends(b, a);
    RunningAreTabled(b);
    hide BrokerInv;
    if IsSessionStep(a) || a.QueuePublished? || Rejecting(b)
      || (b.lock.Free? && !a.BeginApply? && !a.BeginClose?) {
      RoutingFrame(b, a);
      forall w | |b.pool| <= w < |b'.pool| ensures Routes(b'.targets, b'.pool[w].key) && b.lock.Free? {
        NewWorkersAreRouted(b, a, w);
      }
      hide Step;
    } else if b.lock.Free? {
      assert b'.pool == b.pool && b'.targets == b.targets;
    } else {
      RegionRouting(b, a);
    }
  }

  lemma NewWorkersAreRouted(b: Broker, a: Action, w: nat)
    requires |b.pool| <= w < |Step(b, a).pool|
    ensures b.lock.Free? && Routes(b.targets, Step(b, a).pool[w].key)
  {
    NewWorkersAreBlank(b, a, w);
    hide Rejecting;
  }

  lemma RegionRouting(b: Broker, a: Action)
    requires !b.lock.Free? && !Rejecting(b) && RoutingOk(b) && !IsSessionStep(a) && !a.QueuePublished?
    requires forall w :: 0 <= w < |b.pool| && !b.pool[w].q.stopped ==>
      b.pool[w].key in b.workers && b.workers[b.pool[w].key] == w
    ensures RoutingOk(Step(b, a))
  {
    hide Rejecting;
    hide Stopped;
    if a.StopNext? {
      StopNextRouting(b, a.key);
      hide RegionStep;
    }
  }

  lemma StopNextRouting(b: Broker, key: SessionKey)
    requires !b.lock.Free? && RoutingOk(b)
    requires forall w :: 0 <= w < |b.pool| && !b.pool[w].q.stopped ==>
      b.pool[w].key in b.workers && b.workers[b.pool[w].key] == w
    ensures RoutingOk(RegionStep(b, StopNext(key)))
  {
    assert forall s: Session :: Stopped(s).q.stopped && Stopped(s).key == s.key;
    hide Stopped;
  }

  lemma {:induction false} RunRouting(actions: seq<Action>)
    ensures BrokerInv(Run(actions)) && RoutingOk(Run(actions))
  {
    if actions != [] {
      var before := actions[..|actions| - 1];
      RunRouting(before);
      StepKeeps(Run(before), actions[|actions| - 1]);
      RoutingStep(Run(before), actions[|actions| - 1]);
      hide BrokerInv;
      hide RoutingOk;
    }
  }

  /** At every moment of every run, a worker that has not been stopped serves the current routing table;
      Apply holds the lock until it has stopped every worker its table drops, and stops no other. */
  lemma RunningWorkersAreRouted(actions: seq<Action>, w: nat)
    requires w < |Run(actions).pool| && !Run(actions).pool[w].q.stopped
    ensures var b := Run(actions);
      && Routes(b.targets, b.pool[w].key)
      && (b.lock.Applying? ==> (b.pool[w].key in b.lock.todo <==> !Keeps(b.lock.next, b.pool[w].key)))
  {
    RunRouting(actions);
  }

  /** What holding the lock for Apply or Close starts with, does to each worker and ends with. */
  lemma RegionEffect(actions: seq<Action>, a: Action)
    requires !Rejecting(Run(actions))
    ensures var b, b' := Run(actions), Step(Run(actions), a);
      && (a.BeginApply? && b.lock.Free? ==>
            && b' == b.(lock := b'.lock) && (b.closed ==> b' == b)
            && (!b.closed ==>
                  && b'.lock.Applying? && b'.lock.next == a.next
                  && forall k :: k in b'.lock.todo <==> !Keeps(a.next, k) && exists w: nat :: Live(b, k, w)))
      && (a.BeginClose? && b.lock.Free? ==>
            && b' == b.(closed := true, lock := b'.lock) && (b.closed ==> b' == b)
            && (!b.closed ==>
                  b'.lock.Closing? && forall k :: k in b'.lock.todo <==> exists w: nat :: Live(b, k, w)))
      && (a.EndRegion? && !b.lock.Free? && b.lock.todo == {} ==>
            && b' == b.(lock := Free, targets := b'.targets, invalid := b'.invalid)
            && b'.targets == (if b.lock.Applying? then b.lock.next else b.targets)
            && forall k :: k in b'.invalid <==> k in b.invalid && b.lock.Applying? && Keeps(b.lock.next, k))
  {
    var b := Run(actions);
    RunKeeps(actions);
    forall k ensures k in b.workers <==> exists w: nat :: Live(b, k, w) {
      TabledLive(b, k);
    }
    hide BrokerInv;
    hide Rejecting;
    hide Live;
  }

  /** Each step of Apply or Close stops the live worker of one session of its list, cutting its whole queue. */
  lemma StopNextEffect(actions: seq<Action>, key: SessionKey, w: nat)
    requires !Rejecting(Run(actions)) && !Run(actions).lock.Free? && key in Run(actions).lock.todo
    ensures var b, b' := Run(actions), Step(Run(actions), StopNext(key));
      && b' == b.(pool := b'.pool, lock := b'.lock, invalid := b'.invalid)
      && b'.lock == b.lock.(todo := b.lock.todo - {key})
      && b'.invalid == (if b.lock.Applying? then b.invalid - {key} else b.invalid)
      && |b'.pool| == |b.pool|
      && (forall v: nat :: v < |b.pool| && !Live(b, key, v) ==> b'.pool[v] == b.pool[v])
      && (Live(b, key, w) ==> CutWhole(b.pool[w], b'.pool[w]))
  {
    var b := Run(actions);
    RunKeeps(actions);
    TabledLive(b, key);
    StopCuts(b, w);
    hide Stopped;
    hide BrokerInv;
    hide Live;
    hide Rejecting;
  }
}
