/** The serialized device output actor (internal/device/output.go).

    Callers are admitted, put one command each on a bounded queue and wait for its result; one worker
    takes commands in order; Close stops admission and, once every admitted caller has finished
    sending, a coordinator queues the single stop command. Contexts may end at any time. */
module DeviceOutput {

  // ---------------------------------------------------------------- admission counting

  /** The fields guarded by the lifecycle lock; `closes` counts closings of admissionsDone. */
  datatype Lifecycle = Lifecycle(closing: bool, admissions: int, admissionsClosed: bool, closes: nat)

  const OPEN := Lifecycle(false, 0, false, 0)

  function BeginAdmission(l: Lifecycle): (Lifecycle, bool) {
    if l.closing then (l, false) else (l.(admissions := l.admissions + 1), true)
  }

  function CloseIfDrained(l: Lifecycle): Lifecycle {
    if l.closing && l.admissions == 0 && !l.admissionsClosed then l.(admissionsClosed := true, closes := l.closes + 1)
      else l
  }

  function FinishAdmission(l: Lifecycle): Lifecycle { CloseIfDrained(l.(admissions := l.admissions - 1)) }

  /** The new state, and whether this call starts the coordinator. */
  function BeginClose(l: Lifecycle): (Lifecycle, bool) {
    if l.closing then (l, false) else (CloseIfDrained(l.(closing := true)), true)
  }

  // ---------------------------------------------------------------- the machine

  datatype Item = Command(caller: nat) | Stop

  datatype Result = Expired | Ran(n: int, failed: bool)

  datatype Worker = Free | Performing(caller: nat) | Exited

  datatype Coordinator = NotStarted | AwaitingAdmissions | StopSent

  datatype Outcome = Answered(result: Result) | RefusedClosed | ContextEnded

  /** Callers are named by numbers and each makes one call. `slots` are the one-place result channels;
      `sent`, `taken`, `answers` and `performed` are histories. */
  datatype System = System(
    capacity: nat,
    life: Lifecycle, coordinator: Coordinator, worker: Worker, queue: seq<Item>,
    admitted: set<nat>, leaving: set<nat>, queued: set<nat>, waiting: set<nat>, returned: map<nat, Outcome>,
    slots: map<nat, Result>,
    sent: seq<Item>, taken: seq<Item>, answers: seq<(nat, Result)>, performed: seq<nat>)

  function Init(capacity: nat): System {
    System(capacity, OPEN, NotStarted, Free, [], {}, {}, {}, {}, map[], map[], [], [], [], [])
  }

  datatype Action =
    | Call(caller: nat)
    | Send(caller: nat)
    | SeeShutdown(caller: nat)
    | EndBeforeSend(caller: nat)
    | FinishSending(caller: nat)
    | Receive(caller: nat)
    | GiveUp(caller: nat)
    | Take(expired: bool)
    | Complete(n: int, failed: bool)
    | CloseOutput
    | SendStop

  predicate Fresh(s: System, caller: nat) {
    caller !in s.admitted && caller !in s.leaving && caller !in s.queued && caller !in s.waiting
      && caller !in s.returned
  }

  /** Sends on the one-place channel; blocks, so does nothing, while it is full. */
  function Answer(s: System, caller: nat, result: Result): System {
    if caller in s.slots then s
    else s.(worker := Free, slots := s.slots[caller := result], answers := s.answers + [(caller, result)])
  }

  function TakeStep(s: System, expired: bool): System {
    if s.worker != Free || s.queue == [] then s else
    var item := s.queue[0];
    var t := s.(queue := s.queue[1..], taken := s.taken + [item]);
    if item.Stop? then t.(worker := Exited)
    else if expired then Answer(t.(worker := Performing(item.caller)), item.caller, Expired)
    else t.(worker := Performing(item.caller), performed := s.performed + [item.caller])
  }

  function Step(s: System, a: Action): System {
    match a
    case Call(caller) =>
      if !Fresh(s, caller) then s else
      var (life, ok) := BeginAdmission(s.life);
      if ok then s.(life := life, admitted := s.admitted + {caller})
      else s.(returned := s.returned[caller := RefusedClosed])
    case Send(caller) =>
      if caller !in s.admitted || |s.queue| >= s.capacity then s
      else s.(admitted := s.admitted - {caller}, queued := s.queued + {caller},
              queue := s.queue + [Command(caller)], sent := s.sent + [Command(caller)])
    case SeeShutdown(caller) =>
      if caller !in s.admitted || !s.life.closing then s
      else s.(admitted := s.admitted - {caller}, leaving := s.leaving
        + {caller}, returned := s.returned[caller := RefusedClosed])
    case EndBeforeSend(caller) =>
      if caller !in s.admitted then s
      else s.(admitted := s.admitted - {caller}, leaving := s.leaving
        + {caller}, returned := s.returned[caller := ContextEnded])
    case FinishSending(caller) =>
      if caller in s.queued then s.(life := FinishAdmission(s.life), queued := s.queued - {caller},
        waiting := s.waiting + {caller})
      else if caller in s.leaving then s.(life := FinishAdmission(s.life), leaving := s.leaving - {caller})
      else s
    case Receive(caller) =>
      if caller in s.waiting && caller in s.slots
      then s.(waiting := s.waiting - {caller}, slots := s.slots - {caller},
        returned := s.returned[caller := Answered(s.slots[caller])])
      else s
    case GiveUp(caller) =>
      if caller in s.waiting then s.(waiting := s.waiting - {caller}, returned := s.returned[caller := ContextEnded])
        else s
    case Take(expired) => TakeStep(s, expired)
    case Complete(n, failed) => if s.worker.Performing? then Answer(s, s.worker.caller, Ran(n, failed)) else s
    case CloseOutput =>
      var (life, starts) := BeginClose(s.life);
      s.(life := life, coordinator := if starts then AwaitingAdmissions else s.coordinator)
    case SendStop =>
      if s.coordinator == AwaitingAdmissions && s.life.admissionsClosed && |s.queue| < s.capacity
      then s.(coordinator := StopSent, queue := s.queue + [Stop], sent := s.sent + [Stop])
      else s
  }

  function RunFrom(s: System, actions: seq<Action>): System {
    if actions == [] then s else Step(RunFrom(s, actions[..|actions| - 1]), actions[|actions| - 1])
  }

  function Run(capacity: nat, actions: seq<Action>): System { RunFrom(Init(capacity), actions) }

  // ---------------------------------------------------------------- invariant

  ghost predicate Counted(s: System) { s.life.admissions == |s.admitted| + |s.leaving| + |s.queued| }

  ghost predicate LifeOk(s: System) {
    && Counted(s)
    && s.life.closes == (if s.life.admissionsClosed then 1 else 0)
    && s.life.admissionsClosed == (s.life.closing && s.life.admissions == 0)
    && s.life.closing == !s.coordinator.NotStarted?
    && (s.coordinator.StopSent? ==> s.life.admissionsClosed)
  }

  ghost predicate CallersOk(s: System) {
    && s.admitted !! s.leaving !! s.queued !! s.waiting
    && (forall c :: c in s.returned ==> c !in s.admitted && c !in s.queued && c !in s.waiting)
    && (forall c :: c in s.leaving ==> c in s.returned)
    && (forall c :: c in s.admitted || c in s.leaving ==> Command(c) !in s.sent)
    && (forall c :: Command(c) in s.sent ==> c in s.queued || c in s.waiting || c in s.returned)
    && (forall c :: c in s.queued || c in s.waiting ==> Command(c) in s.sent)
    && (forall c :: c in s.returned && s.returned[c].RefusedClosed? ==> Command(c) !in s.sent)
  }

  ghost predicate StopIsAtEnd(s: System) {
    && (s.coordinator.StopSent? <==> Stop in s.sent)
    && (forall k :: 0 <= k < |s.sent| && s.sent[k].Stop? ==> k == |s.sent| - 1)
    && (forall i, j :: 0 <= i < j < |s.sent| ==> s.sent[i] != s.sent[j])
  }

  /** The commands answered so far, as they were queued. */
  function AnsweredItems(answers: seq<(nat, Result)>): seq<Item> {
    seq(|answers|, k requires 0 <= k < |answers| => Command(answers[k].0))
  }

  function InHand(w: Worker): seq<Item> {
    match w case Free => [] case Performing(c) => [Command(c)] case Exited => [Stop]
  }

  ghost predicate WorkerOk(s: System) {
    && s.sent == s.taken + s.queue
    && s.taken == AnsweredItems(s.answers) + InHand(s.worker)
  }

  ghost predicate SlotsOk(s: System) {
    && (forall c :: c in s.slots ==> exists k :: 0 <= k < |s.answers| && s.answers[k] == (c, s.slots[c]))
    && (forall c :: c in s.returned && s.returned[c].Answered? ==>
         exists k :: 0 <= k < |s.answers| && s.answers[k] == (c, s.returned[c].result))
  }

  /** The callers whose commands reached the device, in answer order. */
  function RanCallers(answers: seq<(nat, Result)>): seq<nat> {
    if answers == [] then [] else
    var last := answers[|answers| - 1];
    RanCallers(answers[..|answers| - 1]) + if last.1.Ran? then [last.0] else []
  }

  /** The device sees exactly the commands that ran, in queue order, and the one in hand. */
  ghost predicate PerformedOk(s: System) {
    s.performed == RanCallers(s.answers) + if s.worker.Performing? then [s.worker.caller] else []
  }

  ghost predicate QueueOk(s: System) { StopIsAtEnd(s) && WorkerOk(s) && SlotsOk(s) }

  ghost predicate SystemInv(s: System) { LifeOk(s) && CallersOk(s) && QueueOk(s) }

  /** The worker's steps touch neither callers nor the lifecycle. */
  lemma WorkerFrame(s: System, a: Action)
    requires a.Take? || a.Complete?
    ensures var t := Step(s, a);
      && t.life == s.life && t.coordinator == s.coordinator && t.sent == s.sent && t.capacity == s.capacity
      && t.admitted == s.admitted && t.leaving == s.leaving && t.queued == s.queued && t.waiting == s.waiting
           && t.returned == s.returned
  {
  }

  lemma CallerCounts(s: System, a: Action)
    requires Counted(s) && CallersOk(s)
    requires a.Send? || a.SeeShutdown? || a.EndBeforeSend?
    ensures Counted(Step(s, a))
  {
    assert s.admitted !! s.leaving !! s.queued;
    hide CallersOk;
    if a.caller in s.admitted { assert |s.admitted - {a.caller}| == |s.admitted| - 1; }
  }

  lemma FinishCounts(s: System, c: nat)
    requires Counted(s)
    ensures Counted(Step(s, FinishSending(c)))
  {
    if c in s.queued { assert |s.queued - {c}| == |s.queued| - 1; }
    else if c in s.leaving { assert |s.leaving - {c}| == |s.leaving| - 1; }
  }

  lemma CallCounts(s: System, c: nat)
    requires Counted(s)
    ensures Counted(Step(s, Call(c)))
  {
    if Fresh(s, c) { assert |s.admitted + {c}| == |s.admitted| + 1; }
  }

  lemma OutsideFrame(s: System, a: Action)
    requires a.Receive? || a.GiveUp? || a.CloseOutput? || a.SendStop?
    ensures var t := Step(s, a);
      t.life.admissions == s.life.admissions && t.admitted == s.admitted && t.leaving == s.leaving
        && t.queued == s.queued
  {
  }

  lemma CountsKeep(s: System, a: Action)
    requires Counted(s) && CallersOk(s)
    ensures Counted(Step(s, a))
  {
    hide Step;
    hide CallersOk;
    if a.Call? {
      CallCounts(s, a.caller);
    } else if a.Send? || a.SeeShutdown? || a.EndBeforeSend? {
      CallerCounts(s, a);
    } else if a.FinishSending? {
      FinishCounts(s, a.caller);
    } else if a.Take? || a.Complete? {
      WorkerFrame(s, a);
    } else {
      OutsideFrame(s, a);
    }
  }

  lemma SomeAdmitted(s: System, c: nat)
    requires Counted(s) && (c in s.queued || c in s.leaving || c in s.admitted)
    ensures s.life.admissions > 0
  {
  }

  lemma LifeKeeps(s: System, a: Action)
    requires LifeOk(s) && CallersOk(s)
    ensures LifeOk(Step(s, a))
  {
    hide Counted;
    CountsKeep(s, a);
    if a.FinishSending? && (a.caller in s.queued || a.caller in s.leaving) { SomeAdmitted(s, a.caller); }
    hide CallersOk;
    if a.Take? || a.Complete? { WorkerFrame(s, a); hide Step; }
  }

  lemma CallersKeep(s: System, a: Action)
    requires CallersOk(s)
    ensures CallersOk(Step(s, a))
  {
    if a.Take? || a.Complete? {
      WorkerFrame(s, a);
      hide Step;
    } else {
      match a
      case Call(c) =>
      case Send(c) =>
      case SeeShutdown(c) =>
      case EndBeforeSend(c) =>
      case FinishSending(c) =>
      case _ =>
    }
  }

  lemma SentMore(s: System, t: System, item: Item)
    requires StopIsAtEnd(s) && t.sent == s.sent + [item] && item !in s.sent && !s.coordinator.StopSent?
    requires t.coordinator.StopSent? == item.Stop?
    ensures StopIsAtEnd(t)
  {
  }

  /** Only Send and SendStop queue anything. */
  lemma SentFrame(s: System, a: Action)
    requires !a.Send? && !a.SendStop? && (s.coordinator.StopSent? ==> s.life.closing)
    ensures Step(s, a).sent == s.sent && Step(s, a).coordinator.StopSent? == s.coordinator.StopSent?
  {
  }

  /** Only the worker's steps change the answers, what it has taken and what it has in hand. */
  lemma AnswersFrame(s: System, a: Action)
    requires !a.Take? && !a.Complete?
    ensures var t := Step(s, a);
      && t.answers == s.answers && t.taken == s.taken && t.worker == s.worker && t.performed == s.performed
      && t.slots.Keys <= s.slots.Keys && (forall c :: c in t.slots ==> t.slots[c] == s.slots[c])
      && (forall c :: c in t.returned && t.returned[c].Answered? ==>
            (c in s.returned && t.returned[c] == s.returned[c]) || (c in s.slots && t.returned[c].result == s.slots[c]))
      && ((t.sent == s.sent && t.queue == s.queue)
          || exists item :: t.sent == s.sent + [item] && t.queue == s.queue + [item])
  {
  }

  lemma SendKeepsStop(s: System, c: nat)
    requires LifeOk(s) && StopIsAtEnd(s) && (c in s.admitted ==> Command(c) !in s.sent)
    ensures StopIsAtEnd(Step(s, Send(c)))
  {
    if c in s.admitted {
      SomeAdmitted(s, c);
      hide Counted;
      if |s.queue| < s.capacity { SentMore(s, Step(s, Send(c)), Command(c)); }
    }
  }

  lemma SendStopKeepsStop(s: System)
    requires StopIsAtEnd(s)
    ensures StopIsAtEnd(Step(s, SendStop))
  {
    if Step(s, SendStop) != s { SentMore(s, Step(s, SendStop), Stop); }
  }

  lemma StopKeeps(s: System, a: Action)
    requires LifeOk(s) && CallersOk(s) && StopIsAtEnd(s)
    ensures StopIsAtEnd(Step(s, a))
  {
    hide Step;
    hide Counted;
    if a.Send? {
      SendKeepsStop(s, a.caller);
    } else if a.SendStop? {
      SendStopKeepsStop(s);
    } else {
      SentFrame(s, a);
    }
  }

  lemma AnsweredMore(answers: seq<(nat, Result)>, c: nat, r: Result)
    ensures AnsweredItems(answers + [(c, r)]) == AnsweredItems(answers) + [Command(c)]
  {
  }

  /** A slot is full only after its own answer. */
  lemma SlotIsEmpty(s: System)
    requires QueueOk(s) && s.worker.Performing?
    ensures s.worker.caller !in s.slots && forall k :: 0 <= k < |s.answers| ==> s.answers[k].0 != s.worker.caller
  {
    var n := |s.answers|;
    assert s.sent[n] == Command(s.worker.caller);
    forall k | 0 <= k < n ensures s.answers[k].0 != s.worker.caller {
      assert s.sent[k] == Command(s.answers[k].0);
    }
  }

  lemma AnswerKeeps(s: System, r: Result)
    requires QueueOk(s) && s.worker.Performing?
    ensures var t := Answer(s, s.worker.caller, r); WorkerOk(t) && SlotsOk(t)
  {
    var t := Answer(s, s.worker.caller, r);
    SlotIsEmpty(s);
    hide StopIsAtEnd;
    AnsweredMore(s.answers, s.worker.caller, r);
    hide AnsweredItems;
    assert t.answers == s.answers + [(s.worker.caller, r)];
    assert t.answers[|s.answers|] == (s.worker.caller, r);
    assert forall k :: 0 <= k < |s.answers| ==> t.answers[k] == s.answers[k];
  }

  lemma RanMore(answers: seq<(nat, Result)>, c: nat, r: Result)
    ensures RanCallers(answers + [(c, r)]) == RanCallers(answers) + if r.Ran? then [c] else []
  {
    assert (answers + [(c, r)])[..|answers|] == answers;
  }

  lemma TakePerforms(s: System, expired: bool)
    requires QueueOk(s) && PerformedOk(s)
    ensures PerformedOk(TakeStep(s, expired))
  {
    hide RanCallers;
    if s.worker == Free && s.queue != [] && s.queue[0].Command? {
      HandKeeps(s);
      var c := s.queue[0].caller;
      SlotIsEmpty(s.(queue := s.queue[1..], taken := s.taken + [s.queue[0]], worker := Performing(c)));
      RanMore(s.answers, c, Expired);
    }
    hide QueueOk;
  }

  lemma CompletePerforms(s: System, n: int, failed: bool)
    requires QueueOk(s) && PerformedOk(s)
    ensures PerformedOk(Step(s, Complete(n, failed)))
  {
    hide RanCallers;
    if s.worker.Performing? { SlotIsEmpty(s); RanMore(s.answers, s.worker.caller, Ran(n, failed)); }
    hide QueueOk;
  }

  lemma PerformedKeeps(s: System, a: Action)
    requires QueueOk(s) && PerformedOk(s)
    ensures PerformedOk(Step(s, a))
  {
    hide RanCallers;
    if a.Take? {
      TakePerforms(s, a.expired);
      assert Step(s, a) == TakeStep(s, a.expired);
      hide TakeStep;
      hide PerformedOk;
    } else if a.Complete? {
      CompletePerforms(s, a.n, a.failed);
      hide Step;
    } else {
      hide QueueOk;
      hide Step;
      AnswersFrame(s, a);
    }
  }

  /** The worker takes the head of the queue in hand. */
  lemma HandKeeps(s: System)
    requires QueueOk(s) && s.worker == Free && s.queue != []
    ensures
      var item := s.queue[0];
      var t := s.(queue := s.queue[1..], taken := s.taken + [item], worker := if item.Stop? then Exited
        else Performing(item.caller));
      QueueOk(t)
  {
    assert s.queue == [s.queue[0]] + s.queue[1..];
  }

  lemma TakeKeeps(s: System, expired: bool)
    requires SystemInv(s)
    ensures WorkerOk(TakeStep(s, expired)) && SlotsOk(TakeStep(s, expired))
  {
    if s.worker == Free && s.queue != [] {
      HandKeeps(s);
      var item := s.queue[0];
      var t := s.(queue := s.queue[1..], taken := s.taken + [item], worker := if item.Stop? then Exited
        else Performing(item.caller));
      if item.Command? && expired { AnswerKeeps(t, Expired); }
      hide CallersOk;
      hide LifeOk;
      hide StopIsAtEnd;
    }
  }

  lemma OthersKeep(s: System, a: Action)
    requires SystemInv(s) && !a.Take? && !a.Complete?
    ensures WorkerOk(Step(s, a)) && SlotsOk(Step(s, a))
  {
    hide CallersOk;
    hide LifeOk;
    hide StopIsAtEnd;
    hide Step;
    hide AnsweredItems;
    AnswersFrame(s, a);
  }

  lemma StepKeeps(s: System, a: Action)
    requires SystemInv(s)
    ensures SystemInv(Step(s, a))
  {
    LifeKeeps(s, a);
    CallersKeep(s, a);
    StopKeeps(s, a);
    if a.Take? {
      TakeKeeps(s, a.expired);
    } else if a.Complete? {
      if s.worker.Performing? { AnswerKeeps(s, Ran(a.n, a.failed)); }
    } else {
      OthersKeep(s, a);
    }
    hide CallersOk;
    hide LifeOk;
    hide StopIsAtEnd;
    hide WorkerOk;
    hide SlotsOk;
  }

  lemma {:induction false} RunKeeps(s: System, actions: seq<Action>)
    requires SystemInv(s) && PerformedOk(s)
    ensures SystemInv(RunFrom(s, actions)) && PerformedOk(RunFrom(s, actions))
  {
    if actions != [] {
      RunKeeps(s, actions[..|actions| - 1]);
      StepKeeps(RunFrom(s, actions[..|actions| - 1]), actions[|actions| - 1]);
      PerformedKeeps(RunFrom(s, actions[..|actions| - 1]), actions[|actions| - 1]);
    }
  }

  lemma Reachable(capacity: nat, actions: seq<Action>)
    ensures SystemInv(Run(capacity, actions)) && PerformedOk(Run(capacity, actions))
  {
    RunKeeps(Init(capacity), actions);
  }

  // ---------------------------------------------------------------- main results

  /** The k-th result goes to the k-th queued command, no command gets two, and when the worker has
      exited every queued command has been answered and the stop command was the last. */
  lemma ResultsInQueueOrder(capacity: nat, actions: seq<Action>)
    ensures
      var s := Run(capacity, actions);
      && AnsweredItems(s.answers) <= s.sent
      && (forall i, j :: 0 <= i < j < |s.answers| ==> s.answers[i].0 != s.answers[j].0)
      && (s.worker.Exited? ==> s.sent == AnsweredItems(s.answers) + [Stop])
  {
    Reachable(capacity, actions);
    var s := Run(capacity, actions);
    assert forall k :: 0 <= k < |s.answers| ==> s.sent[k] == Command(s.answers[k].0);
    if s.worker.Exited? { assert s.sent[|s.answers|] == Stop; }
  }

  /** Whenever the worker has a result to send, that one-place channel is empty and nothing was ever sent
      on it, so the worker never blocks. */
  lemma SendsNeverBlock(capacity: nat, actions: seq<Action>)
    requires Run(capacity, actions).worker.Performing?
    ensures
      var s := Run(capacity, actions);
      && s.worker.caller !in s.slots
      && (forall k :: 0 <= k < |s.answers| ==> s.answers[k].0 != s.worker.caller)
      && forall n, failed :: Step(s, Complete(n, failed)).worker == Free
  {
    Reachable(capacity, actions);
    SlotIsEmpty(Run(capacity, actions));
  }

  /** Device operations happen once each, in queue order, and never for an expired command. */
  lemma DeviceSeesQueueOrder(capacity: nat, actions: seq<Action>)
    ensures var s := Run(capacity, actions);
      s.performed == RanCallers(s.answers) + if s.worker.Performing? then [s.worker.caller] else []
  {
    Reachable(capacity, actions);
  }

  /** What a caller gets is the result of its own command. */
  lemma ReturnedResultIsOwn(capacity: nat, actions: seq<Action>, c: nat)
    requires c in Run(capacity, actions).returned && Run(capacity, actions).returned[c].Answered?
    ensures
      var s := Run(capacity, actions);
      exists k :: 0 <= k < |s.answers| && s.answers[k] == (c, s.returned[c].result) && k < |s.sent|
        && s.sent[k] == Command(c)
  {
    Reachable(capacity, actions);
  }

  /** A refused caller's command was never queued, so it never reaches the device. */
  lemma RefusedCommandHasNoEffect(capacity: nat, actions: seq<Action>, c: nat)
    requires c in Run(capacity, actions).returned && Run(capacity, actions).returned[c].RefusedClosed?
    ensures Command(c) !in Run(capacity, actions).sent && c !in Run(capacity, actions).performed
  {
    Reachable(capacity, actions);
    var s := Run(capacity, actions);
    PerformedWasSent(s.answers, c);
    assert forall k :: 0 <= k < |s.answers| ==> Command(s.answers[k].0) == s.sent[k];
    if s.worker.Performing? { assert s.sent[|s.answers|] == Command(s.worker.caller); }
  }

  lemma {:induction false} PerformedWasSent(answers: seq<(nat, Result)>, c: nat)
    ensures c in RanCallers(answers) ==> exists k :: 0 <= k < |answers| && answers[k].0 == c
  {
    if answers != [] {
      var n := |answers| - 1;
      PerformedWasSent(answers[..n], c);
      if c in RanCallers(answers[..n]) {
        var k :| 0 <= k < n && answers[..n][k].0 == c;
        assert answers[k].0 == c;
      } else if c in RanCallers(answers) {
        assert answers[n].0 == c;
      }
    }
  }

  /** admissionsDone is closed at most once, only after closing starts and no caller is still sending. */
  lemma AdmissionsCloseOnce(capacity: nat, actions: seq<Action>)
    ensures
      var s := Run(capacity, actions);
      && s.life.closes <= 1
      && (s.life.closes == 1 <==> s.life.closing && s.admitted == {} && s.leaving == {} && s.queued == {})
  {
    Reachable(capacity, actions);
  }

  /** With every admission finished there is nobody left to send. */
  lemma NobodySends(s: System, c: nat)
    requires LifeOk(s) && s.life.admissionsClosed
    ensures c !in s.admitted
  {
    if c in s.admitted { SomeAdmitted(s, c); }
  }

  lemma ClosingStep(s: System, a: Action)
    requires LifeOk(s) && s.life.closing && StopIsAtEnd(s)
    ensures Step(s, a).life.closing && Step(s, a).admitted <= s.admitted
    ensures Stop in s.sent ==> Step(s, a).sent == s.sent
  {
    hide Counted;
    if a.Take? || a.Complete? {
      WorkerFrame(s, a);
    } else if a.Send? {
      if Stop in s.sent { NobodySends(s, a.caller); }
    } else if a.SendStop? {
      assert Stop in s.sent ==> s.coordinator.StopSent?;
    } else {
      hide LifeOk;
      assert Step(s, a).sent == s.sent;
    }
    hide StopIsAtEnd;
  }

  /** Nothing is admitted once closing has started, and nothing is ever queued after the stop command. */
  lemma {:induction false} StopIsLastEver(capacity: nat, actions: seq<Action>, more: seq<Action>)
    requires Run(capacity, actions).life.closing
    ensures
      var s, t := Run(capacity, actions), RunFrom(Run(capacity, actions), more);
      t.life.closing && t.admitted <= s.admitted && (Stop in s.sent ==> t.sent == s.sent)
  {
    if more != [] {
      var n := |more| - 1;
      StopIsLastEver(capacity, actions, more[..n]);
      Reachable(capacity, actions);
      RunKeeps(Run(capacity, actions), more[..n]);
      ClosingStep(RunFrom(Run(capacity, actions), more[..n]), more[n]);
    }
  }

  // ---------------------------------------------------------------- closing terminates

  /** What is left to do before a closing actor has exited. */
  function Remaining(s: System): nat {
    5 * |s.admitted| + |s.leaving| + |s.queued| + 2 * |s.queue|
    + (if s.worker.Performing? then 1 else 0) + (if s.coordinator.StopSent? then 0 else 3)
  }

  predicate Internal(a: Action) { !a.Call? && !a.Receive? && !a.GiveUp? && !a.CloseOutput? }

  predicate Uses(s: System, a: Action) {
    Remaining(Step(s, a)) <= Remaining(s) && (Step(s, a) != s ==> Remaining(Step(s, a)) < Remaining(s))
  }

  lemma OneMore(x: set<nat>, c: nat)
    requires c !in x
    ensures |x + {c}| == |x| + 1
  {
  }

  lemma OneLess(x: set<nat>, c: nat)
    requires c in x
    ensures |x - {c}| == |x| - 1
  {
  }

  lemma SendUses(s: System, c: nat)
    requires c in s.admitted ==> c !in s.queued
    ensures Uses(s, Send(c))
  {
    if c in s.admitted { OneLess(s.admitted, c); OneMore(s.queued, c); }
  }

  lemma LeaveUses(s: System, a: Action)
    requires a.SeeShutdown? || a.EndBeforeSend?
    requires a.caller in s.admitted ==> a.caller !in s.leaving
    ensures Uses(s, a)
  {
    if a.caller in s.admitted { OneLess(s.admitted, a.caller); OneMore(s.leaving, a.caller); }
  }

  lemma FinisherUses(s: System, c: nat)
    ensures Uses(s, FinishSending(c))
  {
    if c in s.queued { assert |s.queued - {c}| == |s.queued| - 1; }
    else if c in s.leaving { assert |s.leaving - {c}| == |s.leaving| - 1; }
  }

  lemma WorkerUses(s: System, a: Action)
    requires a.Take? || a.Complete?
    ensures Uses(s, a)
  {
    WorkerFrame(s, a);
  }

  lemma OutsideUses(s: System, a: Action)
    requires s.life.closing && (a.Call? || a.Receive? || a.GiveUp? || a.CloseOutput? || a.SendStop?)
    ensures Remaining(Step(s, a)) <= Remaining(s)
    ensures a.SendStop? && Step(s, a) != s ==> Remaining(Step(s, a)) < Remaining(s)
  {
  }

  /** While closing, no step adds work and every step of the actor, the coordinator or a sending caller
      uses some up. */
  lemma ClosingNeverGrows(s: System, a: Action)
    requires SystemInv(s) && s.life.closing
    ensures Remaining(Step(s, a)) <= Remaining(s)
    ensures Internal(a) && Step(s, a) != s ==> Remaining(Step(s, a)) < Remaining(s)
  {
    hide QueueOk;
    hide LifeOk;
    if a.Send? {
      SendUses(s, a.caller);
    } else if a.SeeShutdown? || a.EndBeforeSend? {
      LeaveUses(s, a);
    } else if a.FinishSending? {
      FinisherUses(s, a.caller);
    } else if a.Take? || a.Complete? {
      WorkerUses(s, a);
    } else {
      OutsideUses(s, a);
    }
    hide Step;
    hide CallersOk;
    hide Remaining;
  }

  lemma CallerCanStep(s: System, c: nat) returns (a: Action)
    requires CallersOk(s) && s.life.closing && (c in s.admitted || c in s.leaving || c in s.queued)
    ensures Internal(a) && Step(s, a) != s
  {
    a := if c in s.admitted then SeeShutdown(c) else FinishSending(c);
    assert c in s.admitted ==> c !in Step(s, a).admitted;
    assert c !in s.admitted && c in s.queued ==> c !in Step(s, a).queued;
    assert c !in s.admitted && c !in s.queued ==> c !in Step(s, a).leaving;
  }

  /** Until it has exited, a closing actor always has such a step, whatever the callers do. */
  lemma ClosingCanStep(s: System) returns (a: Action)
    requires SystemInv(s) && s.life.closing && !s.worker.Exited? && s.capacity > 0
    ensures Internal(a) && Step(s, a) != s
  {
    hide CallersOk;
    hide StopIsAtEnd;
    hide SlotsOk;
    if s.worker.Performing? {
      a := Complete(0, false);
      SlotIsEmpty(s);
    } else if s.queue != [] {
      a := Take(false);
      assert Step(s, a).queue == s.queue[1..];
    } else if c :| c in s.admitted || c in s.leaving || c in s.queued {
      a := CallerCanStep(s, c);
    } else {
      a := SendStop;
      StopWasTaken(s);
      DrainedMeansClosed(s);
    }
  }

  lemma DrainedMeansClosed(s: System)
    requires LifeOk(s) && s.life.closing && s.admitted == {} && s.leaving == {} && s.queued == {}
    ensures s.life.admissionsClosed
  {
  }

  /** With the queue empty and the worker free, the stop command cannot have been sent. */
  lemma StopWasTaken(s: System)
    requires SystemInv(s) && s.worker == Free && s.queue == []
    ensures !s.coordinator.StopSent?
  {
    hide CallersOk;
    hide LifeOk;
    assert s.sent == AnsweredItems(s.answers);
  }

  lemma CapacityIsFixed(s: System, a: Action)
    ensures Step(s, a).capacity == s.capacity && (s.life.closing ==> Step(s, a).life.closing)
  {
  }

  lemma {:induction false} ExitFrom(s: System) returns (more: seq<Action>)
    requires SystemInv(s) && s.life.closing && s.capacity > 0
    ensures RunFrom(s, more).worker.Exited? && |more| <= Remaining(s)
    decreases Remaining(s)
  {
    hide Step;
    hide SystemInv;
    hide Remaining;
    more := [];
    if !s.worker.Exited? {
      var a := ClosingCanStep(s);
      ClosingNeverGrows(s, a);
      StepKeeps(s, a);
      CapacityIsFixed(s, a);
      var rest := ExitFrom(Step(s, a));
      more := [a] + rest;
      RunFirst(s, more);
      assert more[1..] == rest;
    }
  }

  lemma {:induction false} CapacityOf(capacity: nat, actions: seq<Action>)
    ensures Run(capacity, actions).capacity == capacity
  {
    if actions != [] {
      CapacityOf(capacity, actions[..|actions| - 1]);
      CapacityIsFixed(Run(capacity, actions[..|actions| - 1]), actions[|actions| - 1]);
      hide Step;
    }
  }

  /** So every Close ends: after any run in which closing has started, the actor can reach its exit, in at
      most as many steps as there is work left. */
  lemma CloseReachesExit(capacity: nat, actions: seq<Action>) returns (more: seq<Action>)
    requires capacity > 0 && Run(capacity, actions).life.closing
    ensures RunFrom(Run(capacity, actions), more).worker.Exited? && |more| <= Remaining(Run(capacity, actions))
  {
    Reachable(capacity, actions);
    CapacityOf(capacity, actions);
    more := ExitFrom(Run(capacity, actions));
  }

  lemma {:induction false} RunFirst(s: System, actions: seq<Action>)
    requires actions != []
    ensures RunFrom(s, actions) == RunFrom(Step(s, actions[0]), actions[1..])
  {
    var n := |actions| - 1;
    if n > 0 {
      RunFirst(s, actions[..n]);
      assert actions[..n][1..] == actions[1..][..n - 1];
    } else {
      assert actions[..0] == [] && actions[1..] == [];
    }
  }

  // ---------------------------------------------------------------- the lifecycle object

  class OutputLifecycle {
    var closing: bool
    var admissions: int
    var admissionsClosed: bool
    ghost var closes: nat

    ghost function View(): Lifecycle reads this { Lifecycle(closing, admissions, admissionsClosed, closes) }

    constructor ()
      ensures View() == OPEN
    {
      closing, admissions, admissionsClosed, closes := false, 0, false, 0;
    }

    method Begin() returns (ok: bool)
      modifies this
      ensures (View(), ok) == BeginAdmission(old(View()))
    {
      if closing { return false; }
      admissions := admissions + 1;
      ok := true;
    }

    method Finish()
      modifies this
      ensures View() == FinishAdmission(old(View()))
    {
      admissions := admissions - 1;
      if closing && admissions == 0 && !admissionsClosed {
        closes := closes + 1;
        admissionsClosed := true;
      }
    }

    method Close() returns (startCoordinator: bool)
      modifies this
      ensures (View(), startCoordinator) == BeginClose(old(View()))
    {
      startCoordinator := false;
      if !closing {
        closing := true;
        if admissions == 0 && !admissionsClosed {
          closes := closes + 1;
          admissionsClosed := true;
        }
        startCoordinator := true;
      }
    }
  }
}
