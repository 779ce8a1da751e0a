/** What callers of the device output actor get (internal/device/output.go): which steps change which part of
    its state, where each result comes from, and that an admitted caller can be served. */
module OutputEffects {
  import opened DeviceOutput

  // ---------------------------------------------------------------- what each step changes

  /** A call ends refused exactly when closing, without a result exactly when its context ends, and otherwise
      with what is in its own result channel. */
  lemma ReturnedChanges(s: System, a: Action)
    ensures var s' := Step(s, a);
      s'.returned ==
        if s.life.closing && ((a.Call? && Fresh(s, a.caller)) || (a.SeeShutdown? && a.caller in s.admitted))
        then s.returned[a.caller := RefusedClosed]
        else if (a.EndBeforeSend? && a.caller in s.admitted) || (a.GiveUp? && a.caller in s.waiting)
        then s.returned[a.caller := ContextEnded]
        else if a.Receive? && a.caller in s.waiting && a.caller in s.slots
        then s.returned[a.caller := Answered(s.slots[a.caller])]
        else s.returned
  {
  }

  /** A new caller is admitted unless closing, and sends when there is room unless it sees the shutdown or the
      end of its context first. */
  lemma AdmittedChanges(s: System, a: Action)
    ensures Step(s, a).admitted ==
      if a.Call? && Fresh(s, a.caller) && !s.life.closing then s.admitted + {a.caller}
      else if (a.Send? && |s.queue| < s.capacity) || (a.SeeShutdown? && s.life.closing) || a.EndBeforeSend?
      then s.admitted - {a.caller}
      else s.admitted
  {
  }

  lemma QueuedChanges(s: System, a: Action)
    ensures Step(s, a).queued ==
      if a.Send? && a.caller in s.admitted && |s.queue| < s.capacity then s.queued + {a.caller}
      else if a.FinishSending? then s.queued - {a.caller}
      else s.queued
  {
  }

  lemma WaitingChanges(s: System, a: Action)
    ensures Step(s, a).waiting ==
      if a.FinishSending? && a.caller in s.queued then s.waiting + {a.caller}
      else if a.GiveUp? || (a.Receive? && a.caller in s.slots) then s.waiting - {a.caller}
      else s.waiting
  {
  }

  /** The first Close starts the closing and its coordinator, which is done once it has queued the stop command. */
  lemma ClosingChanges(s: System, a: Action)
    ensures var s' := Step(s, a);
      && s'.life.closing == (s.life.closing || a.CloseOutput?)
      && s'.coordinator ==
        if a.CloseOutput? && !s.life.closing then AwaitingAdmissions
        else if a.SendStop? && s.coordinator == AwaitingAdmissions && s.life.admissionsClosed && |s.queue| < s.capacity
        then StopSent
        else s.coordinator
  {
  }

  /** The queue takes a command from an admitted caller, or the stop command once nobody can send any more, as
      long as there is room, and gives its oldest item to the worker when that is free. */
  lemma QueueChanges(s: System, a: Action)
    ensures var s' := Step(s, a);
      s'.queue ==
        if a.Send? && a.caller in s.admitted && |s.queue| < s.capacity then s.queue + [Command(a.caller)]
        else if a.SendStop? && s.coordinator == AwaitingAdmissions && s.life.admissionsClosed && |s.queue| < s.capacity
        then s.queue + [Stop]
        else if a.Take? && s.worker == Free && s.queue != [] then s.queue[1..]
        else s.queue
  {
  }

  /** The worker exits at the stop command, skips a command whose context has ended, and performs any other; the
      operation's own result is what it then answers. */
  ghost predicate WorkerLaw(s: System, a: Action, s': System) {
    if a.Take? && s.worker == Free && s.queue != [] then
      if s.queue[0].Stop? then s'.worker == Exited && s'.answers == s.answers && s'.performed == s.performed
      else if a.expired then
        s'.worker == Free && s'.answers == s.answers + [(s.queue[0].caller, Expired)] && s'.performed == s.performed
      else
        && s'.worker == Performing(s.queue[0].caller) && s'.answers == s.answers
        && s'.performed == s.performed + [s.queue[0].caller]
    else if a.Complete? && s.worker.Performing? then
      && s'.worker == Free && s'.answers == s.answers + [(s.worker.caller, Ran(a.n, a.failed))]
      && s'.performed == s.performed
    else s'.worker == s.worker && s'.answers == s.answers && s'.performed == s.performed
  }

  lemma WorkerChanges(s: System, a: Action)
    requires SystemInv(s)
    ensures WorkerLaw(s, a, Step(s, a))
  {
    if a.Take? && s.worker == Free && s.queue != [] && s.queue[0].Command? { TakenSlotIsEmpty(s); }
    if a.Complete? && s.worker.Performing? { SlotIsEmpty(s); }
    hide *;
    OpenSlotsWork(s, a);
  }

  lemma OpenSlotsWork(s: System, a: Action)
    requires a.Take? && s.worker == Free && s.queue != [] && s.queue[0].Command? ==> s.queue[0].caller !in s.slots
    requires a.Complete? && s.worker.Performing? ==> s.worker.caller !in s.slots
    ensures WorkerLaw(s, a, Step(s, a))
  {
  }

  lemma TakenSlotIsEmpty(s: System)
    requires SystemInv(s) && s.worker == Free && s.queue != [] && s.queue[0].Command?
    ensures s.queue[0].caller !in s.slots
  {
    var t := TakeStep(s, false);
    HandKeeps(s);
    SlotIsEmpty(t);
  }

  // ---------------------------------------------------------------- where results come from

  /** Action k of the run produced result r for caller c: its operation returned it, or it was skipped as its
      turn came after its context had ended. */
  ghost predicate ProducedAt(capacity: nat, actions: seq<Action>, k: nat, c: nat, r: Result) {
    && k < |actions|
    && var s := Run(capacity, actions[..k]);
       match r
       case Ran(n, failed) => actions[k] == Complete(n, failed) && s.worker == Performing(c)
       case Expired => actions[k] == Take(true) && s.worker == Free && s.queue != [] && s.queue[0] == Command(c)
  }

  lemma {:induction false} AnswersAreProduced(capacity: nat, actions: seq<Action>, i: nat)
    requires i < |Run(capacity, actions).answers|
    ensures var (c, r) := Run(capacity, actions).answers[i];
      exists k: nat :: ProducedAt(capacity, actions, k, c, r)
  {
    hide SystemInv;
    hide Step;
    var n := |actions| - 1;
    var before, a := actions[..n], actions[n];
    var s := Run(capacity, before);
    Reachable(capacity, before);
    WorkerChanges(s, a);
    var (c, r) := Run(capacity, actions).answers[i];
    if i < |s.answers| {
      hide WorkerLaw;
      assert s.answers[i] == (c, r) by { WorkerLawGrows(s, a, Step(s, a)); }
      AnswersAreProduced(capacity, before, i);
      var k: nat :| ProducedAt(capacity, before, k, c, r);
      assert actions[..k] == before[..k];
      assert ProducedAt(capacity, actions, k, c, r);
    } else {
      assert ProducedAt(capacity, actions, n, c, r);
    }
  }

  lemma WorkerLawGrows(s: System, a: Action, s': System)
    requires WorkerLaw(s, a, s')
    ensures s.answers <= s'.answers
  {
  }

  /** What a caller returns with is the result its own operation had, or that its turn came too late. */
  lemma ReturnedIsProduced(capacity: nat, actions: seq<Action>, c: nat)
    requires c in Run(capacity, actions).returned && Run(capacity, actions).returned[c].Answered?
    ensures exists k: nat :: ProducedAt(capacity, actions, k, c, Run(capacity, actions).returned[c].result)
  {
    ReturnedResultIsOwn(capacity, actions, c);
    var s := Run(capacity, actions);
    var i :| 0 <= i < |s.answers| && s.answers[i] == (c, s.returned[c].result);
    AnswersAreProduced(capacity, actions, i);
  }

  lemma {:induction false} AnswersStay(s: System, more: seq<Action>)
    requires SystemInv(s) && PerformedOk(s)
    ensures s.answers <= RunFrom(s, more).answers
  {
    if more != [] {
      var n := |more| - 1;
      AnswersStay(s, more[..n]);
      RunKeeps(s, more[..n]);
      WorkerChanges(RunFrom(s, more[..n]), more[n]);
      hide Step;
      hide SystemInv;
    }
  }

  lemma {:induction false} RunJoins(s: System, first: seq<Action>, second: seq<Action>)
    ensures RunFrom(RunFrom(s, first), second) == RunFrom(s, first + second)
  {
    if second == [] {
      assert first + second == first;
    } else {
      hide Step;
      var n := |second| - 1;
      RunJoins(s, first, second[..n]);
      assert (first + second)[..|first| + n] == first + second[..n];
    }
  }

  /** Once an operation has returned, whatever happens afterwards its caller can only get that result or end
      with its context. */
  lemma OperationResultIsTheAnswer(capacity: nat, actions: seq<Action>, n: int, failed: bool, more: seq<Action>)
    requires Run(capacity, actions).worker.Performing?
    ensures var c := Run(capacity, actions).worker.caller;
      var t := Run(capacity, actions + [Complete(n, failed)] + more);
      c in t.returned && t.returned[c].Answered? ==> t.returned[c].result == Ran(n, failed)
  {
    var s, first := Run(capacity, actions), actions + [Complete(n, failed)];
    var c := s.worker.caller;
    assert first[..|actions|] == actions;
    Reachable(capacity, actions);
    Reachable(capacity, first);
    WorkerChanges(s, Complete(n, failed));
    AnswersStay(Run(capacity, first), more);
    RunJoins(Init(capacity), first, more);
    var t := Run(capacity, first + more);
    ResultsInQueueOrder(capacity, first + more);
    if c in t.returned && t.returned[c].Answered? {
      ReturnedResultIsOwn(capacity, first + more, c);
      var i :| 0 <= i < |t.answers| && t.answers[i] == (c, t.returned[c].result);
      assert t.answers[|s.answers|] == (c, Ran(n, failed));
    }
  }

  // ---------------------------------------------------------------- an admitted caller can be served

  predicate HasAnswer(s: System, c: nat) { exists k :: 0 <= k < |s.answers| && s.answers[k].0 == c }

  /** A result stays in its channel until its caller has left. */
  ghost predicate HeldOk(s: System) {
    forall c :: (c in s.queued || c in s.waiting) && HasAnswer(s, c) ==> c in s.slots
  }

  /** A result channel is filled by the worker's answer and emptied by its caller. */
  function SlotsAfter(s: System, a: Action): map<nat, Result> {
    if a.Take? && s.worker == Free && s.queue != [] && s.queue[0].Command? && a.expired
    then s.slots[s.queue[0].caller := Expired]
    else if a.Complete? && s.worker.Performing? then s.slots[s.worker.caller := Ran(a.n, a.failed)]
    else if a.Receive? && a.caller in s.waiting && a.caller in s.slots then s.slots - {a.caller}
    else s.slots
  }

  lemma SlotsChange(s: System, a: Action)
    requires SystemInv(s)
    ensures Step(s, a).slots == SlotsAfter(s, a)
  {
    if a.Take? && s.worker == Free && s.queue != [] && s.queue[0].Command? { TakenSlotIsEmpty(s); }
    if a.Complete? && s.worker.Performing? { SlotIsEmpty(s); }
    hide *;
    OpenSlotsChange(s, a);
  }

  lemma OpenSlotsChange(s: System, a: Action)
    requires a.Take? && s.worker == Free && s.queue != [] && s.queue[0].Command? ==> s.queue[0].caller !in s.slots
    requires a.Complete? && s.worker.Performing? ==> s.worker.caller !in s.slots
    ensures Step(s, a).slots == SlotsAfter(s, a)
  {
  }

  lemma NewAnswerIsHeld(s: System, a: Action, c: nat)
    requires SystemInv(s) && HasAnswer(Step(s, a), c)
    ensures HasAnswer(s, c) || c in Step(s, a).slots
  {
    hide SystemInv;
    hide Step;
    var s' := Step(s, a);
    WorkerChanges(s, a);
    SlotsChange(s, a);
    var k :| 0 <= k < |s'.answers| && s'.answers[k].0 == c;
    if k < |s.answers| { assert s.answers[k] == s'.answers[k]; }
  }

  lemma HeldKeeps(s: System, a: Action)
    requires SystemInv(s) && HeldOk(s)
    ensures HeldOk(Step(s, a))
  {
    assert s.queued !! s.waiting;
    hide SystemInv;
    hide Step;
    hide Fresh;
    hide HasAnswer;
    var s' := Step(s, a);
    AdmittedChanges(s, a);
    QueuedChanges(s, a);
    WaitingChanges(s, a);
    SlotsChange(s, a);
    forall c | (c in s'.queued || c in s'.waiting) && HasAnswer(s', c) ensures c in s'.slots {
      NewAnswerIsHeld(s, a, c);
      if a == Send(c) && c in s.admitted { AdmittedHasNoAnswer(s, c); }
    }
  }

  lemma AdmittedHasNoAnswer(s: System, c: nat)
    requires SystemInv(s) && c in s.admitted
    ensures !HasAnswer(s, c) && !s.worker.Exited? && Stop !in s.queue
  {
    assert forall k :: 0 <= k < |s.answers| ==> s.sent[k] == Command(s.answers[k].0);
    assert s.worker.Exited? ==> Stop in s.taken && Stop in s.sent;
    assert forall x :: x in s.queue ==> x in s.sent;
    assert Stop !in s.sent by { if Stop in s.sent { NobodySends(s, c); } }
    hide Counted;
  }

  lemma {:induction false} HeldThroughout(s: System, actions: seq<Action>)
    requires SystemInv(s) && PerformedOk(s) && HeldOk(s)
    ensures SystemInv(RunFrom(s, actions)) && HeldOk(RunFrom(s, actions))
  {
    RunKeeps(s, actions);
    if actions != [] {
      var n := |actions| - 1;
      RunKeeps(s, actions[..n]);
      HeldThroughout(s, actions[..n]);
      HeldKeeps(RunFrom(s, actions[..n]), actions[n]);
    }
  }

  /** An unanswered command is in the worker's hand or in the queue, before any stop command. */
  lemma UnansweredIsAhead(s: System, c: nat)
    requires SystemInv(s) && (c in s.queued || c in s.waiting) && !HasAnswer(s, c)
    ensures !s.worker.Exited? && (s.worker == Performing(c) || Command(c) in s.queue)
    ensures s.worker == Free ==> s.queue != [] && s.queue[0].Command?
  {
    assert Command(c) in s.sent;
    hide CallersOk;
    hide LifeOk;
    hide SlotsOk;
    var n := |s.answers|;
    assert forall k :: 0 <= k < n ==> s.sent[k] == Command(s.answers[k].0) && s.answers[k].0 != c;
    var i :| 0 <= i < |s.sent| && s.sent[i] == Command(c);
    hide HasAnswer;
    AheadOf(s, i);
  }

  lemma AheadOf(s: System, i: nat)
    requires WorkerOk(s) && StopIsAtEnd(s) && |s.answers| <= i < |s.sent| && s.sent[i].Command?
    ensures !s.worker.Exited? && (s.worker == Performing(s.sent[i].caller) || s.sent[i] in s.queue)
    ensures s.worker == Free ==> s.queue != [] && s.queue[0].Command?
  {
    assert forall k :: 0 <= k < i ==> !s.sent[k].Stop?;
    var n, rest := |s.answers|, InHand(s.worker) + s.queue;
    assert s.sent == AnsweredItems(s.answers) + rest;
    assert |AnsweredItems(s.answers)| == n;
    hide AnsweredItems;
    hide WorkerOk;
    assert rest[i - n] == s.sent[i] && rest[0] == s.sent[n];
    hide StopIsAtEnd;
  }

  function Load(s: System): nat { 2 * |s.queue| + if s.worker.Performing? then 1 else 0 }

  /** How far the caller still has to go. */
  function Distance(s: System, c: nat): nat {
    if c in s.admitted then 3 else if !HasAnswer(s, c) then 2 else if c in s.queued then 1 else 0
  }

  function NextStep(s: System, c: nat, n: int, failed: bool): Action {
    if c in s.admitted && |s.queue| < s.capacity then Send(c)
    else if c in s.admitted || !HasAnswer(s, c) then
      if !s.worker.Performing? then Take(false)
      else if s.worker.caller == c then Complete(n, failed) else Complete(0, false)
    else if c in s.queued then FinishSending(c)
    else Receive(c)
  }

  predicate InCall(s: System, c: nat) { c in s.admitted || c in s.queued || c in s.waiting }

  /** The worker's next step brings it nearer, and answers this caller with nothing but the given result. */
  lemma WorkerServes(s: System, c: nat, n: int, failed: bool)
    requires SystemInv(s) && InCall(s, c) && !HasAnswer(s, c) && s.capacity >= 1
    requires c in s.admitted ==> |s.queue| >= s.capacity
    ensures var t := Step(s, NextStep(s, c, n, failed));
      && Load(t) < Load(s) && t.admitted == s.admitted && t.queued == s.queued && t.waiting == s.waiting
      && t.capacity == s.capacity && t.returned == s.returned
      && (forall k :: 0 <= k < |t.answers| && t.answers[k].0 == c ==> t.answers[k].1 == Ran(n, failed))
  {
    hide SystemInv;
    hide Step;
    var a := NextStep(s, c, n, failed);
    if c in s.admitted { AdmittedHasNoAnswer(s, c); } else { UnansweredIsAhead(s, c); }
    assert s.worker == Free ==> s.queue != [] && s.queue[0].Command?;
    WorkerChanges(s, a);
    QueueChanges(s, a);
    AdmittedChanges(s, a);
    QueuedChanges(s, a);
    WaitingChanges(s, a);
    ReturnedChanges(s, a);
    CapacityIsFixed(s, a);
    forall k | 0 <= k < |s.answers| ensures s.answers[k].0 != c { assert !HasAnswer(s, c); }
  }

  ghost predicate AnsweredWith(s: System, c: nat, r: Result) {
    forall k :: 0 <= k < |s.answers| && s.answers[k].0 == c ==> s.answers[k].1 == r
  }

  lemma CallerMoves(s: System, c: nat, n: int, failed: bool)
    requires SystemInv(s) && HeldOk(s) && InCall(s, c)
    requires (c in s.admitted && |s.queue| < s.capacity) || (c !in s.admitted && HasAnswer(s, c))
    ensures var t := Step(s, NextStep(s, c, n, failed));
      && t.answers == s.answers && t.capacity == s.capacity
      && (if c in s.waiting then c in s.slots && c in t.returned && t.returned[c] == Answered(s.slots[c])
          else InCall(t, c) && Distance(t, c) < Distance(s, c))
  {
    assert s.admitted !! s.queued !! s.waiting;
    hide SystemInv;
    hide Step;
    hide Fresh;
    hide HasAnswer;
    var a := NextStep(s, c, n, failed);
    if c in s.admitted { AdmittedHasNoAnswer(s, c); }
    WorkerChanges(s, a);
    SameAnswers(s, Step(s, a), c);
    AdmittedChanges(s, a);
    QueuedChanges(s, a);
    WaitingChanges(s, a);
    ReturnedChanges(s, a);
    CapacityIsFixed(s, a);
  }

  lemma SameAnswers(s: System, t: System, c: nat)
    ensures s.answers == t.answers ==> HasAnswer(s, c) == HasAnswer(t, c)
  {
  }

  lemma SlotIsAnswer(s: System, c: nat)
    requires SystemInv(s) && c in s.slots
    ensures exists k :: 0 <= k < |s.answers| && s.answers[k] == (c, s.slots[c])
  {
  }

  lemma {:induction false} ServeFrom(s: System, c: nat, n: int, failed: bool) returns (more: seq<Action>)
    requires SystemInv(s) && HeldOk(s) && InCall(s, c) && s.capacity >= 1
    ensures var t := RunFrom(s, more);
      && c in t.returned && t.returned[c].Answered?
      && (AnsweredWith(s, c, Ran(n, failed)) ==> t.returned[c].result == Ran(n, failed))
    decreases Distance(s, c), Load(s)
  {
    var a := NextStep(s, c, n, failed);
    var t := Step(s, a);
    StepKeeps(s, a);
    HeldKeeps(s, a);
    if c !in s.admitted && c in s.waiting && HasAnswer(s, c) {
      CallerMoves(s, c, n, failed);
      SlotIsAnswer(s, c);
      hide Step;
      more := [a];
      RunFirst(s, more);
      assert more[1..] == [] && RunFrom(s, more) == t;
    } else {
      if (c in s.admitted && |s.queue| < s.capacity) || (c !in s.admitted && HasAnswer(s, c)) {
        CallerMoves(s, c, n, failed);
      } else {
        if c in s.admitted { AdmittedHasNoAnswer(s, c); }
        WorkerServes(s, c, n, failed);
      }
      hide Step;
      hide SystemInv;
      hide HeldOk;
      var rest := ServeFrom(t, c, n, failed);
      more := [a] + rest;
      RunFirst(s, more);
      assert more[1..] == rest;
    }
  }

  /** In every reachable state an admitted caller can still be served, whatever is queued before it and even
      while closing: with any result its operation may have, if it has none yet. */
  lemma AdmittedCallersCanBeServed(capacity: nat, actions: seq<Action>, c: nat, n: int, failed: bool)
      returns (more: seq<Action>)
    requires capacity >= 1 && InCall(Run(capacity, actions), c)
    ensures var s, t := Run(capacity, actions), Run(capacity, actions + more);
      && c in t.returned && t.returned[c].Answered?
      && (!HasAnswer(s, c) ==> t.returned[c].result == Ran(n, failed))
  {
    Reachable(capacity, actions);
    Reachable(capacity, []);
    HeldThroughout(Init(capacity), actions);
    CapacityOf(capacity, actions);
    var s := Run(capacity, actions);
    if !HasAnswer(s, c) { assert AnsweredWith(s, c, Ran(n, failed)); }
    hide SystemInv;
    hide HeldOk;
    more := ServeFrom(s, c, n, failed);
    RunJoins(Init(capacity), actions, more);
  }
}
