/** The session input broker (internal/eventbus/broker.go).

    A session's worker owns a bounded queue behind its own mutex; the broker owns
    the routing tables behind another. Every mutex-held region is one action of a
    state machine, so a run interleaves publishers, worker goroutines, Cancel,
    Complete, Apply and Close in any order. The queue regions are also written as
    the imperative class `Worker`, proved equal to the functions the machine uses. */
module SessionInputBroker {

  const INTERACTION_QUEUE_SIZE: nat := 64

  datatype SessionKey = SessionKey(pluginId: string, instanceId: string, generation: nat, token: string)

  /** A queued request. `waiting` says that a caller holds its one-slot response channel. */
  datatype Delivery = Delivery(sequence: nat, waiting: bool)

  datatype Outcome = Succeeded(result: int) | Failed(code: int)

  datatype Answer = Delivered(outcome: Outcome) | Invalidated

  datatype EnqueueResult = Accepted | SessionInvalidated | Overrun

  /** The state guarded by a worker's mutex. */
  datatype Queue = Queue(items: seq<Delivery>, inFlight: bool, completing: bool, stopped: bool) {
    predicate Unavailable() { stopped || completing }
  }

  // ---------------------------------------------------------------- queue regions

  function Enqueue(q: Queue, d: Delivery): (Queue, EnqueueResult) {
    if q.Unavailable() then (q, SessionInvalidated)
    else if |q.items| >= INTERACTION_QUEUE_SIZE then (q, Overrun)
    else (q.(items := q.items + [d]), Accepted)
  }

  predicate CanBegin(q: Queue) { !q.stopped && !q.inFlight && q.items != [] }

  predicate HeadMatches(q: Queue, sequence: nat) { q.items != [] && q.items[0].sequence == sequence }

  /** The new queue, whether the finished delivery was accepted, and whether the worker must stop. */
  function Finish(q: Queue, sequence: nat, failed: bool): (Queue, bool, bool) {
    if q.stopped || !HeadMatches(q, sequence) then (q, false, true)
    else if q.completing then (Queue([], false, true, true), true, true)
    else (q.(items := q.items[1..], inFlight := false), true, failed)
  }

  /** The new queue and the deliveries to reject. */
  function Complete(q: Queue): (Queue, seq<Delivery>) {
    if q.Unavailable() then (q, [])
    else if q.inFlight && q.items != [] then (q.(completing := true, items := q.items[..1]), q.items[1..])
    else (q.(completing := true, stopped := true, items := []), q.items)
  }

  function Stop(q: Queue): (Queue, seq<Delivery>) {
    if q.stopped then (q, []) else (q.(stopped := true, items := []), q.items)
  }

  class Worker {
    var queue: seq<Delivery>
    var inFlight: bool
    var completing: bool
    var stopped: bool
    var cancelled: bool

    ghost predicate Valid() reads this {
      && (inFlight && !stopped ==> queue != [])
      && (cancelled <==> stopped)
    }

    ghost function View(): Queue reads this { Queue(queue, inFlight, completing, stopped) }

    constructor ()
      ensures Valid() && View() == Queue([], false, false, false)
    {
      queue, inFlight, completing, stopped, cancelled := [], false, false, false, false;
    }

    method EnqueueDelivery(d: Delivery) returns (result: EnqueueResult)
      requires Valid()
      modifies this
      ensures Valid() && (View(), result) == Enqueue(old(View()), d)
    {
      if stopped || completing { return SessionInvalidated; }
      if |queue| >= INTERACTION_QUEUE_SIZE { return Overrun; }
      queue := queue + [d];
      return Accepted;
    }

    method Begin() returns (delivery: Delivery, ok: bool)
      requires Valid()
      modifies this`inFlight
      ensures Valid()
      ensures ok == CanBegin(old(View()))
      ensures View() == if ok then old(View()).(inFlight := true) else old(View())
      ensures ok ==> delivery == queue[0]
    {
      if stopped || inFlight || |queue| == 0 { return Delivery(0, false), false; }
      inFlight := true;
      return queue[0], true;
    }

    method FinishDelivery(sequence: nat, failed: bool) returns (accepted: bool, stop: bool)
      requires Valid()
      modifies this
      ensures Valid() && (View(), accepted, stop) == Finish(old(View()), sequence, failed)
    {
      if stopped { return false, true; }
      if |queue| == 0 || queue[0].sequence != sequence { return false, true; }
      queue := queue[1..];
      inFlight := false;
      if completing {
        stopped, queue, cancelled := true, [], true;
        return true, true;
      }
      return true, failed;
    }

    method CompleteNoWait() returns (discarded: seq<Delivery>)
      requires Valid()
      modifies this
      ensures Valid() && (View(), discarded) == Complete(old(View()))
    {
      if stopped || completing { return []; }
      completing := true;
      if inFlight {
        discarded := queue[1..];
        queue := queue[..1];
        return;
      }
      discarded := queue;
      stopped, queue, cancelled := true, [], true;
    }

    method StopNoWait() returns (discarded: seq<Delivery>)
      requires Valid()
      modifies this
      ensures Valid() && (View(), discarded) == Stop(old(View()))
    {
      discarded := [];
      if !stopped {
        discarded := queue;
        stopped, queue, cancelled := true, [], true;
      }
    }
  }

  // ---------------------------------------------------------------- the machine

  /** Where a worker's goroutine is in `run`. */
  datatype Pc =
    | Waiting                                                  // in the select on notify and ctx.Done
    | Draining                                                 // about to call begin
    | Delivering(d: Delivery)                                  // inside the callback
    | Responding(d: Delivery, outcome: Outcome, stop: bool)    // finish accepted, answer not yet sent
    | Failing                                                  // about to call the broker's fail
    | Returning                                                // run has returned
    | Gone                                                     // removed from the broker, done closed

  /** A worker with its goroutine, the wake-ups and rejections other goroutines still owe it,
      and the histories of accepted inputs, started callbacks and answers sent. */
  datatype Session = Session(
    key: SessionKey, q: Queue, pc: Pc, notify: bool, wakes: nat, rejecting: set<nat>,
    accepted: seq<Delivery>, started: seq<Delivery>, answers: map<nat, Answer>)

  /** Apply and Close hold the broker lock while they stop workers one at a time. */
  datatype Lock = Free | Applying(next: map<string, string>, todo: set<SessionKey>) | Closing(todo: set<SessionKey>)

  datatype Broker = Broker(
    next: nat, targets: map<string, string>, workers: map<SessionKey, nat>, invalid: set<SessionKey>,
    closed: bool, lock: Lock,
    pool: seq<Session>,                         // every worker ever created, by identity
    publishing: map<nat, (nat, bool)>,          // sequence -> worker and waiting flag, not yet queued
    overruns: map<nat, nat>)                    // sequence -> worker, failure not yet reported

  const INIT := Broker(0, map[], map[], {}, false, Free, [], map[], map[])

  datatype Action =
    | Publish(instanceId: string, generation: nat, token: string, waiting: bool, valid: bool)
    | QueuePublished(sequence: nat)
    | ReportOverrun(sequence: nat)
    | Wake(w: nat)
    | TakeNotify(w: nat)
    | ObserveCancel(w: nat)
    | BeginCallback(w: nat)
    | CallbackReturns(w: nat, outcome: Outcome)
    | SendAnswer(w: nat)
    | SendRejection(w: nat, sequence: nat)
    | ReportFailure(w: nat)
    | Retire(w: nat)
    | CancelSession(key: SessionKey)
    | CompleteSession(key: SessionKey)
    | BeginApply(next: map<string, string>)
    | BeginClose
    | StopNext(key: SessionKey)
    | EndRegion

  function WaitingSeqs(ds: seq<Delivery>): set<nat> { set d | d in ds && d.waiting :: d.sequence }

  function NewSession(key: SessionKey): Session {
    Session(key, Queue([], false, false, false), Waiting, false, 0, {}, [], [], map[])
  }

  function Stopped(s: Session): Session {
    var (q, discarded) := Stop(s.q);
    s.(q := q, rejecting := s.rejecting + WaitingSeqs(discarded))
  }

  function Completed(s: Session): Session {
    var (q, discarded) := Complete(s.q);
    s.(q := q, rejecting := s.rejecting + WaitingSeqs(discarded))
  }

  function Queued(s: Session, d: Delivery): (Session, EnqueueResult) {
    var (q, result) := Enqueue(s.q, d);
    if result.Accepted? then (s.(q := q, wakes := s.wakes + 1, accepted := s.accepted + [d]), result)
    else (s, result)
  }

  function Begun(s: Session): Session {
    if CanBegin(s.q) then
      s.(q := s.q.(inFlight := true), pc := Delivering(s.q.items[0]), started := s.started + [s.q.items[0]])
    else s.(pc := Waiting)
  }

  function Finished(s: Session, outcome: Outcome): Session
    requires s.pc.Delivering?
  {
    var (q, accepted, stop) := Finish(s.q, s.pc.d.sequence, outcome.Failed?);
    s.(q := q, pc := if accepted then Responding(s.pc.d, outcome, stop) else Returning)
  }

  function Answered(s: Session): Session
    requires s.pc.Responding?
  {
    s.(answers := if s.pc.d.waiting then s.answers[s.pc.d.sequence := Delivered(s.pc.outcome)] else s.answers,
       pc := if s.pc.outcome.Failed? then Failing else if s.pc.stop then Returning else Draining)
  }

  /** A send on a response channel whose slot is full would block; the slot is full once answered. */
  predicate CanSend(s: Session, sequence: nat) { sequence !in s.answers }

  function Put(b: Broker, w: nat, s: Session): Broker
    requires w < |b.pool|
  {
    b.(pool := b.pool[w := s])
  }

  /** The lock-held part of `fail`: stop the worker unless it is unavailable or already replaced. */
  function Fail(b: Broker, w: nat): Broker
    requires w < |b.pool|
  {
    var s := b.pool[w];
    if s.key !in b.workers || b.workers[s.key] != w || s.q.Unavailable() then b
    else Put(b, w, Stopped(s)).(invalid := b.invalid + {s.key})
  }

  function PublishStep(b: Broker, a: Action): Broker
    requires a.Publish?
  {
    if b.closed || a.instanceId !in b.targets || b.targets[a.instanceId] == "" then b else
    var key := SessionKey(b.targets[a.instanceId], a.instanceId, a.generation, a.token);
    if key in b.invalid then b
    else if key in b.workers && b.workers[key] < |b.pool| && b.pool[b.workers[key]].q.Unavailable() then b
    else if !a.valid then b
    else
      var b1 := if key in b.workers then b
                else b.(pool := b.pool + [NewSession(key)], workers := b.workers[key := |b.pool|]);
      b1.(next := b.next + 1, publishing := b.publishing[b.next + 1 := (b1.workers[key], a.waiting)])
  }

  function WithoutKey<K, V>(m: map<K, V>, k: K): map<K, V> { map x | x in m && x != k :: m[x] }

  function QueuePublishedStep(b: Broker, sequence: nat): Broker {
    if sequence !in b.publishing || b.publishing[sequence].0 >= |b.pool| then b else
    var (w, waiting) := b.publishing[sequence];
    var (s, result) := Queued(b.pool[w], Delivery(sequence, waiting));
    Put(b, w, s).(publishing := WithoutKey(b.publishing, sequence),
                  overruns := if result.Overrun? then b.overruns[sequence := w] else b.overruns)
  }

  /** A goroutine step that touches only worker `w`. */
  function SessionStep(s: Session, a: Action): Session {
    match a
    case Wake(_) => if s.wakes > 0 then s.(notify := true, wakes := s.wakes - 1) else s
    case TakeNotify(_) => if s.pc.Waiting? && s.notify then s.(notify := false, pc := Draining) else s
    case ObserveCancel(_) => if s.pc.Waiting? && s.q.stopped then s.(pc := Returning) else s
    case BeginCallback(_) => if s.pc.Draining? then Begun(s) else s
    case CallbackReturns(_, outcome) => if s.pc.Delivering? then Finished(s, outcome) else s
    case SendAnswer(_) =>
      if s.pc.Responding? && (s.pc.d.waiting ==> CanSend(s, s.pc.d.sequence)) then Answered(s) else s
    case SendRejection(_, sequence) =>
      if sequence in s.rejecting && CanSend(s, sequence)
      then s.(rejecting := s.rejecting - {sequence}, answers := s.answers[sequence := Invalidated]) else s
    case _ => s
  }

  predicate IsSessionStep(a: Action) {
    a.Wake? || a.TakeNotify? || a.ObserveCancel? || a.BeginCallback? || a.CallbackReturns? || a.SendAnswer?
      || a.SendRejection?
  }

  /** Keys whose routing a replacement table no longer keeps. */
  function Unrouted(b: Broker, next: map<string, string>): set<SessionKey> {
    set k | k in b.workers && !(k.instanceId in next && next[k.instanceId] == k.pluginId)
  }

  function LockedStep(b: Broker, a: Action): Broker {
    match a
    case ReportOverrun(sequence) =>
      if sequence in b.overruns && b.overruns[sequence] < |b.pool|
      then Fail(b, b.overruns[sequence]).(overruns := WithoutKey(b.overruns, sequence)) else b
    case ReportFailure(w) =>
      if w < |b.pool| && b.pool[w].pc.Failing?
      then var f := Fail(b, w); Put(f, w, f.pool[w].(pc := Returning)) else b
    case Retire(w) =>
      if w < |b.pool| && b.pool[w].pc.Returning? then
        var key := b.pool[w].key;
        Put(b, w, b.pool[w].(pc := Gone)).(
          workers := if key in b.workers && b.workers[key] == w then WithoutKey(b.workers, key) else b.workers)
      else b
    case CancelSession(key) =>
      var b1 := b.(invalid := b.invalid - {key});
      if key in b.workers && b.workers[key] < |b.pool|
      then Put(b1, b.workers[key], Stopped(b.pool[b.workers[key]])) else b1
    case CompleteSession(key) =>
      var b1 := b.(invalid := b.invalid - {key});
      if key in b.workers && b.workers[key] < |b.pool|
      then Put(b1, b.workers[key], Completed(b.pool[b.workers[key]])) else b1
    case BeginApply(next) => if b.closed then b else b.(lock := Applying(next, Unrouted(b, next)))
    case BeginClose => if b.closed then b else b.(closed := true, lock := Closing(b.workers.Keys))
    case Publish(_, _, _, _, _) => PublishStep(b, a)
    case _ => b
  }

  function DropTodo(b: Broker, key: SessionKey): Broker
    requires !b.lock.Free?
  {
    b.(lock := b.lock.(todo := b.lock.todo - {key}),
       invalid := if b.lock.Applying? then b.invalid - {key} else b.invalid)
  }

  function RegionStep(b: Broker, a: Action): Broker
    requires !b.lock.Free?
  {
    match a
    case StopNext(key) =>
      if key in b.lock.todo then
        var b1 := if key in b.workers && b.workers[key] < |b.pool|
                  then Put(b, b.workers[key], Stopped(b.pool[b.workers[key]])) else b;
        DropTodo(b1, key)
      else b
    case EndRegion =>
      if b.lock.todo != {} then b
      else if b.lock.Closing? then b.(lock := Free, invalid := {})
      else b.(lock := Free, targets := b.lock.next,
              invalid := set k | k in b.invalid && k.instanceId in b.lock.next
                && b.lock.next[k.instanceId] == k.pluginId)
    case _ => b
  }

  /** Some goroutine is sending the rejections of a queue it has cut. Queues are cut only by holders of the
      broker lock, who keep it until the last rejection is sent. */
  predicate Rejecting(b: Broker) { exists w :: 0 <= w < |b.pool| && b.pool[w].rejecting != {} }

  /** One action; an action that is not enabled changes nothing. */
  function Step(b: Broker, a: Action): Broker {
    if IsSessionStep(a) then
      if a.w < |b.pool| then Put(b, a.w, SessionStep(b.pool[a.w], a)) else b
    else if a.QueuePublished? then QueuePublishedStep(b, a.sequence)
    else if Rejecting(b) then b
    else if b.lock.Free? then LockedStep(b, a)
    else RegionStep(b, a)
  }

  function Run(actions: seq<Action>): Broker {
    if actions == [] then INIT else Step(Run(actions[..|actions| - 1]), actions[|actions| - 1])
  }

  // ---------------------------------------------------------------- invariant of one worker

  function RespondingSeqs(pc: Pc): set<nat> { if pc.Responding? && pc.d.waiting then {pc.d.sequence} else {} }

  ghost predicate Distinct(ds: seq<Delivery>) {
    forall i, j :: 0 <= i < j < |ds| ==> ds[i].sequence != ds[j].sequence
  }

  /** Every accepted waiting input is in exactly one place: queued, being rejected, being
      answered, or answered. */
  ghost predicate Conserved(s: Session) {
    var queued, responding := WaitingSeqs(s.q.items), RespondingSeqs(s.pc);
    && WaitingSeqs(s.accepted) == queued + s.rejecting + responding + s.answers.Keys
    && queued !! s.rejecting !! responding !! s.answers.Keys
  }

  /** While the worker runs, its queue is the unfinished suffix of what it accepted. */
  ghost predicate InOrder(s: Session) {
    && s.started <= s.accepted
    && (s.q.inFlight ==> s.started != [])
    && (s.q.stopped ==> s.q.items == [])
    && var from := |s.started| - if s.q.inFlight then 1 else 0;
       && (!s.q.Unavailable() ==> s.q.items == s.accepted[from..])
       && (s.q.completing && !s.q.stopped ==> s.q.inFlight && s.q.items == s.accepted[from..from + 1])
  }

  ghost predicate GoroutineOk(s: Session) {
    && (s.q.inFlight && !s.q.stopped ==> s.pc.Delivering?)
    && (s.pc.Delivering? ==> s.started != [] && s.pc.d == s.started[|s.started| - 1] && (!s.q.stopped ==> s.q.inFlight))
    && (s.pc.Responding? ==> s.pc.d in s.started)
    && (s.pc.Responding? && s.pc.stop && !s.pc.outcome.Failed? ==> s.q.stopped)
    && (s.pc.Returning? || s.pc.Gone? ==> s.q.stopped)
    && (s.pc.Gone? ==> s.rejecting == {})
    && (s.pc.Waiting? && !s.q.stopped && s.q.items != [] ==> s.notify || s.wakes > 0)
  }

  ghost predicate SessionInv(s: Session) {
    && |s.q.items| <= INTERACTION_QUEUE_SIZE
    && Distinct(s.accepted)
    && InOrder(s)
    && GoroutineOk(s)
    && Conserved(s)
    && (forall n :: n in s.answers && s.answers[n].Delivered? ==> exists d :: d in s.started && d.sequence == n)
  }

  lemma WaitingSeqsSplit(ds: seq<Delivery>, n: nat)
    requires n <= |ds| && Distinct(ds)
    ensures WaitingSeqs(ds) == WaitingSeqs(ds[..n]) + WaitingSeqs(ds[n..])
    ensures WaitingSeqs(ds[..n]) !! WaitingSeqs(ds[n..])
  {
    assert ds == ds[..n] + ds[n..];
  }

  lemma HeadAlwaysMatches(s: Session)
    requires SessionInv(s) && s.pc.Delivering? && !s.q.stopped
    ensures s.q.items != [] && s.q.items[0] == s.pc.d
    ensures HeadMatches(s.q, s.pc.d.sequence)
  {
    var from := |s.started| - 1;
    assert s.accepted[from] == s.started[from];
  }

  lemma StoppedKeeps(s: Session)
    requires SessionInv(s)
    ensures SessionInv(Stopped(s)) && Stopped(s).q.stopped
  {
    assert WaitingSeqs([]) == {};
  }

  lemma QueueDistinct(s: Session)
    requires SessionInv(s)
    ensures Distinct(s.q.items)
  {
  }

  lemma CompletedKeeps(s: Session)
    requires SessionInv(s)
    ensures SessionInv(Completed(s))
  {
    assert WaitingSeqs([]) == {};
    QueueDistinct(s);
    if !s.q.Unavailable() && s.q.inFlight && s.q.items != [] {
      WaitingSeqsSplit(s.q.items, 1);
    }
  }

  lemma WaitingSeqsAppend(ds: seq<Delivery>, d: Delivery)
    ensures WaitingSeqs(ds + [d]) == WaitingSeqs(ds) + if d.waiting then {d.sequence} else {}
  {
    forall x | x in WaitingSeqs(ds) ensures x in WaitingSeqs(ds + [d]) {
      var y :| y in ds && y.waiting && y.sequence == x;
      assert y in ds + [d];
    }
    assert d in ds + [d];
  }

  lemma QueuedKeeps(s: Session, d: Delivery)
    requires SessionInv(s)
    requires forall x :: x in s.accepted ==> x.sequence != d.sequence
    ensures SessionInv(Queued(s, d).0)
  {
    var (s', result) := Queued(s, d);
    if result.Accepted? {
      var from := |s.started| - if s.q.inFlight then 1 else 0;
      assert InOrder(s') by {
        assert s'.accepted[from..] == s.accepted[from..] + [d];
      }
      assert Conserved(s') by {
        WaitingSeqsAppend(s.accepted, d);
        WaitingSeqsAppend(s.q.items, d);
        assert d.sequence !in WaitingSeqs(s.accepted);
      }
    }
  }

  lemma BegunKeeps(s: Session)
    requires SessionInv(s) && s.pc.Draining?
    ensures SessionInv(Begun(s))
  {
    if CanBegin(s.q) {
      assert s.q.items[0] == s.accepted[|s.started|];
    }
  }

  lemma FinishedKeeps(s: Session, outcome: Outcome)
    requires SessionInv(s) && s.pc.Delivering?
    ensures SessionInv(Finished(s, outcome))
  {
    if !s.q.stopped {
      HeadAlwaysMatches(s);
      QueueDistinct(s);
      WaitingSeqsSplit(s.q.items, 1);
      assert s.q.items[..1] == [s.pc.d];
      assert WaitingSeqs([s.pc.d]) == if s.pc.d.waiting then {s.pc.d.sequence} else {};
      if s.q.completing {
        assert s.q.items[1..] == [];
      }
    }
  }

  lemma AnsweredKeeps(s: Session)
    requires SessionInv(s) && s.pc.Responding?
    ensures s.pc.d.waiting ==> CanSend(s, s.pc.d.sequence)
    ensures SessionInv(Answered(s))
  {
    assert Conserved(Answered(s));
  }

  lemma RejectionKeeps(s: Session, sequence: nat)
    requires SessionInv(s) && sequence in s.rejecting
    ensures CanSend(s, sequence)
    ensures SessionInv(s.(rejecting := s.rejecting - {sequence}, answers := s.answers[sequence := Invalidated]))
  {
    assert Conserved(s.(rejecting := s.rejecting - {sequence}, answers := s.answers[sequence := Invalidated]));
  }

  lemma SessionStepKeeps(s: Session, a: Action)
    requires SessionInv(s)
    ensures SessionInv(SessionStep(s, a))
  {
    match a
    case BeginCallback(_) => if s.pc.Draining? { BegunKeeps(s); }
    case CallbackReturns(_, outcome) => if s.pc.Delivering? { FinishedKeeps(s, outcome); }
    case SendAnswer(_) => if s.pc.Responding? { AnsweredKeeps(s); }
    case SendRejection(_, sequence) => if sequence in s.rejecting { RejectionKeeps(s, sequence); }
    case Wake(_) => assert Conserved(SessionStep(s, a));
    case TakeNotify(_) => assert Conserved(SessionStep(s, a));
    case ObserveCancel(_) => assert Conserved(SessionStep(s, a));
    case _ =>
  }

  // ---------------------------------------------------------------- invariant of the broker

  ghost predicate SessionsOk(b: Broker) { forall w :: 0 <= w < |b.pool| ==> SessionInv(b.pool[w]) }

  /** The worker table holds exactly the workers whose goroutine has not been retired. */
  ghost predicate TableOk(b: Broker) {
    && (forall k :: k in b.workers ==> b.workers[k] < |b.pool| && b.pool[b.workers[k]].key == k)
    && (forall w :: 0 <= w < |b.pool| ==>
          (b.pool[w].pc.Gone? <==> !(b.pool[w].key in b.workers && b.workers[b.pool[w].key] == w)))
  }

  ghost predicate FreshOk(b: Broker) {
    && (forall n :: n in b.publishing ==> n <= b.next && b.publishing[n].0 < |b.pool|)
    && (forall n :: n in b.overruns ==> b.overruns[n] < |b.pool|)
    && (forall w, d :: 0 <= w < |b.pool| && d in b.pool[w].accepted ==>
         d.sequence <= b.next && d.sequence !in b.publishing)
  }

  ghost predicate ShutdownOk(b: Broker) {
    && (b.lock.Closing? ==> b.closed)
    && (b.lock.Applying? ==> !b.closed)
    && (b.closed ==> forall w :: 0 <= w < |b.pool| && !b.pool[w].q.stopped ==>
         b.lock.Closing? && b.pool[w].key in b.lock.todo)
  }

  ghost predicate BrokerInv(b: Broker) { SessionsOk(b) && TableOk(b) && FreshOk(b) && ShutdownOk(b) }

  /** What an update of one worker must respect for the broker's invariant to survive. */
  ghost predicate GoodUpdate(b: Broker, w: nat, s: Session)
    requires w < |b.pool|
  {
    && SessionInv(s)
    && s.key == b.pool[w].key
    && s.pc.Gone? == b.pool[w].pc.Gone?
    && (b.pool[w].q.stopped ==> s.q.stopped)
    && (forall d :: d in s.accepted ==> d.sequence <= b.next && d.sequence !in b.publishing)
  }

  lemma PutKeeps(b: Broker, w: nat, s: Session)
    requires BrokerInv(b) && w < |b.pool| && GoodUpdate(b, w, s)
    ensures BrokerInv(Put(b, w, s))
  {
  }

  lemma FailKeeps(b: Broker, w: nat)
    requires BrokerInv(b) && w < |b.pool|
    ensures BrokerInv(Fail(b, w))
    ensures b.pool[w].pc.Failing? ==> Fail(b, w).pool[w].q.stopped
  {
    var s := b.pool[w];
    StoppedKeeps(s);
    if !(s.key !in b.workers || b.workers[s.key] != w || s.q.Unavailable()) {
      PutKeeps(b, w, Stopped(s));
    }
  }

  lemma NewWorkerKeeps(b: Broker, key: SessionKey)
    requires BrokerInv(b) && !b.closed && key !in b.workers
    ensures BrokerInv(b.(pool := b.pool + [NewSession(key)], workers := b.workers[key := |b.pool|]))
  {
    NewSessionOk(key);
    hide SessionInv;
    var b' := b.(pool := b.pool + [NewSession(key)], workers := b.workers[key := |b.pool|]);
    assert SessionsOk(b');
    assert TableOk(b');
    assert FreshOk(b');
  }

  lemma NewSessionOk(key: SessionKey)
    ensures SessionInv(NewSession(key))
  {
    assert Conserved(NewSession(key));
  }

  lemma PublishKeeps(b: Broker, a: Action)
    requires BrokerInv(b) && b.lock.Free? && a.Publish?
    ensures BrokerInv(PublishStep(b, a))
  {
    hide SessionInv;
    if b.closed || a.instanceId !in b.targets { return; }
    var key := SessionKey(b.targets[a.instanceId], a.instanceId, a.generation, a.token);
    if key !in b.workers { NewWorkerKeeps(b, key); }
  }

  lemma QueuePublishedKeeps(b: Broker, sequence: nat)
    requires BrokerInv(b)
    ensures BrokerInv(QueuePublishedStep(b, sequence))
  {
    hide SessionInv;
    hide TableOk;
    hide ShutdownOk;
    if sequence in b.publishing {
      var (w, waiting) := b.publishing[sequence];
      var (s, result) := Queued(b.pool[w], Delivery(sequence, waiting));
      QueuedKeeps(b.pool[w], Delivery(sequence, waiting));
      QueuedFrame(b.pool[w], Delivery(sequence, waiting));
      hide Queued;
      var b1 := b.(publishing := WithoutKey(b.publishing, sequence));
      UnpublishKeeps(b, sequence);
      assert GoodUpdate(b1, w, s);
      PutKeeps(b1, w, s);
      OverrunKeeps(Put(b1, w, s), sequence, w);
      hide BrokerInv;
    }
  }

  lemma OverrunKeeps(b: Broker, sequence: nat, w: nat)
    requires BrokerInv(b) && w < |b.pool|
    ensures BrokerInv(b.(overruns := b.overruns[sequence := w]))
  {
    hide SessionInv;
  }

  lemma QueuedFrame(s: Session, d: Delivery)
    ensures var t := Queued(s, d).0;
      && t.key == s.key && t.pc == s.pc && t.q.stopped == s.q.stopped
      && (t.accepted == s.accepted || t.accepted == s.accepted + [d])
  {
  }

  lemma UnpublishKeeps(b: Broker, sequence: nat)
    requires BrokerInv(b)
    ensures BrokerInv(b.(publishing := WithoutKey(b.publishing, sequence)))
  {
    hide SessionInv;
  }

  /** The session table after a retirement, apart from the rest of the invariant. */
  lemma RetireTable(b: Broker, w: nat)
    requires TableOk(b) && b.lock.Free? && w < |b.pool| && b.pool[w].pc.Returning?
    ensures TableOk(LockedStep(b, Retire(w)))
  {
  }

  lemma GoneOk(s: Session)
    requires SessionInv(s) && s.pc.Returning? && s.rejecting == {}
    ensures SessionInv(s.(pc := Gone)) && s.q.stopped
  {
    assert Conserved(s.(pc := Gone));
  }

  lemma RetireKeeps(b: Broker, w: nat)
    requires BrokerInv(b) && b.lock.Free? && w < |b.pool| && b.pool[w].pc.Returning? && b.pool[w].rejecting == {}
    ensures BrokerInv(LockedStep(b, Retire(w)))
  {
    hide SessionInv;
    RetireTable(b, w);
    GoneOk(b.pool[w]);
    assert SessionsOk(LockedStep(b, Retire(w)));
  }

  lemma ReturningOk(s: Session)
    requires SessionInv(s) && s.pc.Failing? && s.q.stopped
    ensures SessionInv(s.(pc := Returning))
  {
    assert Conserved(s.(pc := Returning));
  }

  lemma ReportFailureKeeps(b: Broker, w: nat)
    requires BrokerInv(b) && b.lock.Free? && w < |b.pool| && b.pool[w].pc.Failing?
    ensures BrokerInv(LockedStep(b, ReportFailure(w)))
  {
    hide SessionInv;
    FailKeeps(b, w);
    var f := Fail(b, w);
    assert f.pool[w].pc.Failing?;
    ReturningOk(f.pool[w]);
    hide Fail;
    PutKeeps(f, w, f.pool[w].(pc := Returning));
  }

  lemma StopByKeyKeeps(b: Broker, key: SessionKey)
    requires BrokerInv(b) && key in b.workers
    ensures BrokerInv(Put(b, b.workers[key], Stopped(b.pool[b.workers[key]])))
    ensures forall w :: 0 <= w < |b.pool| && b.pool[w].key == key && w != b.workers[key] ==> b.pool[w].q.stopped
  {
    StoppedKeeps(b.pool[b.workers[key]]);
    PutKeeps(b, b.workers[key], Stopped(b.pool[b.workers[key]]));
  }

  lemma CompleteByKeyKeeps(b: Broker, key: SessionKey)
    requires BrokerInv(b) && key in b.workers
    ensures BrokerInv(Put(b, b.workers[key], Completed(b.pool[b.workers[key]])))
  {
    CompletedKeeps(b.pool[b.workers[key]]);
    PutKeeps(b, b.workers[key], Completed(b.pool[b.workers[key]]));
  }

  lemma CancelKeeps(b: Broker, key: SessionKey)
    requires BrokerInv(b) && b.lock.Free?
    ensures BrokerInv(LockedStep(b, CancelSession(key)))
  {
    hide SessionInv;
    hide Stopped;
    if key in b.workers { StopByKeyKeeps(b, key); }
  }

  lemma CompleteKeeps(b: Broker, key: SessionKey)
    requires BrokerInv(b) && b.lock.Free?
    ensures BrokerInv(LockedStep(b, CompleteSession(key)))
  {
    hide SessionInv;
    hide Completed;
    if key in b.workers { CompleteByKeyKeeps(b, key); }
  }

  lemma NotRejecting(b: Broker, w: nat)
    requires !Rejecting(b) && w < |b.pool|
    ensures b.pool[w].rejecting == {}
  {
  }

  lemma LockedStepKeeps(b: Broker, a: Action)
    requires BrokerInv(b) && b.lock.Free? && !Rejecting(b)
    ensures BrokerInv(LockedStep(b, a))
  {
    hide SessionInv;
    hide Rejecting;
    match a
    case ReportOverrun(sequence) => if sequence in b.overruns { FailKeeps(b, b.overruns[sequence]); }
    case ReportFailure(w) => if w < |b.pool| && b.pool[w].pc.Failing? { ReportFailureKeeps(b, w); }
    case Retire(w) =>
      if w < |b.pool| && b.pool[w].pc.Returning? {
        NotRejecting(b, w);
        RetireKeeps(b, w);
      }
    case CancelSession(key) => CancelKeeps(b, key);
    case CompleteSession(key) => CompleteKeeps(b, key);
    case Publish(_, _, _, _, _) => PublishKeeps(b, a);
    case BeginApply(_) => BeginRegionKeeps(b, a);
    case BeginClose => BeginRegionKeeps(b, a);
    case _ =>
  }

  lemma BeginRegionKeeps(b: Broker, a: Action)
    requires BrokerInv(b) && b.lock.Free? && (a.BeginApply? || a.BeginClose?)
    ensures BrokerInv(LockedStep(b, a))
  {
    assert forall w :: 0 <= w < |b.pool| && b.pool[w].pc.Gone? ==> b.pool[w].q.stopped;
    hide SessionInv;
  }

  lemma DropTodoKeeps(b: Broker, key: SessionKey)
    requires BrokerInv(b) && !b.lock.Free?
    requires forall w :: 0 <= w < |b.pool| && b.pool[w].key == key ==> b.pool[w].q.stopped
    ensures BrokerInv(DropTodo(b, key))
  {
    hide SessionInv;
  }

  lemma StopNextKeeps(b: Broker, key: SessionKey)
    requires BrokerInv(b) && !b.lock.Free? && key in b.lock.todo
    ensures BrokerInv(RegionStep(b, StopNext(key)))
  {
    assert forall w :: 0 <= w < |b.pool| && b.pool[w].key == key && b.pool[w].pc.Gone? ==> b.pool[w].q.stopped;
    hide SessionInv;
    if key in b.workers {
      StopByKeyKeeps(b, key);
      DropTodoKeeps(Put(b, b.workers[key], Stopped(b.pool[b.workers[key]])), key);
    } else {
      DropTodoKeeps(b, key);
    }
  }

  lemma RegionStepKeeps(b: Broker, a: Action)
    requires BrokerInv(b) && !b.lock.Free?
    ensures BrokerInv(RegionStep(b, a))
  {
    if a.StopNext? && a.key in b.lock.todo { StopNextKeeps(b, a.key); }
  }

  lemma StepKeeps(b: Broker, a: Action)
    requires BrokerInv(b)
    ensures BrokerInv(Step(b, a))
  {
    hide SessionInv;
    hide LockedStep;
    hide RegionStep;
    hide QueuePublishedStep;
    if IsSessionStep(a) {
      if a.w < |b.pool| {
        SessionStepKeeps(b.pool[a.w], a);
        PutKeeps(b, a.w, SessionStep(b.pool[a.w], a));
      }
    } else if a.QueuePublished? {
      QueuePublishedKeeps(b, a.sequence);
    } else if Rejecting(b) {
    } else if b.lock.Free? {
      LockedStepKeeps(b, a);
    } else {
      RegionStepKeeps(b, a);
    }
  }

  lemma {:induction false} RunKeeps(actions: seq<Action>)
    ensures BrokerInv(Run(actions))
  {
    if actions != [] {
      RunKeeps(actions[..|actions| - 1]);
      StepKeeps(Run(actions[..|actions| - 1]), actions[|actions| - 1]);
    }
  }

  // ---------------------------------------------------------------- what every run guarantees

  lemma WaiterIsSomewhere(s: Session, d: Delivery)
    requires SessionInv(s) && d in s.accepted && d.waiting
    ensures d.sequence in s.answers <==>
              !(d in s.q.items || d.sequence in s.rejecting || (s.pc.Responding? && s.pc.d == d))
    ensures s.pc.Gone? ==> d.sequence in s.answers
    ensures d.sequence in s.answers && s.answers[d.sequence].Delivered? ==> d in s.started
  {
    assert d.sequence in WaitingSeqs(s.accepted);
    assert forall x :: x in s.accepted && x.sequence == d.sequence ==> x == d;
    assert forall x :: x in s.q.items || x in s.started ==> x in s.accepted;
    if d in s.q.items { assert d.sequence in WaitingSeqs(s.q.items); }
  }

  /** A waiting input that was accepted is, at every moment, unanswered in exactly one place or
      answered; once its worker has ended it has its answer. */
  lemma WaitersAreAnswered(actions: seq<Action>, w: nat, d: Delivery)
    requires w < |Run(actions).pool| && d in Run(actions).pool[w].accepted && d.waiting
    ensures var s := Run(actions).pool[w];
            && (d.sequence in s.answers <==>
                  !(d in s.q.items || d.sequence in s.rejecting || (s.pc.Responding? && s.pc.d == d)))
            && (s.pc.Gone? ==> d.sequence in s.answers)
            && (d.sequence in s.answers && s.answers[d.sequence].Delivered? ==> d in s.started)
  {
    RunKeeps(actions);
    WaiterIsSomewhere(Run(actions).pool[w], d);
  }

  /** Every send on a one-slot response channel finds the slot empty. */
  lemma SendsNeverBlock(actions: seq<Action>, w: nat)
    requires w < |Run(actions).pool|
    ensures SendsOpen(Run(actions).pool[w])
  {
    RunKeeps(actions);
    SendsAreOpen(Run(actions), w);
  }

  lemma OneLiveWorkerPerSession(actions: seq<Action>, v: nat, w: nat)
    requires v < |Run(actions).pool| && w < |Run(actions).pool|
    requires Run(actions).pool[v].key == Run(actions).pool[w].key
    requires !Run(actions).pool[v].pc.Gone? && !Run(actions).pool[w].pc.Gone?
    ensures v == w
  {
    RunKeeps(actions);
  }

  /** Callbacks start in queue order, one at a time, from a bounded queue. */
  lemma DeliversInQueueOrder(actions: seq<Action>, w: nat)
    requires w < |Run(actions).pool|
    ensures var s := Run(actions).pool[w];
            && s.started <= s.accepted
            && |s.q.items| <= INTERACTION_QUEUE_SIZE
            && (!s.q.Unavailable() ==>
                  var finished := |s.started| - if s.pc.Delivering? then 1 else 0;
                  0 <= finished && s.q.items == s.accepted[finished..])
  {
    RunKeeps(actions);
  }

  /** A worker asleep over a non-empty queue has been, or is about to be, woken. */
  lemma NoMissedWakeup(actions: seq<Action>, w: nat)
    requires w < |Run(actions).pool|
    ensures var s := Run(actions).pool[w];
            s.pc.Waiting? && !s.q.stopped && s.q.items != [] ==> s.notify || s.wakes > 0
  {
    RunKeeps(actions);
  }

  /** The head-mismatch branch of `finish` is never taken. */
  lemma HeadMismatchUnreachable(actions: seq<Action>, w: nat)
    requires w < |Run(actions).pool|
    ensures var s := Run(actions).pool[w];
            s.pc.Delivering? && !s.q.stopped ==> HeadMatches(s.q, s.pc.d.sequence)
  {
    RunKeeps(actions);
    var s := Run(actions).pool[w];
    if s.pc.Delivering? && !s.q.stopped { HeadAlwaysMatches(s); }
  }

  /** A worker leaves `run` only after it has been stopped, and Close stops every worker. */
  lemma EndedMeansStopped(actions: seq<Action>, w: nat)
    requires w < |Run(actions).pool|
    ensures var b := Run(actions);
            && (b.pool[w].pc.Returning? || b.pool[w].pc.Gone? ==> b.pool[w].q.stopped)
            && (b.closed && b.lock.Free? ==> b.pool[w].q.stopped)
  {
    RunKeeps(actions);
  }

  /** Histories only grow, answers never change, and a stopped worker accepts and starts nothing more. */
  ghost predicate Extends(s: Session, s': Session) {
    && s'.key == s.key
    && s.accepted <= s'.accepted && s.started <= s'.started
    && (forall n :: n in s.answers ==> n in s'.answers && s'.answers[n] == s.answers[n])
    && (s.q.stopped ==> s'.q.stopped && s'.accepted == s.accepted && s'.started == s.started)
  }

  ghost predicate BrokerExtends(b: Broker, b': Broker) {
    && |b.pool| <= |b'.pool|
    && (forall w :: 0 <= w < |b.pool| ==> Extends(b.pool[w], b'.pool[w]))
    && (b.closed ==> b'.closed && |b'.pool| == |b.pool|)
  }

  lemma SessionStepExtends(s: Session, a: Action)
    ensures Extends(s, SessionStep(s, a))
  {
  }

  lemma LockedStepExtends(b: Broker, a: Action)
    requires b.lock.Free?
    ensures BrokerExtends(b, LockedStep(b, a))
  {
    hide Extends;
    if a.ReportOverrun? {
      if a.sequence in b.overruns && b.overruns[a.sequence] < |b.pool| {
        FailExtends(b, b.overruns[a.sequence]);
      } else {
        SelfExtends(b);
      }
    } else if a.ReportFailure? {
      ReportFailureExtends(b, a.w);
    } else if a.Retire? {
      RetireExtends(b, a.w);
    } else if a.CancelSession? || a.CompleteSession? {
      DepartureExtends(b, a);
    } else if a.Publish? {
      PublishExtends(b, a);
    } else {
      SelfExtends(b);
    }
  }

  lemma SelfExtends(b: Broker)
    ensures BrokerExtends(b, b)
  {
  }

  lemma RetireExtends(b: Broker, w: nat)
    ensures BrokerExtends(b, LockedStep(b, Retire(w)))
  {
    if w < |b.pool| { PutExtends(b, w, b.pool[w].(pc := Gone)); }
    SelfExtends(b);
    hide Extends;
  }

  lemma ReportFailureExtends(b: Broker, w: nat)
    ensures BrokerExtends(b, LockedStep(b, ReportFailure(w)))
  {
    if w < |b.pool| && b.pool[w].pc.Failing? {
      FailExtends(b, w);
      var f := Fail(b, w);
      assert Extends(b.pool[w], f.pool[w].(pc := Returning));
      hide Extends;
      hide Fail;
    } else {
      SelfExtends(b);
    }
  }

  lemma DepartureExtends(b: Broker, a: Action)
    requires a.CancelSession? || a.CompleteSession?
    ensures BrokerExtends(b, LockedStep(b, a))
  {
    SelfExtends(b);
    if a.key in b.workers && b.workers[a.key] < |b.pool| {
      var w := b.workers[a.key];
      StopExtends(b.pool[w]);
      PutExtends(b, w, Stopped(b.pool[w]));
      PutExtends(b, w, Completed(b.pool[w]));
    }
    hide Extends;
    hide Stopped;
    hide Completed;
  }

  lemma PublishExtends(b: Broker, a: Action)
    requires a.Publish?
    ensures BrokerExtends(b, PublishStep(b, a))
  {
    SelfExtends(b);
    hide Extends;
  }

  lemma PutExtends(b: Broker, w: nat, s: Session)
    requires w < |b.pool| && Extends(b.pool[w], s)
    ensures BrokerExtends(b, Put(b, w, s))
  {
  }

  lemma FailExtends(b: Broker, w: nat)
    requires w < |b.pool|
    ensures BrokerExtends(b, Fail(b, w)) && |Fail(b, w).pool| == |b.pool|
  {
    StopExtends(b.pool[w]);
    PutExtends(b, w, Stopped(b.pool[w]));
    hide Stopped;
  }

  lemma StopExtends(s: Session)
    ensures Extends(s, Stopped(s)) && Extends(s, Completed(s))
  {
  }

  lemma StepExtends(b: Broker, a: Action)
    ensures BrokerExtends(b, Step(b, a))
  {
    hide Extends;
    SelfExtends(b);
    if IsSessionStep(a) {
      if a.w < |b.pool| {
        SessionStepExtends(b.pool[a.w], a);
        PutExtends(b, a.w, SessionStep(b.pool[a.w], a));
      }
    } else if a.QueuePublished? {
      QueueExtends(b, a.sequence);
    } else if Rejecting(b) {
    } else if b.lock.Free? {
      LockedStepExtends(b, a);
    } else {
      RegionExtends(b, a);
    }
    hide SessionStep;
    hide LockedStep;
    hide RegionStep;
    hide QueuePublishedStep;
  }

  lemma QueueExtends(b: Broker, sequence: nat)
    ensures BrokerExtends(b, QueuePublishedStep(b, sequence))
  {
    SelfExtends(b);
    if sequence in b.publishing && b.publishing[sequence].0 < |b.pool| {
      var (w, waiting) := b.publishing[sequence];
      PutExtends(b, w, Queued(b.pool[w], Delivery(sequence, waiting)).0);
    }
    hide Extends;
  }

  lemma RegionExtends(b: Broker, a: Action)
    requires !b.lock.Free?
    ensures BrokerExtends(b, RegionStep(b, a))
  {
    SelfExtends(b);
    if a.StopNext? && a.key in b.workers && b.workers[a.key] < |b.pool| {
      var w := b.workers[a.key];
      StopExtends(b.pool[w]);
      PutExtends(b, w, Stopped(b.pool[w]));
    }
    hide Extends;
    hide Stopped;
  }

  function RunFrom(b: Broker, actions: seq<Action>): Broker
    decreases |actions|
  {
    if actions == [] then b else RunFrom(Step(b, actions[0]), actions[1..])
  }

  lemma {:induction false} RunFromKeeps(b: Broker, actions: seq<Action>)
    requires BrokerInv(b)
    ensures BrokerInv(RunFrom(b, actions)) && BrokerExtends(b, RunFrom(b, actions))
    decreases |actions|
  {
    if actions != [] {
      StepKeeps(b, actions[0]);
      StepExtends(b, actions[0]);
      hide BrokerInv;
      RunFromKeeps(Step(b, actions[0]), actions[1..]);
    }
  }

  lemma {:induction false} RunSplits(actions: seq<Action>, more: seq<Action>)
    ensures Run(actions + more) == RunFrom(Run(actions), more)
    decreases |more|
  {
    if more == [] {
      assert actions + more == actions;
    } else {
      var first := actions + [more[0]];
      assert first[..|first| - 1] == actions;
      assert actions + more == first + more[1..];
      RunSplits(first, more[1..]);
    }
  }

  /** Nothing a later run does takes back or repeats an answer, reorders what was started, or
      starts a callback on a worker already stopped. */
  lemma HistoryIsFinal(actions: seq<Action>, more: seq<Action>)
    ensures BrokerExtends(Run(actions), Run(actions + more))
  {
    RunKeeps(actions);
    RunSplits(actions, more);
    RunFromKeeps(Run(actions), more);
  }

  // ---------------------------------------------------------------- a stopped worker can always finish

  function Rank(pc: Pc): nat {
    match pc
    case Responding(_, _, _) => 4
    case Draining => 3
    case Waiting => 2
    case Delivering(_) => 2
    case Failing => 2
    case Returning => 1
    case Gone => 0
  }

  /** The rejections still to be sent, over all workers. */
  function Outstanding(pool: seq<Session>): nat {
    if pool == [] then 0 else Outstanding(pool[..|pool| - 1]) + |pool[|pool| - 1].rejecting|
  }

  /** The steps a goroutine holding the broker lock still has to take. */
  function LockLeft(lock: Lock): nat { if lock.Free? then 0 else 1 + |lock.todo| }

  lemma {:induction false} OutstandingPut(pool: seq<Session>, w: nat, s: Session)
    requires w < |pool|
    ensures Outstanding(pool[w := s]) == Outstanding(pool) - |pool[w].rejecting| + |s.rejecting|
  {
    var n := |pool| - 1;
    if w < n {
      OutstandingPut(pool[..n], w, s);
      assert pool[w := s][..n] == pool[..n][w := s];
    } else {
      assert pool[w := s][..n] == pool[..n];
    }
  }

  /** The next step of a worker's own goroutine once it is stopped. */
  function WorkerAction(pc: Pc, w: nat): Action {
    match pc
    case Responding(_, _, _) => SendAnswer(w)
    case Draining => BeginCallback(w)
    case Waiting => ObserveCancel(w)
    case Delivering(_) => CallbackReturns(w, Failed(0))
    case Failing => ReportFailure(w)
    case Returning => Retire(w)
    case Gone => Retire(w)
  }

  ghost predicate SendsOpen(s: Session) {
    && (forall n :: n in s.rejecting ==> CanSend(s, n))
    && (s.pc.Responding? && s.pc.d.waiting ==> CanSend(s, s.pc.d.sequence))
  }

  lemma SendsAreOpen(b: Broker, w: nat)
    requires BrokerInv(b) && w < |b.pool|
    ensures SendsOpen(b.pool[w])
  {
  }

  /** Nearer the end: the lock holder has less to do, or fewer rejections are outstanding, or worker w is
      further on. */
  predicate Nearer(b: Broker, b': Broker, w: nat)
    requires w < |b.pool| && w < |b'.pool|
  {
    || LockLeft(b'.lock) < LockLeft(b.lock)
    || (LockLeft(b'.lock) == LockLeft(b.lock) && Outstanding(b'.pool) < Outstanding(b.pool))
    || (LockLeft(b'.lock) == LockLeft(b.lock) && Outstanding(b'.pool) == Outstanding(b.pool)
        && Rank(b'.pool[w].pc) < Rank(b.pool[w].pc))
  }

  lemma RejectionProgress(b: Broker, w: nat, v: nat, n: nat)
    requires w < |b.pool| && v < |b.pool| && n in b.pool[v].rejecting && CanSend(b.pool[v], n)
    ensures var b' := Step(b, SendRejection(v, n)); |b'.pool| == |b.pool| && Nearer(b, b', w)
  {
    var s' := SessionStep(b.pool[v], SendRejection(v, n));
    assert |s'.rejecting| == |b.pool[v].rejecting| - 1;
    OutstandingPut(b.pool, v, s');
  }

  lemma RegionProgress(b: Broker, w: nat) returns (a: Action)
    requires !b.lock.Free? && w < |b.pool| && !Rejecting(b)
    ensures var b' := Step(b, a); |b'.pool| == |b.pool| && Nearer(b, b', w)
  {
    hide Outstanding;
    hide Rank;
    hide Stopped;
    if key :| key in b.lock.todo {
      a := StopNext(key);
      StopNextFrame(b, key);
      hide Step;
    } else {
      a := EndRegion;
      EndRegionFrame(b);
      hide Step;
    }
  }

  lemma StopNextFrame(b: Broker, key: SessionKey)
    requires !b.lock.Free? && !Rejecting(b) && key in b.lock.todo
    ensures var b' := Step(b, StopNext(key)); |b'.pool| == |b.pool| && LockLeft(b'.lock) < LockLeft(b.lock)
  {
    hide Rejecting;
    hide Stopped;
    assert |b.lock.todo - {key}| == |b.lock.todo| - 1;
  }

  lemma EndRegionFrame(b: Broker)
    requires !b.lock.Free? && !Rejecting(b) && b.lock.todo == {}
    ensures var b' := Step(b, EndRegion); b'.pool == b.pool && LockLeft(b'.lock) < LockLeft(b.lock)
  {
    hide Rejecting;
  }

  lemma SessionProgress(s: Session, w: nat)
    requires SendsOpen(s) && s.q.stopped && !s.pc.Failing? && !s.pc.Returning? && !s.pc.Gone?
    ensures IsSessionStep(WorkerAction(s.pc, w)) && WorkerAction(s.pc, w).w == w
    ensures var s' := SessionStep(s, WorkerAction(s.pc, w)); s'.rejecting == s.rejecting && Rank(s'.pc) < Rank(s.pc)
  {
  }

  lemma WorkerProgress(b: Broker, w: nat)
    requires b.lock.Free? && w < |b.pool| && b.pool[w].q.stopped && SendsOpen(b.pool[w]) && !b.pool[w].pc.Gone?
      && !Rejecting(b)
    ensures var b' := Step(b, WorkerAction(b.pool[w].pc, w)); |b'.pool| == |b.pool| && Nearer(b, b', w)
  {
    hide LockedStep;
    hide SessionStep;
    hide Rejecting;
    var s := b.pool[w];
    if s.pc.Failing? {
      FailingProgress(b, w);
      OutstandingPut(b.pool, w, s.(pc := Returning));
    } else if s.pc.Returning? {
      ReturningProgress(b, w);
      OutstandingPut(b.pool, w, s.(pc := Gone));
    } else {
      SessionProgress(s, w);
      OutstandingPut(b.pool, w, SessionStep(s, WorkerAction(s.pc, w)));
    }
  }

  lemma ReturningProgress(b: Broker, w: nat)
    requires b.lock.Free? && w < |b.pool| && b.pool[w].pc.Returning? && !Rejecting(b)
    ensures Step(b, Retire(w)).pool == b.pool[w := b.pool[w].(pc := Gone)] && Step(b, Retire(w)).lock.Free?
  {
  }

  lemma FailingProgress(b: Broker, w: nat)
    requires b.lock.Free? && w < |b.pool| && b.pool[w].q.stopped && b.pool[w].pc.Failing? && !Rejecting(b)
    ensures Step(b, ReportFailure(w)) == Put(b, w, b.pool[w].(pc := Returning))
  {
    assert b.pool[w := b.pool[w].(pc := Returning)] == Fail(b, w).pool[w := b.pool[w].(pc := Returning)];
  }

  /** In every reachable state some step brings a stopped worker nearer its end: sending an outstanding
      rejection, finishing the region that holds the broker lock, or a step of its own. */
  lemma StoppedProgress(b: Broker, w: nat) returns (a: Action)
    requires BrokerInv(b) && w < |b.pool| && b.pool[w].q.stopped && !b.pool[w].pc.Gone?
    ensures w < |Step(b, a).pool| && Nearer(b, Step(b, a), w)
  {
    if Rejecting(b) {
      var v :| 0 <= v < |b.pool| && b.pool[v].rejecting != {};
      var n :| n in b.pool[v].rejecting;
      SendsAreOpen(b, v);
      hide BrokerInv;
      hide Step;
      a := SendRejection(v, n);
      RejectionProgress(b, w, v, n);
    } else {
      SendsAreOpen(b, w);
      hide BrokerInv;
      hide Step;
      if b.lock.Free? {
        a := WorkerAction(b.pool[w].pc, w);
        WorkerProgress(b, w);
      } else {
        a := RegionProgress(b, w);
      }
    }
  }

  lemma GoneIsAnswered(b: Broker, w: nat)
    requires BrokerInv(b) && w < |b.pool| && b.pool[w].pc.Gone?
    ensures WaitingSeqs(b.pool[w].accepted) == b.pool[w].answers.Keys
  {
    assert WaitingSeqs([]) == {};
  }

  /** From every reachable state a stopped worker can end with every waiter answered: nothing it needs is
      ever blocked, whoever holds the broker lock. */
  lemma {:induction false} StoppedWorkerCanEnd(b: Broker, w: nat) returns (more: seq<Action>)
    requires BrokerInv(b) && w < |b.pool| && b.pool[w].q.stopped
    ensures var b' := RunFrom(b, more);
            && w < |b'.pool| && b'.pool[w].pc.Gone?
            && b'.pool[w].accepted == b.pool[w].accepted
            && WaitingSeqs(b.pool[w].accepted) == b'.pool[w].answers.Keys
    decreases LockLeft(b.lock), Outstanding(b.pool), Rank(b.pool[w].pc)
  {
    hide BrokerInv;
    hide Step;
    hide Outstanding;
    hide LockLeft;
    if b.pool[w].pc.Gone? {
      more := [];
      GoneIsAnswered(b, w);
    } else {
      var a := StoppedProgress(b, w);
      StepKeeps(b, a);
      StepExtends(b, a);
      more := StoppedWorkerCanEnd(Step(b, a), w);
      more := [a] + more;
    }
  }
}
