/** Reconciliation attempts (internal/daemon/reconciler_apply.go, reconciler_retry.go, live_state.go).

    The live state is guarded by a lock, but resolving secrets, applying plugins and finalizing
    happen outside it. Epoch, attempt and revision numbers decide under the lock whether work that
    comes back still counts. Every lock-held region is one action; attempts interleave freely. */
module ReconcileAttempts {

  datatype Option<T> = None | Some(value: T)

  datatype App = App(pluginId: string, enabled: bool, generation: nat)

  type Document = map<string, App>

  /** Ready instances: plugin and app identity to the app's generation. */
  type Specs = map<(string, string), nat>

  datatype Candidate = Candidate(epoch: nat, revision: nat, plan: Specs)

  /** Where an attempt is between lock-held regions. */
  datatype Phase =
    | Resolving                                  // building a plan for its epoch's document
    | Ready(revision: nat)                       // about to check that it is still current
    | Applying(revision: nat, specs: Specs)      // inside the plugin host
    | Accepted(revision: nat)                    // accepted, attention not yet reconciled
    | Finalizing(revision: nat)                  // second check passed, assets being reconciled
    | Ending                                     // about to run its finish function

  datatype Attempt = Attempt(epoch: nat, phase: Phase)

  datatype LiveState = LiveState(
    document: Document, generations: Specs, specs: Specs,
    epoch: nat, activeAttempt: nat, nextAttempt: nat, nextRevision: nat,
    accepted: nat, finalized: nat, candidate: Option<Candidate>, correction: nat, closing: bool)

  /** The live state, the attempts in progress, and what was ever accepted as a document or staged. */
  datatype System = System(
    live: LiveState, attempts: map<nat, Attempt>, documents: map<nat, Document>, staged: map<nat, Candidate>)

  const INIT := System(
    LiveState(map[], map[], map[], 0, 0, 0, 0, 0, 0, None, 0, false), map[], map[0 := map[]], map[])

  /** A plan holds only enabled apps of its document, under their plugin and generation. */
  predicate BuiltFrom(plan: Specs, document: Document) {
    forall k :: k in plan ==>
      k.1 in document && document[k.1].enabled && document[k.1].pluginId == k.0 && document[k.1].generation == plan[k]
  }

  predicate Submap(a: Specs, b: Specs) { forall k :: k in a ==> k in b && a[k] == b[k] }

  // ---------------------------------------------------------------- lock-held regions

  /** Accepting a document keeps the generations that are still exactly configured. */
  function Preserved(active: Specs, document: Document): Specs {
    map k | k in active && k.1 in document && document[k.1].enabled && document[k.1].pluginId == k.0
      && document[k.1].generation == active[k] :: active[k]
  }

  function AcceptDocument(l: LiveState, document: Document): LiveState {
    if l.closing then l else
    l.(epoch := l.epoch + 1, document := document, accepted := 0, finalized := 0, candidate := None, correction := 0,
       generations := Preserved(l.generations, document))
  }

  predicate MayBegin(l: LiveState, epoch: nat, replace: bool) {
    !l.closing && l.epoch == epoch && (l.activeAttempt == 0 || replace)
  }

  function BeginAttempt(l: LiveState): LiveState {
    l.(nextAttempt := l.nextAttempt + 1, activeAttempt := l.nextAttempt + 1)
  }

  predicate Owns(l: LiveState, epoch: nat, attempt: nat) {
    !l.closing && l.epoch == epoch && l.activeAttempt == attempt
  }

  function StagePlan(l: LiveState, epoch: nat, plan: Specs): LiveState {
    var revision := l.nextRevision + 1;
    l.(nextRevision := revision, candidate := Some(Candidate(epoch, revision, plan)), correction := 0)
  }

  predicate Current(l: LiveState, epoch: nat, revision: nat, attempt: nat) {
    Owns(l, epoch, attempt) && l.candidate.Some? && l.candidate.value.revision == revision
  }

  /** What happens under the lock when the plugin host returns to an attempt. */
  function HostReturned(l: LiveState, epoch: nat, revision: nat, attempt: nat, specs: Specs, ok: bool): LiveState {
    if !Current(l, epoch, revision, attempt) then
      if !l.closing && l.candidate.Some? && l.accepted == l.candidate.value.revision then l.(correction := l.accepted)
        else l
    else if !ok then
      if l.accepted == revision then l.(correction := revision) else l
    else l.(generations := specs, accepted := revision, correction := 0, specs := specs)
  }

  predicate StillAccepted(l: LiveState, epoch: nat, revision: nat) {
    !l.closing && l.epoch == epoch && l.accepted == revision
  }

  function FinalizeCommit(l: LiveState, epoch: nat, revision: nat): LiveState {
    if StillAccepted(l, epoch, revision) then l.(finalized := revision) else l
  }

  function FinalizeFailed(l: LiveState, epoch: nat, revision: nat): LiveState {
    if StillAccepted(l, epoch, revision) then l.(correction := revision) else l
  }

  function FinishAttempt(l: LiveState, attempt: nat): LiveState {
    if l.activeAttempt == attempt then l.(activeAttempt := 0) else l
  }

  /** An operation whose caller's context has ended leaves a correction behind for the candidate, accepted
      or not, unless a retry is scheduled already. */
  function CallerGaveUp(l: LiveState, epoch: nat, retryOwned: bool): LiveState {
    if l.closing || l.epoch != epoch || l.candidate.None? || l.candidate.value.epoch != epoch || retryOwned then l
    else l.(correction := l.candidate.value.revision)
  }

  /** Closing happens once. It moves to an epoch of its own and resets nothing. */
  function CloseLive(l: LiveState): LiveState { if l.closing then l else l.(closing := true, epoch := l.epoch + 1) }

  // ---------------------------------------------------------------- the machine

  datatype Action =
    | NewDocument(document: Document)
    | Resolve(epoch: nat, replace: bool)                     // begin an attempt that builds a plan
    | Reapply(revision: nat, replace: bool)                  // begin an attempt for a candidate seen earlier
    | Stage(id: nat, plan: Specs)
    | EnterHost(id: nat, specs: Specs)
    | LeaveHost(id: nat, ok: bool)
    | FirstCheck(id: nat, attentionOk: bool)
    | Commit(id: nat)
    | End(id: nat)
    | GiveUp(epoch: nat, retryOwned: bool)
    | Close

  function SetPhase(s: System, id: nat, phase: Phase): System
    requires id in s.attempts
  {
    s.(attempts := s.attempts[id := s.attempts[id].(phase := phase)])
  }

  function Begin(s: System, epoch: nat, replace: bool, phase: Phase): System {
    if !MayBegin(s.live, epoch, replace) then s
    else s.(live := BeginAttempt(s.live), attempts := s.attempts[s.live.nextAttempt + 1 := Attempt(epoch, phase)])
  }

  function Step(s: System, a: Action): System {
    var l := s.live;
    match a
    case NewDocument(document) =>
      if l.closing then s
      else s.(live := AcceptDocument(l, document), documents := s.documents[l.epoch + 1 := document])
    case Resolve(epoch, replace) => Begin(s, epoch, replace, Resolving)
    case Reapply(revision, replace) =>
      if revision in s.staged then Begin(s, s.staged[revision].epoch, replace, Ready(revision)) else s
    case GiveUp(epoch, retryOwned) => s.(live := CallerGaveUp(l, epoch, retryOwned))
    case Close => s.(live := CloseLive(l))
    case Stage(id, plan) =>
      if id !in s.attempts || !s.attempts[id].phase.Resolving? || s.attempts[id].epoch !in s.documents
         || !BuiltFrom(plan, s.documents[s.attempts[id].epoch]) then s
      else
        var epoch := s.attempts[id].epoch;
        if !Owns(l, epoch, id) then SetPhase(s, id, Ending)
        else SetPhase(s, id, Ready(l.nextRevision + 1)).(
               live := StagePlan(l, epoch, plan), staged :=
                 s.staged[l.nextRevision + 1 := Candidate(epoch, l.nextRevision + 1, plan)])
    case EnterHost(id, specs) =>
      if id !in s.attempts || !s.attempts[id].phase.Ready? then s else
      var r := s.attempts[id].phase.revision;
      if r !in s.staged || !Submap(specs, s.staged[r].plan) then s
      else if !Current(l, s.attempts[id].epoch, r, id) then SetPhase(s, id, Ending)
      else SetPhase(s, id, Applying(r, specs))
    case LeaveHost(id, ok) =>
      if id !in s.attempts || !s.attempts[id].phase.Applying? then s else
      var Attempt(epoch, Applying(r, specs)) := s.attempts[id];
      SetPhase(s, id, if Current(l, epoch, r, id) && ok then Accepted(r) else Ending).(
        live := HostReturned(l, epoch, r, id, specs, ok))
    case FirstCheck(id, attentionOk) =>
      if id !in s.attempts || !s.attempts[id].phase.Accepted? then s else
      var Attempt(epoch, Accepted(r)) := s.attempts[id];
      if StillAccepted(l, epoch, r) && attentionOk then SetPhase(s, id, Finalizing(r))
      else SetPhase(s, id, Ending).(live := FinalizeFailed(l, epoch, r))
    case Commit(id) =>
      if id !in s.attempts || !s.attempts[id].phase.Finalizing? then s else
      var Attempt(epoch, Finalizing(r)) := s.attempts[id];
      SetPhase(s, id, Ending).(live := FinalizeCommit(l, epoch, r))
    case End(id) =>
      if id !in s.attempts || !s.attempts[id].phase.Ending? then s
      else s.(live := FinishAttempt(l, id), attempts := map x | x in s.attempts && x != id :: s.attempts[x])
  }

  function Run(actions: seq<Action>): System {
    if actions == [] then INIT else Step(Run(actions[..|actions| - 1]), actions[|actions| - 1])
  }

  // ---------------------------------------------------------------- invariant

  /** The epoch in which the current document was accepted. */
  function DocumentEpoch(l: LiveState): int { if l.closing then l.epoch - 1 else l.epoch }

  /** A correction is scheduled for the accepted revision or for the candidate's. */
  predicate CorrectionOk(l: LiveState) {
    l.correction == 0 || l.correction == l.accepted || (l.candidate.Some? && l.correction == l.candidate.value.revision)
  }

  ghost predicate RevisionsOk(l: LiveState) {
    && l.finalized <= l.accepted && (l.closing ==> l.epoch >= 1)
    && (l.candidate.None? ==> l.accepted == 0)
    && (l.candidate.Some? ==> l.accepted <= l.candidate.value.revision && l.candidate.value.epoch == DocumentEpoch(l))
    && (l.candidate.Some? ==> 1 <= l.candidate.value.revision <= l.nextRevision)
    && CorrectionOk(l)
  }

  /** Everything staged was built from the document of its epoch. */
  ghost predicate HistoryOk(s: System) {
    && DocumentEpoch(s.live) in s.documents && s.documents[DocumentEpoch(s.live)] == s.live.document
    && (forall r :: r in s.staged ==>
          && 1 <= r <= s.live.nextRevision && s.staged[r].revision == r
          && s.staged[r].epoch in s.documents && BuiltFrom(s.staged[r].plan, s.documents[s.staged[r].epoch]))
    && (forall e :: e in s.documents ==> e <= DocumentEpoch(s.live))
    && (s.live.candidate.Some? ==>
         s.live.candidate.value.revision in s.staged
           && s.staged[s.live.candidate.value.revision] == s.live.candidate.value)
  }

  ghost predicate AttemptOk(s: System, a: Attempt) { a.epoch <= s.live.epoch && PhaseOk(s, a) }

  ghost predicate PhaseOk(s: System, a: Attempt) {
    match a.phase
    case Resolving => true
    case Ready(r) => r in s.staged && s.staged[r].epoch == a.epoch
    case Applying(r, specs) => r in s.staged && s.staged[r].epoch == a.epoch && Submap(specs, s.staged[r].plan)
    case Accepted(r) => r in s.staged
    case Finalizing(r) => r in s.staged
    case Ending => true
  }

  ghost predicate AcceptedOk(s: System) {
    && BuiltFrom(s.live.generations, s.live.document)
    && (s.live.accepted != 0 ==>
          && s.live.accepted in s.staged && s.live.specs == s.live.generations
          && Submap(s.live.specs, s.staged[s.live.accepted].plan)
          && s.staged[s.live.accepted].epoch == DocumentEpoch(s.live))
  }

  ghost predicate SystemInv(s: System) {
    && RevisionsOk(s.live) && HistoryOk(s) && AcceptedOk(s)
    && (forall id :: id in s.attempts ==> 1 <= id <= s.live.nextAttempt && AttemptOk(s, s.attempts[id]))
    && (s.live.activeAttempt == 0 || s.live.activeAttempt in s.attempts)
  }

  ghost predicate AttemptsOk(s: System) {
    && (forall id :: id in s.attempts ==> 1 <= id <= s.live.nextAttempt && AttemptOk(s, s.attempts[id]))
    && (s.live.activeAttempt == 0 || s.live.activeAttempt in s.attempts)
  }

  lemma DocumentKeeps(s: System, document: Document)
    requires SystemInv(s)
    ensures SystemInv(Step(s, NewDocument(document)))
  {
    var s' := Step(s, NewDocument(document));
    assert AttemptsOk(s') by { assert AttemptsOk(s); assert s'.staged == s.staged; }
  }

  lemma BeginKeeps(s: System, epoch: nat, replace: bool, phase: Phase)
    requires SystemInv(s) && PhaseOk(s, Attempt(epoch, phase))
    ensures SystemInv(Begin(s, epoch, replace, phase))
  {
    var s' := Begin(s, epoch, replace, phase);
    assert HistoryOk(s') && AcceptedOk(s');
  }

  lemma StageKeeps(s: System, id: nat, plan: Specs)
    requires SystemInv(s)
    ensures SystemInv(Step(s, Stage(id, plan)))
  {
    hide BuiltFrom;
    hide Submap;
    var s' := Step(s, Stage(id, plan));
    if id in s.attempts && s'.live != s.live {
      assert HistoryOk(s');
      assert AcceptedOk(s');
      forall x | x in s'.attempts
        ensures AttemptOk(s', s'.attempts[x])
      {
        assert x in s.attempts && AttemptOk(s, s.attempts[x]);
      }
    }
  }

  lemma EnterHostKeeps(s: System, id: nat, specs: Specs)
    requires SystemInv(s)
    ensures SystemInv(Step(s, EnterHost(id, specs)))
  {
    hide BuiltFrom;
    var s' := Step(s, EnterHost(id, specs));
    assert HistoryOk(s') && AcceptedOk(s');
  }

  /** Moving one attempt to a later phase of the same revision, with the history unchanged. */
  lemma PhaseKeeps(s: System, id: nat, phase: Phase, live: LiveState)
    requires AttemptsOk(s) && id in s.attempts && AttemptOk(s, s.attempts[id].(phase := phase))
    requires live.nextAttempt == s.live.nextAttempt && live.activeAttempt == s.live.activeAttempt
      && live.epoch == s.live.epoch
    ensures AttemptsOk(SetPhase(s, id, phase).(live := live))
  {
    var s' := SetPhase(s, id, phase).(live := live);
    forall x | x in s'.attempts
      ensures AttemptOk(s', s'.attempts[x]) { if x != id { assert AttemptOk(s, s.attempts[x]); } }
  }

  lemma ReturnKeeps(s: System, id: nat, ok: bool)
    requires RevisionsOk(s.live) && HistoryOk(s) && AcceptedOk(s)
    requires id in s.attempts && s.attempts[id].phase.Applying? && AttemptOk(s, s.attempts[id])
    ensures var Attempt(epoch, Applying(r, specs)) := s.attempts[id];
            var s' := s.(live := HostReturned(s.live, epoch, r, id, specs, ok));
            RevisionsOk(s'.live) && HistoryOk(s') && AcceptedOk(s')
  {
  }

  lemma LeaveHostKeeps(s: System, id: nat, ok: bool)
    requires SystemInv(s)
    ensures SystemInv(Step(s, LeaveHost(id, ok)))
  {
    if id in s.attempts && s.attempts[id].phase.Applying? {
      ReturnKeeps(s, id, ok);
      var s' := Step(s, LeaveHost(id, ok));
      PhaseKeeps(s, id, s'.attempts[id].phase, s'.live);
      hide HostReturned;
      assert HistoryOk(s') && AcceptedOk(s');
    }
  }

  lemma EndKeeps(s: System, id: nat)
    requires SystemInv(s)
    ensures SystemInv(Step(s, End(id)))
  {
    var s' := Step(s, End(id));
    assert HistoryOk(s') && AcceptedOk(s');
    forall x | x in s'.attempts
      ensures AttemptOk(s', s'.attempts[x])
    {
      assert x in s.attempts && AttemptOk(s, s.attempts[x]);
    }
  }

  lemma FinalKeeps(s: System, a: Action)
    requires SystemInv(s) && (a.FirstCheck? || a.Commit?)
    ensures SystemInv(Step(s, a))
  {
    var s' := Step(s, a);
    if s' != s {
      assert s'.live == s.live.(finalized := s'.live.finalized, correction := s'.live.correction);
      assert RevisionsOk(s'.live);
      PhaseKeeps(s, a.id, s'.attempts[a.id].phase, s'.live);
      hide Step;
      hide AttemptOk;
      hide RevisionsOk;
      assert HistoryOk(s') && AcceptedOk(s');
    }
  }

  lemma StepKeeps(s: System, a: Action)
    requires SystemInv(s)
    ensures SystemInv(Step(s, a))
  {
    match a
    case NewDocument(document) => DocumentKeeps(s, document);
    case Resolve(epoch, replace) => BeginKeeps(s, epoch, replace, Resolving);
    case Reapply(revision, replace) =>
      if revision in s.staged { BeginKeeps(s, s.staged[revision].epoch, replace, Ready(revision)); }
    case Stage(id, plan) => StageKeeps(s, id, plan);
    case EnterHost(id, specs) => EnterHostKeeps(s, id, specs);
    case LeaveHost(id, ok) => LeaveHostKeeps(s, id, ok);
    case End(id) => EndKeeps(s, id);
    case GiveUp(_, _) => assert AttemptsOk(s);
    case Close => assert AttemptsOk(s);
    case _ => FinalKeeps(s, a);
  }

  lemma {:induction false} RunKeeps(actions: seq<Action>)
    ensures SystemInv(Run(actions))
  {
    if actions != [] {
      RunKeeps(actions[..|actions| - 1]);
      StepKeeps(Run(actions[..|actions| - 1]), actions[|actions| - 1]);
    }
  }

  // ---------------------------------------------------------------- what every run guarantees

  /** Finalized never passes accepted, which never passes the latest staged revision; a correction is only
      ever scheduled for the accepted revision or the candidate's. */
  lemma RevisionsInOrder(actions: seq<Action>)
    ensures var l := Run(actions).live;
            && l.finalized <= l.accepted <= (if l.candidate.Some? then l.candidate.value.revision
                 else 0) <= l.nextRevision
            && CorrectionOk(l)
  {
    RunKeeps(actions);
  }

  /** Every live generation is that of an enabled app of the current document, under its plugin, and
      once a revision is accepted the generations are exactly its applied specs, taken from the plan
      staged under that revision for this very document. */
  lemma GenerationsMatchDocument(actions: seq<Action>, plugin: string, app: string)
    requires (plugin, app) in Run(actions).live.generations
    ensures var s := Run(actions);
            && app in s.live.document && s.live.document[app] == App(plugin, true, s.live.generations[(plugin, app)])
            && (s.live.accepted != 0 ==>
                  && s.live.generations == s.live.specs && s.live.accepted in s.staged
                  && s.staged[s.live.accepted].epoch == DocumentEpoch(s.live)
                  && (plugin, app) in s.staged[s.live.accepted].plan)
  {
    RunKeeps(actions);
  }

  /** The accepted revision changes only by a new document, or to the current candidate's revision by
      the active attempt of the current epoch. */
  lemma OnlyTheActiveAttemptAccepts(s: System, a: Action)
    ensures var s' := Step(s, a);
            s'.live.accepted != s.live.accepted || s'.live.generations != s.live.generations
              || s'.live.specs != s.live.specs ==>
              || (a.NewDocument? && s'.live.accepted == 0 && s'.live.epoch == s.live.epoch + 1
                   && s'.live.specs == s.live.specs)
              || (a.LeaveHost? && a.ok && !s.live.closing && s.live.activeAttempt == a.id
                   && s.attempts[a.id].epoch == s.live.epoch
                  && s.live.candidate.Some? && s'.live.accepted == s.live.candidate.value.revision)
  {
  }

  /** A document starts both numbers at zero; nothing else lets either go down, closing included. */
  lemma RevisionsStep(s: System, a: Action)
    requires RevisionsOk(s.live)
    ensures var l, l' := s.live, Step(s, a).live;
            && l.epoch <= l'.epoch && DocumentEpoch(l) <= DocumentEpoch(l') && (l.closing ==> l'.closing)
            && (DocumentEpoch(l') == DocumentEpoch(l) ==> l.accepted <= l'.accepted && l.finalized <= l'.finalized)
            && (DocumentEpoch(l') != DocumentEpoch(l) ==> a.NewDocument? && l'.accepted == 0 && l'.finalized == 0)
            && (l'.epoch != l.epoch ==> a.NewDocument? || (a.Close? && l' == l.(closing := true, epoch := l.epoch + 1)))
  {
  }

  function RunFrom(s: System, actions: seq<Action>): System
    decreases |actions|
  {
    if actions == [] then s else RunFrom(Step(s, actions[0]), actions[1..])
  }

  /** Over any run, as long as no new document is accepted, and so within an epoch, both numbers only
      grow; epochs only grow too. */
  lemma {:induction false} RevisionsOnlyGrow(s: System, actions: seq<Action>)
    requires SystemInv(s)
    ensures var l, l' := s.live, RunFrom(s, actions).live;
            && l.epoch <= l'.epoch && DocumentEpoch(l) <= DocumentEpoch(l') && (l.closing ==> l'.closing)
            && (DocumentEpoch(l') == DocumentEpoch(l) ==> l.accepted <= l'.accepted && l.finalized <= l'.finalized)
            && (l'.epoch == l.epoch ==> l.accepted <= l'.accepted && l.finalized <= l'.finalized)
    decreases |actions|
  {
    if actions != [] {
      RevisionsStep(s, actions[0]);
      StepKeeps(s, actions[0]);
      RevisionsOnlyGrow(Step(s, actions[0]), actions[1..]);
      hide Step;
      hide SystemInv;
    }
  }

  /** Superseded: replaced by another attempt, overtaken by a document, or closing. */
  ghost predicate Superseded(s: System, id: nat) { id in s.attempts && !Owns(s.live, s.attempts[id].epoch, id) }

  predicate ActsFor(a: Action, id: nat) {
    (a.Stage? || a.EnterHost? || a.LeaveHost? || a.FirstCheck? || a.Commit? || a.End?) && a.id == id
  }

  /** Whatever a superseded attempt does changes no generations, specs, candidate or accepted revision. */
  lemma SupersededChangesNothing(s: System, id: nat, a: Action)
    requires Superseded(s, id) && ActsFor(a, id)
    ensures var l, l' := s.live, Step(s, a).live;
            && l'.generations == l.generations && l'.specs == l.specs && l'.accepted == l.accepted
            && l'.candidate == l.candidate && l'.activeAttempt in {l.activeAttempt, 0} && l'.document == l.document
  {
  }

  /** An attempt once superseded stays superseded until it ends. */
  lemma SupersededForGood(s: System, id: nat, a: Action)
    requires SystemInv(s) && Superseded(s, id)
    ensures var s' := Step(s, a); id in s'.attempts ==> Superseded(s', id)
  {
  }

  /** Superseded, or ended after that; attempt numbers are never used again. */
  ghost predicate Overtaken(s: System, id: nat) { id <= s.live.nextAttempt && (id in s.attempts ==> Superseded(s, id)) }

  lemma OvertakenForGood(s: System, id: nat, a: Action)
    requires SystemInv(s) && Overtaken(s, id)
    ensures Overtaken(Step(s, a), id)
  {
    if id in s.attempts { SupersededForGood(s, id, a); }
  }

  lemma {:induction false} OvertakenThroughout(s: System, id: nat, actions: seq<Action>)
    requires SystemInv(s) && Overtaken(s, id)
    ensures SystemInv(RunFrom(s, actions)) && Overtaken(RunFrom(s, actions), id)
    decreases |actions|
  {
    if actions != [] {
      StepKeeps(s, actions[0]);
      OvertakenForGood(s, id, actions[0]);
      OvertakenThroughout(Step(s, actions[0]), id, actions[1..]);
    }
  }

  lemma {:induction false} RunLast(s: System, actions: seq<Action>, a: Action)
    ensures RunFrom(s, actions + [a]) == Step(RunFrom(s, actions), a)
    decreases |actions|
  {
    if actions != [] {
      RunLast(Step(s, actions[0]), actions[1..], a);
      assert (actions + [a])[1..] == actions[1..] + [a];
    } else {
      assert (actions + [a])[1..] == [];
    }
  }

  /** Over any run, whatever the other attempts, documents and retries do in between, no step a superseded
      attempt takes changes the generations, the specs, the accepted revision or the candidate. */
  lemma SupersededNeverWins(s: System, id: nat, actions: seq<Action>, i: nat)
    requires SystemInv(s) && Superseded(s, id) && i < |actions| && ActsFor(actions[i], id)
    ensures var l, l' := RunFrom(s, actions[..i]).live, RunFrom(s, actions[..i + 1]).live;
            l'.generations == l.generations && l'.specs == l.specs && l'.accepted == l.accepted
              && l'.candidate == l.candidate
  {
    OvertakenThroughout(s, id, actions[..i]);
    RunLast(s, actions[..i], actions[i]);
    assert actions[..i] + [actions[i]] == actions[..i + 1];
    var before := RunFrom(s, actions[..i]);
    if id in before.attempts { SupersededChangesNothing(before, id, actions[i]); }
  }

  // ---------------------------------------------------------------- the live state itself

  class Live {
    var document: Document
    var generations: Specs
    var specs: Specs
    var epoch: nat
    var activeAttempt: nat
    var nextAttempt: nat
    var nextRevision: nat
    var accepted: nat
    var finalized: nat
    var candidate: Option<Candidate>
    var correction: nat
    var closing: bool

    ghost function View(): LiveState reads this {
      LiveState(document, generations, specs, epoch, activeAttempt, nextAttempt, nextRevision, accepted, finalized,
        candidate, correction, closing)
    }

    /** Walk the document's apps and keep the generations that still match. */
    method PreserveGenerations(next: Document) returns (preserved: Specs)
      ensures preserved == Preserved(generations, next)
    {
      preserved := map[];
      var todo := next.Keys;
      while todo != {}
        invariant todo <= next.Keys
        invariant forall k :: k in preserved <==> k in Preserved(generations, next) && k.1 !in todo
        invariant forall k :: k in preserved ==> preserved[k] == generations[k]
        decreases |todo|
      {
        var id :| id in todo;
        var app := next[id];
        var key := (app.pluginId, id);
        if app.enabled && key in generations && generations[key] == app.generation {
          preserved := preserved[key := app.generation];
        }
        todo := todo - {id};
      }
    }

    method AcceptNewDocument(next: Document) returns (newEpoch: nat, ok: bool)
      modifies this
      ensures View() == AcceptDocument(old(View()), next)
      ensures ok <==> !closing
      ensures ok ==> newEpoch == epoch
    {
      if closing { return 0, false; }
      var preserved := PreserveGenerations(next);
      epoch := epoch + 1;
      document, accepted, finalized, candidate, correction := next, 0, 0, None, 0;
      generations := preserved;
      return epoch, true;
    }

    method BeginOne(forEpoch: nat, replace: bool) returns (id: nat, ok: bool)
      modifies this
      ensures ok <==> MayBegin(old(View()), forEpoch, replace)
      ensures View() == if ok then BeginAttempt(old(View())) else old(View())
      ensures ok ==> id == activeAttempt
    {
      if closing || epoch != forEpoch { return 0, false; }
      if activeAttempt != 0 && !replace { return 0, false; }
      nextAttempt := nextAttempt + 1;
      activeAttempt := nextAttempt;
      return nextAttempt, true;
    }

    method StageOne(forEpoch: nat, attempt: nat, plan: Specs) returns (revision: nat, ok: bool)
      modifies this
      ensures ok <==> Owns(old(View()), forEpoch, attempt)
      ensures View() == if ok then StagePlan(old(View()), forEpoch, plan) else old(View())
      ensures ok ==> revision == nextRevision
    {
      if closing || epoch != forEpoch || activeAttempt != attempt { return 0, false; }
      nextRevision := nextRevision + 1;
      candidate := Some(Candidate(forEpoch, nextRevision, plan));
      correction := 0;
      return nextRevision, true;
    }

    method ReturnFromHost(forEpoch: nat, revision: nat, attempt: nat, applied: Specs, ok: bool)
        returns (isAccepted: bool)
      modifies this
      ensures View() == HostReturned(old(View()), forEpoch, revision, attempt, applied, ok)
      ensures isAccepted <==> Current(old(View()), forEpoch, revision, attempt) && ok
    {
      if closing || epoch != forEpoch || activeAttempt != attempt || candidate.None?
        || candidate.value.revision != revision {
        if !closing && candidate.Some? && accepted == candidate.value.revision {
          correction := candidate.value.revision;
        }
        return false;
      }
      if !ok {
        if accepted == revision { correction := revision; }
        return false;
      }
      generations, accepted, correction, specs := applied, revision, 0, applied;
      return true;
    }

    method GiveUpOperation(forEpoch: nat, retryOwned: bool)
      modifies this
      ensures View() == CallerGaveUp(old(View()), forEpoch, retryOwned)
    {
      if closing || epoch != forEpoch { return; }
      if candidate.Some? && candidate.value.epoch == forEpoch && !retryOwned { correction := candidate.value.revision; }
    }

    method BeginClosing()
      modifies this
      ensures View() == CloseLive(old(View()))
    {
      if !closing { closing, epoch := true, epoch + 1; }
    }

    method CommitFinal(forEpoch: nat, revision: nat)
      modifies this
      ensures View() == FinalizeCommit(old(View()), forEpoch, revision)
    {
      if !closing && epoch == forEpoch && accepted == revision { finalized := revision; }
    }

    method Finish(attempt: nat)
      modifies this
      ensures View() == FinishAttempt(old(View()), attempt)
    {
      if activeAttempt == attempt { activeAttempt := 0; }
    }
  }
}
