/** Which step changes which part of the reconciliation state, exactly when, and to what
    (internal/daemon/reconciler_apply.go, reconciler_desired.go, reconciler_close.go). Stated on the fields,
    for every state and every step, and then over runs for an attempt that is not overtaken. */
module ReconcileEffects {
  import opened ReconcileAttempts

  /** The attempt is the active one of the live epoch. */
  predicate Mine(s: System, id: nat) {
    id in s.attempts && !s.live.closing && s.attempts[id].epoch == s.live.epoch && s.live.activeAttempt == id
  }

  /** Its revision is the candidate's as well. */
  predicate MineAt(s: System, id: nat, revision: nat) {
    Mine(s, id) && s.live.candidate.Some? && s.live.candidate.value.revision == revision
  }

  /** The revision is the accepted one of the epoch the attempt works in. */
  predicate AcceptedFor(s: System, id: nat, revision: nat) {
    id in s.attempts && !s.live.closing && s.attempts[id].epoch == s.live.epoch && s.live.accepted == revision
  }

  predicate InHost(s: System, a: Action) { a.LeaveHost? && a.id in s.attempts && s.attempts[a.id].phase.Applying? }

  /** The step is a successful return from the plugin host to the attempt that still owns the candidate. */
  predicate Accepts(s: System, a: Action) { InHost(s, a) && a.ok && MineAt(s, a.id, s.attempts[a.id].phase.revision) }

  /** The plan handed over for staging fits the document of the attempt's epoch. */
  predicate Stages(s: System, a: Action) {
    && a.Stage? && a.id in s.attempts && s.attempts[a.id].phase.Resolving? && s.attempts[a.id].epoch in s.documents
    && (forall k :: k in a.plan ==>
          var document := s.documents[s.attempts[a.id].epoch];
          k.1 in document && document[k.1] == App(k.0, true, a.plan[k]))
  }

  lemma StagesIs(s: System, a: Action)
    requires a.Stage? && a.id in s.attempts && s.attempts[a.id].epoch in s.documents
    ensures Stages(s, a) <==>
      s.attempts[a.id].phase.Resolving? && BuiltFrom(a.plan, s.documents[s.attempts[a.id].epoch])
  {
  }

  // ---------------------------------------------------------------- accepted state

  /** The accepted revision, the generations and the specs become what the attempt entered the host with
      exactly when it returns in success as the active attempt of the live epoch, for the candidate; a new
      document keeps the generations that are configured as they were; nothing else touches the three. */
  lemma AcceptedChanges(s: System, a: Action)
    ensures var l, l' := s.live, Step(s, a).live;
      if Accepts(s, a) then
        && l'.accepted == s.attempts[a.id].phase.revision && l'.correction == 0
        && l'.generations == s.attempts[a.id].phase.specs && l'.specs == s.attempts[a.id].phase.specs
      else if a.NewDocument? && !l.closing then
        && l'.accepted == 0 && l'.specs == l.specs && l'.document == a.document && l'.epoch == l.epoch + 1
        && (forall k :: k in l'.generations <==>
              k in l.generations && k.1 in a.document && a.document[k.1] == App(k.0, true, l.generations[k]))
        && (forall k :: k in l'.generations ==> l'.generations[k] == l.generations[k])
      else
        && l'.accepted == l.accepted && l'.generations == l.generations && l'.specs == l.specs
        && l'.document == l.document
  {
    hide BuiltFrom;
    hide Submap;
  }

  /** A revision is finalized exactly by the second check of an attempt for which it is still accepted. */
  lemma FinalizedChanges(s: System, a: Action)
    ensures var l, l' := s.live, Step(s, a).live;
      if a.Commit? && a.id in s.attempts && s.attempts[a.id].phase.Finalizing?
         && AcceptedFor(s, a.id, s.attempts[a.id].phase.revision) then l'.finalized == l.accepted
      else if a.NewDocument? && !l.closing then l'.finalized == 0
      else l'.finalized == l.finalized
  {
    hide BuiltFrom;
    hide Submap;
    hide Preserved;
  }

  /** The candidate is replaced exactly by a plan the active attempt stages, under the next revision, and
      withdrawn exactly by a new document. */
  lemma CandidateChanges(s: System, a: Action)
    ensures var l, s' := s.live, Step(s, a);
      var r := l.nextRevision + 1;
      if Stages(s, a) && Mine(s, a.id) then
        && s'.live.candidate == Some(Candidate(l.epoch, r, a.plan)) && s'.live.nextRevision == r
        && s'.staged == s.staged[r := Candidate(l.epoch, r, a.plan)] && s'.live.correction == 0
      else
        && s'.staged == s.staged && s'.live.nextRevision == l.nextRevision
        && s'.live.candidate == if a.NewDocument? && !l.closing then None else l.candidate
  {
    if a.Stage? && a.id in s.attempts && s.attempts[a.id].epoch in s.documents { StagesIs(s, a); }
    hide BuiltFrom;
    hide Submap;
    hide Preserved;
  }

  /** The revision a correction is scheduled for: the accepted one when work for it failed or was overtaken,
      the candidate's when a caller gave up on it. */
  function Scheduled(s: System, a: Action): nat {
    var l := s.live;
    var c := if l.candidate.Some? then l.candidate.value.revision else 0;
    if InHost(s, a) && !MineAt(s, a.id, s.attempts[a.id].phase.revision) then
      if !l.closing && l.candidate.Some? && l.accepted == c then c else l.correction
    else if InHost(s, a) && !a.ok then
      if l.accepted == s.attempts[a.id].phase.revision then l.accepted else l.correction
    else if a.FirstCheck? && a.id in s.attempts && s.attempts[a.id].phase.Accepted? && !a.attentionOk then
      if AcceptedFor(s, a.id, s.attempts[a.id].phase.revision) then l.accepted else l.correction
    else if a.GiveUp? && !l.closing && a.epoch == l.epoch && l.candidate.Some? && l.candidate.value.epoch == l.epoch
      && !a.retryOwned then c
    else l.correction
  }

  /** A correction is scheduled by failures as `Scheduled` says and dropped exactly by an acceptance, a newly
      staged plan or a new document. */
  lemma CorrectionChanges(s: System, a: Action)
    ensures Step(s, a).live.correction ==
      if Accepts(s, a) || (Stages(s, a) && Mine(s, a.id)) || (a.NewDocument? && !s.live.closing) then 0
      else Scheduled(s, a)
  {
    if a.Stage? && a.id in s.attempts && s.attempts[a.id].epoch in s.documents { StagesIs(s, a); }
    hide BuiltFrom;
    hide Submap;
    hide Preserved;
  }

  // ---------------------------------------------------------------- attempts

  /** The epoch an attempt would be begun for. */
  function EpochOf(s: System, a: Action): Option<nat> {
    if a.Resolve? then Some(a.epoch)
    else if a.Reapply? && a.revision in s.staged then Some(s.staged[a.revision].epoch)
    else None
  }

  /** An attempt begins, under the next number and as the active one, exactly for the live epoch and when no
      other is active or it may replace it; only the active attempt's own end makes room. */
  lemma ActiveChanges(s: System, a: Action)
    ensures var l, s', id := s.live, Step(s, a), s.live.nextAttempt + 1;
      if EpochOf(s, a) == Some(l.epoch) && !l.closing && (l.activeAttempt == 0 || a.replace) then
        && s'.live == l.(nextAttempt := id, activeAttempt := id)
        && s'.attempts == s.attempts[id := Attempt(l.epoch, if a.Resolve? then Resolving else Ready(a.revision))]
      else
        && s'.live.nextAttempt == l.nextAttempt
        && s'.live.activeAttempt ==
          if a.End? && a.id in s.attempts && s.attempts[a.id].phase.Ending? && l.activeAttempt == a.id then 0
          else l.activeAttempt
  {
    hide BuiltFrom;
    hide Submap;
    hide Preserved;
  }

  /** Where an attempt goes next: it ends as soon as it finds itself overtaken. */
  function NextPhase(s: System, a: Action, phase: Phase): Phase
    requires (a.Stage? || a.EnterHost? || a.LeaveHost? || a.FirstCheck? || a.Commit?) && a.id in s.attempts
  {
    match phase
    case Resolving => if !Stages(s, a) then phase else if Mine(s, a.id) then Ready(s.live.nextRevision + 1) else Ending
    case Ready(r) =>
      if !a.EnterHost? || r !in s.staged || !Submap(a.specs, s.staged[r].plan) then phase
      else if MineAt(s, a.id, r) then Applying(r, a.specs) else Ending
    case Applying(r, _) =>
      if !a.LeaveHost? then phase else if a.ok && MineAt(s, a.id, r) then Accepted(r) else Ending
    case Accepted(r) =>
      if !a.FirstCheck? then phase
      else if a.attentionOk && AcceptedFor(s, a.id, r) then Finalizing(r) else Ending
    case Finalizing(_) => if a.Commit? then Ending else phase
    case Ending => phase
  }

  lemma PhaseChanges(s: System, a: Action, id: nat)
    requires id in s.attempts && id <= s.live.nextAttempt
    ensures var s' := Step(s, a);
      if a.End? && a.id == id && s.attempts[id].phase.Ending? then s'.attempts.Keys == s.attempts.Keys - {id}
      else
        && id in s'.attempts && s'.attempts[id].epoch == s.attempts[id].epoch
        && s'.attempts[id].phase ==
          if (a.Stage? || a.EnterHost? || a.LeaveHost? || a.FirstCheck? || a.Commit?) && a.id == id
          then NextPhase(s, a, s.attempts[id].phase) else s.attempts[id].phase
  {
    if a.Stage? && a.id in s.attempts && s.attempts[a.id].epoch in s.documents { StagesIs(s, a); }
    hide BuiltFrom;
    hide Submap;
    hide Preserved;
  }

  /** Closing and the epoch. */
  lemma EpochChanges(s: System, a: Action)
    ensures var l, l' := s.live, Step(s, a).live;
      && l'.closing == (l.closing || a.Close?)
      && l'.epoch == if !l.closing && (a.Close? || a.NewDocument?) then l.epoch + 1 else l.epoch
  {
    hide BuiltFrom;
    hide Submap;
    hide Preserved;
  }

  // ---------------------------------------------------------------- an attempt that is not overtaken

  /** Other goroutines do anything except accept a plan, replace the document or close. */
  ghost predicate Undisturbed(s: System, more: seq<Action>, id: nat)
    decreases |more|
  {
    more != [] ==>
      && !ActsFor(more[0], id) && !more[0].NewDocument? && !more[0].Close? && !Accepts(s, more[0])
      && Undisturbed(Step(s, more[0]), more[1..], id)
  }

  /** The attempt is in the given phase, for the revision that is accepted with the given specs. */
  ghost predicate Holds(s: System, id: nat, phase: Phase, revision: nat, specs: Specs) {
    && AcceptedFor(s, id, revision) && s.attempts[id].phase == phase && id <= s.live.nextAttempt
    && s.live.generations == specs && s.live.specs == specs
  }

  lemma {:induction false} UndisturbedHolds(s: System, more: seq<Action>, id: nat, phase: Phase, r: nat, specs: Specs)
    requires Holds(s, id, phase, r, specs) && Undisturbed(s, more, id)
    ensures Holds(RunFrom(s, more), id, phase, r, specs)
    decreases |more|
  {
    if more != [] {
      hide Step;
      AcceptedChanges(s, more[0]);
      ActiveChanges(s, more[0]);
      PhaseChanges(s, more[0], id);
      EpochChanges(s, more[0]);
      UndisturbedHolds(Step(s, more[0]), more[1..], id, phase, r, specs);
    }
  }

  /** An attempt that returns from the host as the owner of the candidate and is not overtaken afterwards has its
      revision accepted and finalized, with exactly the specs it applied, whatever other goroutines do between
      its steps. */
  lemma AcceptedIsFinalized(s: System, id: nat, first: seq<Action>, second: seq<Action>)
    requires Accepts(s, LeaveHost(id, true)) && id <= s.live.nextAttempt
    requires Undisturbed(Step(s, LeaveHost(id, true)), first, id)
    requires Undisturbed(Step(RunFrom(Step(s, LeaveHost(id, true)), first), FirstCheck(id, true)), second, id)
    ensures var s1 := RunFrom(Step(s, LeaveHost(id, true)), first);
      var l := Step(RunFrom(Step(s1, FirstCheck(id, true)), second), Commit(id)).live;
      var r := s.attempts[id].phase.revision;
      && l.accepted == r && l.finalized == r
      && l.generations == s.attempts[id].phase.specs && l.specs == s.attempts[id].phase.specs
  {
    hide Step;
    var r, specs := s.attempts[id].phase.revision, s.attempts[id].phase.specs;
    var s0 := Step(s, LeaveHost(id, true));
    StepHolds(s, LeaveHost(id, true), id, specs);
    UndisturbedHolds(s0, first, id, Accepted(r), r, specs);
    var s1 := RunFrom(s0, first);
    StepHolds(s1, FirstCheck(id, true), id, specs);
    UndisturbedHolds(Step(s1, FirstCheck(id, true)), second, id, Finalizing(r), r, specs);
    var s2 := RunFrom(Step(s1, FirstCheck(id, true)), second);
    AcceptedChanges(s2, Commit(id));
    FinalizedChanges(s2, Commit(id));
  }

  lemma StepHolds(s: System, a: Action, id: nat, specs: Specs)
    requires id <= s.live.nextAttempt && (a == LeaveHost(id, true) || a == FirstCheck(id, true))
    requires a.LeaveHost? ==> Accepts(s, a) && s.attempts[id].phase.specs == specs
    requires a.FirstCheck? ==>
      && id in s.attempts && s.attempts[id].phase.Accepted?
      && Holds(s, id, s.attempts[id].phase, s.attempts[id].phase.revision, specs)
    ensures var r := s.attempts[id].phase.revision;
      Holds(Step(s, a), id, if a.LeaveHost? then Accepted(r) else Finalizing(r), r, specs)
  {
    hide Step;
    AcceptedChanges(s, a);
    ActiveChanges(s, a);
    PhaseChanges(s, a, id);
    EpochChanges(s, a);
  }

  /** From every reachable state that is not closing, whatever attempts are under way, a new attempt can replace
      them and get any plan of the current document accepted and finalized. */
  lemma NewAttemptCanFinish(actions: seq<Action>, plan: Specs, specs: Specs) returns (more: seq<Action>)
    requires !Run(actions).live.closing && BuiltFrom(plan, Run(actions).live.document) && Submap(specs, plan)
    ensures var l, l' := Run(actions).live, RunFrom(Run(actions), more).live;
      && l'.document == l.document && l'.epoch == l.epoch
      && l'.candidate == Some(Candidate(l.epoch, l.nextRevision + 1, plan))
      && l'.accepted == l.nextRevision + 1 && l'.finalized == l'.accepted
      && l'.generations == specs && l'.specs == specs && l'.activeAttempt == 0 && l'.correction == 0
  {
    hide *;
    CurrentDocument(actions);
    var s := Run(actions);
    var id, r := s.live.nextAttempt + 1, s.live.nextRevision + 1;
    StagingSteps(s, plan);
    ApplyingSteps(Step(Step(s, Resolve(s.live.epoch, true)), Stage(id, plan)), id, r, specs);
    more := [Resolve(s.live.epoch, true), Stage(id, plan), EnterHost(id, specs), LeaveHost(id, true),
      FirstCheck(id, true), Commit(id), End(id)];
    SevenSteps(s, more);
  }

  lemma CurrentDocument(actions: seq<Action>)
    requires !Run(actions).live.closing
    ensures var s := Run(actions); s.live.epoch in s.documents && s.documents[s.live.epoch] == s.live.document
  {
    RunKeeps(actions);
  }

  lemma StagingSteps(s: System, plan: Specs)
    requires !s.live.closing && s.live.epoch in s.documents && BuiltFrom(plan, s.documents[s.live.epoch])
    ensures var l, id, r := s.live, s.live.nextAttempt + 1, s.live.nextRevision + 1;
      var s' := Step(Step(s, Resolve(l.epoch, true)), Stage(id, plan));
      && s'.live == l.(nextAttempt := id, activeAttempt := id, nextRevision := r, correction := 0,
                       candidate := Some(Candidate(l.epoch, r, plan)))
      && id in s'.attempts && s'.attempts[id] == Attempt(l.epoch, Ready(r))
      && r in s'.staged && s'.staged[r].plan == plan
  {
    hide BuiltFrom;
  }

  lemma ApplyingSteps(s: System, id: nat, r: nat, specs: Specs)
    requires id in s.attempts && s.attempts[id] == Attempt(s.live.epoch, Ready(r)) && s.live.activeAttempt == id
    requires !s.live.closing && s.live.candidate.Some? && s.live.candidate.value.revision == r
    requires r in s.staged && Submap(specs, s.staged[r].plan)
    ensures var s4 := Step(Step(s, EnterHost(id, specs)), LeaveHost(id, true));
      Step(Step(Step(s4, FirstCheck(id, true)), Commit(id)), End(id)).live ==
        s.live.(generations := specs, specs := specs, accepted := r, finalized := r, correction := 0,
                activeAttempt := 0)
  {
    hide Submap;
    var epoch := s.live.epoch;
    var s3 := Step(s, EnterHost(id, specs));
    assert s3.live == s.live && s3.attempts == s.attempts[id := Attempt(epoch, Applying(r, specs))];
    var s4 := Step(s3, LeaveHost(id, true));
    assert s4.live == s.live.(generations := specs, accepted := r, specs := specs, correction := 0)
      && s4.attempts == s3.attempts[id := Attempt(epoch, Accepted(r))];
    FinalSteps(s4, id, r);
    hide Step;
  }

  lemma FinalSteps(s: System, id: nat, r: nat)
    requires AcceptedFor(s, id, r) && s.attempts[id].phase == Accepted(r) && s.live.activeAttempt == id
    ensures Step(Step(Step(s, FirstCheck(id, true)), Commit(id)), End(id)).live ==
      s.live.(finalized := r, activeAttempt := 0)
  {
  }

  lemma SevenSteps(s: System, more: seq<Action>)
    requires |more| == 7
    ensures RunFrom(s, more) ==
      Step(Step(Step(Step(Step(Step(Step(s, more[0]), more[1]), more[2]), more[3]), more[4]), more[5]), more[6])
  {
    hide Step;
    RunLast(s, more[..6], more[6]);
    assert more == more[..6] + [more[6]];
    RunLast(s, more[..5], more[5]);
    assert more[..6] == more[..5] + [more[5]];
    RunLast(s, more[..4], more[4]);
    assert more[..5] == more[..4] + [more[4]];
    RunLast(s, more[..3], more[3]);
    assert more[..4] == more[..3] + [more[3]];
    RunLast(s, more[..2], more[2]);
    assert more[..3] == more[..2] + [more[2]];
    RunLast(s, more[..1], more[1]);
    assert more[..2] == more[..1] + [more[1]];
    RunLast(s, [], more[0]);
    assert more[..1] == [] + [more[0]];
  }
}
