/** What a step of the publisher may do to a draft, and what a failed call does to the publisher
    (cmd/releasectl/publish_reconcile.go). */
module PublicationEffects {
  import opened ReleasePublication

  /** The next step makes a remote call. */
  predicate Calls(specs: seq<Spec>, p: Program) {
    match p
    case Scanning(k, _) => k < |specs|
    case Staging(k, states) => k < |specs| && specs[k].tag !in states
    case Deleting(_, _, _, deletions) => deletions != []
    case Refreshing(_, _) => true
    case Uploading(_, _, _, uploads) => uploads != []
    case Checking(k, _) => k < |specs|
    case Publishing(k, states) => k < |specs| && specs[k].tag in states && states[specs[k].tag].draft
    case Confirming(k) => k < |specs|
    case Succeeded => false
    case Failed => false
  }

  /** A call that reports a failure ends the run, whether or not it took effect, and without its effect the
      remote is as before. */
  lemma FailedCallEndsRun(specs: seq<Spec>, s: System, io: Io, id: nat)
    requires Calls(specs, s.program) && io != Done
    ensures Step(specs, s, Go(io, id)).program.Failed?
    ensures io.Refused? ==> Step(specs, s, Go(io, id)).remote == s.remote
  {
    hide ValidSpec;
    hide Complete;
    hide InspectOk;
  }

  /** An asset in the way of the plan that may be replaced: a catalog file of another build of a core release. */
  predicate Conflicting(spec: Spec, y: RemoteAsset) {
    && !Expected(spec, y) && (y.name == "catalog.json" || y.name == "catalog.sig")
    && "v" <= spec.tag && Declared(spec, "catalog.json") && Declared(spec, "catalog.sig")
  }

  ghost predicate DeletesConflicts(specs: seq<Spec>, s: System) {
    s.program.Deleting? ==>
      && s.program.k < |specs| && s.program.state.tag == specs[s.program.k].tag
      && forall y :: y in s.program.deletions ==> Conflicting(specs[s.program.k], y)
  }

  lemma DeletesKeep(specs: seq<Spec>, s: System, a: Action)
    requires ProgramOk(specs, s) && DeletesConflicts(specs, s)
    ensures DeletesConflicts(specs, Step(specs, s, a))
  {
    if s.program.Staging? && s.program.k < |specs| && specs[s.program.k].tag in s.program.states {
      var spec := specs[s.program.k];
      var state := s.program.states[spec.tag];
      ReplacementsAre(state.assets, spec);
      assert Agree(s.program.states, s.remote, spec.tag) && Compatible(s.remote, spec);
      if state.draft { assert InspectOk(state, spec); }
    }
    hide ValidSpec;
    hide Complete;
  }

  lemma {:induction false} RunDeletes(specs: seq<Spec>, commit: string, remote: Remote, actions: seq<Action>)
    ensures var s := RunFrom(specs, Start(specs, commit, remote), actions);
      ProgramOk(specs, s) && DeletesConflicts(specs, s)
  {
    RunKeeps(specs, Start(specs, commit, remote), actions);
    if actions != [] {
      var n := |actions| - 1;
      RunDeletes(specs, commit, remote, actions[..n]);
      DeletesKeep(specs, RunFrom(specs, Start(specs, commit, remote), actions[..n]), actions[n]);
      hide ProgramOk;
      hide DeletesConflicts;
      hide Step;
    }
  }

  /** What became of one release of the plan. */
  ghost predicate DraftChange(spec: Spec, before: Release, after: Release) {
    && after == before.(assets := after.assets, draft := after.draft) && (after.draft ==> before.draft)
    && (forall x :: x in before.assets && x !in after.assets ==>
          exists y: RemoteAsset :: y.id == x.id && Conflicting(spec, y))
    && (forall x :: x in after.assets && x !in before.assets ==>
          Expected(spec, x) && !Named(before.assets, x.name))
  }

  lemma Unaffected(spec: Spec, r: Release)
    ensures DraftChange(spec, r, r) && DraftChange(spec, r, r.(draft := false))
  {
  }

  lemma UploadChange(spec: Spec, r: Release, asset: ReleaseAsset, id: int)
    requires asset in spec.assets && !Named(r.assets, asset.name)
    ensures DraftChange(spec, r, r.(assets :=
      r.assets + [RemoteAsset(id, asset.name, asset.size, "sha256:" + asset.sha256)]))
  {
    var x := RemoteAsset(id, asset.name, asset.size, "sha256:" + asset.sha256);
    var i :| 0 <= i < |spec.assets| && spec.assets[i] == asset;
    assert Matches(x, spec.assets[i]);
  }

  lemma DeleteChange(spec: Spec, r: Release, y: RemoteAsset)
    requires Conflicting(spec, y)
    ensures DraftChange(spec, r, r.(assets := WithoutId(r.assets, y.id)))
  {
    WithoutIdIs(r.assets, y.id);
    hide Conflicting;
  }

  /** At every step of every run a release of the plan keeps its identity and title and is never made a draft
      again. An asset goes only if it has the number of a catalog file of another build, and comes only if it is
      declared and missing. A release comes into being as an empty draft under its planned title. */
  lemma DraftsChangeOnlyAsPlanned(specs: seq<Spec>, commit: string, remote: Remote, actions: seq<Action>, a: Action,
      i: nat)
    requires i < |specs| && ValidPlan(specs)
    ensures var s := RunFrom(specs, Start(specs, commit, remote), actions);
      var after, tag := Step(specs, s, a).remote, specs[i].tag;
      if tag in s.remote then tag in after && DraftChange(specs[i], s.remote[tag], after[tag])
      else tag in after ==> after[tag].draft && after[tag].assets == [] && after[tag].title == specs[i].title
  {
    RunDeletes(specs, commit, remote, actions);
    var s := RunFrom(specs, Start(specs, commit, remote), actions);
    hide RunFrom;
    StepDrafts(specs, s, a, i);
  }

  lemma StepDrafts(specs: seq<Spec>, s: System, a: Action, i: nat)
    requires i < |specs| && ValidPlan(specs) && ProgramOk(specs, s) && DeletesConflicts(specs, s)
    ensures DraftStep(specs[i], s.remote, Step(specs, s, a).remote)
  {
    hide *;
    if a.Go? && s.program.Uploading? && s.program.uploads != [] && s.program.state.tag == specs[i].tag {
      UploadDrafts(specs, s, a, i);
    } else if a.Go? && s.program.Deleting? && s.program.deletions != [] && s.program.state.tag == specs[i].tag {
      DeleteDrafts(specs, s, a, i);
    } else {
      OtherDrafts(specs, s, a, i);
    }
  }

  ghost predicate DraftStep(spec: Spec, before: Remote, after: Remote) {
    if spec.tag in before then spec.tag in after && DraftChange(spec, before[spec.tag], after[spec.tag])
    else spec.tag in after ==>
      after[spec.tag].draft && after[spec.tag].assets == [] && after[spec.tag].title == spec.title
  }

  lemma UploadDrafts(specs: seq<Spec>, s: System, a: Action, i: nat)
    requires i < |specs| && ProgramOk(specs, s) && ValidPlan(specs) && a.Go?
    requires s.program.Uploading? && s.program.uploads != [] && s.program.state.tag == specs[i].tag
    ensures DraftStep(specs[i], s.remote, Step(specs, s, a).remote)
  {
    var tag := specs[i].tag;
    assert s.program.k == i && tag in s.remote;
    MissingAre(s.remote[tag].assets, specs[i].assets);
    assert s.program.uploads[0] in s.program.uploads;
    UploadChange(specs[i], s.remote[tag], s.program.uploads[0], a.id + 1);
    Unaffected(specs[i], s.remote[tag]);
    hide DraftChange;
    hide ProgramOk;
    hide ValidPlan;
    hide MissingFrom;
  }

  lemma DeleteDrafts(specs: seq<Spec>, s: System, a: Action, i: nat)
    requires i < |specs| && ProgramOk(specs, s) && ValidPlan(specs) && a.Go? && DeletesConflicts(specs, s)
    requires s.program.Deleting? && s.program.deletions != [] && s.program.state.tag == specs[i].tag
    ensures DraftStep(specs[i], s.remote, Step(specs, s, a).remote)
  {
    var tag := specs[i].tag;
    assert s.program.k == i && tag in s.remote;
    assert s.program.deletions[0] in s.program.deletions;
    DeleteChange(specs[i], s.remote[tag], s.program.deletions[0]);
    Unaffected(specs[i], s.remote[tag]);
    hide DraftChange;
    hide ProgramOk;
    hide ValidPlan;
  }

  lemma OtherDrafts(specs: seq<Spec>, s: System, a: Action, i: nat)
    requires i < |specs| && ProgramOk(specs, s) && ValidPlan(specs)
    requires !(a.Go? && s.program.Uploading? && s.program.uploads != [] && s.program.state.tag == specs[i].tag)
    requires !(a.Go? && s.program.Deleting? && s.program.deletions != [] && s.program.state.tag == specs[i].tag)
    ensures DraftStep(specs[i], s.remote, Step(specs, s, a).remote)
  {
    if specs[i].tag in s.remote { Unaffected(specs[i], s.remote[specs[i].tag]); }
    hide DraftChange;
    hide ValidSpec;
    hide Complete;
    hide InspectOk;
    hide AssetsFit;
    hide MissingFrom;
  }

  /** A draft is accepted exactly if it is the planned release and each of its assets, no name twice, is a declared
      one as built or a numbered catalog file of another build, which a core release may replace. */
  lemma DraftAcceptedExactly(state: Release, spec: Spec)
    requires ValidSpec(spec)
    ensures InspectOk(state, spec) <==>
      && state.id >= 1 && state.tag == spec.tag && state.title == spec.title && state.draft
      && (forall i, j :: 0 <= i < j < |state.assets| ==> state.assets[i].name != state.assets[j].name)
      && (forall x :: x in state.assets ==> Planned(spec, x) || (x.id >= 1 && Conflicting(spec, x)))
  {
    forall x ensures Planned(spec, x) <==> Expected(spec, x) {
      if Planned(spec, x) {
        var e :| e in spec.assets && x.name == e.name && x.size == e.size && x.digest == "sha256:" + e.sha256;
        var i :| 0 <= i < |spec.assets| && spec.assets[i] == e;
        assert Matches(x, spec.assets[i]);
      }
    }
    hide ValidSpec;
    hide Planned;
    hide Expected;
    assert forall i :: 0 <= i < |state.assets| ==> state.assets[i] in state.assets;
  }

  /** The asset is one the plan declares, with its size and digest. */
  predicate Planned(spec: Spec, x: RemoteAsset) {
    exists e :: e in spec.assets && x.name == e.name && x.size == e.size && x.digest == "sha256:" + e.sha256
  }
}
