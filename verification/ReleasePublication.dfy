/** Multi-release publication (cmd/releasectl/publish_reconcile.go).

    One publisher scans the remote, stages drafts, reads everything back, publishes and confirms. Any
    remote call may fail, with or without its effect, and the publisher may be restarted at any time.
    A remote call otherwise does what it says: uploads and deletions are atomic. */
module ReleasePublication {

  datatype Option<T> = None | Some(value: T)

  datatype ReleaseAsset = ReleaseAsset(name: string, path: string, size: nat, sha256: string)

  datatype Spec = Spec(tag: string, title: string, assets: seq<ReleaseAsset>)

  datatype RemoteAsset = RemoteAsset(id: int, name: string, size: nat, digest: string)

  datatype Release = Release(id: int, tag: string, title: string, draft: bool, assets: seq<RemoteAsset>)

  type Remote = map<string, Release>

  // ---------------------------------------------------------------- checks

  predicate LowerHex(c: char) { '0' <= c <= '9' || 'a' <= c <= 'f' }

  predicate ValidAsset(a: ReleaseAsset) {
    a.name != "" && a.path != "" && a.size >= 1 && |a.sha256| == 64 && forall i :: 0 <= i < 64 ==> LowerHex(a.sha256[i])
  }

  predicate ValidSpec(spec: Spec) {
    && spec.tag != "" && spec.title != "" && spec.assets != []
    && (forall i :: 0 <= i < |spec.assets| ==> ValidAsset(spec.assets[i]))
    && (forall i, j :: 0 <= i < j < |spec.assets| ==> spec.assets[i].name != spec.assets[j].name)
  }

  predicate Matches(a: RemoteAsset, e: ReleaseAsset) {
    a.name == e.name && a.size == e.size && a.digest == "sha256:" + e.sha256
  }

  predicate Declared(spec: Spec, name: string) { exists i :: 0 <= i < |spec.assets| && spec.assets[i].name == name }

  predicate Expected(spec: Spec, a: RemoteAsset) { exists i :: 0 <= i < |spec.assets| && Matches(a, spec.assets[i]) }

  predicate Refreshable(spec: Spec, name: string) {
    && |spec.tag| > 0 && spec.tag[0] == 'v' && Declared(spec, "catalog.json") && Declared(spec, "catalog.sig")
    && (name == "catalog.json" || name == "catalog.sig")
  }

  predicate DistinctNames(assets: seq<RemoteAsset>) {
    forall i, j :: 0 <= i < j < |assets| ==> assets[i].name != assets[j].name
  }

  /** inspectDraftRelease succeeds. */
  predicate InspectOk(state: Release, spec: Spec) {
    && state.id >= 1 && state.tag == spec.tag && state.title == spec.title && state.draft && DistinctNames(state.assets)
    && forall i :: 0 <= i < |state.assets| ==>
         Expected(spec, state.assets[i]) || (Refreshable(spec, state.assets[i].name) && state.assets[i].id >= 1)
  }

  /** The assets a refresh deletes. */
  function Replacements(assets: seq<RemoteAsset>, spec: Spec): seq<RemoteAsset> {
    if assets == [] then [] else
    var last := assets[|assets| - 1];
    Replacements(assets[..|assets| - 1], spec) + if Expected(spec, last) then [] else [last]
  }

  predicate AssetsFit(assets: seq<RemoteAsset>, spec: Spec) {
    DistinctNames(assets) && forall i :: 0 <= i < |assets| ==> Expected(spec, assets[i])
  }

  predicate Named(assets: seq<RemoteAsset>, name: string) { exists i :: 0 <= i < |assets| && assets[i].name == name }

  function MissingFrom(assets: seq<RemoteAsset>, expected: seq<ReleaseAsset>): seq<ReleaseAsset> {
    if expected == [] then [] else
    var last := expected[|expected| - 1];
    MissingFrom(assets, expected[..|expected| - 1]) + if Named(assets, last.name) then [] else [last]
  }

  predicate Tracked(state: Release, spec: Spec) {
    state.id >= 1 && state.tag == spec.tag && state.title == spec.title && AssetsFit(state.assets, spec)
  }

  /** validateRemoteRelease with requireComplete. */
  predicate Complete(state: Release, spec: Spec) {
    Tracked(state, spec) && MissingFrom(state.assets, spec.assets) == []
  }

  /** What the scan accepts for one specification. */
  predicate Compatible(remote: Remote, spec: Spec) {
    spec.tag in remote ==>
      if remote[spec.tag].draft then InspectOk(remote[spec.tag], spec) else Complete(remote[spec.tag], spec)
  }

  predicate ValidPlan(specs: seq<Spec>) {
    && specs != [] && (forall i :: 0 <= i < |specs| ==> ValidSpec(specs[i]))
    && (forall i, j :: 0 <= i < j < |specs| ==> specs[i].tag != specs[j].tag)
  }

  // ---------------------------------------------------------------- the publisher

  type States = map<string, Release>

  datatype Program =
    | Scanning(k: nat, states: States)
    | Staging(k: nat, states: States)
    | Deleting(k: nat, states: States, state: Release, deletions: seq<RemoteAsset>)
    | Refreshing(k: nat, states: States)
    | Uploading(k: nat, states: States, state: Release, uploads: seq<ReleaseAsset>)
    | Checking(k: nat, states: States)
    | Publishing(k: nat, states: States)
    | Confirming(k: nat)
    | Succeeded
    | Failed

  predicate ValidCommit(commit: string) {
    40 <= |commit| <= 64 && forall i :: 0 <= i < |commit| ==> LowerHex(commit[i])
  }

  /** The check of the inputs before anything else. */
  function Begin(specs: seq<Spec>, commit: string): Program {
    if specs == [] || !ValidCommit(commit) then Failed else Scanning(0, map[])
  }

  /** How a remote call went: done, done but reported failed, or not done. */
  datatype Io = Done | Lost | Refused

  datatype System = System(remote: Remote, program: Program)

  datatype Action = Go(io: Io, id: nat) | Restart(commit: string)

  predicate Taken(specs: seq<Spec>, k: nat)
    requires k < |specs|
  {
    exists i :: 0 <= i < k && specs[i].tag == specs[k].tag
  }

  function ScanStep(specs: seq<Spec>, s: System, io: Io): Program
    requires s.program.Scanning?
  {
    var Scanning(k, states) := s.program;
    if k >= |specs| then Staging(0, states) else
    var spec := specs[k];
    if !ValidSpec(spec) || Taken(specs, k) || io != Done then Failed
    else if spec.tag !in s.remote then Scanning(k + 1, states)
    else if !Compatible(s.remote, spec) then Failed
    else Scanning(k + 1, states[spec.tag := s.remote[spec.tag]])
  }

  /** The state is up to date: upload what is missing. */
  function Upload(k: nat, states: States, state: Release, spec: Spec): Program {
    if !AssetsFit(state.assets, spec) then Failed
      else Uploading(k, states, state, MissingFrom(state.assets, spec.assets))
  }

  /** What an effect that may be lost leaves on the remote. */
  function Effect(remote: Remote, after: Remote, io: Io): Remote { if io.Refused? then remote else after }

  function StageStep(specs: seq<Spec>, s: System, io: Io, id: nat): System
    requires s.program.Staging?
  {
    var Staging(k, states) := s.program;
    if k >= |specs| then s.(program := Checking(0, states)) else
    var spec := specs[k];
    if spec.tag !in states then
      var created := Release(id + 1, spec.tag, spec.title, true, []);
      System(Effect(s.remote, s.remote[spec.tag := created], io), if io.Done? then Upload(k, states, created, spec)
        else Failed)
    else if !states[spec.tag].draft then s.(program := Staging(k + 1, states))
    else
      var deletions := Replacements(states[spec.tag].assets, spec);
      s.(program := if deletions == [] then Upload(k, states, states[spec.tag], spec)
        else Deleting(k, states, states[spec.tag], deletions))
  }

  function WithoutId(assets: seq<RemoteAsset>, id: int): seq<RemoteAsset> {
    if assets == [] then [] else
    WithoutId(assets[..|assets| - 1], id) + if assets[|assets| - 1].id == id then [] else [assets[|assets| - 1]]
  }

  function DeleteAsset(remote: Remote, tag: string, id: int): Remote {
    if tag !in remote then remote else remote[tag := remote[tag].(assets := WithoutId(remote[tag].assets, id))]
  }

  function UploadAsset(remote: Remote, tag: string, asset: ReleaseAsset, id: nat): Remote {
    if tag !in remote then remote
    else remote[tag := remote[tag].(assets := remote[tag].assets
      + [RemoteAsset(id + 1, asset.name, asset.size, "sha256:" + asset.sha256)])]
  }

  function Publish(remote: Remote, tag: string): Remote {
    if tag !in remote then remote else remote[tag := remote[tag].(draft := false)]
  }

  function DeleteStep(specs: seq<Spec>, s: System, io: Io): System
    requires s.program.Deleting?
  {
    var Deleting(k, states, state, deletions) := s.program;
    if deletions == [] then s.(program := Refreshing(k, states)) else
    System(Effect(s.remote, DeleteAsset(s.remote, state.tag, deletions[0].id), io),
           if io.Done? then s.program.(deletions := deletions[1..]) else Failed)
  }

  function RefreshStep(specs: seq<Spec>, s: System, io: Io): Program
    requires s.program.Refreshing?
  {
    var Refreshing(k, states) := s.program;
    if k >= |specs| then Failed else
    var spec := specs[k];
    if io != Done || spec.tag !in s.remote || !s.remote[spec.tag].draft then Failed else
    var state := s.remote[spec.tag];
    if !InspectOk(state, spec) || Replacements(state.assets, spec) != [] then Failed else Upload(k, states, state, spec)
  }

  function UploadStep(specs: seq<Spec>, s: System, io: Io, id: nat): System
    requires s.program.Uploading?
  {
    var Uploading(k, states, state, uploads) := s.program;
    if uploads == [] then s.(program := Staging(k + 1, states[state.tag := state])) else
    System(Effect(s.remote, UploadAsset(s.remote, state.tag, uploads[0], id), io),
           if !io.Done? then Failed else
           s.program.(state := state.(assets := state.assets
             + [RemoteAsset(0, uploads[0].name, uploads[0].size, "sha256:" + uploads[0].sha256)]),
                      uploads := uploads[1..]))
  }

  function CheckStep(specs: seq<Spec>, s: System, io: Io): Program
    requires s.program.Checking?
  {
    var Checking(k, states) := s.program;
    if k >= |specs| then Publishing(0, states) else
    var spec := specs[k];
    if io != Done || spec.tag !in s.remote || !Complete(s.remote[spec.tag], spec) then Failed
    else Checking(k + 1, states[spec.tag := s.remote[spec.tag]])
  }

  function PublishStep(specs: seq<Spec>, s: System, io: Io): System
    requires s.program.Publishing?
  {
    var Publishing(k, states) := s.program;
    if k >= |specs| then s.(program := Confirming(0)) else
    var tag := specs[k].tag;
    if tag !in states || !states[tag].draft then s.(program := Publishing(k + 1, states))
    else System(Effect(s.remote, Publish(s.remote, tag), io), if io.Done? then Publishing(k + 1, states) else Failed)
  }

  function ConfirmStep(specs: seq<Spec>, s: System, io: Io): Program
    requires s.program.Confirming?
  {
    var k := s.program.k;
    if k >= |specs| then Succeeded else
    var spec := specs[k];
    if io != Done || spec.tag !in s.remote || s.remote[spec.tag].draft || !Complete(s.remote[spec.tag], spec)
      then Failed
    else Confirming(k + 1)
  }

  function Step(specs: seq<Spec>, s: System, a: Action): System {
    if a.Restart? then s.(program := Begin(specs, a.commit)) else
    match s.program
    case Scanning(_, _) => s.(program := ScanStep(specs, s, a.io))
    case Staging(_, _) => StageStep(specs, s, a.io, a.id)
    case Deleting(_, _, _, _) => DeleteStep(specs, s, a.io)
    case Refreshing(_, _) => s.(program := RefreshStep(specs, s, a.io))
    case Uploading(_, _, _, _) => UploadStep(specs, s, a.io, a.id)
    case Checking(_, _) => s.(program := CheckStep(specs, s, a.io))
    case Publishing(_, _) => PublishStep(specs, s, a.io)
    case Confirming(_) => s.(program := ConfirmStep(specs, s, a.io))
    case Succeeded => s
    case Failed => s
  }

  function Start(specs: seq<Spec>, commit: string, remote: Remote): System { System(remote, Begin(specs, commit)) }

  function RunFrom(specs: seq<Spec>, s: System, actions: seq<Action>): System {
    if actions == [] then s else Step(specs, RunFrom(specs, s, actions[..|actions| - 1]), actions[|actions| - 1])
  }

  // ---------------------------------------------------------------- invariant

  ghost predicate AllCompatible(specs: seq<Spec>, remote: Remote) {
    forall i :: 0 <= i < |specs| ==> Compatible(remote, specs[i])
  }

  ghost predicate Agree(states: States, remote: Remote, tag: string) {
    (tag in states <==> tag in remote) && (tag in states ==> states[tag] == remote[tag])
  }

  ghost predicate CompleteAt(remote: Remote, spec: Spec) { spec.tag in remote && Complete(remote[spec.tag], spec) }

  ghost predicate PublishedAt(remote: Remote, spec: Spec) { CompleteAt(remote, spec) && !remote[spec.tag].draft }

  /** Specifications before k are complete; those after it are as the scan saw them. */
  ghost predicate StagedUpTo(specs: seq<Spec>, remote: Remote, states: States, k: nat, from: nat) {
    && ValidPlan(specs) && AllCompatible(specs, remote)
    && (forall i :: 0 <= i < |specs| && i < k ==> CompleteAt(remote, specs[i]))
    && (forall i :: from <= i < |specs| ==> Agree(states, remote, specs[i].tag))
  }

  ghost predicate DraftAt(remote: Remote, spec: Spec) {
    spec.tag in remote && remote[spec.tag].draft && InspectOk(remote[spec.tag], spec)
  }

  ghost predicate AllComplete(specs: seq<Spec>, remote: Remote) {
    ValidPlan(specs) && forall i :: 0 <= i < |specs| ==> CompleteAt(remote, specs[i])
  }

  ghost predicate ProgramOk(specs: seq<Spec>, s: System) {
    var remote := s.remote;
    match s.program
    case Scanning(k, states) =>
      && specs != [] && k <= |specs|
      && (forall i :: 0 <= i < k ==>
           ValidSpec(specs[i]) && Compatible(remote, specs[i]) && Agree(states, remote, specs[i].tag))
      && (forall i, j :: 0 <= i < j < k ==> specs[i].tag != specs[j].tag)
      && (forall tag :: tag in states ==> exists i :: 0 <= i < k && specs[i].tag == tag)
    case Staging(k, states) => k <= |specs| && StagedUpTo(specs, remote, states, k, k)
    case Deleting(k, states, state, deletions) =>
      && k < |specs| && StagedUpTo(specs, remote, states, k, k + 1) && DraftAt(remote, specs[k])
           && state.tag == specs[k].tag
      && (forall x :: x in remote[specs[k].tag].assets && !Expected(specs[k], x) ==> x in deletions)
    case Refreshing(k, states) =>
      && k < |specs| && StagedUpTo(specs, remote, states, k, k + 1) && DraftAt(remote, specs[k])
      && (forall x :: x in remote[specs[k].tag].assets ==> Expected(specs[k], x))
    case Uploading(k, states, state, uploads) =>
      && k < |specs| && StagedUpTo(specs, remote, states, k, k + 1) && DraftAt(remote, specs[k])
           && state.tag == specs[k].tag
      && AssetsFit(remote[specs[k].tag].assets, specs[k])
      && uploads == MissingFrom(remote[specs[k].tag].assets, specs[k].assets)
    case Checking(k, states) =>
      && k <= |specs| && AllComplete(specs, remote)
      && (forall i :: 0 <= i < k ==> Agree(states, remote, specs[i].tag))
    case Publishing(k, states) =>
      && k <= |specs| && AllComplete(specs, remote)
      && (forall i :: 0 <= i < k ==> PublishedAt(remote, specs[i]))
      && (forall i :: k <= i < |specs| ==> Agree(states, remote, specs[i].tag))
    case Confirming(k) =>
      k <= |specs| && AllComplete(specs, remote) && forall i :: 0 <= i < |specs| ==> PublishedAt(remote, specs[i])
    case Succeeded => AllComplete(specs, remote) && forall i :: 0 <= i < |specs| ==> PublishedAt(remote, specs[i])
    case Failed => true
  }

  // ---------------------------------------------------------------- asset lists

  lemma {:induction false} WithoutIdIs(assets: seq<RemoteAsset>, id: int)
    ensures forall x :: x in WithoutId(assets, id) <==> x in assets && x.id != id
    ensures DistinctNames(assets) ==> DistinctNames(WithoutId(assets, id))
  {
    if assets != [] {
      var n := |assets| - 1;
      WithoutIdIs(assets[..n], id);
      assert assets == assets[..n] + [assets[n]];
    }
  }

  lemma {:induction false} ReplacementsAre(assets: seq<RemoteAsset>, spec: Spec)
    ensures forall x :: x in Replacements(assets, spec) <==> x in assets && !Expected(spec, x)
  {
    if assets != [] {
      var n := |assets| - 1;
      ReplacementsAre(assets[..n], spec);
      assert assets == assets[..n] + [assets[n]];
    }
  }

  lemma {:induction false} NothingReplaced(assets: seq<RemoteAsset>, spec: Spec)
    requires forall x :: x in assets ==> Expected(spec, x)
    ensures Replacements(assets, spec) == []
  {
    if assets != [] { NothingReplaced(assets[..|assets| - 1], spec); }
  }

  lemma {:induction false} MissingAre(assets: seq<RemoteAsset>, expected: seq<ReleaseAsset>)
    ensures forall x :: x in MissingFrom(assets, expected) <==> x in expected && !Named(assets, x.name)
  {
    if expected != [] {
      var n := |expected| - 1;
      MissingAre(assets, expected[..n]);
      assert expected == expected[..n] + [expected[n]];
    }
  }

  lemma {:induction false} NothingMissing(assets: seq<RemoteAsset>, expected: seq<ReleaseAsset>)
    requires forall x :: x in expected ==> Named(assets, x.name)
    ensures MissingFrom(assets, expected) == []
  {
    if expected != [] { NothingMissing(assets, expected[..|expected| - 1]); }
  }

  lemma NamedMore(assets: seq<RemoteAsset>, r: RemoteAsset, name: string)
    ensures Named(assets + [r], name) <==> Named(assets, name) || r.name == name
  {
    if Named(assets, name) {
      var i :| 0 <= i < |assets| && assets[i].name == name;
      assert (assets + [r])[i].name == name;
    }
    assert (assets + [r])[|assets|] == r;
  }

  /** Uploading the first missing asset leaves exactly the rest missing. */
  lemma {:induction false} UploadOne(assets: seq<RemoteAsset>, expected: seq<ReleaseAsset>, r: RemoteAsset)
    requires forall i, j :: 0 <= i < j < |expected| ==> expected[i].name != expected[j].name
    requires MissingFrom(assets, expected) != [] && MissingFrom(assets, expected)[0].name == r.name
    ensures MissingFrom(assets + [r], expected) == MissingFrom(assets, expected)[1..]
  {
    var n := |expected| - 1;
    var before, e := expected[..n], expected[n];
    NamedMore(assets, r, e.name);
    if MissingFrom(assets, before) == [] {
      MissingAre(assets, before);
      forall x | x in before ensures Named(assets + [r], x.name) { NamedMore(assets, r, x.name); }
      NothingMissing(assets + [r], before);
    } else {
      MissingAre(assets, before);
      assert MissingFrom(assets, before)[0] in before;
      UploadOne(assets, before, r);
    }
  }

  lemma CompleteIsCompatible(remote: Remote, spec: Spec)
    requires CompleteAt(remote, spec)
    ensures Compatible(remote, spec)
  {
  }

  // ---------------------------------------------------------------- every step keeps the invariant

  /** Only the release of one tag has changed. */
  ghost predicate SameExcept(before: Remote, after: Remote, tag: string) {
    forall t :: t != tag ==> Agree(before, after, t)
  }

  /** A change to the release being staged that leaves it an acceptable draft. */
  lemma DraftChanges(specs: seq<Spec>, before: Remote, after: Remote, states: States, k: nat)
    requires k < |specs| && StagedUpTo(specs, before, states, k, k + 1)
    requires SameExcept(before, after, specs[k].tag) && DraftAt(after, specs[k])
    ensures StagedUpTo(specs, after, states, k, k + 1)
  {
    forall i | 0 <= i < |specs| ensures Compatible(after, specs[i])
    {
      if i != k { assert Agree(before, after, specs[i].tag); }
    }
    forall i | 0 <= i < |specs| && i != k ensures Agree(before, after, specs[i].tag) { }
  }

  lemma ScanKeeps(specs: seq<Spec>, s: System, io: Io)
    requires s.program.Scanning? && ProgramOk(specs, s)
    ensures ProgramOk(specs, s.(program := ScanStep(specs, s, io)))
  {
    hide InspectOk;
    hide Complete;
    hide ValidSpec;
  }

  lemma UploadFits(state: Release, spec: Spec, r: RemoteAsset)
    requires InspectOk(state, spec) && AssetsFit(state.assets, spec) && ValidSpec(spec)
    requires MissingFrom(state.assets, spec.assets) != [] && Matches(r, MissingFrom(state.assets, spec.assets)[0])
    ensures var after := state.(assets := state.assets + [r]);
      && InspectOk(after, spec) && AssetsFit(after.assets, spec)
      && MissingFrom(after.assets, spec.assets) == MissingFrom(state.assets, spec.assets)[1..]
  {
    var e := MissingFrom(state.assets, spec.assets)[0];
    MissingAre(state.assets, spec.assets);
    assert e in MissingFrom(state.assets, spec.assets);
    assert Expected(spec, r);
    assert forall i :: 0 <= i < |state.assets| ==> state.assets[i].name != r.name;
    UploadOne(state.assets, spec.assets, r);
  }

  lemma DeleteFits(state: Release, spec: Spec, id: int)
    requires InspectOk(state, spec)
    ensures InspectOk(state.(assets := WithoutId(state.assets, id)), spec)
  {
    WithoutIdIs(state.assets, id);
    var after := WithoutId(state.assets, id);
    forall i | 0 <= i < |after|
      ensures Expected(spec, after[i]) || (Refreshable(spec, after[i].name) && after[i].id >= 1)
    {
      assert after[i] in after;
    }
  }

  lemma UploadedKeeps(specs: seq<Spec>, s: System, io: Io, id: nat)
    requires s.program.Uploading? && ProgramOk(specs, s) && s.program.uploads == []
    ensures ProgramOk(specs, UploadStep(specs, s, io, id))
  {
    var k := s.program.k;
    assert CompleteAt(s.remote, specs[k]);
    hide InspectOk;
    hide AssetsFit;
    hide ValidSpec;
    hide Complete;
  }

  lemma UploadKeeps(specs: seq<Spec>, s: System, io: Io, id: nat)
    requires s.program.Uploading? && ProgramOk(specs, s)
    ensures ProgramOk(specs, UploadStep(specs, s, io, id))
  {
    var Uploading(k, states, state, uploads) := s.program;
    var spec := specs[k];
    if uploads == [] {
      UploadedKeeps(specs, s, io, id);
      hide ProgramOk;
    } else if !io.Refused? {
      var r := RemoteAsset(id + 1, uploads[0].name, uploads[0].size, "sha256:" + uploads[0].sha256);
      UploadFits(s.remote[spec.tag], spec, r);
      var after := UploadAsset(s.remote, spec.tag, uploads[0], id);
      hide InspectOk;
      hide AssetsFit;
      hide ValidSpec;
      hide MissingFrom;
      assert DraftAt(after, spec);
      DraftChanges(specs, s.remote, after, states, k);
      hide StagedUpTo;
    }
  }

  lemma DeleteKeeps(specs: seq<Spec>, s: System, io: Io)
    requires s.program.Deleting? && ProgramOk(specs, s)
    ensures ProgramOk(specs, DeleteStep(specs, s, io))
  {
    var Deleting(k, states, state, deletions) := s.program;
    var spec := specs[k];
    if deletions != [] && !io.Refused? {
      WithoutIdIs(s.remote[spec.tag].assets, deletions[0].id);
      DeleteFits(s.remote[spec.tag], spec, deletions[0].id);
      DraftChanges(specs, s.remote, DeleteAsset(s.remote, spec.tag, deletions[0].id), states, k);
      assert deletions == [deletions[0]] + deletions[1..];
    }
    hide InspectOk;
    hide ValidSpec;
  }

  lemma StageKeeps(specs: seq<Spec>, s: System, io: Io, id: nat)
    requires s.program.Staging? && ProgramOk(specs, s)
    ensures ProgramOk(specs, StageStep(specs, s, io, id))
  {
    var Staging(k, states) := s.program;
    if k < |specs| {
      var spec := specs[k];
      if spec.tag !in states {
        var created := Release(id + 1, spec.tag, spec.title, true, []);
        DraftChanges(specs, s.remote, s.remote[spec.tag := created], states, k);
      } else {
        ReplacementsAre(states[spec.tag].assets, spec);
      }
    }
    hide ValidSpec;
  }

  lemma RefreshKeeps(specs: seq<Spec>, s: System, io: Io)
    requires s.program.Refreshing? && ProgramOk(specs, s)
    ensures ProgramOk(specs, s.(program := RefreshStep(specs, s, io)))
  {
  }

  lemma CheckKeeps(specs: seq<Spec>, s: System, io: Io)
    requires s.program.Checking? && ProgramOk(specs, s)
    ensures ProgramOk(specs, s.(program := CheckStep(specs, s, io)))
  {
  }

  lemma DraftDoesNotMatter(state: Release, spec: Spec)
    ensures Complete(state.(draft := false), spec) == Complete(state, spec)
  {
  }

  lemma PublishKeeps(specs: seq<Spec>, s: System, io: Io)
    requires s.program.Publishing? && ProgramOk(specs, s)
    ensures ProgramOk(specs, PublishStep(specs, s, io))
  {
    hide Tracked;
    hide ValidSpec;
    hide MissingFrom;
    var Publishing(k, states) := s.program;
    if k < |specs| {
      assert Agree(states, s.remote, specs[k].tag);
      var after := Publish(s.remote, specs[k].tag);
      forall i | 0 <= i < |specs| ensures CompleteAt(after, specs[i]) {
        assert CompleteAt(s.remote, specs[i]);
        DraftDoesNotMatter(s.remote[specs[i].tag], specs[i]);
      }
    }
  }

  lemma ConfirmKeeps(specs: seq<Spec>, s: System, io: Io)
    requires s.program.Confirming? && ProgramOk(specs, s)
    ensures ProgramOk(specs, s.(program := ConfirmStep(specs, s, io)))
  {
  }

  lemma StepKeeps(specs: seq<Spec>, s: System, a: Action)
    requires ProgramOk(specs, s)
    ensures ProgramOk(specs, Step(specs, s, a))
  {
    if a.Go? {
      match s.program
      case Scanning(_, _) => ScanKeeps(specs, s, a.io);
      case Staging(_, _) => StageKeeps(specs, s, a.io, a.id);
      case Deleting(_, _, _, _) => DeleteKeeps(specs, s, a.io);
      case Refreshing(_, _) => RefreshKeeps(specs, s, a.io);
      case Uploading(_, _, _, _) => UploadKeeps(specs, s, a.io, a.id);
      case Checking(_, _) => CheckKeeps(specs, s, a.io);
      case Publishing(_, _) => PublishKeeps(specs, s, a.io);
      case Confirming(_) => ConfirmKeeps(specs, s, a.io);
      case Succeeded =>
      case Failed =>
    }
  }

  lemma {:induction false} RunKeeps(specs: seq<Spec>, s: System, actions: seq<Action>)
    requires ProgramOk(specs, s)
    ensures ProgramOk(specs, RunFrom(specs, s, actions))
  {
    if actions != [] {
      RunKeeps(specs, s, actions[..|actions| - 1]);
      StepKeeps(specs, RunFrom(specs, s, actions[..|actions| - 1]), actions[|actions| - 1]);
    }
  }

  // ---------------------------------------------------------------- what a step may change

  /** A release that is already published is never touched. */
  ghost predicate PublishedKept(before: Remote, after: Remote) {
    forall tag :: tag in before && !before[tag].draft ==> tag in after && after[tag] == before[tag]
  }

  predicate Planned(specs: seq<Spec>, tag: string) { exists i :: 0 <= i < |specs| && specs[i].tag == tag }

  ghost predicate OthersKept(specs: seq<Spec>, before: Remote, after: Remote) {
    forall tag :: !Planned(specs, tag) ==> Agree(before, after, tag)
  }

  lemma StepChanges(specs: seq<Spec>, s: System, a: Action)
    requires ProgramOk(specs, s)
    ensures PublishedKept(s.remote, Step(specs, s, a).remote) && OthersKept(specs, s.remote, Step(specs, s, a).remote)
  {
    hide InspectOk;
    hide AssetsFit;
    hide Complete;
    hide ValidSpec;
  }

  /** Past the scan, the plan is valid and every release is acceptable. */
  lemma PastScan(specs: seq<Spec>, s: System)
    requires ProgramOk(specs, s) && !s.program.Scanning? && !s.program.Failed?
    ensures ValidPlan(specs) && AllCompatible(specs, s.remote)
  {
    if AllComplete(specs, s.remote) {
      forall i | 0 <= i < |specs| ensures Compatible(s.remote, specs[i]) { CompleteIsCompatible(s.remote, specs[i]); }
    }
  }

  /** A lost effect is the effect of the same call done. */
  lemma CompatibleKeeps(specs: seq<Spec>, s: System, a: Action)
    requires ProgramOk(specs, s) && AllCompatible(specs, s.remote) && ValidPlan(specs)
    ensures AllCompatible(specs, Step(specs, s, a).remote)
  {
    hide InspectOk;
    hide Complete;
    hide MissingFrom;
    hide Replacements;
    hide ValidSpec;
    if Step(specs, s, a).remote != s.remote {
      var done := Go(Done, a.id);
      StepKeeps(specs, s, done);
      assert Step(specs, s, done).remote == Step(specs, s, a).remote && !Step(specs, s, done).program.Failed?;
      PastScan(specs, Step(specs, s, done));
    }
  }

  // ---------------------------------------------------------------- main results

  /** If an existing release conflicts with the plan, or the plan is invalid, no run changes the remote. */
  lemma {:induction false} ConflictChangesNothing(specs: seq<Spec>, commit: string, remote: Remote,
      actions: seq<Action>)
    requires !ValidPlan(specs) || !AllCompatible(specs, remote)
    ensures RunFrom(specs, Start(specs, commit, remote), actions).remote == remote
    ensures !RunFrom(specs, Start(specs, commit, remote), actions).program.Succeeded?
  {
    if actions != [] {
      var before := RunFrom(specs, Start(specs, commit, remote), actions[..|actions| - 1]);
      ConflictChangesNothing(specs, commit, remote, actions[..|actions| - 1]);
      RunKeeps(specs, Start(specs, commit, remote), actions[..|actions| - 1]);
      RunKeeps(specs, Start(specs, commit, remote), actions);
      if !before.program.Scanning? && !before.program.Failed? { PastScan(specs, before); }
    }
  }

  /** Over every run, with any failures and restarts, a published release never changes again and
      releases outside the plan never change at all. */
  lemma {:induction false} PublishedNeverChanges(specs: seq<Spec>, s: System, actions: seq<Action>)
    requires ProgramOk(specs, s)
    ensures PublishedKept(s.remote, RunFrom(specs, s, actions).remote)
      && OthersKept(specs, s.remote, RunFrom(specs, s, actions).remote)
  {
    if actions != [] {
      var n := |actions| - 1;
      PublishedNeverChanges(specs, s, actions[..n]);
      RunKeeps(specs, s, actions[..n]);
      StepChanges(specs, RunFrom(specs, s, actions[..n]), actions[n]);
      hide Step;
    }
  }

  predicate NewlyPublished(before: Remote, after: Remote, tag: string) {
    tag in after && !after[tag].draft && (tag !in before || before[tag].draft)
  }

  /** Whenever a release becomes published, every release of the plan is already complete, with exactly
      its assets. */
  lemma NothingPublishedEarly(specs: seq<Spec>, commit: string, remote: Remote, actions: seq<Action>, a: Action,
      tag: string)
    requires
      var s := RunFrom(specs, Start(specs, commit, remote), actions);
      NewlyPublished(s.remote, Step(specs, s, a).remote, tag)
    ensures AllComplete(specs, RunFrom(specs, Start(specs, commit, remote), actions).remote)
  {
    RunKeeps(specs, Start(specs, commit, remote), actions);
    hide InspectOk;
    hide AssetsFit;
    hide Complete;
    hide ValidSpec;
  }

  /** A success leaves every release published and complete. */
  lemma SuccessIsComplete(specs: seq<Spec>, commit: string, remote: Remote, actions: seq<Action>, i: nat)
    requires RunFrom(specs, Start(specs, commit, remote), actions).program.Succeeded? && i < |specs|
    ensures PublishedAt(RunFrom(specs, Start(specs, commit, remote), actions).remote, specs[i])
  {
    RunKeeps(specs, Start(specs, commit, remote), actions);
  }

  /** Complete means exactly the declared assets: each one present once, and nothing else. */
  lemma CompleteIsExact(state: Release, spec: Spec)
    requires ValidSpec(spec)
    ensures Complete(state, spec) <==>
      && state.id >= 1 && state.tag == spec.tag && state.title == spec.title && DistinctNames(state.assets)
      && (forall i :: 0 <= i < |state.assets| ==> Expected(spec, state.assets[i]))
      && (forall j :: 0 <= j < |spec.assets| ==>
           exists i :: 0 <= i < |state.assets| && Matches(state.assets[i], spec.assets[j]))
  {
    MissingAre(state.assets, spec.assets);
    if Complete(state, spec) {
      forall j | 0 <= j < |spec.assets|
        ensures exists i :: 0 <= i < |state.assets| && Matches(state.assets[i], spec.assets[j])
      {
        assert spec.assets[j] in spec.assets;
        var i :| 0 <= i < |state.assets| && state.assets[i].name == spec.assets[j].name;
        assert Expected(spec, state.assets[i]);
      }
    }
    if forall j :: 0 <= j < |spec.assets| ==>
      exists i :: 0 <= i < |state.assets| && Matches(state.assets[i], spec.assets[j]) {
      NothingMissing(state.assets, spec.assets);
    }
  }

  // ---------------------------------------------------------------- a fault-free rerun

  function Phase(p: Program): nat {
    match p
    case Scanning(_, _) => 4
    case Staging(_, _) => 3
    case Deleting(_, _, _, _) => 3
    case Refreshing(_, _) => 3
    case Uploading(_, _, _, _) => 3
    case Checking(_, _) => 2
    case Publishing(_, _) => 1
    case _ => 0
  }

  function Rest(specs: seq<Spec>, p: Program): nat {
    if p.Succeeded? || p.Failed? || p.k > |specs| then 0 else |specs| - p.k + 1
  }

  function SubPhase(p: Program): nat {
    match p case Staging(_, _) => 3 case Deleting(_, _, _, _) => 2 case Refreshing(_, _) => 1 case _ => 0
  }

  function Pending(p: Program): nat {
    match p case Deleting(_, _, _, deletions) => |deletions| case Uploading(_, _, _, uploads) => |uploads| case _ => 0
  }

  ghost predicate Closer(specs: seq<Spec>, p: Program, q: Program) {
    || Phase(q) < Phase(p)
    || (Phase(q) == Phase(p) && Rest(specs, q) < Rest(specs, p))
    || (Phase(q) == Phase(p) && Rest(specs, q) == Rest(specs, p) && SubPhase(q) < SubPhase(p))
    || (Phase(q) == Phase(p) && Rest(specs, q) == Rest(specs, p) && SubPhase(q) == SubPhase(p)
         && Pending(q) < Pending(p))
  }

  lemma DoneStep(specs: seq<Spec>, s: System, id: nat)
    requires ProgramOk(specs, s) && ValidPlan(specs) && AllCompatible(specs, s.remote)
    requires !s.program.Failed? && !s.program.Succeeded?
    ensures var t := Step(specs, s, Go(Done, id)); !t.program.Failed? && Closer(specs, s.program, t.program)
  {
    if s.program.Refreshing? {
      var spec := specs[s.program.k];
      NothingReplaced(s.remote[spec.tag].assets, spec);
    }
    if s.program.Staging? && s.program.k < |specs| && specs[s.program.k].tag in s.remote {
      var spec := specs[s.program.k];
      ReplacementsAre(s.remote[spec.tag].assets, spec);
    }
  }

  /** n steps in which every remote call is done. */
  function FaultFree(specs: seq<Spec>, s: System, n: nat, id: nat): System {
    RunFrom(specs, s, seq(n, _ => Go(Done, id)))
  }

  /** From any remote that does not conflict with a valid plan, in particular one left by an interrupted
      run, a fault-free run succeeds. */
  lemma {:induction false} FaultFreeFinishes(specs: seq<Spec>, s: System, id: nat) returns (n: nat)
    requires ProgramOk(specs, s) && ValidPlan(specs) && AllCompatible(specs, s.remote) && !s.program.Failed?
    ensures FaultFree(specs, s, n, id).program.Succeeded?
    decreases Phase(s.program), Rest(specs, s.program), SubPhase(s.program), Pending(s.program), !s.program.Succeeded?
  {
    n := 0;
    if !s.program.Succeeded? {
      var a := Go(Done, id);
      DoneStep(specs, s, id);
      StepKeeps(specs, s, a);
      CompatibleKeeps(specs, s, a);
      var m := FaultFreeFinishes(specs, Step(specs, s, a), id);
      n := m + 1;
      RunFirst(specs, s, seq(n, _ => a));
      assert seq(n, _ => a)[1..] == seq(m, _ => a);
    }
  }

  lemma {:induction false} RunFirst(specs: seq<Spec>, s: System, actions: seq<Action>)
    requires actions != []
    ensures RunFrom(specs, s, actions) == RunFrom(specs, Step(specs, s, actions[0]), actions[1..])
  {
    var n := |actions| - 1;
    if n > 0 {
      RunFirst(specs, s, actions[..n]);
      assert actions[..n][1..] == actions[1..][..n - 1];
    } else {
      assert actions[..0] == [] && actions[1..] == [];
    }
  }

  lemma {:induction false} InterruptedStaysCompatible(specs: seq<Spec>, s: System, actions: seq<Action>)
    requires ProgramOk(specs, s) && ValidPlan(specs) && AllCompatible(specs, s.remote)
    ensures AllCompatible(specs, RunFrom(specs, s, actions).remote)
  {
    if actions != [] {
      var n := |actions| - 1;
      InterruptedStaysCompatible(specs, s, actions[..n]);
      RunKeeps(specs, s, actions[..n]);
      CompatibleKeeps(specs, RunFrom(specs, s, actions[..n]), actions[n]);
    }
  }

  ghost predicate RerunSucceeds(specs: seq<Spec>, commit: string, remote: Remote, id: nat) {
    exists n: nat :: FaultFree(specs, Start(specs, commit, remote), n, id).program.Succeeded?
  }

  /** A run whose inputs are refused does nothing. */
  lemma {:induction false} RefusedDoesNothing(specs: seq<Spec>, s: System, n: nat, id: nat)
    requires s.program.Failed?
    ensures FaultFree(specs, s, n, id) == s
  {
    if n > 0 {
      RefusedDoesNothing(specs, s, n - 1, id);
      var a := Go(Done, id);
      assert seq(n, _ => a)[..n - 1] == seq(n - 1, _ => a);
    }
  }

  /** After any interrupted run, a fault-free rerun with the same plan publishes all of it exactly when
      the plan and the commit are valid and the remote did not conflict with the plan to begin with. */
  lemma RerunCompletesIffNoConflict(specs: seq<Spec>, commit: string, remote: Remote, actions: seq<Action>, id: nat)
    ensures RerunSucceeds(specs, commit, RunFrom(specs, Start(specs, commit, remote), actions).remote, id)
      <==> ValidCommit(commit) && ValidPlan(specs) && AllCompatible(specs, remote)
  {
    var left := RunFrom(specs, Start(specs, commit, remote), actions).remote;
    var interrupted := Start(specs, commit, left);
    if !ValidCommit(commit) {
      forall n: nat ensures !FaultFree(specs, interrupted, n, id).program.Succeeded? {
        RefusedDoesNothing(specs, interrupted, n, id);
      }
    } else if ValidPlan(specs) && AllCompatible(specs, remote) {
      InterruptedStaysCompatible(specs, Start(specs, commit, remote), actions);
      var n := FaultFreeFinishes(specs, interrupted, id);
    } else {
      ConflictChangesNothing(specs, commit, remote, actions);
      forall n: nat ensures !FaultFree(specs, interrupted, n, id).program.Succeeded? {
        ConflictChangesNothing(specs, commit, remote, seq(n, _ => Go(Done, id)));
      }
    }
  }

  // ---------------------------------------------------------------- the checks, as loops

  method ValidateReleaseSpec(spec: Spec) returns (ok: bool)
    ensures ok == ValidSpec(spec)
  {
    if spec.tag == "" || spec.title == "" || spec.assets == [] { return false; }
    var seen: set<string> := {};
    for k := 0 to |spec.assets|
      invariant seen == set i | 0 <= i < k :: spec.assets[i].name
      invariant forall i :: 0 <= i < k ==> ValidAsset(spec.assets[i])
      invariant forall i, j :: 0 <= i < j < k ==> spec.assets[i].name != spec.assets[j].name
    {
      var asset := spec.assets[k];
      if !ValidAsset(asset) { return false; }
      if asset.name in seen { return false; }
      seen := seen + {asset.name};
    }
    return true;
  }

  /** A map from the declared names to their declarations. */
  ghost predicate Indexes(expected: map<string, ReleaseAsset>, spec: Spec, n: nat) {
    && n <= |spec.assets|
    && (forall i :: 0 <= i < n ==> spec.assets[i].name in expected && expected[spec.assets[i].name] == spec.assets[i])
    && (forall name :: name in expected ==> exists i :: 0 <= i < n && spec.assets[i].name == name)
  }

  lemma LookUp(expected: map<string, ReleaseAsset>, spec: Spec, asset: RemoteAsset)
    requires Indexes(expected, spec, |spec.assets|)
    ensures Expected(spec, asset) <==> asset.name in expected && Matches(asset, expected[asset.name])
    ensures Declared(spec, asset.name) <==> asset.name in expected
  {
  }

  lemma RefreshableIs(expected: map<string, ReleaseAsset>, spec: Spec, name: string)
    requires Indexes(expected, spec, |spec.assets|) && spec.tag != ""
    ensures Refreshable(spec, name) <==>
      spec.tag[0] == 'v' && "catalog.json" in expected && "catalog.sig" in expected
        && (name == "catalog.json" || name == "catalog.sig")
    ensures Refreshable(spec, name) ==> name in expected
  {
    assert Declared(spec, "catalog.json") <==> "catalog.json" in expected;
    assert Declared(spec, "catalog.sig") <==> "catalog.sig" in expected;
  }

  method ExpectedByName(spec: Spec) returns (expected: map<string, ReleaseAsset>)
    requires ValidSpec(spec)
    ensures Indexes(expected, spec, |spec.assets|)
  {
    expected := map[];
    for k := 0 to |spec.assets|
      invariant Indexes(expected, spec, k)
    {
      expected := expected[spec.assets[k].name := spec.assets[k]];
    }
  }

  ghost predicate Seen(assets: seq<RemoteAsset>, k: nat, seen: set<string>)
    requires k <= |assets|
  {
    && (forall i :: 0 <= i < k ==> assets[i].name in seen)
    && (forall name :: name in seen ==> Named(assets[..k], name))
    && DistinctNames(assets[..k])
  }

  lemma SeenMore(assets: seq<RemoteAsset>, k: nat, seen: set<string>)
    requires k < |assets| && Seen(assets, k, seen)
    ensures assets[k].name !in seen ==> Seen(assets, k + 1, seen + {assets[k].name})
    ensures assets[k].name in seen ==> !DistinctNames(assets)
  {
    assert assets[..k + 1] == assets[..k] + [assets[k]];
    forall name ensures Named(assets[..k + 1], name) <==> Named(assets[..k], name) || assets[k].name == name {
      NamedMore(assets[..k], assets[k], name);
    }
  }

  predicate Acceptable(spec: Spec, a: RemoteAsset) { Expected(spec, a) || (Refreshable(spec, a.name) && a.id >= 1) }

  /** The names whose assets a draft may have out of date. */
  method RefreshableNames(spec: Spec, expected: map<string, ReleaseAsset>) returns (refreshable: set<string>)
    requires spec.tag != "" && Indexes(expected, spec, |spec.assets|)
    ensures forall name :: name in refreshable <==> Refreshable(spec, name)
  {
    refreshable := {};
    if spec.tag[0] == 'v' && "catalog.json" in expected && "catalog.sig" in expected {
      refreshable := {"catalog.json", "catalog.sig"};
    }
    forall name ensures name in refreshable <==> Refreshable(spec, name) { RefreshableIs(expected, spec, name); }
  }

  method InspectAssets(assets: seq<RemoteAsset>, spec: Spec, expected: map<string, ReleaseAsset>,
      refreshable: set<string>)
    returns (r: Option<seq<RemoteAsset>>)
    requires Indexes(expected, spec, |spec.assets|) && spec.tag != ""
    requires forall name :: name in refreshable <==> Refreshable(spec, name)
    ensures r.Some? == (DistinctNames(assets) && forall i :: 0 <= i < |assets| ==> Acceptable(spec, assets[i]))
    ensures r.Some? ==> r.value == Replacements(assets, spec)
  {
    hide Indexes;
    hide Expected;
    hide Refreshable;
    hide Seen;
    hide DistinctNames;
    hide Replacements;
    var seen: set<string> := {};
    NothingSeen(assets);
    var replacements: seq<RemoteAsset> := [];
    NoReplacements(spec);
    for k := 0 to |assets|
      invariant Seen(assets, k, seen)
      invariant forall i :: 0 <= i < k ==> Acceptable(spec, assets[i])
      invariant replacements == Replacements(assets[..k], spec)
    {
      var asset := assets[k];
      ReplacementsMore(assets, k, spec);
      LookUp(expected, spec, asset);
      SeenMore(assets, k, seen);
      RefreshableIs(expected, spec, asset.name);
      if asset.name !in expected { return None; }
      if asset.name in seen { return None; }
      IndexName(expected, spec, asset.name);
      seen := seen + {asset.name};
      if asset.size == expected[asset.name].size && asset.digest == "sha256:" + expected[asset.name].sha256 {
        continue;
      }
      if asset.name !in refreshable || asset.id < 1 { return None; }
      replacements := replacements + [asset];
    }
    AllSeen(assets, seen);
    assert assets[..|assets|] == assets;
    return Some(replacements);
  }

  /** The conflict, or the assets to replace. */
  method InspectDraftRelease(state: Release, spec: Spec) returns (r: Option<seq<RemoteAsset>>)
    requires ValidSpec(spec)
    ensures r.Some? == InspectOk(state, spec)
    ensures r.Some? ==> r.value == Replacements(state.assets, spec)
  {
    if state.id < 1 || state.tag != spec.tag || state.title != spec.title || !state.draft { return None; }
    var expected := ExpectedByName(spec);
    var refreshable := RefreshableNames(spec, expected);
    r := InspectAssets(state.assets, spec, expected, refreshable);
    hide ValidSpec;
    hide Indexes;
    hide Expected;
    hide Refreshable;
  }

  lemma NoReplacements(spec: Spec)
    ensures Replacements([], spec) == []
  {
  }

  lemma ReplacementsMore(assets: seq<RemoteAsset>, k: nat, spec: Spec)
    requires k < |assets|
    ensures Replacements(assets[..k + 1], spec) == Replacements(assets[..k], spec) + if Expected(spec, assets[k])
      then [] else [assets[k]]
  {
    assert assets[..k + 1][..k] == assets[..k];
  }

  lemma NothingSeen(assets: seq<RemoteAsset>)
    ensures Seen(assets, 0, {})
  {
  }

  lemma AllSeen(assets: seq<RemoteAsset>, seen: set<string>)
    requires Seen(assets, |assets|, seen)
    ensures DistinctNames(assets) && forall name :: name in seen <==> Named(assets, name)
  {
    assert assets[..|assets|] == assets;
  }

  lemma IndexName(expected: map<string, ReleaseAsset>, spec: Spec, name: string)
    requires Indexes(expected, spec, |spec.assets|) && name in expected
    ensures expected[name].name == name
  {
  }

  /** A conflict, or the declared assets that are not there yet. */
  method MissingReleaseAssets(remoteAssets: seq<RemoteAsset>, spec: Spec) returns (r: Option<seq<ReleaseAsset>>)
    requires ValidSpec(spec)
    ensures r.Some? == AssetsFit(remoteAssets, spec)
    ensures r.Some? ==> r.value == MissingFrom(remoteAssets, spec.assets)
  {
    var expected := ExpectedByName(spec);
    hide ValidSpec;
    hide Indexes;
    hide Expected;
    hide Seen;
    hide DistinctNames;
    var seen: set<string> := {};
    NothingSeen(remoteAssets);
    for k := 0 to |remoteAssets|
      invariant Seen(remoteAssets, k, seen)
      invariant forall i :: 0 <= i < k ==> Expected(spec, remoteAssets[i])
    {
      var asset := remoteAssets[k];
      LookUp(expected, spec, asset);
      SeenMore(remoteAssets, k, seen);
      if asset.name !in expected || asset.size != expected[asset.name].size
        || asset.digest != "sha256:" + expected[asset.name].sha256 {
        return None;
      }
      IndexName(expected, spec, asset.name);
      if asset.name in seen { return None; }
      seen := seen + {asset.name};
    }
    AllSeen(remoteAssets, seen);
    var missing := SelectMissing(remoteAssets, spec.assets, seen);
    return Some(missing);
  }

  method SelectMissing(assets: seq<RemoteAsset>, expected: seq<ReleaseAsset>, seen: set<string>)
      returns (missing: seq<ReleaseAsset>)
    requires forall name :: name in seen <==> Named(assets, name)
    ensures missing == MissingFrom(assets, expected)
  {
    hide Named;
    missing := [];
    for k := 0 to |expected|
      invariant missing == MissingFrom(assets, expected[..k])
    {
      assert expected[..k + 1][..k] == expected[..k];
      if expected[k].name !in seen { missing := missing + [expected[k]]; }
    }
    assert expected[..|expected|] == expected;
  }
}
