/** What installs, rollbacks and recoveries leave when their writes go through
    (internal/installer/installer.go), field by field and over every run. */
module InstallEffects {
  import opened InstallTransaction

  const DONE := Io(true, true)
  const ALL_DONE := TransactIo(DONE, DONE, DONE, DONE)

  /** A catalog is accepted if it is newer than the last one, or is the last one again. */
  predicate NewEnough(s: InstallState, sequence: nat, digest: string) {
    || sequence > s.catalogSequence
    || (s.catalogSequence > 0 && digest == s.catalogDigest && sequence == s.catalogSequence)
  }

  predicate RoomFor(s: InstallState, ref: ReleaseRef) { |s.installed.Keys + {ref}| <= 128 }

  lemma InstalledCount(s: InstallState, release: Release)
    ensures |s.installed[release.ref := release]| == |s.installed.Keys + {release.ref}|
  {
    assert s.installed[release.ref := release].Keys == s.installed.Keys + {release.ref};
  }

  /** Switching a plugin to a release other than its active one keeps a state valid if there is room. */
  lemma SwitchIsValid(s: InstallState, i: Intent)
    requires ValidState(s) && i.before == PluginOf(s, i.target.ref.id) && i.before.active != Some(i.target.ref)
    requires ValidRef(i.target.ref) && (i.before.active.None? ==> i.before.previous.None?)
    requires i.kind.Install? ==> i.sequence != 0
    ensures ValidState(ApplyTarget(s, i)) <==> RoomFor(s, i.target.ref)
  {
    var next := ApplyTarget(s, i);
    ValidStateIs(s);
    ValidStateIs(next);
    hide *;
    SwitchedCounts(s, i);
    forall id ensures EntryOk(next, id) { SwitchedEntry(s, i, id); }
  }

  lemma SwitchedCounts(s: InstallState, i: Intent)
    requires FiledOk(s) && ValidRef(i.target.ref) && (s.catalogDigest != "" ==> s.catalogSequence != 0)
    requires i.kind.Install? ==> i.sequence != 0
    ensures var next := ApplyTarget(s, i);
      && FiledOk(next) && (next.catalogDigest != "" ==> next.catalogSequence != 0)
      && (|next.installed| <= MAX_INSTALLED <==> RoomFor(s, i.target.ref))
  {
    hide ValidRef;
    InstalledCount(s, i.target);
  }

  ghost predicate FiledOk(s: InstallState) {
    forall ref :: ref in s.installed ==> s.installed[ref].ref == ref && ValidRef(ref)
  }

  lemma ValidStateIs(s: InstallState)
    ensures ValidState(s) <==>
      (|s.installed| <= MAX_INSTALLED && (s.catalogDigest != "" ==> s.catalogSequence != 0) && FiledOk(s)
       && forall id :: EntryOk(s, id))
  {
    assert (forall id :: EntryOk(s, id)) <==> (forall id :: id in s.plugins ==> EntryOk(s, id));
    hide RefOk;
    hide ValidRef;
  }

  lemma AppliedFields(s: InstallState, i: Intent)
    requires i.before == PluginOf(s, i.target.ref.id) && i.before.active != Some(i.target.ref)
    requires i.before.active.None? ==> i.before.previous.None?
    ensures var next, ref := ApplyTarget(s, i), i.target.ref;
      && next.installed == s.installed[ref := i.target]
      && next.plugins == s.plugins[ref.id := PluginState(Some(ref), i.before.active)]
      && next.catalogSequence == (if i.kind.Install? then i.sequence else s.catalogSequence)
      && next.catalogDigest == (if i.kind.Install? then i.digest else s.catalogDigest)
  {
  }

  ghost predicate EntryOk(s: InstallState, id: string) {
    id in s.plugins ==>
      && RefOk(s, id, s.plugins[id].active) && RefOk(s, id, s.plugins[id].previous)
      && !(s.plugins[id].active.Some? && s.plugins[id].active == s.plugins[id].previous)
  }

  lemma SwitchedEntry(s: InstallState, i: Intent, id: string)
    requires ValidState(s) && i.before == PluginOf(s, i.target.ref.id) && i.before.active != Some(i.target.ref)
    requires i.before.active.None? ==> i.before.previous.None?
    ensures EntryOk(ApplyTarget(s, i), id)
  {
    assert EntryOk(s, id) && EntryOk(s, i.target.ref.id);
    hide ValidState;
  }

  /** The plugin's entry after a switch: the target is active and what was active is previous. */
  ghost predicate Switched(s: System, s': System, target: Release) {
    var id := target.ref.id;
    && s'.intent.None?
    && s'.state.plugins == s.state.plugins[id := PluginState(Some(target.ref), PluginOf(s.state, id).active)]
    && s'.config == s.config[id := PluginConfig(target.ref, target.manifest)]
  }

  lemma TransactDone(s: System, target: Release, kind: Operation, sequence: nat, digest: string)
    requires SystemInv(s) && ActiveInv(s) && s.intent.None? && ValidRef(target.ref)
    requires PluginOf(s.state, target.ref.id).active != Some(target.ref) && (kind.Install? ==> sequence != 0)
    ensures var s' := Transact(s, target, kind, sequence, digest, ALL_DONE);
      if RoomFor(s.state, target.ref) then
        && Switched(s, s', target) && s'.state.installed == s.state.installed[target.ref := target]
        && s'.state.catalogSequence == (if kind.Install? then sequence else s.state.catalogSequence)
        && s'.state.catalogDigest == (if kind.Install? then digest else s.state.catalogDigest)
      else s' == s
  {
    var i := IntentFor(s.state, target, kind, sequence, digest);
    IntentIsValid(s, target, kind, sequence, digest);
    SwitchIsValid(s.state, i);
    AppliedFields(s.state, i);
    AllWritten(s, target, kind, sequence, digest);
    hide SystemInv;
    hide ActiveInv;
    hide Transact;
    hide ApplyTarget;
    hide ValidIntent;
    hide ValidState;
    hide ValidRef;
    hide RoomFor;
  }

  lemma IntentIsValid(s: System, target: Release, kind: Operation, sequence: nat, digest: string)
    requires SystemInv(s) && ActiveInv(s) && ValidRef(target.ref) && (kind.Install? ==> sequence != 0)
    ensures ValidIntent(IntentFor(s.state, target, kind, sequence, digest))
    ensures ValidState(s.state)
    ensures var p := PluginOf(s.state, target.ref.id); p.active.None? ==> p.previous.None?
  {
    assert EntryOk(s.state, target.ref.id);
    hide Pending;
    hide Agrees;
  }

  lemma AllWritten(s: System, target: Release, kind: Operation, sequence: nat, digest: string)
    requires s.intent.None? && ValidIntent(IntentFor(s.state, target, kind, sequence, digest))
    ensures var i := IntentFor(s.state, target, kind, sequence, digest);
      var next := ApplyTarget(s.state, i);
      Transact(s, target, kind, sequence, digest, ALL_DONE) ==
        if ValidState(next)
        then System(next, None, s.config[target.ref.id := PluginConfig(target.ref, target.manifest)], s.state, true)
        else s
  {
    hide ApplyTarget;
    hide ValidIntent;
    hide ValidState;
  }

  /** A complete install is refused, without effect, exactly in the listed cases. Otherwise the release is
      active, what was active is previous, the release is installed, the catalog is the accepted one, the
      configuration names the release, and every other plugin and release is as before. */
  lemma InstallEffect(ops: seq<Op>, release: Release, mode: Mode, available: bool, sequence: nat, digest: string)
    ensures var s, s' := Run(ops), Step(Run(ops), InstallOp(release, mode, available, sequence, digest, ALL_DONE));
      var active := PluginOf(s.state, release.ref.id).active;
      && (s' != s <==>
            (s.intent.None? && ValidRef(release.ref) && available && active != Some(release.ref)
             && (mode.First? ==> active.None?) && (mode.Update? ==> active.Some?)
             && NewEnough(s.state, sequence, digest) && RoomFor(s.state, release.ref)))
      && (s' != s ==>
            && Switched(s, s', release) && s'.state.installed == s.state.installed[release.ref := release]
            && s'.state.catalogSequence == sequence && s'.state.catalogDigest == digest)
  {
    hide Transact;
    hide SystemInv;
    hide ActiveInv;
    hide ValidRef;
    hide RoomFor;
    var s := Run(ops);
    RunKeeps(ops);
    RunKeepsActive(ops);
    hide Run;
    var active := PluginOf(s.state, release.ref.id).active;
    if s.intent.None? && ValidRef(release.ref) && active != Some(release.ref) && sequence != 0 {
      TransactDone(s, release, Install, sequence, digest);
    }
  }

  /** Installed releases are filed under their own reference and need no room. */
  lemma ReachableInstalled(ops: seq<Op>)
    ensures var s := Run(ops).state; forall ref :: ref in s.installed ==>
      && s.installed[ref].ref == ref && ValidRef(ref) && RoomFor(s, ref)
      && s.installed[ref := s.installed[ref]] == s.installed
  {
    RunKeeps(ops);
    hide Run;
    hide ValidRef;
    hide RoomFor;
    var s := Run(ops).state;
    assert ValidState(s);
    hide SystemInv;
    forall ref | ref in s.installed ensures RoomFor(s, ref) && s.installed[ref := s.installed[ref]] == s.installed {
      NeedsNoRoom(s, ref);
    }
    hide RefOk;
  }

  lemma NeedsNoRoom(s: InstallState, ref: ReleaseRef)
    requires ref in s.installed && |s.installed| <= MAX_INSTALLED
    ensures RoomFor(s, ref) && s.installed[ref := s.installed[ref]] == s.installed
  {
    assert s.installed.Keys + {ref} == s.installed.Keys;
    assert |s.installed.Keys| == |s.installed|;
  }

  /** A complete rollback is refused, without effect, exactly in the listed cases. Otherwise the two releases
      change places or the wanted one becomes active; installed releases and catalog stay. */
  lemma RollbackEffect(ops: seq<Op>, id: string, wanted: Option<ReleaseRef>, verified: bool)
    ensures var s, s' := Run(ops), Step(Run(ops), RollbackOp(id, wanted, verified, ALL_DONE));
      var p := PluginOf(s.state, id);
      var target := if wanted.Some? then wanted else p.previous;
      && (s' != s <==>
            (s.intent.None? && p.active.Some? && target.Some? && target != p.active && target.value.id == id
             && target.value in s.state.installed && verified))
      && (s' != s ==>
            && Switched(s, s', s.state.installed[target.value])
            && s.state.installed[target.value].ref == target.value
            && s'.state == s.state.(plugins := s'.state.plugins))
  {
    ReachableInstalled(ops);
    hide Transact;
    hide SystemInv;
    hide ActiveInv;
    hide ValidRef;
    hide RoomFor;
    var s := Run(ops);
    RunKeeps(ops);
    RunKeepsActive(ops);
    hide Run;
    var p := PluginOf(s.state, id);
    var target := if wanted.Some? then wanted else p.previous;
    if s.intent.None? && target.Some? && target != p.active && target.value.id == id
       && target.value in s.state.installed {
      var release := s.state.installed[target.value];
      TransactDone(s, release, Rollback, s.state.catalogSequence, s.state.catalogDigest);
    }
  }

  /** Installing over an active release and rolling back: the old release is active again, the new one is
      previous and still installed, the configuration is exactly what it was, and so is every other plugin. */
  lemma InstallThenRollback(ops: seq<Op>, release: Release, mode: Mode, sequence: nat, digest: string)
    requires var s := Run(ops);
      s.intent.None? && PluginOf(s.state, release.ref.id).active.Some?
    requires Step(Run(ops), InstallOp(release, mode, true, sequence, digest, ALL_DONE)) != Run(ops)
    ensures var s := Run(ops);
      var install, rollback := InstallOp(release, mode, true, sequence, digest, ALL_DONE),
        RollbackOp(release.ref.id, None, true, ALL_DONE);
      var s2 := Run(ops + [install] + [rollback]);
      && s2.intent.None? && s2.config == s.config
      && s2.state.installed == s.state.installed[release.ref := release]
      && s2.state.plugins ==
        s.state.plugins[release.ref.id := PluginState(s.state.plugins[release.ref.id].active, Some(release.ref))]
      && s2.state.catalogSequence == sequence && s2.state.catalogDigest == digest
  {
    var s, id := Run(ops), release.ref.id;
    var install, rollback := InstallOp(release, mode, true, sequence, digest, ALL_DONE),
      RollbackOp(id, None, true, ALL_DONE);
    var ops1 := ops + [install];
    assert ops1[..|ops|] == ops && (ops1 + [rollback])[..|ops1|] == ops1;
    var s1, s2 := Run(ops1), Run(ops1 + [rollback]);
    assert s1 == Step(s, install) && s2 == Step(s1, rollback);
    InstallEffect(ops, release, mode, true, sequence, digest);
    RollbackEffect(ops1, id, None, true);
    var old' := s.state.plugins[id].active.value;
    ReachableStatesAreValid(ops, id);
    hide Step;
    hide Run;
    assert s1.state.installed[old'] == s.state.installed[old'];
    assert s2.config == s.config;
  }

  /** A recovery whose writes go through settles the transaction exactly if it can load everything and verify
      the release it decides for: the target if activation committed, else the prior release, if any. Otherwise
      it changes nothing and stays pending. */
  lemma RecoverEffect(ops: seq<Op>, io: RecoverIo)
    requires Run(ops).intent.Some? && io.state == DONE && io.clear == DONE
    ensures var s, s', i := Run(ops), Recover(Run(ops), io), Run(ops).intent.value;
      if io.loads && (if s.activated then io.targetVerified else i.before.active.None? || io.priorVerified) then
        && s' == s.(state := s'.state, intent := None)
        && (!s.activated ==> s'.state == s.base)
        && (s.activated ==>
              && s'.state.plugins == s.base.plugins[i.pluginId := PluginState(Some(i.target.ref), i.before.active)]
              && s'.state.installed == s.base.installed[i.target.ref := i.target])
      else s' == s
  {
    var s, i := Run(ops), Run(ops).intent.value;
    RunKeeps(ops);
    RunKeepsActive(ops);
    DecidesWhen(s, i, io);
    DecisionFollowsActivation(s, i, io);
    assert ValidState(s.base) && ValidState(ApplyTarget(s.base, i));
    IntentFields(s, i);
    hide Run;
    hide SystemInv;
    hide ActiveInv;
    hide Decide;
    hide ApplyTarget;
    hide ValidState;
  }

  lemma IntentFields(s: System, i: Intent)
    requires SystemInv(s) && ActiveInv(s) && s.intent == Some(i)
    ensures var next := ApplyTarget(s.base, i);
      && next.plugins == s.base.plugins[i.pluginId := PluginState(Some(i.target.ref), i.before.active)]
      && next.installed == s.base.installed[i.target.ref := i.target]
  {
    AppliedFields(s.base, i);
    hide ApplyTarget;
    hide ValidState;
    hide Agrees;
  }

  lemma DecidesWhen(s: System, i: Intent, io: RecoverIo)
    requires SystemInv(s) && s.intent == Some(i)
    ensures Decide(s, i, io).Some? <==>
      if s.activated then io.targetVerified else i.before.active.None? || io.priorVerified
  {
    DecisionFollowsActivation(s, i, io);
    hide ValidState;
    hide ApplyTarget;
    hide NoIdleEntry;
  }
}
