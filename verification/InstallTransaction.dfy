/** The plugin installer's write-ahead transaction (internal/installer/installer.go, state.go).

    An install or rollback writes an intent, activates the plugin in the configuration, writes
    the install state and clears the intent. Any step may fail or be the last before the process
    ends; recovery reads the configuration to tell whether activation committed and then finishes
    the transaction or restores what was there before. */
module InstallTransaction {

  datatype Option<T> = None | Some(value: T)

  datatype ReleaseRef = ReleaseRef(id: string, version: string, os: string, arch: string)

  /** An installed release; `manifest` stands for its manifest and file records. */
  datatype Release = Release(ref: ReleaseRef, manifest: int)

  datatype PluginState = PluginState(active: Option<ReleaseRef>, previous: Option<ReleaseRef>)

  const EMPTY_PLUGIN := PluginState(None, None)

  /** Releases are filed under their reference; `KeysAreInjective` relates this to the source's keys. */
  datatype InstallState = InstallState(
    catalogSequence: nat, catalogDigest: string, installed: map<ReleaseRef, Release>, plugins: map<string, PluginState>)

  datatype Operation = Install | Rollback

  datatype Intent = Intent(
    kind: Operation, pluginId: string, target: Release, before: PluginState,
    beforeSequence: nat, beforeDigest: string, targetWasInstalled: bool, sequence: nat, digest: string)

  /** A plugin record of the configuration: it names the release's root, so it determines the reference. */
  datatype PluginConfig = PluginConfig(root: ReleaseRef, declared: int)

  function ConfigOf(r: Release): PluginConfig { PluginConfig(r.ref, r.manifest) }

  const MAX_INSTALLED: nat := 128

  // ---------------------------------------------------------------- keys

  function Key(ref: ReleaseRef): string { ref.id + "@" + ref.version + "@" + ref.os + "-" + ref.arch }

  /** What release identities allow, as far as keys are concerned. */
  predicate ValidRef(ref: ReleaseRef) {
    && ref.id != "" && ref.version != "" && '@' !in ref.id && '@' !in ref.version
    && ref.os == "darwin" && (ref.arch == "arm64" || ref.arch == "amd64")
  }

  lemma FirstMark(a: string, b: string, a': string, b': string)
    requires '@' !in a && '@' !in a' && a + "@" + b == a' + "@" + b'
    ensures a == a' && b == b'
  {
    var s := a + "@" + b;
    assert s == a' + "@" + b';
    assert s[|a|] == '@' && s[|a'|] == '@';
    assert forall k :: 0 <= k < |a| ==> s[k] == a[k] && a[k] in a;
    assert forall k :: 0 <= k < |a'| ==> s[k] == a'[k] && a'[k] in a';
    assert a == s[..|a|] && a' == s[..|a|];
    assert b == s[|a| + 1..] && b' == s[|a| + 1..];
  }

  lemma KeysAreInjective(r: ReleaseRef, r': ReleaseRef)
    requires ValidRef(r) && ValidRef(r') && Key(r) == Key(r')
    ensures r == r'
  {
    var tail, tail' := r.version + "@" + ("darwin-" + r.arch), r'.version + "@" + ("darwin-" + r'.arch);
    assert Key(r) == r.id + "@" + tail && Key(r') == r'.id + "@" + tail';
    FirstMark(r.id, tail, r'.id, tail');
    FirstMark(r.version, "darwin-" + r.arch, r'.version, "darwin-" + r'.arch);
    assert ("darwin-" + r.arch)[7..] == r.arch && ("darwin-" + r'.arch)[7..] == r'.arch;
  }

  // ---------------------------------------------------------------- states and their validity

  function PluginOf(s: InstallState, id: string): PluginState {
    if id in s.plugins then s.plugins[id] else EMPTY_PLUGIN
  }

  predicate RefOk(s: InstallState, id: string, ref: Option<ReleaseRef>) {
    ref.Some? ==> ref.value.id == id && ref.value in s.installed
  }

  predicate ValidState(s: InstallState) {
    && |s.installed| <= MAX_INSTALLED
    && (s.catalogDigest != "" ==> s.catalogSequence != 0)
    && (forall ref :: ref in s.installed ==> s.installed[ref].ref == ref && ValidRef(ref))
    && (forall id :: id in s.plugins ==>
          && RefOk(s, id, s.plugins[id].active) && RefOk(s, id, s.plugins[id].previous)
          && !(s.plugins[id].active.Some? && s.plugins[id].active == s.plugins[id].previous))
  }

  predicate ValidIntent(i: Intent) {
    && i.pluginId == i.target.ref.id && ValidRef(i.target.ref)
    && (i.kind.Install? ==> i.sequence != 0)
    && (i.beforeDigest != "" ==> i.beforeSequence != 0)
    && (i.before.active.Some? ==> i.before.active.value.id == i.pluginId)
    && (i.before.previous.Some? ==> i.before.previous.value.id == i.pluginId)
  }

  function ApplyTarget(s: InstallState, i: Intent): InstallState {
    var ref := i.target.ref;
    var previous := if i.before.active.Some? && i.before.active.value != ref then i.before.active
      else i.before.previous;
    var next := s.(installed := s.installed[ref := i.target],
      plugins := s.plugins[ref.id := PluginState(Some(ref), previous)]);
    if i.kind.Install? then next.(catalogSequence := i.sequence, catalogDigest := i.digest) else next
  }

  function Without<K, V>(m: map<K, V>, k: K): map<K, V> { map x | x in m && x != k :: m[x] }

  function RestorePrior(s: InstallState, i: Intent): InstallState {
    s.(catalogSequence := i.beforeSequence, catalogDigest := i.beforeDigest,
       plugins := if i.before == EMPTY_PLUGIN then Without(s.plugins, i.pluginId)
         else s.plugins[i.pluginId := i.before],
       installed := if i.targetWasInstalled then s.installed else Without(s.installed, i.target.ref))
  }

  // ---------------------------------------------------------------- the transaction

  /** One effect: whether it reached the disk, and whether the code goes on after it. */
  datatype Io = Io(committed: bool, proceeds: bool)

  datatype TransactIo = TransactIo(intent: Io, activate: Io, state: Io, clear: Io)

  datatype RecoverIo = RecoverIo(loads: bool, targetVerified: bool, priorVerified: bool, state: Io, clear: Io)

  /** The install state, the journal and the configuration, with the state the pending transaction
      started from and whether its activation has committed. */
  datatype System = System(
    state: InstallState, intent: Option<Intent>, config: map<string, PluginConfig>, base: InstallState, activated: bool)

  function WriteState(s: System, next: InstallState, io: Io): System {
    if io.committed && ValidState(next) then s.(state := next) else s
  }

  function ClearIntent(s: System, io: Io): System { if io.committed then s.(intent := None) else s }

  function IntentFor(s: InstallState, target: Release, kind: Operation, sequence: nat, digest: string): Intent {
    Intent(kind, target.ref.id, target, PluginOf(s, target.ref.id), s.catalogSequence, s.catalogDigest,
           target.ref in s.installed, sequence, digest)
  }

  function Activate(s: System, i: Intent, io: Io): System {
    if io.committed then s.(config := s.config[i.pluginId := ConfigOf(i.target)], activated := true) else s
  }

  function Transact(s: System, target: Release, kind: Operation, sequence: nat, digest: string,
      io: TransactIo): System {
    var i := IntentFor(s.state, target, kind, sequence, digest);
    var next := ApplyTarget(s.state, i);
    if !ValidIntent(i) || !ValidState(next) || !io.intent.committed then s else
    var s1 := s.(intent := Some(i), base := s.state, activated := false);
    if !io.intent.proceeds then s1 else
    var s2 := Activate(s1, i, io.activate);
    if !io.activate.committed || !io.activate.proceeds then s2 else
    var s3 := WriteState(s2, next, io.state);
    if !io.state.committed || !io.state.proceeds then s3 else ClearIntent(s3, io.clear)
  }

  function Desired(s: System, id: string): Option<PluginConfig> { if id in s.config then Some(s.config[id]) else None }

  /** The state recovery decides on, if it can decide. */
  function Decide(s: System, i: Intent, io: RecoverIo): Option<InstallState> {
    var desired := Desired(s, i.pluginId);
    if desired == Some(ConfigOf(i.target)) then
      if io.targetVerified then Some(ApplyTarget(s.state, i)) else None
    else if i.before.active.None? then
      if desired.None? then Some(RestorePrior(s.state, i)) else None
    else if i.before.active.value in s.state.installed && io.priorVerified
         && desired == Some(ConfigOf(s.state.installed[i.before.active.value])) then Some(RestorePrior(s.state, i))
    else None
  }

  function Recover(s: System, io: RecoverIo): System {
    if s.intent.None? || !io.loads then s else
    var decision := Decide(s, s.intent.value, io);
    if decision.None? then s else
    var s1 := WriteState(s, decision.value, io.state);
    if !io.state.committed || !io.state.proceeds || !ValidState(decision.value) then s1 else ClearIntent(s1, io.clear)
  }

  datatype Mode = Any | First | Update

  datatype Op =
    | InstallOp(release: Release, mode: Mode, available: bool, sequence: nat, digest: string, install: TransactIo)
    | RollbackOp(id: string, wanted: Option<ReleaseRef>, verified: bool, rollback: TransactIo)
    | RecoverOp(recover: RecoverIo)

  /** The catalog check: newer than the last accepted one, or the same catalog again. */
  predicate CatalogAccepted(s: InstallState, sequence: nat, digest: string) {
    var last := if s.catalogSequence > 0 && s.catalogDigest == digest then s.catalogSequence - 1 else s.catalogSequence;
    sequence > last
  }

  predicate ModeAllows(mode: Mode, active: Option<ReleaseRef>) {
    (mode.First? ==> active.None?) && (mode.Update? ==> active.Some?)
  }

  function Step(s: System, op: Op): System {
    match op
    case RecoverOp(io) => Recover(s, io)
    case InstallOp(release, mode, available, sequence, digest, io) =>
      var active := PluginOf(s.state, release.ref.id).active;
      if s.intent.Some? || !ValidRef(release.ref) || active == Some(release.ref) || !ModeAllows(mode, active)
         || !available || !CatalogAccepted(s.state, sequence, digest) then s
      else Transact(s, release, Install, sequence, digest, io)
    case RollbackOp(id, wanted, verified, io) =>
      var plugin := PluginOf(s.state, id);
      var target := if wanted.Some? then wanted else plugin.previous;
      if s.intent.Some? || plugin.active.None? || target.None? || target == plugin.active || target.value.id != id
         || target.value !in s.state.installed || !verified then s
      else Transact(s, s.state.installed[target.value], Rollback, s.state.catalogSequence, s.state.catalogDigest, io)
  }

  const INIT := System(InstallState(0, "", map[], map[]), None, map[], InstallState(0, "", map[], map[]), false)

  function Run(ops: seq<Op>): System {
    if ops == [] then INIT else Step(Run(ops[..|ops| - 1]), ops[|ops| - 1])
  }

  // ---------------------------------------------------------------- invariant

  /** The configuration names exactly the active releases. */
  ghost predicate Agrees(config: map<string, PluginConfig>, s: InstallState) {
    && (forall id :: id in config ==> PluginOf(s, id).active.Some?)
    && (forall id :: id in s.plugins && s.plugins[id].active.Some? ==>
          s.plugins[id].active.value in s.installed && id in config
            && config[id] == ConfigOf(s.installed[s.plugins[id].active.value]))
  }

  /** No plugin has an entry that names nothing; no operation writes one. */
  ghost predicate NoIdleEntry(s: InstallState) { forall id :: id in s.plugins ==> s.plugins[id] != EMPTY_PLUGIN }

  ghost predicate GoodState(s: InstallState) { ValidState(s) && NoIdleEntry(s) }

  /** The pending intent describes a change of `base` that is worth finishing. */
  ghost predicate IntentFits(base: InstallState, i: Intent) {
    && i.pluginId == i.target.ref.id
    && i.before == PluginOf(base, i.pluginId) && i.before.active != Some(i.target.ref)
    && i.beforeSequence == base.catalogSequence && i.beforeDigest == base.catalogDigest
    && (i.targetWasInstalled <==> i.target.ref in base.installed)
    && ValidState(ApplyTarget(base, i))
    && (i.kind.Install? ==> base.catalogSequence <= i.sequence)
  }

  ghost predicate Pending(s: System, i: Intent) {
    && GoodState(s.base) && IntentFits(s.base, i)
    && (!s.activated ==> s.state == s.base && Agrees(s.config, s.base))
    && (s.activated ==>
         (s.state == s.base || s.state == ApplyTarget(s.base, i)) && Agrees(s.config, ApplyTarget(s.base, i)))
  }

  ghost predicate SystemInv(s: System) {
    && GoodState(s.state)
    && (s.intent.None? ==> Agrees(s.config, s.state))
    && (s.intent.Some? ==> Pending(s, s.intent.value))
  }

  /** Applying the target again changes nothing. */
  lemma ApplyTargetIdempotent(s: InstallState, i: Intent)
    ensures ApplyTarget(ApplyTarget(s, i), i) == ApplyTarget(s, i)
  {
    var next := ApplyTarget(s, i);
    assert ApplyTarget(next, i).installed == next.installed;
    assert ApplyTarget(next, i).plugins == next.plugins;
  }

  /** Restoring is exact unless the plugin had an entry naming nothing. */
  lemma RestoreIsExact(s: InstallState, i: Intent)
    requires i.before == PluginOf(s, i.pluginId) && i.beforeSequence == s.catalogSequence
      && i.beforeDigest == s.catalogDigest
    requires i.targetWasInstalled <==> i.target.ref in s.installed
    ensures RestorePrior(s, i) == s <==> !(i.pluginId in s.plugins && s.plugins[i.pluginId] == EMPTY_PLUGIN)
  {
    assert RestorePrior(s, i).installed == s.installed;
    if i.pluginId in s.plugins && s.plugins[i.pluginId] != EMPTY_PLUGIN {
      assert s.plugins[i.pluginId := i.before] == s.plugins;
    } else if i.pluginId !in s.plugins {
      assert Without(s.plugins, i.pluginId) == s.plugins;
    }
  }

  /** A valid state file written by other means may hold such an entry, and then an install of the plugin
      that is undone loses it: validation accepts what no operation writes. */
  lemma EmptyRecordExample(ref: ReleaseRef, manifest: int)
    requires ValidRef(ref)
    ensures
      var s := InstallState(0, "", map[], map[ref.id := EMPTY_PLUGIN]);
      var i := IntentFor(s, Release(ref, manifest), Install, 1, "");
      && ValidState(s) && ValidIntent(i) && ValidState(ApplyTarget(s, i))
      && RestorePrior(s, i) == InstallState(0, "", map[], map[]) != s
  {
    var s := InstallState(0, "", map[], map[ref.id := EMPTY_PLUGIN]);
    var i := IntentFor(s, Release(ref, manifest), Install, 1, "");
    assert ref.id in s.plugins && ref.id !in RestorePrior(s, i).plugins;
    assert RestorePrior(s, i).plugins == map[];
  }

  lemma ActivationAgrees(config: map<string, PluginConfig>, s: InstallState, i: Intent)
    requires Agrees(config, s) && i.pluginId == i.target.ref.id
    requires forall id :: id in s.plugins && s.plugins[id].active.Some? ==> s.plugins[id].active.value.id == id
    ensures Agrees(config[i.pluginId := ConfigOf(i.target)], ApplyTarget(s, i))
  {
  }

  lemma ActiveRefsMatch(s: InstallState)
    requires ValidState(s)
    ensures forall id :: id in s.plugins && s.plugins[id].active.Some? ==> s.plugins[id].active.value.id == id
  {
    forall id | id in s.plugins && s.plugins[id].active.Some? ensures s.plugins[id].active.value.id == id {
      assert RefOk(s, id, s.plugins[id].active);
    }
  }

  lemma TransactKeeps(s: System, target: Release, kind: Operation, sequence: nat, digest: string, io: TransactIo)
    requires SystemInv(s) && s.intent.None?
    requires PluginOf(s.state, target.ref.id).active != Some(target.ref)
    requires kind.Install? ==> s.state.catalogSequence <= sequence
    ensures SystemInv(Transact(s, target, kind, sequence, digest, io))
  {
    hide ValidState;
    hide Agrees;
    hide ApplyTarget;
    var i := IntentFor(s.state, target, kind, sequence, digest);
    if ValidIntent(i) && ValidState(ApplyTarget(s.state, i)) {
      ActiveRefsMatch(s.state);
      ActivationAgrees(s.config, s.state, i);
      AppliedIsGood(s.state, i);
    }
    hide NoIdleEntry;
  }

  /** Recovery decides for the target exactly when activation committed, and always can. */
  lemma DecisionFollowsActivation(s: System, i: Intent, io: RecoverIo)
    requires SystemInv(s) && s.intent == Some(i)
    ensures Desired(s, i.pluginId) == Some(ConfigOf(i.target)) <==> s.activated
    ensures s.activated && io.targetVerified ==> Decide(s, i, io) == Some(ApplyTarget(s.base, i))
    ensures !s.activated && io.priorVerified ==> Decide(s, i, io) == Some(s.base)
    ensures Decide(s, i, io).Some? ==> Decide(s, i, io).value == if s.activated then ApplyTarget(s.base, i) else s.base
  {
    if s.activated {
      ApplyTargetIdempotent(s.base, i);
    } else {
      RestoreIsExact(s.base, i);
    }
  }

  lemma RecoverKeeps(s: System, io: RecoverIo)
    requires SystemInv(s)
    ensures SystemInv(Recover(s, io))
    ensures Recover(s, io).config == s.config && Recover(s, io).base == s.base
      && Recover(s, io).activated == s.activated
    ensures s.intent.Some? && io == RecoverIo(true, true, true, Io(true, true), Io(true, true)) ==>
              Recover(s, io).intent.None?
                && Recover(s, io).state == if s.activated then ApplyTarget(s.base, s.intent.value) else s.base
    ensures Recover(s, io).intent.Some? ==> Recover(s, io).intent == s.intent
  {
    hide ValidState;
    hide Agrees;
    hide ApplyTarget;
    hide Decide;
    if s.intent.Some? {
      DecisionFollowsActivation(s, s.intent.value, io);
      AppliedIsGood(s.base, s.intent.value);
    }
    hide NoIdleEntry;
  }

  lemma AppliedIsGood(s: InstallState, i: Intent)
    requires GoodState(s) && ValidState(ApplyTarget(s, i))
    ensures GoodState(ApplyTarget(s, i))
  {
  }

  lemma StepKeeps(s: System, op: Op)
    requires SystemInv(s)
    ensures SystemInv(Step(s, op))
  {
    match op
    case RecoverOp(io) => RecoverKeeps(s, io);
    case InstallOp(release, mode, available, sequence, digest, io) =>
      var t := Step(s, op);
      if t != s { TransactKeeps(s, release, Install, sequence, digest, io); }
    case RollbackOp(id, wanted, verified, io) =>
      var t := Step(s, op);
      if t != s {
        var target := if wanted.Some? then wanted else PluginOf(s.state, id).previous;
        TransactKeeps(s, s.state.installed[target.value], Rollback, s.state.catalogSequence, s.state.catalogDigest, io);
      }
  }

  // ---------------------------------------------------------------- what every run guarantees

  lemma {:induction false} RunKeeps(ops: seq<Op>)
    ensures SystemInv(Run(ops))
  {
    if ops != [] {
      RunKeeps(ops[..|ops| - 1]);
      StepKeeps(Run(ops[..|ops| - 1]), ops[|ops| - 1]);
    } else {
      assert GoodState(INIT.state) && Agrees(INIT.config, INIT.state);
    }
  }

  /** In every reachable install state a plugin's active and previous releases are installed, are its
      own, and differ; and with no transaction pending the configuration names the active ones. */
  lemma ReachableStatesAreValid(ops: seq<Op>, id: string)
    requires id in Run(ops).state.plugins
    ensures var s := Run(ops);
            var p := s.state.plugins[id];
            && p.active.Some? && p.active != p.previous
            && p.active.value.id == id && p.active.value in s.state.installed
            && (p.previous.Some? ==> p.previous.value.id == id && p.previous.value in s.state.installed)
            && (s.intent.None? ==> Desired(s, id) == Some(ConfigOf(s.state.installed[p.active.value])))
  {
    RunKeeps(ops);
    RunKeepsActive(ops);
    hide Run;
    assert RefOk(Run(ops).state, id, Run(ops).state.plugins[id].active);
    assert RefOk(Run(ops).state, id, Run(ops).state.plugins[id].previous);
  }

  /** Starting from nothing, every plugin with an entry has an active release. */
  ghost predicate AllActive(s: InstallState) { forall id :: id in s.plugins ==> s.plugins[id].active.Some? }

  ghost predicate ActiveInv(s: System) { AllActive(s.state) && (s.intent.Some? ==> AllActive(s.base)) }

  lemma TransactKeepsActive(s: System, target: Release, kind: Operation, sequence: nat, digest: string, io: TransactIo)
    requires ActiveInv(s)
    ensures ActiveInv(Transact(s, target, kind, sequence, digest, io))
  {
    hide ValidState;
    hide ValidIntent;
  }

  lemma RecoverKeepsActive(s: System, io: RecoverIo)
    requires SystemInv(s) && ActiveInv(s)
    ensures ActiveInv(Recover(s, io))
  {
    hide Decide;
    hide ValidState;
    hide SystemInv;
    hide ApplyTarget;
    hide AllActive;
    if s.intent.Some? {
      DecisionFollowsActivation(s, s.intent.value, io);
      TargetIsActive(s.base, s.intent.value);
    }
  }

  lemma TargetIsActive(s: InstallState, i: Intent)
    requires AllActive(s)
    ensures AllActive(ApplyTarget(s, i))
  {
  }

  lemma StepKeepsActive(s: System, op: Op)
    requires SystemInv(s) && ActiveInv(s)
    ensures ActiveInv(Step(s, op))
  {
    hide SystemInv;
    hide ActiveInv;
    hide Recover;
    hide Transact;
    match op
    case RecoverOp(io) => RecoverKeepsActive(s, io);
    case InstallOp(release, _, _, sequence, digest, io) =>
      TransactKeepsActive(s, release, Install, sequence, digest, io);
    case RollbackOp(id, wanted, _, io) =>
      var target := if wanted.Some? then wanted else PluginOf(s.state, id).previous;
      if target.Some? && target.value in s.state.installed {
        TransactKeepsActive(s, s.state.installed[target.value], Rollback, s.state.catalogSequence,
          s.state.catalogDigest, io);
      }
  }

  lemma {:induction false} RunKeepsActive(ops: seq<Op>)
    ensures ActiveInv(Run(ops))
  {
    if ops != [] {
      RunKeeps(ops[..|ops| - 1]);
      RunKeepsActive(ops[..|ops| - 1]);
      StepKeepsActive(Run(ops[..|ops| - 1]), ops[|ops| - 1]);
      hide Step;
      hide ActiveInv;
    }
  }

  /** Recoveries one after another, each stopping wherever its script says. */
  function Recoveries(s: System, ios: seq<RecoverIo>): System
    decreases |ios|
  {
    if ios == [] then s else Recoveries(Recover(s, ios[0]), ios[1..])
  }

  lemma {:induction false} RecoveriesKeep(s: System, ios: seq<RecoverIo>)
    requires SystemInv(s)
    ensures var r := Recoveries(s, ios);
            && SystemInv(r) && r.config == s.config && r.base == s.base && r.activated == s.activated
            && (r.intent.Some? ==> r.intent == s.intent)
            && (s.intent.Some? && r.intent.None? ==>
                 r.state == if s.activated then ApplyTarget(s.base, s.intent.value) else s.base)
            && (s.intent.None? ==> r == s)
    decreases |ios|
  {
    if ios != [] {
      RecoverKeeps(s, ios[0]);
      RecoverSettles(s, ios[0]);
      hide SystemInv;
      hide Recover;
      RecoveriesKeep(Recover(s, ios[0]), ios[1..]);
    }
  }

  lemma RecoverSettles(s: System, io: RecoverIo)
    requires SystemInv(s)
    ensures s.intent.Some? && Recover(s, io).intent.None? ==>
              Recover(s, io).state == if s.activated then ApplyTarget(s.base, s.intent.value) else s.base
    ensures s.intent.None? ==> Recover(s, io) == s
  {
    if s.intent.Some? {
      DecisionFollowsActivation(s, s.intent.value, io);
      hide Decide;
      hide ApplyTarget;
      hide ValidState;
      hide Agrees;
    }
  }

  const COMPLETES := RecoverIo(true, true, true, Io(true, true), Io(true, true))

  /** A transaction interrupted after any step, then any number of interrupted recoveries, then one
      that completes: the journal is clear, configuration and install state agree, and they hold the
      target exactly when activation committed, otherwise exactly what they held before. */
  lemma InterruptedTransactionRecovers(s: System, target: Release, kind: Operation, sequence: nat, digest: string,
      io: TransactIo, ios: seq<RecoverIo>)
    requires SystemInv(s) && s.intent.None? && PluginOf(s.state, target.ref.id).active != Some(target.ref)
    requires kind.Install? ==> s.state.catalogSequence <= sequence
    ensures var i := IntentFor(s.state, target, kind, sequence, digest);
            var t := Transact(s, target, kind, sequence, digest, io);
            var r := Recover(Recoveries(t, ios), COMPLETES);
            var committed := t.config != s.config;
            && r.intent.None? && Agrees(r.config, r.state)
            && (committed ==>
                 r.state == ApplyTarget(s.state, i) && r.config == s.config[i.pluginId := ConfigOf(target)])
            && (!committed ==> r.state == s.state && r.config == s.config)
            && (committed <==> io.intent == Io(true, true) && io.activate.committed
                               && ValidIntent(i) && ValidState(ApplyTarget(s.state, i)))
  {
    TransactKeeps(s, target, kind, sequence, digest, io);
    TargetNotDesired(s, target);
    TransactOutcome(s, target, kind, sequence, digest, io);
    var t := Transact(s, target, kind, sequence, digest, io);
    hide *;
    RecoveriesKeep(t, ios);
    var r := Recoveries(t, ios);
    RecoverKeeps(r, COMPLETES);
    RecoverSettles(r, COMPLETES);
    SettledAgrees(Recover(r, COMPLETES));
  }

  lemma SettledAgrees(s: System)
    requires SystemInv(s)
    ensures s.intent.None? ==> Agrees(s.config, s.state)
  {
  }

  /** What a transaction leaves behind, step by step. */
  lemma TransactOutcome(s: System, target: Release, kind: Operation, sequence: nat, digest: string, io: TransactIo)
    requires s.intent.None? && Desired(s, target.ref.id) != Some(ConfigOf(target))
    ensures var i := IntentFor(s.state, target, kind, sequence, digest);
            var t := Transact(s, target, kind, sequence, digest, io);
            var ran := io.intent.committed && ValidIntent(i) && ValidState(ApplyTarget(s.state, i));
            var active := ran && io.intent.proceeds && io.activate.committed;
            && (!ran ==> t == s)
            && (ran ==> t.base == s.state && t.activated == active && (t.intent.Some? ==> t.intent == Some(i))
                        && (t.intent.None? ==> active && t.state == ApplyTarget(s.state, i)))
            && t.config == (if active then s.config[i.pluginId := ConfigOf(target)] else s.config)
            && (active <==> t.config != s.config)
  {
    hide ApplyTarget;
    hide ValidState;
    hide ValidIntent;
    assert s.config[target.ref.id := ConfigOf(target)][target.ref.id] == ConfigOf(target);
  }

  /** A release that is not the active one is not what the configuration names. */
  lemma TargetNotDesired(s: System, target: Release)
    requires SystemInv(s) && s.intent.None? && PluginOf(s.state, target.ref.id).active != Some(target.ref)
    ensures Desired(s, target.ref.id) != Some(ConfigOf(target))
  {
    var id := target.ref.id;
    if id in s.config {
      assert PluginOf(s.state, id).active.Some?;
      ActiveRefsMatch(s.state);
      assert s.state.installed[s.state.plugins[id].active.value].ref == s.state.plugins[id].active.value;
    }
  }

  /** The accepted catalog sequence never goes back. */
  lemma CatalogNeverGoesBack(ops: seq<Op>, op: Op)
    ensures Run(ops).state.catalogSequence <= Run(ops + [op]).state.catalogSequence
  {
    RunKeeps(ops);
    assert (ops + [op])[..|ops|] == ops;
    StepCatalog(Run(ops), op);
  }

  lemma StepCatalog(s: System, op: Op)
    requires SystemInv(s)
    ensures s.state.catalogSequence <= Step(s, op).state.catalogSequence
  {
    hide SystemInv;
    hide Recover;
    hide Transact;
    match op
    case RecoverOp(io) => RecoverCatalog(s, io);
    case InstallOp(release, _, _, sequence, digest, io) => TransactCatalog(s, release, Install, sequence, digest, io);
    case RollbackOp(id, wanted, _, io) =>
      var target := if wanted.Some? then wanted else PluginOf(s.state, id).previous;
      if target.Some? && target.value in s.state.installed {
        TransactCatalog(s, s.state.installed[target.value], Rollback, s.state.catalogSequence, s.state.catalogDigest,
          io);
      }
  }

  lemma TransactCatalog(s: System, target: Release, kind: Operation, sequence: nat, digest: string, io: TransactIo)
    ensures var t := Transact(s, target, kind, sequence, digest, io).state.catalogSequence;
            t == s.state.catalogSequence || (kind.Install? && t == sequence)
  {
    hide ValidState;
  }

  lemma RecoverCatalog(s: System, io: RecoverIo)
    requires SystemInv(s)
    ensures s.state.catalogSequence <= Recover(s, io).state.catalogSequence
  {
    hide ValidState;
    hide Agrees;
    if s.intent.Some? {
      DecisionCatalog(s, s.intent.value, io);
      hide Decide;
    }
  }

  /** A decided state has the catalog of the intent or the one from before it. */
  lemma DecisionCatalog(s: System, i: Intent, io: RecoverIo)
    requires SystemInv(s) && s.intent == Some(i)
    ensures Decide(s, i, io).Some? ==> s.state.catalogSequence <= Decide(s, i, io).value.catalogSequence
  {
    DecisionFollowsActivation(s, i, io);
    hide ValidState;
    hide Agrees;
  }

  // ---------------------------------------------------------------- the installer itself

  class Installer {
    var state: InstallState
    var intent: Option<Intent>
    var config: map<string, PluginConfig>
    ghost var base: InstallState
    ghost var activated: bool

    ghost function View(): System reads this { System(state, intent, config, base, activated) }

    /** Write the intent, activate, write the state, clear the intent; stop at the first step that does not go on. */
    method TransactPlugin(target: Release, kind: Operation, sequence: nat, digest: string, io: TransactIo)
        returns (ok: bool)
      modifies this
      ensures View() == Transact(old(View()), target, kind, sequence, digest, io)
      ensures ok ==> io.intent.committed && io.activate.committed && io.state.committed
    {
      var i := IntentFor(state, target, kind, sequence, digest);
      var next := ApplyTarget(state, i);
      if !ValidIntent(i) || !ValidState(next) { return false; }
      if !io.intent.committed { return false; }
      intent, base, activated := Some(i), state, false;
      if !io.intent.proceeds { return false; }
      if !io.activate.committed { return false; }
      config, activated := config[i.pluginId := ConfigOf(i.target)], true;
      if !io.activate.proceeds { return false; }
      if !io.state.committed { return false; }
      state := next;
      if !io.state.proceeds { return false; }
      if io.clear.committed { intent := None; }
      return io.clear.proceeds;
    }

    method RecoverInterrupted(io: RecoverIo) returns (settled: bool)
      modifies this
      ensures View() == Recover(old(View()), io)
      ensures settled ==> intent.None? || !io.clear.committed
    {
      if intent.None? { return true; }
      if !io.loads { return false; }
      var i := intent.value;
      var desired := if i.pluginId in config then Some(config[i.pluginId]) else None;
      var next: InstallState;
      if desired == Some(ConfigOf(i.target)) {
        if !io.targetVerified { return false; }
        next := ApplyTarget(state, i);
      } else {
        var prior: Option<PluginConfig> := None;
        if i.before.active.Some? {
          if i.before.active.value !in state.installed || !io.priorVerified { return false; }
          prior := Some(ConfigOf(state.installed[i.before.active.value]));
        }
        if desired != prior { return false; }
        next := RestorePrior(state, i);
      }
      if !io.state.committed || !ValidState(next) { return false; }
      state := next;
      if !io.state.proceeds { return false; }
      if io.clear.committed { intent := None; }
      return io.clear.proceeds;
    }
  }
}
