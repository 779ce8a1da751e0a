/** Plugin assets on the device (internal/assets/reconciler.go).

    The reconciler caches what it has verified on the device. Reconcile and CollectGarbage are
    serialized with each other, but a connection invalidation may arrive between any two of their
    device calls, after which nothing is known about the device. Fingerprints and truncated path
    digests are collision-free: a fingerprint is the package value, a path is what it is derived from. */
module AssetReadiness {

  datatype Option<T> = None | Some(value: T)

  datatype Declaration = Declaration(source: string, sha256: string, size: nat, mediaType: string)

  datatype Package = Package(pluginId: string, version: string, root: string, enabled: bool, assets: seq<Declaration>)

  /** A device path is derived from the plugin, the content digest and the media type. */
  datatype Path = Path(pluginId: string, content: string, mediaType: string)

  datatype Blob = Blob(digest: string, size: nat)

  type Observed = map<Path, string>

  datatype Phase = Absent | Pending | Ready | Error

  /** What the reconciler remembers. An observed digest is empty when it must be read back again. */
  datatype Memory = Memory(
    states: map<string, Phase>, paths: map<string, map<string, Path>>, fingerprints: map<string, Package>,
    observed: map<string, Observed>, epoch: nat)

  const EMPTY := Memory(map[], map[], map[], map[], 0)

  const MAX_ASSETS := 128
  const MAX_ASSET_BYTES := 0x400_0000
  const MAX_PACKAGE_ASSET_BYTES := 0x1000_0000

  // ---------------------------------------------------------------- packages

  function DevicePath(pluginId: string, asset: Declaration): Path { Path(pluginId, asset.sha256, asset.mediaType) }

  predicate SupportedMedia(mediaType: string) {
    mediaType == "image/png" || mediaType == "application/x-busy-animation"
  }

  predicate LowerHex(c: char) { '0' <= c <= '9' || 'a' <= c <= 'f' }

  function TotalSize(assets: seq<Declaration>): nat {
    if assets == [] then 0 else TotalSize(assets[..|assets| - 1]) + assets[|assets| - 1].size
  }

  predicate ValidAsset(asset: Declaration) {
    && SupportedMedia(asset.mediaType) && |asset.sha256| == 64
         && (forall i :: 0 <= i < 64 ==> LowerHex(asset.sha256[i]))
    && 1 <= asset.size <= MAX_ASSET_BYTES
  }

  predicate ValidAssets(v: Package) {
    && |v.assets| <= MAX_ASSETS && TotalSize(v.assets) <= MAX_PACKAGE_ASSET_BYTES
    && (forall i :: 0 <= i < |v.assets| ==> ValidAsset(v.assets[i]))
    && (forall i, j :: 0 <= i < j < |v.assets| ==>
          v.assets[i].source != v.assets[j].source
            && DevicePath(v.pluginId, v.assets[i]) != DevicePath(v.pluginId, v.assets[j]))
  }

  function Resolved(pluginId: string, assets: seq<Declaration>): map<string, Path> {
    if assets == [] then map[] else
    var last := assets[|assets| - 1];
    Resolved(pluginId, assets[..|assets| - 1])[last.source := DevicePath(pluginId, last)]
  }

  // ---------------------------------------------------------------- lock-held regions

  function PhaseOf(m: Memory, pluginId: string): Phase { if pluginId in m.states then m.states[pluginId] else Absent }

  function ObservedOf(m: Memory, pluginId: string): Observed {
    if pluginId in m.observed then m.observed[pluginId] else map[]
  }

  predicate ReadyFor(m: Memory, v: Package) {
    PhaseOf(m, v.pluginId) == Ready && v.pluginId in m.fingerprints && m.fingerprints[v.pluginId] == v
  }

  /** The last lock-held region of a reconciliation. */
  datatype Effect =
    | SetInvalid
    | Hold(phase: Phase)
    | HoldObserved(kept: Observed)
    | Commit(phase: Phase, paths: map<string, Path>, observed: Option<Observed>, fingerprint: Package)

  function Put<V>(m: map<string, V>, key: string, value: Option<V>): map<string, V> {
    if value.Some? then m[key := value.value] else m - {key}
  }

  function Apply(m: Memory, epoch: nat, pluginId: string, effect: Effect): Memory {
    if m.epoch != epoch then m else
    match effect
    case SetInvalid => m.(states := m.states[pluginId := Error], paths := m.paths - {pluginId})
    case Hold(phase) => m.(states := m.states[pluginId := phase])
    case HoldObserved(kept) => m.(states := m.states[pluginId := Pending], observed := m.observed[pluginId := kept])
    case Commit(phase, paths, observed, fingerprint) =>
      m.(states := m.states[pluginId := phase],
         paths := Put(m.paths, pluginId, if paths == map[] then None else Some(paths)),
         observed := Put(m.observed, pluginId, observed),
         fingerprints := m.fingerprints[pluginId := fingerprint])
  }

  predicate Tracked(m: Memory, pluginId: string) {
    (pluginId in m.paths && m.paths[pluginId] != map[]) || ObservedOf(m, pluginId) != map[]
  }

  function Blank(o: Observed): Observed { map path | path in o :: "" }

  /** The epoch has moved on and the plugins in `visited` have been dealt with. */
  function InvalidateSome(m: Memory, visited: set<string>): Memory {
    var stale := set p | p in visited && Tracked(m, p);
    Memory(
      map p | p in m.states :: if p in stale then Pending else m.states[p],
      m.paths,
      m.fingerprints - stale,
      map p | p in m.observed :: if p in stale then Blank(m.observed[p]) else m.observed[p],
      m.epoch + 1)
  }

  function InvalidateConnection(m: Memory): Memory { InvalidateSome(m, m.states.Keys) }

  // ---------------------------------------------------------------- the machine

  datatype Stage = Local | Probe | Upload | Confirm

  /** The one Reconcile or CollectGarbage in progress, with its local copies. */
  datatype Job =
    | Idle
    | Verifying(epoch: nat, value: Package, observed: Observed, next: nat, stage: Stage)
    | Withdrawing(epoch: nat, value: Package, observed: Observed)
    | Closing(epoch: nat, value: Package, effect: Effect)
    | CollectStarted(value: Package)
    | Collecting(epoch: nat, value: Package, observed: Observed)
    | Recording(epoch: nat, value: Package, observed: Observed, stop: bool)

  datatype System = System(m: Memory, device: map<Path, Blob>, job: Job)

  datatype Action =
    | StartReconcile(value: Package, accepted: bool)
    | CheckLocal(ok: bool)
    | ReadBack(ok: bool)
    | UploadFile(ok: bool, left: Option<Blob>)
    | RemoveFile(path: Path, ok: bool)
    | Finish
    | StartCollect(collect: Package)
    | ReadInventory
    | Record
    | StopCollect
    | Reconnect(device: map<Path, Blob>)

  /** The withdrawal goes on, or commits once nothing observed is left. */
  function Withdraw(epoch: nat, v: Package, observed: Observed): Job {
    if observed != map[] then Withdrawing(epoch, v, observed)
    else Closing(epoch, v, Commit(if v.enabled then Ready else Absent, map[], if v.enabled then Some(map[])
      else None, v))
  }

  function Start(m: Memory, v: Package, accepted: bool): Job {
    if !accepted || !ValidAssets(v) then Closing(m.epoch, v, SetInvalid)
    else if v.pluginId in m.states && v.pluginId in m.fingerprints && m.fingerprints[v.pluginId] == v
            && m.states[v.pluginId] == (if v.enabled then Ready else Absent) then Idle
    else if !v.enabled || v.assets == [] then Withdraw(m.epoch, v, ObservedOf(m, v.pluginId))
    else Verifying(m.epoch, v, ObservedOf(m, v.pluginId), 0, Local)
  }

  /** Asset `next` is verified. */
  function Advance(epoch: nat, v: Package, observed: Observed, next: nat): Job {
    if next + 1 < |v.assets| then Verifying(epoch, v, observed, next + 1, Local)
    else Closing(epoch, v, Commit(Ready, Resolved(v.pluginId, v.assets), Some(observed), v))
  }

  predicate DeviceMatches(device: map<Path, Blob>, path: Path, asset: Declaration) {
    path in device && device[path] == Blob(asset.sha256, asset.size)
  }

  function VerifyStep(s: System, a: Action): System
    requires s.job.Verifying? && s.job.next < |s.job.value.assets|
  {
    var Verifying(epoch, v, observed, next, stage) := s.job;
    var asset := v.assets[next];
    var path := DevicePath(v.pluginId, asset);
    match (stage, a)
    case (Local, CheckLocal(ok)) =>
      if !ok then s.(job := Closing(epoch, v, Hold(Error)))
      else if path in observed && observed[path] == asset.sha256 then s.(job := Advance(epoch, v, observed, next))
      else s.(job := s.job.(stage := Probe))
    case (Probe, ReadBack(ok)) =>
      if ok && DeviceMatches(s.device, path, asset)
        then s.(job := Advance(epoch, v, observed[path := asset.sha256], next))
      else s.(job := s.job.(stage := Upload))
    case (Upload, UploadFile(ok, left)) =>
      var device := if left.Some? then s.device[path := left.value] else s.device - {path};
      s.(device := device, job := if ok then s.job.(stage := Confirm) else Closing(epoch, v, HoldObserved(observed)))
    case (Confirm, ReadBack(ok)) =>
      if ok && DeviceMatches(s.device, path, asset)
        then s.(job := Advance(epoch, v, observed[path := asset.sha256], next))
      else s.(job := Closing(epoch, v, HoldObserved(observed)))
    case _ => s
  }

  predicate Wanted(v: Package, path: Path) { exists a :: a in v.assets && DevicePath(v.pluginId, a) == path }

  function RemoveStep(s: System, path: Path, ok: bool): System {
    match s.job
    case Withdrawing(epoch, v, observed) =>
      if path !in observed then s
      else if !ok then s.(job := Closing(epoch, v, HoldObserved(observed)))
      else System(s.m, s.device - {path}, Withdraw(epoch, v, observed - {path}))
    case Collecting(epoch, v, observed) =>
      if path !in observed || Wanted(v, path) then s
      else if !ok then s.(job := Recording(epoch, v, observed, true))
      else System(s.m, s.device - {path}, Recording(epoch, v, observed - {path}, false))
    case _ => s
  }

  /** CollectGarbage's lock-held region after each removal. */
  function RecordStep(s: System): System
    requires s.job.Recording?
  {
    var Recording(epoch, v, observed, stop) := s.job;
    if s.m.epoch != epoch then s.(job := Idle)
    else System(s.m.(observed := s.m.observed[v.pluginId := observed]), s.device,
                if stop then Idle else Collecting(epoch, v, observed))
  }

  function Step(s: System, a: Action): System {
    match a
    case StartReconcile(v, accepted) => if s.job.Idle? then s.(job := Start(s.m, v, accepted)) else s
    case RemoveFile(path, ok) => RemoveStep(s, path, ok)
    case Finish =>
      if s.job.Closing? then s.(m := Apply(s.m, s.job.epoch, s.job.value.pluginId, s.job.effect), job := Idle) else s
    case StartCollect(v) =>
      if s.job.Idle? && v.enabled && v.assets != [] && ReadyFor(s.m, v) then s.(job := CollectStarted(v)) else s
    case ReadInventory =>
      if s.job.CollectStarted? then s.(job := Collecting(s.m.epoch, s.job.value,
        ObservedOf(s.m, s.job.value.pluginId))) else s
    case Record => if s.job.Recording? then RecordStep(s) else s
    case StopCollect => if s.job.Collecting? then s.(job := Idle) else s
    case Reconnect(device) => s.(m := InvalidateConnection(s.m), device := device)
    case _ => if s.job.Verifying? && s.job.next < |s.job.value.assets| then VerifyStep(s, a) else s
  }

  function RunFrom(s: System, actions: seq<Action>): System {
    if actions == [] then s else Step(RunFrom(s, actions[..|actions| - 1]), actions[|actions| - 1])
  }

  /** Any run from a start on a device with any contents. */
  function Run(device: map<Path, Blob>, actions: seq<Action>): System { RunFrom(System(EMPTY, device, Idle), actions) }

  // ---------------------------------------------------------------- invariant

  predicate OnDevice(device: map<Path, Blob>, path: Path) { path in device && device[path].digest == path.content }

  /** The files are the plugin's own, and a digest is blank or the one the path stands for. */
  ghost predicate WellFormed(o: Observed, pluginId: string) {
    forall path :: path in o ==> path.pluginId == pluginId && (o[path] == "" || o[path] == path.content)
  }

  predicate Claims(o: Observed, path: Path) { path in o && o[path] != "" }

  /** What a job in progress locally believes about its plugin's files. */
  function LocalObserved(job: Job): Option<Observed> {
    if job.Verifying? || job.Withdrawing? || job.Collecting? || job.Recording? then Some(job.observed)
    else if job.Closing? && job.effect.HoldObserved? then Some(job.effect.kept)
    else if job.Closing? && job.effect.Commit?
      then Some(if job.effect.observed.Some? then job.effect.observed.value else map[])
    else None
  }

  predicate HasEpoch(job: Job) { !job.Idle? && !job.CollectStarted? }

  /** The job has taken this file off the device, or its memory of it, since it last published. */
  predicate Taken(s: System, path: Path) {
    && HasEpoch(s.job) && s.job.epoch == s.m.epoch && path.pluginId == s.job.value.pluginId
    && LocalObserved(s.job).Some? && path !in LocalObserved(s.job).value
  }

  ghost predicate ReadyOk(m: Memory, p: string)
    requires p in m.states && m.states[p] == Ready
  {
    && p in m.fingerprints
    && var v := m.fingerprints[p];
    && v.pluginId == p && v.enabled && ValidAssets(v)
    && (forall i :: 0 <= i < |v.assets| ==> Claims(ObservedOf(m, p), DevicePath(p, v.assets[i])))
    && (v.assets != [] ==> p in m.paths && m.paths[p] == Resolved(p, v.assets))
  }

  ghost predicate MemoryOk(m: Memory) {
    && (forall p :: p in m.observed ==> p in m.states && WellFormed(m.observed[p], p))
    && (forall p :: p in m.states && m.states[p] == Ready ==> ReadyOk(m, p))
  }

  /** Every published claim is true of the device, unless the job in progress has taken the file. */
  ghost predicate Truthful(s: System) {
    forall p, path :: p in s.m.observed && Claims(s.m.observed[p], path) ==>
      if Taken(s, path) then path !in s.device else OnDevice(s.device, path)
  }

  ghost predicate LocallyTruthful(device: map<Path, Blob>, o: Observed) {
    forall path :: Claims(o, path) ==> OnDevice(device, path)
  }

  ghost predicate Extends(m: Memory, p: string, o: Observed) {
    forall path :: Claims(ObservedOf(m, p), path) ==> Claims(o, path)
  }

  /** No claims at all: what an invalidation leaves until the job it overtook has ended. */
  ghost predicate NoClaims(m: Memory) {
    && (forall p, path :: p in m.observed ==> !Claims(m.observed[p], path))
    && (forall p :: p in m.states && m.states[p] == Ready ==> ReadyOk(m, p) && m.fingerprints[p].assets == [])
  }

  ghost predicate VerifiedUpTo(v: Package, o: Observed, n: nat)
    requires n <= |v.assets|
  {
    forall i :: 0 <= i < n ==> Claims(o, DevicePath(v.pluginId, v.assets[i]))
  }

  ghost predicate CollectOk(m: Memory, v: Package) {
    PhaseOf(m, v.pluginId) == Ready ==> v.pluginId in m.fingerprints && m.fingerprints[v.pluginId] == v
  }

  ghost predicate EffectOk(s: System, v: Package, effect: Effect) {
    && (effect.Hold? ==> effect.phase != Ready)
    && (effect.Commit? ==>
          && effect.fingerprint == v && ValidAssets(v)
          && (effect.phase == Ready ==>
                && v.enabled && effect.observed.Some? && VerifiedUpTo(v, effect.observed.value, |v.assets|)
                && effect.paths == Resolved(v.pluginId, v.assets)))
  }

  /** The packages whose reconciliation takes files off the device. */
  predicate Withdraws(v: Package) { !v.enabled || v.assets == [] }

  ghost predicate JobOk(s: System) {
    && (s.job.CollectStarted? ==> CollectOk(s.m, s.job.value))
    && (HasEpoch(s.job) ==> s.job.epoch <= s.m.epoch)
    && (HasEpoch(s.job) && s.job.epoch < s.m.epoch ==> NoClaims(s.m))
    && (LocalObserved(s.job).Some? ==> WellFormed(LocalObserved(s.job).value, s.job.value.pluginId))
    && (s.job.Verifying? ==>
          && s.job.next < |s.job.value.assets| && ValidAssets(s.job.value) && s.job.value.enabled
          && VerifiedUpTo(s.job.value, s.job.observed, s.job.next))
    && (s.job.Withdrawing? ==> ValidAssets(s.job.value) && Withdraws(s.job.value))
    && (s.job.Closing? ==> EffectOk(s, s.job.value, s.job.effect))
    && (HasEpoch(s.job) && s.job.epoch == s.m.epoch ==> CurrentOk(s))
  }

  ghost predicate CurrentOk(s: System)
    requires HasEpoch(s.job)
  {
    && (LocalObserved(s.job).Some? ==> LocallyTruthful(s.device, LocalObserved(s.job).value))
    && (s.job.Verifying? ==>
          && s.job.next < |s.job.value.assets|
          && Extends(s.m, s.job.value.pluginId, s.job.observed)
          && (s.job.stage != Local ==>
               !Claims(s.job.observed, DevicePath(s.job.value.pluginId, s.job.value.assets[s.job.next]))))
    && (s.job.Closing? && !Withdraws(s.job.value) && LocalObserved(s.job).Some? ==>
          Extends(s.m, s.job.value.pluginId, LocalObserved(s.job).value))
    && (s.job.Collecting? ==> CollectOk(s.m, s.job.value) && s.job.observed == ObservedOf(s.m, s.job.value.pluginId))
    && (s.job.Recording? ==>
          && s.job.value.pluginId in s.m.states && CollectOk(s.m, s.job.value)
          && (forall path :: Claims(ObservedOf(s.m, s.job.value.pluginId), path) && Wanted(s.job.value, path) ==>
                Claims(s.job.observed, path)))
  }

  ghost predicate SystemInv(s: System) { MemoryOk(s.m) && Truthful(s) && JobOk(s) }

  lemma ReconnectKeeps(s: System, device: map<Path, Blob>)
    requires SystemInv(s)
    ensures SystemInv(Step(s, Reconnect(device)))
  {
    var m := InvalidateConnection(s.m);
    forall p, path | p in m.observed ensures !Claims(m.observed[p], path) {
      assert p in s.m.observed && p in s.m.states;
      if path in m.observed[p] { assert path in s.m.observed[p]; assert Tracked(s.m, p); }
    }
    forall p | p in m.states && m.states[p] == Ready ensures ReadyOk(m, p) && m.fingerprints[p].assets == [] {
      assert ReadyOk(s.m, p) && !Tracked(s.m, p);
      var v := s.m.fingerprints[p];
      assert forall path :: !Claims(ObservedOf(s.m, p), path);
      assert !(0 < |v.assets|);
    }
  }

  lemma StartKeeps(s: System, v: Package, accepted: bool)
    requires SystemInv(s) && s.job.Idle?
    ensures SystemInv(Step(s, StartReconcile(v, accepted)))
  {
  }

  lemma AdvanceKeeps(s: System, o: Observed)
    requires SystemInv(s) && s.job.Verifying?
    requires WellFormed(o, s.job.value.pluginId) && (forall path :: Claims(s.job.observed, path) ==> Claims(o, path))
    requires Claims(o, DevicePath(s.job.value.pluginId, s.job.value.assets[s.job.next]))
    requires s.job.epoch == s.m.epoch ==> LocallyTruthful(s.device, o)
    ensures SystemInv(s.(job := Advance(s.job.epoch, s.job.value, o, s.job.next)))
  {
    var t := s.(job := Advance(s.job.epoch, s.job.value, o, s.job.next));
    assert LocalObserved(t.job) == Some(o);
    assert VerifiedUpTo(s.job.value, o, s.job.next + 1);
    forall p, path | p in s.m.observed && Claims(s.m.observed[p], path) ensures !Taken(s, path) && !Taken(t, path) {
      assert path.pluginId == p;
    }
  }

  /** The file uploaded over is one nothing claims. */
  lemma UploadKeeps(s: System, ok: bool, left: Option<Blob>)
    requires SystemInv(s) && s.job.Verifying? && s.job.stage == Upload
    ensures SystemInv(VerifyStep(s, UploadFile(ok, left)))
  {
    var path := DevicePath(s.job.value.pluginId, s.job.value.assets[s.job.next]);
    var t := VerifyStep(s, UploadFile(ok, left));
    forall p, q | p in s.m.observed && Claims(s.m.observed[p], q)
      ensures !Taken(s, q) && !Taken(t, q) && OnDevice(t.device, q)
    {
      assert q.pluginId == p;
    }
  }

  lemma HoldKeeps(s: System, effect: Effect)
    requires SystemInv(s) && s.job.Verifying?
    requires effect == Hold(Error) || effect == HoldObserved(s.job.observed)
    ensures SystemInv(s.(job := Closing(s.job.epoch, s.job.value, effect)))
  {
    var t := s.(job := Closing(s.job.epoch, s.job.value, effect));
    forall p, q | p in s.m.observed && Claims(s.m.observed[p], q) ensures !Taken(s, q) && !Taken(t, q) {
      assert q.pluginId == p;
    }
  }

  lemma StageKeeps(s: System, stage: Stage)
    requires SystemInv(s) && s.job.Verifying?
    requires s.job.stage != Local
      || !Claims(s.job.observed, DevicePath(s.job.value.pluginId, s.job.value.assets[s.job.next]))
    ensures SystemInv(s.(job := s.job.(stage := stage)))
  {
    var t := s.(job := s.job.(stage := stage));
    assert forall q :: Taken(s, q) == Taken(t, q);
  }

  lemma VerifyKeeps(s: System, a: Action)
    requires SystemInv(s) && s.job.Verifying?
    ensures SystemInv(VerifyStep(s, a))
  {
    var Verifying(epoch, v, observed, next, stage) := s.job;
    var asset := v.assets[next];
    var path := DevicePath(v.pluginId, asset);
    assert ValidAsset(asset);
    match (stage, a)
    case (Local, CheckLocal(ok)) =>
      if !ok { HoldKeeps(s, Hold(Error)); }
      else if path in observed && observed[path] == asset.sha256 { AdvanceKeeps(s, observed); }
      else { StageKeeps(s, Probe); }
    case (Probe, ReadBack(ok)) =>
      if ok && DeviceMatches(s.device, path, asset) { AdvanceKeeps(s, observed[path := asset.sha256]); }
      else { StageKeeps(s, Upload); }
    case (Upload, UploadFile(ok, left)) => UploadKeeps(s, ok, left);
    case (Confirm, ReadBack(ok)) =>
      if ok && DeviceMatches(s.device, path, asset) { AdvanceKeeps(s, observed[path := asset.sha256]); }
      else { HoldKeeps(s, HoldObserved(observed)); }
    case _ =>
  }

  lemma WithdrawKeeps(s: System, path: Path, ok: bool)
    requires SystemInv(s) && s.job.Withdrawing?
    ensures SystemInv(RemoveStep(s, path, ok))
  {
    hide ReadyOk;
    hide ValidAssets;
    var t := RemoveStep(s, path, ok);
    if path in s.job.observed && ok {
      var o := s.job.observed - {path};
      assert LocalObserved(t.job) == Some(o);
      assert forall q :: Claims(o, q) ==> Claims(s.job.observed, q) && q != path;
      assert forall q :: Taken(t, q) == (Taken(s, q) || (q == path && s.job.epoch == s.m.epoch));
    }
  }

  lemma CollectOneKeeps(s: System, path: Path, ok: bool)
    requires SystemInv(s) && s.job.Collecting?
    ensures SystemInv(RemoveStep(s, path, ok))
  {
    hide ReadyOk;
    hide ValidAssets;
    var t := RemoveStep(s, path, ok);
    if path in s.job.observed && ok && !Wanted(s.job.value, path) {
      var o := s.job.observed - {path};
      assert LocalObserved(t.job) == Some(o);
      assert forall q :: Claims(o, q) ==> Claims(s.job.observed, q) && q != path;
      assert forall q :: Claims(s.job.observed, q) && Wanted(s.job.value, q) ==> Claims(o, q);
      assert forall q :: Taken(t, q) == (Taken(s, q) || (q == path && s.job.epoch == s.m.epoch));
    }
  }

  lemma ResolvedHas(pluginId: string, assets: seq<Declaration>)
    ensures assets != [] ==> Resolved(pluginId, assets) != map[]
  {
    if assets != [] { assert assets[|assets| - 1].source in Resolved(pluginId, assets); }
  }

  lemma FinishMemory(s: System)
    requires SystemInv(s) && s.job.Closing?
    ensures MemoryOk(Step(s, Finish).m)
  {
    hide Truthful;
    hide CurrentOk;
    var t := Step(s, Finish);
    var v := s.job.value;
    ResolvedHas(v.pluginId, v.assets);
    forall p | p in t.m.states && t.m.states[p] == Ready ensures ReadyOk(t.m, p) {
      if p != v.pluginId || s.m.epoch != s.job.epoch { assert ReadyOk(s.m, p); }
    }
  }

  lemma FinishTruth(s: System)
    requires SystemInv(s) && s.job.Closing?
    ensures Truthful(Step(s, Finish))
  {
    hide ReadyOk;
    hide ValidAssets;
    var t := Step(s, Finish);
    forall p, path | p in t.m.observed && Claims(t.m.observed[p], path) ensures OnDevice(t.device, path) {
      assert t.m.observed[p] == (if p in s.m.observed then s.m.observed[p] else t.m.observed[p])
        || p == s.job.value.pluginId;
    }
  }

  lemma FinishKeeps(s: System)
    requires SystemInv(s) && s.job.Closing?
    ensures SystemInv(Step(s, Finish))
  {
    FinishMemory(s);
    FinishTruth(s);
    hide Truthful;
    hide MemoryOk;
  }

  lemma RecordKeeps(s: System)
    requires SystemInv(s) && s.job.Recording?
    ensures SystemInv(RecordStep(s))
  {
    var t := RecordStep(s);
    var v := s.job.value;
    forall p | p in t.m.states && t.m.states[p] == Ready ensures ReadyOk(t.m, p) {
      assert ReadyOk(s.m, p);
      if p == v.pluginId && s.m.epoch == s.job.epoch {
        forall i | 0 <= i < |v.assets| ensures Claims(ObservedOf(t.m, p), DevicePath(p, v.assets[i])) {
          assert Wanted(v, DevicePath(p, v.assets[i]));
        }
      }
    }
  }

  lemma CollectStartKeeps(s: System, a: Action)
    requires SystemInv(s) && (a.StartCollect? || a.ReadInventory? || a.StopCollect?)
    ensures SystemInv(Step(s, a))
  {
    var t := Step(s, a);
    forall p, q | p in s.m.observed && Claims(s.m.observed[p], q) && t != s ensures !Taken(s, q) && !Taken(t, q) {
      assert q.pluginId == p;
    }
  }

  lemma StepKeeps(s: System, a: Action)
    requires SystemInv(s)
    ensures SystemInv(Step(s, a))
  {
    match a
    case StartReconcile(v, accepted) => if s.job.Idle? { StartKeeps(s, v, accepted); }
    case RemoveFile(path, ok) =>
      if s.job.Withdrawing? { WithdrawKeeps(s, path, ok); }
      if s.job.Collecting? { CollectOneKeeps(s, path, ok); }
    case Finish => if s.job.Closing? { FinishKeeps(s); }
    case StartCollect(v) => CollectStartKeeps(s, a);
    case ReadInventory => CollectStartKeeps(s, a);
    case StopCollect => CollectStartKeeps(s, a);
    case Record => if s.job.Recording? { RecordKeeps(s); }
    case Reconnect(device) => ReconnectKeeps(s, device);
    case _ => if s.job.Verifying? && s.job.next < |s.job.value.assets| { VerifyKeeps(s, a); }
  }

  lemma {:induction false} RunKeeps(s: System, actions: seq<Action>)
    requires SystemInv(s)
    ensures SystemInv(RunFrom(s, actions))
  {
    if actions != [] {
      RunKeeps(s, actions[..|actions| - 1]);
      StepKeeps(RunFrom(s, actions[..|actions| - 1]), actions[|actions| - 1]);
    }
  }

  lemma {:induction false} RunFirst(s: System, actions: seq<Action>)
    requires actions != []
    ensures RunFrom(s, actions) == RunFrom(Step(s, actions[0]), actions[1..])
  {
    var n := |actions| - 1;
    if n > 0 {
      RunFirst(s, actions[..n]);
      assert actions[..n][1..] == actions[1..][..n - 1];
    } else {
      assert actions[..0] == [] && actions[1..] == [];
    }
  }

  lemma {:induction false} RunSplit(s: System, first: seq<Action>, second: seq<Action>)
    ensures RunFrom(s, first + second) == RunFrom(RunFrom(s, first), second)
  {
    if second == [] {
      assert first + second == first;
    } else {
      var n := |second| - 1;
      RunSplit(s, first, second[..n]);
      assert (first + second)[..|first| + n] == first + second[..n];
    }
  }

  lemma RunTwo(s: System, a: Action, b: Action)
    ensures RunFrom(s, [a, b]) == Step(Step(s, a), b)
  {
    hide Step;
    RunFirst(s, [a, b]);
    RunFirst(Step(s, a), [b]);
    assert [a, b][1..] == [b] && [b][1..] == [];
  }

  // ---------------------------------------------------------------- main results

  /** A withdrawal of the plugin's files is under way and has already taken one of this package's. */
  predicate BeingWithdrawn(s: System, v: Package) {
    && (s.job.Withdrawing? || s.job.Closing?)
    && exists i :: 0 <= i < |v.assets| && Taken(s, DevicePath(v.pluginId, v.assets[i]))
  }

  /** Over every run and every reconnection: while a package is reported ready, all its assets are on
      the device with their declared digests, exactly unless a withdrawal has begun to take them. */
  lemma ReadyIffPresent(device: map<Path, Blob>, actions: seq<Action>, v: Package)
    requires ReadyFor(Run(device, actions).m, v)
    ensures
      var s := Run(device, actions);
      (forall i :: 0 <= i < |v.assets| ==> OnDevice(s.device, DevicePath(v.pluginId, v.assets[i]))) <==>
        !BeingWithdrawn(s, v)
  {
    var s := Run(device, actions);
    RunKeeps(System(EMPTY, device, Idle), actions);
    var p := v.pluginId;
    assert ReadyOk(s.m, p);
    forall i | 0 <= i < |v.assets|
      ensures if Taken(s, DevicePath(p, v.assets[i])) then DevicePath(p, v.assets[i]) !in s.device
        else OnDevice(s.device, DevicePath(p, v.assets[i]))
      ensures Taken(s, DevicePath(p, v.assets[i])) ==> s.job.Withdrawing? || s.job.Closing?
    {
      var path := DevicePath(p, v.assets[i]);
      assert Claims(s.m.observed[p], path);
      assert Wanted(v, path);
    }
  }

  /** A reconciliation of a disabled or assetless package of this plugin is under way. */
  predicate WithdrawalInProgress(s: System, pluginId: string) {
    (s.job.Withdrawing? || s.job.Closing?) && s.job.value.pluginId == pluginId && Withdraws(s.job.value)
  }

  /** A file of a ready package is taken only by such a reconciliation. */
  lemma OnlyWithdrawalsTake(s: System, v: Package, i: nat)
    requires SystemInv(s) && ReadyFor(s.m, v) && i < |v.assets| && Taken(s, DevicePath(v.pluginId, v.assets[i]))
    ensures WithdrawalInProgress(s, v.pluginId)
  {
    var path := DevicePath(v.pluginId, v.assets[i]);
    assert ReadyOk(s.m, v.pluginId);
    assert Claims(ObservedOf(s.m, v.pluginId), path);
    assert Wanted(v, path);
  }

  /** While a package is reported ready all its assets are on the device with their declared digests,
      whatever job is in progress, unless that job reconciles a disabled or assetless package of the
      same plugin. */
  lemma ReadyMeansPresent(device: map<Path, Blob>, actions: seq<Action>, v: Package, i: nat)
    requires ReadyFor(Run(device, actions).m, v) && i < |v.assets|
    requires !WithdrawalInProgress(Run(device, actions), v.pluginId)
    ensures OnDevice(Run(device, actions).device, DevicePath(v.pluginId, v.assets[i]))
  {
    var s := Run(device, actions);
    RunKeeps(System(EMPTY, device, Idle), actions);
    if BeingWithdrawn(s, v) {
      var k :| 0 <= k < |v.assets| && Taken(s, DevicePath(v.pluginId, v.assets[k]));
      OnlyWithdrawalsTake(s, v, k);
      assert false;
    }
    ReadyIffPresent(device, actions, v);
  }

  /** Every such reconciliation can leave a package reported ready with a file missing: from any reachable
      idle state, for any ready package with assets and any disabled or assetless package of its plugin. */
  lemma WithdrawalOpensWindow(device: map<Path, Blob>, actions: seq<Action>, v: Package, w: Package)
    requires Run(device, actions).job.Idle? && ReadyFor(Run(device, actions).m, v) && v.assets != []
    requires w.pluginId == v.pluginId && ValidAssets(w) && Withdraws(w)
    ensures
      var path := DevicePath(v.pluginId, v.assets[0]);
      var s := Step(Step(Run(device, actions), StartReconcile(w, true)), RemoveFile(path, true));
      ReadyFor(s.m, v) && path !in s.device
  {
    hide ValidAssets;
    var s := Run(device, actions);
    RunKeeps(System(EMPTY, device, Idle), actions);
    assert ReadyOk(s.m, v.pluginId);
    var path := DevicePath(v.pluginId, v.assets[0]);
    assert Claims(ObservedOf(s.m, v.pluginId), path);
    assert Step(s, StartReconcile(w, true)).job == Withdrawing(s.m.epoch, w, ObservedOf(s.m, v.pluginId));
  }

  lemma FirstReconcile(v: Package, asset: Declaration, path: Path)
    requires v.pluginId == "p" && v.enabled && v.assets == [asset] && ValidAssets(v) && path == DevicePath("p", asset)
    ensures
      var s := System(EMPTY, map[path := Blob(asset.sha256, asset.size)], Idle);
      var t := Step(Step(Step(Step(s, StartReconcile(v, true)), CheckLocal(true)), ReadBack(true)), Finish);
      && t.device == s.device && t.job == Idle && t.m.epoch == 0 && ReadyFor(t.m, v)
      && "p" in t.m.observed && t.m.observed["p"] == map[path := asset.sha256]
  {
    hide ValidAssets;
    var s := System(EMPTY, map[path := Blob(asset.sha256, asset.size)], Idle);
    var s1 := Step(s, StartReconcile(v, true));
    assert s1.job == Verifying(0, v, map[], 0, Local);
    var s2 := Step(s1, CheckLocal(true));
    assert s2.job == Verifying(0, v, map[], 0, Probe);
    var s3 := Step(s2, ReadBack(true));
    assert s3.job == Advance(0, v, map[path := asset.sha256], 0);
    assert s3.m == EMPTY && s3.device == s.device;
  }

  lemma ThenDisable(s: System, v: Package, off: Package, path: Path)
    requires s.job == Idle && s.m.epoch == 0 && ReadyFor(s.m, v) && v.pluginId == "p" && v.enabled
    requires "p" in s.m.observed && s.m.observed["p"] == map[path := path.content]
    requires off == v.(enabled := false) && ValidAssets(off)
    ensures
      var t := Step(Step(s, StartReconcile(off, true)), RemoveFile(path, true));
      ReadyFor(t.m, v) && path !in t.device
  {
    hide ValidAssets;
    var s1 := Step(s, StartReconcile(off, true));
    assert path in ObservedOf(s.m, "p");
    assert s1.job == Withdrawing(0, off, map[path := path.content]);
  }

  /** The withdrawal window is real: removing the only file of a disabled package leaves the package
      reported ready until the removal is committed. */
  lemma WithdrawalWindow(sha: string)
    requires |sha| == 64 && forall i :: 0 <= i < 64 ==> LowerHex(sha[i])
    ensures
      var asset := Declaration("icon.png", sha, 1, "image/png");
      var v := Package("p", "1", "/", true, [asset]);
      var path := DevicePath("p", asset);
      var s := Run(map[path := Blob(sha, 1)],
        [StartReconcile(v, true), CheckLocal(true), ReadBack(true), Finish] +
        [StartReconcile(v.(enabled := false), true), RemoveFile(path, true)]);
      ReadyFor(s.m, v) && path !in s.device
  {
    hide Step;
    hide ReadyFor;
    var asset := Declaration("icon.png", sha, 1, "image/png");
    var v := Package("p", "1", "/", true, [asset]);
    var off := v.(enabled := false);
    var path := DevicePath("p", asset);
    assert TotalSize(v.assets) == 1 by { assert v.assets[..0] == []; }
    assert ValidAsset(asset);
    FirstReconcile(v, asset, path);
    var s0 := System(EMPTY, map[path := Blob(sha, 1)], Idle);
    var first := [StartReconcile(v, true), CheckLocal(true), ReadBack(true), Finish];
    var s4 := Step(Step(Step(Step(s0, first[0]), first[1]), first[2]), first[3]);
    var second := [StartReconcile(off, true), RemoveFile(path, true)];
    RunSplit(s0, first, second);
    RunSplit(s0, first[..2], first[2..]);
    assert first[..2] + first[2..] == first && first[..2] == [first[0], first[1]] && first[2..] == [first[2], first[3]];
    RunTwo(s0, first[0], first[1]);
    RunTwo(Step(Step(s0, first[0]), first[1]), first[2], first[3]);
    RunTwo(s4, second[0], second[1]);
    ThenDisable(s4, v, off, path);
  }

  lemma ResolvedIs(pluginId: string, assets: seq<Declaration>, source: string)
    requires source in Resolved(pluginId, assets)
    ensures exists i ::
      && 0 <= i < |assets| && assets[i].source == source
      && Resolved(pluginId, assets)[source] == DevicePath(pluginId, assets[i])
  {
    var n := |assets| - 1;
    if assets[n].source != source {
      ResolvedIs(pluginId, assets[..n], source);
      var i :| 0 <= i < n && assets[..n][i].source == source
        && Resolved(pluginId, assets[..n])[source] == DevicePath(pluginId, assets[..n][i]);
      assert assets[i] == assets[..n][i];
    }
  }

  /** A scene of a ready plugin resolves a package path to the file of the declaration with that source,
      and that file is on the device unless a withdrawal has taken it. */
  lemma ResolvedAssetsArePresent(device: map<Path, Blob>, actions: seq<Action>, p: string, source: string)
    requires PhaseOf(Run(device, actions).m, p) == Ready
    requires p in Run(device, actions).m.fingerprints && Run(device, actions).m.fingerprints[p].assets != []
    requires p in Run(device, actions).m.paths && source in Run(device, actions).m.paths[p]
    ensures
      var s := Run(device, actions);
      var v := s.m.fingerprints[p];
      exists i :: 0 <= i < |v.assets| && v.assets[i].source == source
        && s.m.paths[p][source] == DevicePath(p, v.assets[i])
        && (!WithdrawalInProgress(s, p) ==> OnDevice(s.device, s.m.paths[p][source]))
  {
    var s := Run(device, actions);
    RunKeeps(System(EMPTY, device, Idle), actions);
    assert ReadyOk(s.m, p);
    var v := s.m.fingerprints[p];
    ResolvedIs(p, v.assets, source);
    var i :| 0 <= i < |v.assets| && v.assets[i].source == source && s.m.paths[p][source] == DevicePath(p, v.assets[i]);
    if !WithdrawalInProgress(s, p) { ReadyMeansPresent(device, actions, v, i); }
  }

  // ---------------------------------------------------------------- a fault-free reconciliation succeeds

  predicate FaultFree(s: System, a: Action) {
    match a
    case StartReconcile(_, accepted) => accepted
    case CheckLocal(ok) => ok
    case ReadBack(ok) => ok
    case RemoveFile(_, ok) => ok
    case UploadFile(ok, left) =>
      && ok && s.job.Verifying? && s.job.next < |s.job.value.assets|
      && left == Some(Blob(s.job.value.assets[s.job.next].sha256, s.job.value.assets[s.job.next].size))
    case Reconnect(_) => false
    case _ => true
  }

  predicate FaultFreeRun(s: System, actions: seq<Action>)
    decreases |actions|
  {
    actions == [] || (FaultFree(s, actions[0]) && FaultFreeRun(Step(s, actions[0]), actions[1..]))
  }

  /** A reconciliation of v in progress at the current connection, with no failure so far. */
  predicate Healthy(s: System, v: Package) {
    && HasEpoch(s.job) && s.job.epoch == s.m.epoch && s.job.value == v && v.enabled
    && match s.job
       case Verifying(_, _, _, next, stage) =>
         next < |v.assets|
           && (stage == Confirm ==> DeviceMatches(s.device, DevicePath(v.pluginId, v.assets[next]), v.assets[next]))
       case Withdrawing(_, _, _) => true
       case Closing(_, _, effect) => effect.Commit? && effect.phase == Ready && effect.fingerprint == v
       case _ => false
  }

  function StageRank(stage: Stage): nat {
    match stage case Local => 3 case Probe => 2 case Upload => 1 case Confirm => 0
  }

  function WorkLeft(job: Job): nat {
    match job
    case Verifying(_, v, _, next, stage) => if next < |v.assets| then 4 * (|v.assets| - next) + StageRank(stage) else 0
    case Withdrawing(_, _, observed) => 1 + |observed|
    case _ => 0
  }

  ghost function NextAction(s: System): Action {
    match s.job
    case Verifying(_, v, _, next, Local) => CheckLocal(true)
    case Verifying(_, v, _, next, Upload) =>
      if next < |v.assets| then UploadFile(true, Some(Blob(v.assets[next].sha256, v.assets[next].size))) else Finish
    case Verifying(_, v, _, next, _) => ReadBack(true)
    case Withdrawing(_, _, observed) =>
      if observed == map[] then Finish else var path :| path in observed; RemoveFile(path, true)
    case _ => Finish
  }

  lemma HealthyVerify(s: System, v: Package)
    requires Healthy(s, v) && s.job.Verifying?
    ensures var t := VerifyStep(s, NextAction(s));
      FaultFree(s, NextAction(s)) && Healthy(t, v) && WorkLeft(t.job) < WorkLeft(s.job) && !t.job.Withdrawing?
  {
    hide ValidAssets;
    hide Resolved;
    match s.job.stage
    case Local =>
    case Probe =>
    case Upload =>
    case Confirm =>
  }

  lemma RemovalShrinks(o: Observed, path: Path)
    requires path in o
    ensures |o - {path}| + 1 == |o|
  {
    assert (o - {path}).Keys == o.Keys - {path};
  }

  lemma HealthyWithdraw(s: System, v: Package)
    requires Healthy(s, v) && s.job.Withdrawing? && s.job.observed != map[]
    ensures var t := Step(s, NextAction(s));
      && FaultFree(s, NextAction(s)) && Healthy(t, v) && WorkLeft(t.job) < WorkLeft(s.job)
      && (t.job.Withdrawing? ==> t.job.observed != map[])
  {
    hide ValidAssets;
    RemovalShrinks(s.job.observed, NextAction(s).path);
    assert Step(s, NextAction(s)) == RemoveStep(s, NextAction(s).path, true);
  }

  /** From any healthy point the reconciliation finishes, without faults, reporting v ready. */
  lemma {:induction false} HealthyFinishes(s: System, v: Package) returns (more: seq<Action>)
    requires Healthy(s, v) && (s.job.Withdrawing? ==> s.job.observed != map[])
    ensures FaultFreeRun(s, more) && ReadyFor(RunFrom(s, more).m, v) && RunFrom(s, more).job.Idle?
    decreases WorkLeft(s.job)
  {
    var a := NextAction(s);
    var t := Step(s, a);
    if s.job.Closing? {
      more := [a];
      RunFirst(s, more);
    } else {
      if s.job.Verifying? { HealthyVerify(s, v); } else { HealthyWithdraw(s, v); }
      var rest := HealthyFinishes(t, v);
      more := [a] + rest;
      RunFirst(s, more);
      assert more[1..] == rest;
    }
  }

  /** From every reachable idle state, reconciling a valid enabled package can finish without faults, and
      then the package is ready and every asset is on the device with its declared digest. */
  lemma FaultFreeReconcileReadies(device: map<Path, Blob>, actions: seq<Action>, v: Package) returns (more: seq<Action>)
    requires Run(device, actions).job.Idle? && v.enabled && ValidAssets(v)
    ensures
      var s := Run(device, actions);
      var t := RunFrom(s, more);
      && more != [] && more[0] == StartReconcile(v, true) && FaultFreeRun(s, more) && ReadyFor(t.m, v)
      && forall i :: 0 <= i < |v.assets| ==> OnDevice(t.device, DevicePath(v.pluginId, v.assets[i]))
  {
    var s := Run(device, actions);
    RunKeeps(System(EMPTY, device, Idle), actions);
    var a := StartReconcile(v, true);
    var t := Step(s, a);
    if t.job.Idle? {
      more := [a];
      RunFirst(s, more);
    } else {
      var rest := HealthyFinishes(t, v);
      more := [a] + rest;
      RunFirst(s, more);
      assert more[1..] == rest;
    }
    RunKeeps(s, more);
    var u := RunFrom(s, more);
    assert ReadyOk(u.m, v.pluginId);
    forall i | 0 <= i < |v.assets| ensures OnDevice(u.device, DevicePath(v.pluginId, v.assets[i])) {
      assert Claims(u.m.observed[v.pluginId], DevicePath(v.pluginId, v.assets[i]));
    }
  }

  // ---------------------------------------------------------------- the reconciler object

  lemma InvalidateNone(m: Memory)
    ensures InvalidateSome(m, {}) == m.(epoch := m.epoch + 1)
  {
    var n := InvalidateSome(m, {});
    assert n.states == m.states && n.fingerprints == m.fingerprints && n.observed == m.observed;
  }

  lemma InvalidateNext(m: Memory, visited: set<string>, p: string)
    requires p in m.states && p !in visited
    ensures
      var was, now := InvalidateSome(m, visited), InvalidateSome(m, visited + {p});
      && Tracked(was, p) == Tracked(m, p)
      && now == if !Tracked(m, p) then was else
           was.(states := was.states[p := Pending], fingerprints := was.fingerprints - {p},
                observed := if p in was.observed then was.observed[p := Blank(was.observed[p])] else was.observed)
  {
    var was, now := InvalidateSome(m, visited), InvalidateSome(m, visited + {p});
    assert ObservedOf(was, p) == ObservedOf(m, p);
    assert (set q | q in visited + {p} && Tracked(m, q)) ==
      (set q | q in visited && Tracked(m, q)) + (if Tracked(m, p) then {p} else {});
  }

  /** The cache itself: each method is one lock-held region, the maps updated in place. */
  class Reconciler {
    var states: map<string, Phase>
    var paths: map<string, map<string, Path>>
    var fingerprints: map<string, Package>
    var observed: map<string, Observed>
    var connectionEpoch: nat

    function View(): Memory reads this { Memory(states, paths, fingerprints, observed, connectionEpoch) }

    constructor ()
      ensures View() == EMPTY
    {
      states, paths, fingerprints, observed, connectionEpoch := map[], map[], map[], map[], 0;
    }

    method SetState(epoch: nat, pluginId: string)
      modifies this
      ensures View() == Apply(old(View()), epoch, pluginId, SetInvalid)
    {
      if connectionEpoch != epoch { return; }
      states := states[pluginId := Error];
      paths := paths - {pluginId};
    }

    method PendingObserved(epoch: nat, pluginId: string, kept: Observed)
      modifies this
      ensures View() == Apply(old(View()), epoch, pluginId, HoldObserved(kept))
    {
      if connectionEpoch != epoch { return; }
      states := states[pluginId := Pending];
      observed := observed[pluginId := kept];
    }

    method CommitState(epoch: nat, v: Package, phase: Phase, resolved: map<string, Path>, verified: Option<Observed>)
      modifies this
      ensures View() == Apply(old(View()), epoch, v.pluginId, Commit(phase, resolved, verified, v))
    {
      if connectionEpoch != epoch { return; }
      states := states[v.pluginId := phase];
      if resolved == map[] { paths := paths - {v.pluginId}; } else { paths := paths[v.pluginId := resolved]; }
      if verified.None? {
        observed := observed - {v.pluginId};
      } else {
        observed := observed[v.pluginId := verified.value];
      }
      fingerprints := fingerprints[v.pluginId := v];
    }

    /** Visits the plugins one by one, in any order. */
    method Invalidate()
      modifies this
      ensures View() == InvalidateConnection(old(View()))
    {
      hide InvalidateSome;
      hide Blank;
      ghost var was, all := View(), states.Keys;
      connectionEpoch := connectionEpoch + 1;
      var left := states.Keys;
      assert all - left == {};
      InvalidateNone(was);
      while left != {}
        invariant left <= all
        invariant View() == InvalidateSome(was, all - left)
        decreases left
      {
        var p :| p in left;
        ghost var visited := all - left;
        InvalidateNext(was, visited, p);
        left := left - {p};
        assert all - left == visited + {p};
        assert (p in paths && paths[p] != map[]) || (p in observed && observed[p] != map[]) <==> Tracked(View(), p);
        if (p in paths && paths[p] != map[]) || (p in observed && observed[p] != map[]) {
          states := states[p := Pending];
          fingerprints := fingerprints - {p};
          if p in observed { observed := observed[p := Blank(observed[p])]; }
        }
      }
      assert all - left == all;
    }
  }
}
