/** What a reconciliation, a withdrawal, a garbage collection and a reconnection leave behind
    (internal/assets/reconciler.go): on the device, and in every part of the cache. */
module AssetEffects {
  import opened AssetReadiness

  // ---------------------------------------------------------------- withdrawals

  /** A device without the given files and otherwise the same. */
  ghost predicate WithoutFiles(device: map<Path, Blob>, device': map<Path, Blob>, gone: set<Path>) {
    device'.Keys == device.Keys - gone && forall path :: path in device' ==> device'[path] == device[path]
  }

  /** The cache once a plugin's files are withdrawn for package w: nothing observed, nothing to resolve. */
  ghost predicate Withdrawn(m: Memory, m': Memory, w: Package) {
    var p := w.pluginId;
    && m'.states == m.states[p := if w.enabled then Ready else Absent] && m'.fingerprints == m.fingerprints[p := w]
    && m'.paths == m.paths - {p} && ObservedOf(m', p) == map[] && m'.epoch == m.epoch
    && (p in m'.observed <==> w.enabled)
    && forall q :: q != p ==> (q in m'.observed <==> q in m.observed) && ObservedOf(m', q) == ObservedOf(m, q)
  }

  lemma WithdrawnCommits(s: System, w: Package)
    requires s.job == Withdraw(s.m.epoch, w, map[])
    ensures var t := Step(s, Finish); Withdrawn(s.m, t.m, w) && t.device == s.device && t.job.Idle?
  {
  }

  lemma RemovalStep(s: System, w: Package, path: Path)
    requires s.job.Withdrawing? && s.job == Withdrawing(s.m.epoch, w, s.job.observed) && path in s.job.observed
    ensures var t := Step(s, RemoveFile(path, true));
      && t == System(s.m, s.device - {path}, Withdraw(s.m.epoch, w, s.job.observed - {path}))
      && |s.job.observed - {path}| + 1 == |s.job.observed|
  {
    RemovalShrinks(s.job.observed, path);
  }

  lemma OneFileLess(device: map<Path, Blob>, device': map<Path, Blob>, gone: set<Path>, path: Path)
    requires WithoutFiles(device - {path}, device', gone - {path}) && path in gone
    ensures WithoutFiles(device, device', gone)
  {
  }

  lemma {:induction false} WithdrawalFinishes(s: System, w: Package, observed: Observed) returns (more: seq<Action>)
    requires s.job == Withdraw(s.m.epoch, w, observed)
    ensures FaultFreeRun(s, more)
    ensures var t := RunFrom(s, more);
      Withdrawn(s.m, t.m, w) && t.job.Idle? && WithoutFiles(s.device, t.device, observed.Keys)
    decreases |observed|
  {
    hide Withdrawn;
    hide WithoutFiles;
    if observed != map[] {
      var path :| path in observed;
      var a := RemoveFile(path, true);
      RemovalStep(s, w, path);
      hide Step;
      var rest := WithdrawalFinishes(Step(s, a), w, observed - {path});
      more := [a] + rest;
      RunFirst(s, more);
      assert more[1..] == rest;
      assert (observed - {path}).Keys == observed.Keys - {path};
      OneFileLess(s.device, RunFrom(s, more).device, observed.Keys, path);
    } else {
      more := [Finish];
      RunFirst(s, more);
      WithdrawnCommits(s, w);
      hide Step;
      assert more[1..] == [] && RunFrom(s, more) == Step(s, Finish);
      NothingLess(s.device);
      assert observed.Keys == {};
    }
  }

  lemma NothingLess(device: map<Path, Blob>)
    ensures WithoutFiles(device, device, {})
  {
  }

  /** From every reachable idle state, reconciling a disabled or assetless package can finish without faults, and
      then every file known of the plugin is off the device, every other file is untouched, and the cache knows
      nothing of the plugin's files any more. */
  lemma FaultFreeWithdrawal(device: map<Path, Blob>, actions: seq<Action>, w: Package) returns (more: seq<Action>)
    requires var s := Run(device, actions);
      && s.job.Idle? && ValidAssets(w) && Withdraws(w)
      && !(w.pluginId in s.m.fingerprints && s.m.fingerprints[w.pluginId] == w && w.pluginId in s.m.states
           && s.m.states[w.pluginId] == if w.enabled then Ready else Absent)
    ensures var s := Run(device, actions);
      var t := RunFrom(s, more);
      && more != [] && more[0] == StartReconcile(w, true) && FaultFreeRun(s, more) && t.job.Idle?
      && Withdrawn(s.m, t.m, w) && WithoutFiles(s.device, t.device, ObservedOf(s.m, w.pluginId).Keys)
  {
    hide ValidAssets;
    hide Withdrawn;
    var s, a := Run(device, actions), StartReconcile(w, true);
    var t := Step(s, a);
    assert t == s.(job := Withdraw(s.m.epoch, w, ObservedOf(s.m, w.pluginId)));
    hide Step;
    var rest := WithdrawalFinishes(t, w, ObservedOf(s.m, w.pluginId));
    more := [a] + rest;
    RunFirst(s, more);
    assert more[1..] == rest;
  }

  // ---------------------------------------------------------------- garbage collection

  /** Files known of the plugin that the package does not want. */
  function Obsolete(v: Package, o: Observed): set<Path> { set path | path in o && !Wanted(v, path) }

  lemma CollectStep(s: System, v: Package, path: Path)
    requires s.job.Collecting? && s.job == Collecting(s.m.epoch, v, ObservedOf(s.m, v.pluginId))
    requires path in Obsolete(v, s.job.observed)
    ensures var t := Step(Step(s, RemoveFile(path, true)), Record);
      var o := s.job.observed - {path};
      && t == System(s.m.(observed := s.m.observed[v.pluginId := o]), s.device - {path},
                     Collecting(s.m.epoch, v, ObservedOf(t.m, v.pluginId)))
      && ObservedOf(t.m, v.pluginId) == o && Obsolete(v, o) == Obsolete(v, s.job.observed) - {path}
  {
    hide Wanted;
    var t1 := Step(s, RemoveFile(path, true));
    assert t1 == System(s.m, s.device - {path}, Recording(s.m.epoch, v, s.job.observed - {path}, false));
  }

  /** The cache after a collection: only the wanted files of the plugin are still observed. */
  ghost predicate Collected(m: Memory, m': Memory, v: Package) {
    var p := v.pluginId;
    && m' == m.(observed := m'.observed)
    && ObservedOf(m', p).Keys == ObservedOf(m, p).Keys - Obsolete(v, ObservedOf(m, p))
    && (forall path :: path in ObservedOf(m', p) ==> ObservedOf(m', p)[path] == ObservedOf(m, p)[path])
    && forall q :: q != p ==> (q in m'.observed <==> q in m.observed) && ObservedOf(m', q) == ObservedOf(m, q)
  }

  lemma CollectedThen(m: Memory, m1: Memory, m': Memory, v: Package, path: Path)
    requires path in Obsolete(v, ObservedOf(m, v.pluginId))
    requires m1 == m.(observed := m.observed[v.pluginId := ObservedOf(m, v.pluginId) - {path}]) && Collected(m1, m', v)
    ensures Collected(m, m', v)
  {
    hide Wanted;
  }

  lemma CollectedAlready(m: Memory, v: Package)
    requires Obsolete(v, ObservedOf(m, v.pluginId)) == {}
    ensures Collected(m, m, v)
  {
  }

  lemma {:induction false} CollectionFinishes(s: System, v: Package) returns (more: seq<Action>)
    requires s.job.Collecting? && s.job == Collecting(s.m.epoch, v, ObservedOf(s.m, v.pluginId))
    ensures FaultFreeRun(s, more)
    ensures var t := RunFrom(s, more);
      && Collected(s.m, t.m, v) && t.job.Idle? && WithoutFiles(s.device, t.device, Obsolete(v, s.job.observed))
    decreases |Obsolete(v, s.job.observed)|
  {
    hide Collected;
    hide WithoutFiles;
    if path :| path in Obsolete(v, s.job.observed) {
      var a := RemoveFile(path, true);
      CollectStep(s, v, path);
      hide Step;
      hide Obsolete;
      var t := Step(Step(s, a), Record);
      var rest := CollectionFinishes(t, v);
      more := [a] + ([Record] + rest);
      RunFirst(s, more);
      assert more[1..] == [Record] + rest;
      RunFirst(Step(s, a), [Record] + rest);
      assert ([Record] + rest)[1..] == rest;
      OneFileLess(s.device, RunFrom(s, more).device, Obsolete(v, s.job.observed), path);
      CollectedThen(s.m, t.m, RunFrom(s, more).m, v, path);
    } else {
      more := [StopCollect];
      RunFirst(s, more);
      assert more[1..] == [] && RunFrom(s, more) == s.(job := Idle);
      NothingLess(s.device);
      CollectedAlready(s.m, v);
    }
  }

  /** From every reachable idle state a collection for a ready package with assets can finish without faults: the
      plugin's files the package does not want are off the device and out of the cache, all others are untouched,
      and the package is still ready. */
  lemma FaultFreeCollection(device: map<Path, Blob>, actions: seq<Action>, v: Package) returns (more: seq<Action>)
    requires Run(device, actions).job.Idle? && v.enabled && v.assets != [] && ReadyFor(Run(device, actions).m, v)
    ensures var s := Run(device, actions);
      var t := RunFrom(s, more);
      && more != [] && more[0] == StartCollect(v) && FaultFreeRun(s, more) && t.job.Idle? && ReadyFor(t.m, v)
      && Collected(s.m, t.m, v) && WithoutFiles(s.device, t.device, Obsolete(v, ObservedOf(s.m, v.pluginId)))
  {
    hide Wanted;
    hide WithoutFiles;
    var s := Run(device, actions);
    var s1 := Step(s, StartCollect(v));
    var s2 := Step(s1, ReadInventory);
    assert s1 == s.(job := CollectStarted(v));
    assert s2 == s.(job := Collecting(s.m.epoch, v, ObservedOf(s.m, v.pluginId)));
    hide Step;
    var rest := CollectionFinishes(s2, v);
    more := [StartCollect(v)] + ([ReadInventory] + rest);
    RunFirst(s, more);
    assert more[1..] == [ReadInventory] + rest;
    RunFirst(s1, [ReadInventory] + rest);
    assert ([ReadInventory] + rest)[1..] == rest;
  }

  // ---------------------------------------------------------------- what a failure keeps

  /** Only this plugin's phase and observed files changed. */
  ghost predicate Held(m: Memory, m': Memory, p: string, phase: Phase, o: Option<Observed>) {
    m' == m.(states := m.states[p := phase], observed := if o.Some? then m.observed[p := o.value] else m.observed)
  }

  /** A failing step of a reconciliation, and what its result is: a local file that does not verify is an error,
      an upload, a read-back after it or a removal that fails leaves the plugin pending with the files verified
      and not yet removed so far. Without a reconnection nothing else is touched. */
  lemma FailureEffect(s: System, a: Action)
    requires (s.job.Verifying? && s.job.next < |s.job.value.assets|) || s.job.Withdrawing?
    requires s.job.epoch == s.m.epoch
    ensures var m' := Step(Step(s, a), Finish).m;
      var p := s.job.value.pluginId;
      && (s.job.Verifying? && s.job.stage == Local && a == CheckLocal(false) ==> Held(s.m, m', p, Error, None))
      && (s.job.Verifying? && s.job.stage == Upload && a.UploadFile? && !a.ok ==>
            Held(s.m, m', p, Pending, Some(s.job.observed)))
      && (s.job.Verifying? && s.job.stage == Confirm && a == ReadBack(false) ==>
            Held(s.m, m', p, Pending, Some(s.job.observed)))
      && (s.job.Withdrawing? && a.RemoveFile? && !a.ok && a.path in s.job.observed ==>
            Held(s.m, m', p, Pending, Some(s.job.observed)) && Step(Step(s, a), Finish).device == s.device)
  {
    hide ValidAssets;
    hide Resolved;
    hide Wanted;
  }

  /** An invalid package is an error with nothing to resolve; what is known of its files stays. */
  lemma InvalidPackageEffect(s: System, v: Package, accepted: bool)
    requires s.job.Idle? && (!accepted || !ValidAssets(v))
    ensures var t := Step(Step(s, StartReconcile(v, accepted)), Finish);
      t == s.(m := s.m.(states := s.m.states[v.pluginId := Error], paths := s.m.paths - {v.pluginId}))
  {
    hide ValidAssets;
  }

  /** Reconciling a package whose result is already known asks nothing of the device and changes nothing. */
  lemma SettledPackageEffect(s: System, v: Package)
    requires s.job.Idle? && ValidAssets(v) && v.pluginId in s.m.states && v.pluginId in s.m.fingerprints
    requires s.m.fingerprints[v.pluginId] == v && s.m.states[v.pluginId] == if v.enabled then Ready else Absent
    ensures Step(s, StartReconcile(v, true)) == s
  {
    hide ValidAssets;
  }

  /** An asset whose digest is recorded is not read back or uploaded again; one that is not is read back first
      and uploaded only if the device does not hold it. */
  lemma VerifiesOnce(s: System)
    requires s.job.Verifying? && s.job.next < |s.job.value.assets| && s.job.stage == Local
    ensures var v, asset, t := s.job.value, s.job.value.assets[s.job.next], Step(s, CheckLocal(true));
      var path := DevicePath(v.pluginId, asset);
      && t == s.(job := t.job)
      && (if path in s.job.observed && s.job.observed[path] == asset.sha256
          then t.job == Advance(s.job.epoch, v, s.job.observed, s.job.next)
          else
            && t.job == s.job.(stage := Probe)
            && Step(t, ReadBack(true)) == s.(job :=
              if path in s.device && s.device[path] == Blob(asset.sha256, asset.size)
              then Advance(s.job.epoch, v, s.job.observed[path := asset.sha256], s.job.next)
              else s.job.(stage := Upload)))
  {
    hide ValidAssets;
    hide Resolved;
  }

  /** A reconnection makes exactly the plugins with known files or paths pending, forgets their fingerprints and
      blanks their digests; other plugins keep everything. */
  lemma ReconnectEffect(s: System, device: map<Path, Blob>, p: string)
    ensures var m, m' := s.m, Step(s, Reconnect(device)).m;
      var known := (p in m.paths && m.paths[p] != map[]) || (p in m.observed && m.observed[p] != map[]);
      && m'.epoch == m.epoch + 1 && m'.paths == m.paths
      && (p in m'.states <==> p in m.states) && (p in m'.observed <==> p in m.observed)
      && (p in m.states ==>
            && m'.states[p] == (if known then Pending else m.states[p])
            && (p in m'.fingerprints <==> p in m.fingerprints && !known)
            && (p in m.observed && known ==>
                  && m'.observed[p].Keys == m.observed[p].Keys
                  && forall path :: path in m'.observed[p] ==> m'.observed[p][path] == "")
            && (p in m.observed && !known ==> m'.observed[p] == m.observed[p]))
      && (p in m'.fingerprints ==> p in m.fingerprints && m'.fingerprints[p] == m.fingerprints[p])
  {
  }
}
