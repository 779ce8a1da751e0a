/** What Save and Reset do to the checkpoints on disk (internal/checkpoint/store.go), exactly when they do it,
    at any point of any run. */
module CheckpointEffects {
  import opened CheckpointStore

  /** A save replaces exactly its own checkpoint, if the key and the data are admissible, the inventory is known
      or can be read, the file is written, and the data fits beside the other checkpoints; else the disk keeps
      its checkpoints as they are. */
  lemma SaveEffect(files: Files, actions: seq<Action>, a: Action)
    requires a.Save? && Run(files, actions).initialized
    ensures var s, s' := Run(files, actions), Step(Run(files, actions), a);
      var others := Total(s.records - {a.key});
      var done := ValidKey(a.key) && a.valid && |a.data| <= 0x1_0000 && a.rootOk && a.committed
        && others + |a.data| <= 0x100_0000;
      && OnDisk(s'.files) == (if done then OnDisk(s.files)[a.key := a.data] else OnDisk(s.files))
      && s'.records == (if done then s.records[a.key := a.data] else s.records) && s'.initialized
  {
    var s := Run(files, actions);
    RunKeeps(files, actions);
    hide Run;
    SavedTotal(s.records, a.key);
    if ValidKey(a.key) && a.valid && |a.data| <= MAX_DATA_BYTES && a.rootOk {
      if a.committed { SavedOnDisk(s.files, a.key, a.data); } else { TempOnDisk(s.files, a.left); }
    }
    hide Total;
    hide OnDisk;
    hide Covers;
  }

  lemma SavedTotal(m: Records, key: Key)
    ensures Total(m) - (if key in m then |m[key]| else 0) == Total(m - {key})
  {
    if key in m { TotalRemove(m, key); } else { assert m - {key} == m; }
  }

  /** A reset removes exactly its own checkpoint, if the key is valid and the file can be removed, whether or not
      the inventory is known; a load then finds nothing. */
  lemma ResetEffect(files: Files, actions: seq<Action>, a: Action)
    requires a.Reset?
    ensures var s, s' := Run(files, actions), Step(Run(files, actions), a);
      var done := ValidKey(a.key) && a.rootOk && KeyFile(a.key) in a.remove.removable;
      && OnDisk(s'.files) == (if done then OnDisk(s.files) - {a.key} else OnDisk(s.files))
      && s'.initialized == s.initialized
      && (s.initialized ==>
            s'.records == if done && a.readable && KeyFile(a.key) in s.files then s.records - {a.key} else s.records)
  {
    var s := Run(files, actions);
    RunKeeps(files, actions);
    hide Run;
    ResetOnDisk(s.files, a.key);
    OnDiskHas(s.files, a.key);
    assert s.initialized && KeyFile(a.key) in s.files ==> Proper(s.files, KeyFile(a.key));
    assert KeyFile(a.key) !in s.files ==> OnDisk(s.files) - {a.key} == OnDisk(s.files);
    hide StoreInv;
    hide Total;
    hide OnDisk;
  }
}
