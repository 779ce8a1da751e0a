/** The checkpoint store and its directory (internal/checkpoint/store.go).

    The directory is a map from file names to contents; a file name derived from a key is collision-free
    and only the store writes the directory. Every I/O step may fail. */
module CheckpointStore {

  datatype Option<T> = None | Some(value: T)

  datatype Key = Key(pluginId: string, instanceId: string, generation: nat)

  /** A checkpoint's own file, a leftover temporary file, or any other `.json` file. */
  datatype Name = KeyFile(key: Key) | Temp(id: nat) | Foreign(id: nat)

  datatype Content = Envelope(key: Key, data: string) | Corrupt

  type Files = map<Name, Content>

  type Records = map<Key, string>

  const MAX_DATA_BYTES := 0x1_0000
  const MAX_AGGREGATE_DATA_BYTES := 0x100_0000

  predicate ValidKey(key: Key) { key.pluginId != "" && key.instanceId != "" && key.generation != 0 }

  // ---------------------------------------------------------------- total size

  ghost function Total(m: Records): nat {
    if m == map[] then 0 else var k :| k in m; |m[k]| + Total(m - {k})
  }

  lemma {:induction false} TotalRemove(m: Records, k: Key)
    requires k in m
    ensures Total(m) == |m[k]| + Total(m - {k})
    decreases |m|
  {
    var c :| c in m && Total(m) == |m[c]| + Total(m - {c});
    if c != k {
      assert |m - {c}| < |m| && |m - {k}| < |m| by {
        assert (m - {c}).Keys == m.Keys - {c} && (m - {k}).Keys == m.Keys - {k};
      }
      TotalRemove(m - {c}, k);
      TotalRemove(m - {k}, c);
      assert m - {c} - {k} == m - {k} - {c};
    }
  }

  lemma TotalUpdate(m: Records, k: Key, data: string)
    ensures Total(m[k := data]) == |data| + Total(m - {k})
  {
    TotalRemove(m[k := data], k);
    assert m[k := data] - {k} == m - {k};
  }

  ghost predicate Within(small: Records, large: Records) {
    forall k :: k in small ==> k in large && large[k] == small[k]
  }

  lemma {:induction false} TotalWithin(small: Records, large: Records)
    requires Within(small, large)
    ensures Total(small) <= Total(large)
    decreases |small|
  {
    if small != map[] {
      var k :| k in small;
      TotalRemove(small, k);
      TotalRemove(large, k);
      assert (small - {k}).Keys == small.Keys - {k};
      TotalWithin(small - {k}, large - {k});
    }
  }

  // ---------------------------------------------------------------- scanning the directory

  /** A checkpoint file as the store writes it. */
  predicate Proper(files: Files, name: Name) {
    name in files && name.KeyFile? && files[name].Envelope? && files[name].key == name.key
  }

  /** What a scan of these entries keeps, and what it wants removed. */
  datatype Scan = Scan(records: Records, cleanup: set<Name>, total: nat)

  function ScanOne(files: Files, found: Scan, name: Name): Scan {
    if !Proper(files, name) then found.(cleanup := found.cleanup + {name})
    else if found.total > MAX_AGGREGATE_DATA_BYTES - |files[name].data| then found.(cleanup := found.cleanup + {name})
    else Scan(found.records[name.key := files[name].data], found.cleanup, found.total + |files[name].data|)
  }

  function ScanEntries(files: Files, entries: seq<Name>): Scan {
    if entries == [] then Scan(map[], {}, 0)
    else ScanOne(files, ScanEntries(files, entries[..|entries| - 1]), entries[|entries| - 1])
  }

  /** The directory listing: every file once. */
  ghost predicate Lists(entries: seq<Name>, files: Files) {
    && (forall i :: 0 <= i < |entries| ==> entries[i] in files)
    && (forall name :: name in files ==> name in entries)
    && (forall i, j :: 0 <= i < j < |entries| ==> entries[i] != entries[j])
  }

  // ---------------------------------------------------------------- the store

  datatype Store = Store(files: Files, records: Records, initialized: bool, count: int, bytes: int)

  /** How a batch of removals goes: which files go before one fails, and the directory sync. */
  datatype RemoveIo = RemoveIo(removable: set<Name>, synced: bool)

  /** How a scan goes: the listing, whether every file could be read, and the cleanup. */
  datatype ScanIo = ScanIo(entries: seq<Name>, readable: bool, cleanup: RemoveIo)

  datatype Action =
    | Save(key: Key, data: string, valid: bool, rootOk: bool, scan: ScanIo, committed: bool, left: Option<nat>)
    | Load(key: Key, rootOk: bool, scan: ScanIo, readable: bool, remove: RemoveIo)
    | Reset(key: Key, rootOk: bool, readable: bool, remove: RemoveIo)
    | Reconcile(active: seq<Key>, rootOk: bool, scan: ScanIo, remove: RemoveIo)
    | Restart

  function Gone(names: set<Name>, io: RemoveIo): set<Name> { names * io.removable }

  predicate RemoveOk(names: set<Name>, io: RemoveIo) { names <= io.removable && (names == {} || io.synced) }

  /** scanLocked, and whether it succeeded. */
  ghost function ScanStore(s: Store, io: ScanIo): (Store, bool) {
    if !Lists(io.entries, s.files) || !io.readable then (s, false) else
    var found := ScanEntries(s.files, io.entries);
    (Store(s.files - Gone(found.cleanup, io.cleanup), found.records, RemoveOk(found.cleanup, io.cleanup),
      |found.records|, found.total),
     RemoveOk(found.cleanup, io.cleanup))
  }

  ghost function Inventory(s: Store, io: ScanIo): (Store, bool) {
    if s.initialized then (s, true) else ScanStore(s, io)
  }

  /** An uncommitted replacement may leave its temporary file behind. */
  function LeaveTemp(files: Files, left: Option<nat>): Files {
    if left.Some? && Temp(left.value) !in files then files[Temp(left.value) := Corrupt] else files
  }

  ghost function SaveRecord(s: Store, key: Key, data: string, committed: bool, left: Option<nat>): Store {
    var total := Total(s.records) - if key in s.records then |s.records[key]| else 0;
    if total > MAX_AGGREGATE_DATA_BYTES - |data| then s
    else if !committed then s.(files := LeaveTemp(s.files, left))
    else Store(s.files[KeyFile(key) := Envelope(key, data)], s.records[key := data], s.initialized,
               s.count + (if key in s.records then 0 else 1), total + |data|)
  }

  function Max0(x: int): int { if x < 0 then 0 else x }

  /** Load's effect on the store, and what it returns; a corrupt file is removed. */
  function LoadRecord(s: Store, key: Key, readable: bool, remove: RemoveIo): (Store, Option<string>) {
    var name := KeyFile(key);
    if key !in s.records || name !in s.files || !readable then (s, None)
    else if Proper(s.files, name)
    then (s.(records := s.records[key := s.files[name].data]), Some(s.files[name].data))
    else if name !in remove.removable then (s, None)
    else (Store(s.files - {name}, s.records - {key}, s.initialized, Max0(s.count - 1),
      Max0(s.bytes - |s.records[key]|)), None)
  }

  function ResetRecord(s: Store, key: Key, readable: bool, remove: RemoveIo): Store {
    var name := KeyFile(key);
    if name !in s.files || name !in remove.removable then s else
    var removed := s.(files := s.files - {name});
    if !readable || !Proper(s.files, name) then removed
    else removed.(records := if s.initialized then s.records - {key} else s.records,
                  count := Max0(s.count - 1), bytes := Max0(s.bytes - |s.files[name].data|))
  }

  function Inactive(records: Records, active: seq<Key>): set<Name> {
    set key | key in records && key !in active :: KeyFile(key)
  }

  ghost function ReconcileRecords(s: Store, active: seq<Key>, remove: RemoveIo): Store {
    var gone := Gone(Inactive(s.records, active), remove);
    var kept := map key | key in s.records && KeyFile(key) !in gone :: s.records[key];
    Store(s.files - gone, kept, s.initialized, |kept|, Total(kept))
  }

  ghost function Step(s: Store, a: Action): Store {
    match a
    case Save(key, data, valid, rootOk, scan, committed, left) =>
      if !ValidKey(key) || !valid || |data| > MAX_DATA_BYTES || !rootOk then s else
      var (t, ok) := Inventory(s, scan);
      if ok then SaveRecord(t, key, data, committed, left) else t
    case Load(key, rootOk, scan, readable, remove) =>
      if !ValidKey(key) || !rootOk then s else
      var (t, ok) := Inventory(s, scan);
      if ok then LoadRecord(t, key, readable, remove).0 else t
    case Reset(key, rootOk, readable, remove) =>
      if !ValidKey(key) || !rootOk then s else ResetRecord(s, key, readable, remove)
    case Reconcile(active, rootOk, scan, remove) =>
      if (exists k :: k in active && !ValidKey(k)) || !rootOk then s else
      var (t, ok) := ScanStore(s, scan);
      if ok then ReconcileRecords(t, active, remove) else t
    case Restart => Store(s.files, map[], false, 0, 0)
  }

  ghost function Run(files: Files, actions: seq<Action>): Store {
    if actions == [] then Store(files, map[], false, 0, 0)
    else Step(Run(files, actions[..|actions| - 1]), actions[|actions| - 1])
  }

  // ---------------------------------------------------------------- invariant

  /** The checkpoints on disk. */
  ghost function OnDisk(files: Files): Records {
    map name | name in files && Proper(files, name) :: name.key := files[name].data
  }

  /** Only checkpoints as the store writes them, and temporary files; within the aggregate limit. */
  ghost predicate Clean(files: Files) {
    && (forall name :: name in files ==> name.Temp? || Proper(files, name))
    && Total(OnDisk(files)) <= MAX_AGGREGATE_DATA_BYTES
  }

  /** The inventory covers the directory; its counts are its own. */
  ghost predicate Covers(s: Store) {
    && Clean(s.files) && Within(OnDisk(s.files), s.records)
    && s.count == |s.records| && s.bytes == Total(s.records) <= MAX_AGGREGATE_DATA_BYTES
  }

  ghost predicate StoreInv(s: Store) { s.initialized ==> Covers(s) }

  /** The inventory is the directory. */
  ghost predicate Exact(s: Store) { s.initialized ==> s.records == OnDisk(s.files) }

  // ---------------------------------------------------------------- scanning

  ghost predicate ScanOk(files: Files, entries: seq<Name>, found: Scan) {
    && found.total == Total(found.records) <= MAX_AGGREGATE_DATA_BYTES
    && (forall k :: k in found.records ==>
         KeyFile(k) in entries && Proper(files, KeyFile(k)) && files[KeyFile(k)].data == found.records[k])
    && (forall name :: name in found.cleanup ==> name in entries && !(name.KeyFile? && name.key in found.records))
    && (forall name :: name in entries ==> name in found.cleanup || (Proper(files, name) && name.key in found.records))
  }

  lemma {:induction false} ScanEntriesOk(files: Files, entries: seq<Name>)
    requires forall i, j :: 0 <= i < j < |entries| ==> entries[i] != entries[j]
    ensures ScanOk(files, entries, ScanEntries(files, entries))
  {
    if entries != [] {
      var n := |entries| - 1;
      ScanEntriesOk(files, entries[..n]);
      var found, name := ScanEntries(files, entries[..n]), entries[n];
      assert entries == entries[..n] + [name];
      assert name !in entries[..n];
      if Proper(files, name) {
        TotalUpdate(found.records, name.key, files[name].data);
        assert name.key !in found.records;
        assert found.records - {name.key} == found.records;
      }
    }
  }

  /** A directory the store already keeps loses nothing but temporary files. */
  lemma {:induction false} ScanKeepsAll(files: Files, entries: seq<Name>)
    requires Clean(files)
    requires forall i, j :: 0 <= i < j < |entries| ==> entries[i] != entries[j]
    requires forall name :: name in entries ==> name in files
    ensures forall name :: name in ScanEntries(files, entries).cleanup ==> name.Temp?
  {
    if entries != [] {
      var n := |entries| - 1;
      ScanKeepsAll(files, entries[..n]);
      ScanEntriesOk(files, entries[..n]);
      var found, name := ScanEntries(files, entries[..n]), entries[n];
      assert name in entries;
      if Proper(files, name) {
        var more := found.records[name.key := files[name].data];
        TotalUpdate(found.records, name.key, files[name].data);
        assert found.records - {name.key} == found.records;
        TotalWithin(more, OnDisk(files));
      }
    }
  }

  lemma OnDiskHas(files: Files, key: Key)
    ensures key in OnDisk(files) <==> Proper(files, KeyFile(key))
    ensures key in OnDisk(files) ==> OnDisk(files)[key] == files[KeyFile(key)].data
  {
    assert Proper(files, KeyFile(key)) ==> KeyFile(key).key == key;
  }

  lemma SameOnDisk(before: Files, after: Files)
    requires forall key :: Proper(before, KeyFile(key)) <==> Proper(after, KeyFile(key))
    requires forall key :: Proper(before, KeyFile(key)) && Proper(after, KeyFile(key)) ==>
      before[KeyFile(key)] == after[KeyFile(key)]
    ensures OnDisk(before) == OnDisk(after)
  {
    forall key ensures key in OnDisk(before) <==> key in OnDisk(after)
      ensures key in OnDisk(before) ==> OnDisk(before)[key] == OnDisk(after)[key]
    {
      OnDiskHas(before, key);
      OnDiskHas(after, key);
    }
  }

  lemma RemovedFromDisk(files: Files, names: set<Name>)
    ensures OnDisk(files - names) == map key | key in OnDisk(files) && KeyFile(key) !in names :: OnDisk(files)[key]
    ensures Clean(files) ==> Clean(files - names)
  {
    var left := map key | key in OnDisk(files) && KeyFile(key) !in names :: OnDisk(files)[key];
    forall key ensures key in OnDisk(files - names) <==> key in left
      ensures key in left ==> OnDisk(files - names)[key] == left[key]
    {
      OnDiskHas(files, key);
      OnDiskHas(files - names, key);
    }
    TotalWithin(OnDisk(files - names), OnDisk(files));
  }

  lemma ScanFound(files: Files, entries: seq<Name>, found: Scan, after: Files)
    requires Lists(entries, files) && ScanOk(files, entries, found) && after == files - found.cleanup
    ensures OnDisk(after) == found.records && Clean(after)
  {
    forall key ensures key in OnDisk(after) <==> key in found.records
      ensures key in found.records ==> OnDisk(after)[key] == found.records[key]
    {
      OnDiskHas(after, key);
    }
  }

  lemma ScanSucceeds(s: Store, io: ScanIo)
    requires ScanStore(s, io).1
    ensures var t := ScanStore(s, io).0; t.initialized && Covers(t) && Exact(t)
  {
    var found := ScanEntries(s.files, io.entries);
    ScanEntriesOk(s.files, io.entries);
    hide ScanEntries;
    hide OnDisk;
    assert Gone(found.cleanup, io.cleanup) == found.cleanup;
    ScanFound(s.files, io.entries, found, s.files - found.cleanup);
    hide Clean;
    hide Lists;
    hide Total;
    assert ScanStore(s, io).0 == Store(s.files - found.cleanup, found.records, true, |found.records|, found.total);
  }

  lemma ScanIsClean(s: Store, io: ScanIo)
    requires Clean(s.files)
    ensures var t := ScanStore(s, io).0; Clean(t.files) && OnDisk(t.files) == OnDisk(s.files)
  {
    hide OnDisk;
    hide Clean;
    hide ScanEntries;
    if Lists(io.entries, s.files) && io.readable {
      ScanLosesNothing(s.files, io.entries, Gone(ScanEntries(s.files, io.entries).cleanup, io.cleanup));
    }
  }

  /** A successful scan leaves the inventory exact; any scan of a clean directory loses nothing. */
  lemma ScanStoreOk(s: Store, io: ScanIo)
    ensures var (t, ok) := ScanStore(s, io); ok ==> t.initialized && Covers(t) && Exact(t)
    ensures var (t, ok) := ScanStore(s, io); !ok ==> t == s || !t.initialized
    ensures var (t, ok) := ScanStore(s, io); Clean(s.files) ==> Clean(t.files) && OnDisk(t.files) == OnDisk(s.files)
  {
    if ScanStore(s, io).1 { ScanSucceeds(s, io); }
    if Clean(s.files) { ScanIsClean(s, io); }
    hide OnDisk;
    hide Clean;
    hide Covers;
    hide Exact;
  }

  lemma ScanLosesNothing(files: Files, entries: seq<Name>, gone: set<Name>)
    requires Clean(files) && Lists(entries, files) && gone <= ScanEntries(files, entries).cleanup
    ensures Clean(files - gone) && OnDisk(files - gone) == OnDisk(files)
  {
    ScanKeepsAll(files, entries);
    RemovedFromDisk(files, gone);
    SameOnDisk(files, files - gone);
  }

  lemma InventoryOk(s: Store, io: ScanIo)
    requires StoreInv(s)
    ensures var (t, ok) := Inventory(s, io); StoreInv(t) && (ok ==> t.initialized) && (Exact(s) ==> Exact(t))
    ensures var (t, ok) := Inventory(s, io); Clean(s.files) ==> Clean(t.files) && OnDisk(t.files) == OnDisk(s.files)
  {
    ScanStoreOk(s, io);
  }

  // ---------------------------------------------------------------- every operation keeps the invariant

  lemma SavedOnDisk(files: Files, key: Key, data: string)
    ensures OnDisk(files[KeyFile(key) := Envelope(key, data)]) == OnDisk(files)[key := data]
  {
    var after := files[KeyFile(key) := Envelope(key, data)];
    forall k ensures k in OnDisk(after) <==> k in OnDisk(files)[key := data]
      ensures k in OnDisk(after) ==> OnDisk(after)[k] == OnDisk(files)[key := data][k]
    {
      OnDiskHas(files, k);
      OnDiskHas(after, k);
    }
  }

  lemma TempOnDisk(files: Files, left: Option<nat>)
    ensures OnDisk(LeaveTemp(files, left)) == OnDisk(files) && (Clean(files) ==> Clean(LeaveTemp(files, left)))
  {
    SameOnDisk(files, LeaveTemp(files, left));
  }

  lemma RecordMore(m: Records, key: Key, data: string)
    ensures |m[key := data]| == |m| + if key in m then 0 else 1
    ensures Total(m[key := data]) == Total(m) - (if key in m then |m[key]| else 0) + |data|
  {
    assert m[key := data].Keys == m.Keys + {key};
    TotalUpdate(m, key, data);
    if key in m { TotalRemove(m, key); } else { assert m - {key} == m; }
  }

  lemma CommitKeeps(s: Store, key: Key, data: string)
    requires Covers(s)
    requires Total(s.records) - (if key in s.records then |s.records[key]| else 0) + |data| <= MAX_AGGREGATE_DATA_BYTES
    ensures var t := SaveRecord(s, key, data, true, None);
      Covers(t) && OnDisk(t.files) == OnDisk(s.files)[key := data] && t.records == s.records[key := data]
  {
    hide OnDisk;
    hide Total;
    var t := SaveRecord(s, key, data, true, None);
    SavedOnDisk(s.files, key, data);
    RecordMore(s.records, key, data);
    assert Within(OnDisk(t.files), t.records);
    TotalWithin(OnDisk(t.files), t.records);
    hide Within;
  }

  lemma SaveKeeps(s: Store, key: Key, data: string, committed: bool, left: Option<nat>)
    requires s.initialized && Covers(s)
    ensures var t := SaveRecord(s, key, data, committed, left);
      && t.initialized && Covers(t) && (Exact(s) ==> Exact(t))
      && (OnDisk(t.files) == OnDisk(s.files) || OnDisk(t.files) == OnDisk(s.files)[key := data])
  {
    hide OnDisk;
    hide Total;
    var total := Total(s.records) - if key in s.records then |s.records[key]| else 0;
    if total <= MAX_AGGREGATE_DATA_BYTES - |data| {
      if committed { CommitKeeps(s, key, data); } else { TempOnDisk(s.files, left); }
    }
  }

  lemma LoadKeeps(s: Store, key: Key, readable: bool, remove: RemoveIo)
    requires s.initialized && Covers(s)
    ensures LoadRecord(s, key, readable, remove).0 == s
    ensures readable ==>
      LoadRecord(s, key, readable, remove).1 == if key in OnDisk(s.files) then Some(OnDisk(s.files)[key]) else None
  {
    OnDiskHas(s.files, key);
    assert key in OnDisk(s.files) ==> s.records[key := s.files[KeyFile(key)].data] == s.records;
  }

  /** The reset that loses track: the file is removed although it could not be read. */
  predicate Loses(s: Store, a: Action) {
    && a.Reset? && s.initialized && ValidKey(a.key) && a.rootOk
    && KeyFile(a.key) in s.files && !a.readable && KeyFile(a.key) in a.remove.removable
  }

  lemma ResetOnDisk(files: Files, key: Key)
    ensures OnDisk(files - {KeyFile(key)}) == OnDisk(files) - {key} && (Clean(files) ==> Clean(files - {KeyFile(key)}))
  {
    RemovedFromDisk(files, {KeyFile(key)});
  }

  lemma OneLess(m: Records, key: Key)
    requires key in m
    ensures |m - {key}| == |m| - 1
  {
    assert (m - {key}).Keys == m.Keys - {key};
  }

  lemma ResetCovers(s: Store, key: Key, readable: bool)
    requires s.initialized && Covers(s) && KeyFile(key) in s.files
    ensures var t := ResetRecord(s, key, readable, RemoveIo({KeyFile(key)}, true));
      && Covers(t) && t.files == s.files - {KeyFile(key)} && t.initialized && key in s.records
      && t.records == if readable then s.records - {key} else s.records
  {
    hide OnDisk;
    hide Total;
    assert Proper(s.files, KeyFile(key));
    ResetOnDisk(s.files, key);
    hide Clean;
    OnDiskHas(s.files, key);
    TotalRemove(s.records, key);
    OneLess(s.records, key);
    assert Within(OnDisk(s.files) - {key}, s.records - {key});
    assert Within(OnDisk(s.files) - {key}, s.records);
    hide Within;
  }

  lemma ResetKeeps(s: Store, key: Key, readable: bool, remove: RemoveIo)
    requires s.initialized && Covers(s)
    ensures var t := ResetRecord(s, key, readable, remove);
      t.initialized && Covers(t) && (t == s || OnDisk(t.files) == OnDisk(s.files) - {key})
    ensures var t := ResetRecord(s, key, readable, remove);
      Exact(s) ==> (Exact(t) <==> !(KeyFile(key) in s.files && !readable && KeyFile(key) in remove.removable))
  {
    hide OnDisk;
    if KeyFile(key) in s.files && KeyFile(key) in remove.removable {
      ResetCovers(s, key, readable);
      ResetOnDisk(s.files, key);
      assert ResetRecord(s, key, readable, remove) == ResetRecord(s, key, readable, RemoveIo({KeyFile(key)}, true));
      hide Covers;
    }
  }

  lemma ReconcileKeeps(s: Store, active: seq<Key>, remove: RemoveIo)
    requires s.initialized && Covers(s) && Exact(s)
    ensures var t := ReconcileRecords(s, active, remove);
      && t.initialized && Covers(t) && Exact(t)
      && (forall k :: k in OnDisk(s.files) && k in active ==>
           k in OnDisk(t.files) && OnDisk(t.files)[k] == OnDisk(s.files)[k])
      && (RemoveOk(Inactive(s.records, active), remove) ==> forall k :: k in OnDisk(t.files) ==> k in active)
  {
    var gone := Gone(Inactive(s.records, active), remove);
    RemovedFromDisk(s.files, gone);
    var t := ReconcileRecords(s, active, remove);
    assert t.records == OnDisk(t.files);
    TotalWithin(t.records, s.records);
    if RemoveOk(Inactive(s.records, active), remove) {
      forall k | k in OnDisk(t.files) ensures k in active {
        assert k in s.records && KeyFile(k) !in gone;
      }
    }
  }

  ghost predicate Targets(a: Action, key: Key) {
    match a
    case Save(k, _, _, _, _, _, _) => k == key
    case Reset(k, _, _, _) => k == key
    case Reconcile(active, _, _, _) => key !in active
    case _ => false
  }

  lemma StepKeeps(s: Store, a: Action)
    requires StoreInv(s)
    ensures StoreInv(Step(s, a)) && (Exact(s) ==> (Exact(Step(s, a)) <==> !Loses(s, a)))
  {
    hide Covers;
    hide Exact;
    hide ScanStore;
    hide Inventory;
    hide SaveRecord;
    hide ReconcileRecords;
    match a
    case Save(key, data, valid, rootOk, scan, committed, left) =>
      InventoryOk(s, scan);
      var (t, ok) := Inventory(s, scan);
      if ok { SaveKeeps(t, key, data, committed, left); }
    case Load(key, rootOk, scan, readable, remove) =>
      InventoryOk(s, scan);
      var (t, ok) := Inventory(s, scan);
      if ok { LoadKeeps(t, key, readable, remove); }
    case Reset(key, rootOk, readable, remove) =>
      if s.initialized {
        ResetKeeps(s, key, readable, remove);
      } else {
        UninitializedIsExact(s);
        UninitializedIsExact(Step(s, a));
      }
    case Reconcile(active, rootOk, scan, remove) =>
      ScanStoreOk(s, scan);
      var (t, ok) := ScanStore(s, scan);
      if ok { ReconcileKeeps(t, active, remove); } else if !t.initialized { UninitializedIsExact(t); }
    case Restart => UninitializedIsExact(Step(s, a));
  }

  lemma UninitializedIsExact(s: Store)
    requires !s.initialized
    ensures Exact(s)
  {
  }

  lemma {:induction false} RunKeeps(files: Files, actions: seq<Action>)
    ensures StoreInv(Run(files, actions))
  {
    if actions != [] {
      RunKeeps(files, actions[..|actions| - 1]);
      StepKeeps(Run(files, actions[..|actions| - 1]), actions[|actions| - 1]);
    }
  }

  // ---------------------------------------------------------------- main results

  ghost predicate NeverLoses(files: Files, actions: seq<Action>) {
    forall k :: 0 <= k < |actions| ==> !Loses(Run(files, actions[..k]), actions[k])
  }

  /** From any directory, over any run and any failures: an initialized store is within the limit, its
      counts are those of its inventory, and every checkpoint on disk is in the inventory as it is. */
  lemma InventoryCoversDisk(files: Files, actions: seq<Action>)
    requires Run(files, actions).initialized
    ensures
      var s := Run(files, actions);
      && Within(OnDisk(s.files), s.records) && s.count == |s.records| && s.bytes == Total(s.records)
      && Total(OnDisk(s.files)) <= Total(s.records) <= MAX_AGGREGATE_DATA_BYTES
  {
    RunKeeps(files, actions);
    var s := Run(files, actions);
    TotalWithin(OnDisk(s.files), s.records);
  }

  /** The inventory is exactly the disk, and the reported counts are the disk's, after every operation
      of any run in which no reset removes a file it could not read. */
  lemma {:induction false} InventoryEqualsDisk(files: Files, actions: seq<Action>)
    requires NeverLoses(files, actions)
    ensures
      var s := Run(files, actions);
      s.initialized ==>
        s.records == OnDisk(s.files) && s.count == |OnDisk(s.files)| && s.bytes == Total(OnDisk(s.files))
  {
    RunKeeps(files, actions);
    if actions != [] {
      var n := |actions| - 1;
      var before := actions[..n];
      assert forall k :: 0 <= k < n ==> actions[..k] == before[..k] && actions[k] == before[k];
      InventoryEqualsDisk(files, before);
      RunKeeps(files, before);
      StepKeeps(Run(files, before), actions[n]);
    }
  }

  /** Exactly that reset breaks it: from an exact state, the next operation leaves the inventory exact
      unless it is a reset that removes the file without having read it. */
  lemma OnlyUnreadResetLoses(files: Files, actions: seq<Action>, a: Action)
    requires Exact(Run(files, actions))
    ensures Exact(Step(Run(files, actions), a)) <==> !Loses(Run(files, actions), a)
  {
    RunKeeps(files, actions);
    StepKeeps(Run(files, actions), a);
  }

  const SCAN_NOTHING := ScanIo([], true, RemoveIo({}, true))

  /** Such a run: save a checkpoint, then reset it while its file cannot be opened but can be removed. */
  lemma UnreadResetExample(key: Key)
    requires ValidKey(key)
    ensures
      var s := Run(map[], [Save(key, "{}", true, true, SCAN_NOTHING, true, None),
        Reset(key, true, false, RemoveIo({KeyFile(key)}, true))]);
      s.initialized && key in s.records && s.files == map[] && s.count == 1 && s.bytes == 2
  {
    var a := Save(key, "{}", true, true, SCAN_NOTHING, true, None);
    var b := Reset(key, true, false, RemoveIo({KeyFile(key)}, true));
    var s0 := Run(map[], []);
    assert [a, b][..1] == [a] && [a][..0] == [];
    var (t, ok) := Inventory(s0, SCAN_NOTHING);
    assert ScanEntries(map[], []) == Scan(map[], {}, 0);
    assert t == Store(map[], map[], true, 0, 0) && ok;
    var s1 := Step(s0, a);
    assert s1 == Store(map[KeyFile(key) := Envelope(key, "{}")], map[key := "{}"], true, 1, 2);
    assert Step(s1, b).files == map[];
    assert Run(map[], [a]) == s1;
  }

  /** A reconciliation that succeeds leaves exactly active checkpoints, all of those that were there, and
      an exact inventory, whatever was lost track of before. */
  lemma ReconcileRestores(files: Files, actions: seq<Action>, active: seq<Key>, scan: ScanIo, remove: RemoveIo)
    requires forall k :: k in active ==> ValidKey(k)
    requires ScanStore(Run(files, actions), scan).1
    ensures
      var s := Run(files, actions);
      var t := Step(s, Reconcile(active, true, scan, remove));
      && t.initialized && t.records == OnDisk(t.files)
      && (RemoveOk(Inactive(ScanStore(s, scan).0.records, active), remove) ==> forall k :: k in OnDisk(t.files) ==>
           k in active)
      && (Clean(s.files) ==> forall k :: k in OnDisk(s.files) && k in active ==>
           k in OnDisk(t.files) && OnDisk(t.files)[k] == OnDisk(s.files)[k])
  {
    var s := Run(files, actions);
    hide OnDisk;
    hide Clean;
    hide Covers;
    hide ScanStore;
    ScanStoreOk(s, scan);
    ReconcileKeeps(ScanStore(s, scan).0, active, remove);
    hide ReconcileRecords;
  }

  // ---------------------------------------------------------------- checkpoints survive

  ghost predicate Kept(s: Store, t: Store, key: Key) {
    && Clean(t.files) && key in OnDisk(s.files) && key in OnDisk(t.files)
    && OnDisk(t.files)[key] == OnDisk(s.files)[key]
  }

  lemma StepSurvives(s: Store, a: Action, key: Key)
    requires StoreInv(s) && Clean(s.files) && key in OnDisk(s.files) && !Targets(a, key)
    ensures Kept(s, Step(s, a), key)
  {
    hide OnDisk;
    hide Total;
    hide Clean;
    hide Within;
    hide ScanStore;
    hide Inventory;
    hide SaveRecord;
    hide ReconcileRecords;
    match a
    case Save(k, data, valid, rootOk, scan, committed, left) =>
      InventoryOk(s, scan);
      var (t, ok) := Inventory(s, scan);
      if ok { SaveKeeps(t, k, data, committed, left); }
    case Load(k, rootOk, scan, readable, remove) =>
      InventoryOk(s, scan);
      var (t, ok) := Inventory(s, scan);
      if ok { LoadKeeps(t, k, readable, remove); }
    case Reset(k, rootOk, readable, remove) => ResetOnDisk(s.files, k);
    case Reconcile(active, rootOk, scan, remove) =>
      ScanStoreOk(s, scan);
      var (t, ok) := ScanStore(s, scan);
      if ok { ReconcileKeeps(t, active, remove); }
    case Restart =>
  }

  /** A checkpoint on disk under an initialized store stays on disk, over any failures and restarts,
      until it is saved again, reset, or left out of a reconciliation. */
  lemma {:induction false} CheckpointSurvives(files: Files, actions: seq<Action>, more: seq<Action>, key: Key)
    requires Clean(Run(files, actions).files) && key in OnDisk(Run(files, actions).files)
    requires forall k :: 0 <= k < |more| ==> !Targets(more[k], key)
    ensures Kept(Run(files, actions), Run(files, actions + more), key)
  {
    hide OnDisk;
    hide Clean;
    hide Step;
    hide StoreInv;
    if more == [] {
      assert actions + more == actions;
    } else {
      var n := |more| - 1;
      CheckpointSurvives(files, actions, more[..n], key);
      var all := actions + more;
      assert all[..|all| - 1] == actions + more[..n];
      RunKeeps(files, actions + more[..n]);
      StepSurvives(Run(files, actions + more[..n]), more[n], key);
    }
  }

  /** A readable load returns what is on disk, and nothing for a checkpoint that is not there. */
  lemma LoadReturnsDisk(files: Files, actions: seq<Action>, key: Key, scan: ScanIo, remove: RemoveIo)
    requires Clean(Run(files, actions).files) && Inventory(Run(files, actions), scan).1
    ensures
      var s := Run(files, actions);
      LoadRecord(Inventory(s, scan).0, key, true, remove).1 == if key in OnDisk(s.files)
        then Some(OnDisk(s.files)[key]) else None
  {
    var s := Run(files, actions);
    RunKeeps(files, actions);
    InventoryOk(s, scan);
    LoadKeeps(Inventory(s, scan).0, key, true, remove);
  }

  /** A committed save is what a later load returns. */
  lemma SaveThenLoad(files: Files, actions: seq<Action>, key: Key, data: string, scan: ScanIo)
    requires Run(files, actions).initialized && ValidKey(key) && |data| <= MAX_DATA_BYTES
    ensures
      var s := Run(files, actions);
      var t := Step(s, Save(key, data, true, true, scan, true, None));
      var used := Total(s.records) - if key in s.records then |s.records[key]| else 0;
      LoadRecord(t, key, true, scan.cleanup).1 == if used + |data| <= MAX_AGGREGATE_DATA_BYTES then Some(data) else
        if key in OnDisk(s.files) then Some(OnDisk(s.files)[key]) else None
  {
    var s := Run(files, actions);
    var t := Step(s, Save(key, data, true, true, scan, true, None));
    RunKeeps(files, actions);
    SaveKeeps(s, key, data, true, None);
    LoadKeeps(t, key, true, scan.cleanup);
    var used := Total(s.records) - if key in s.records then |s.records[key]| else 0;
    if used + |data| <= MAX_AGGREGATE_DATA_BYTES { CommitKeeps(s, key, data); }
  }

  // ---------------------------------------------------------------- the store object

  /** Adds the sizes up one by one, in any order. */
  method TotalBytes(records: Records) returns (total: nat)
    ensures total == Total(records)
  {
    total := 0;
    var left := records;
    while left != map[]
      invariant Within(left, records) && total + Total(left) == Total(records)
      decreases |left|
    {
      var key :| key in left;
      TotalRemove(left, key);
      assert (left - {key}).Keys == left.Keys - {key};
      total := total + |left[key]|;
      left := left - {key};
    }
  }

  /** Goes through the directory entry by entry. */
  method ScanDirectory(files: Files, entries: seq<Name>) returns (found: Scan)
    requires forall i :: 0 <= i < |entries| ==> entries[i] in files
    ensures found == ScanEntries(files, entries)
  {
    found := Scan(map[], {}, 0);
    for k := 0 to |entries|
      invariant found == ScanEntries(files, entries[..k])
    {
      var name := entries[k];
      assert entries[..k + 1][..k] == entries[..k];
      if !name.KeyFile? || !files[name].Envelope? || files[name].key != name.key {
        found := found.(cleanup := found.cleanup + {name});
      } else if found.total > MAX_AGGREGATE_DATA_BYTES - |files[name].data| {
        found := found.(cleanup := found.cleanup + {name});
      } else {
        found := Scan(found.records[name.key := files[name].data], found.cleanup, found.total + |files[name].data|);
      }
    }
    assert entries[..|entries|] == entries;
  }

  class Checkpoints {
    var files: Files
    var records: Records
    var initialized: bool
    var count: int
    var bytes: int

    function View(): Store reads this { Store(files, records, initialized, count, bytes) }

    constructor (directory: Files)
      ensures View() == Run(directory, [])
    {
      files, records, initialized, count, bytes := directory, map[], false, 0, 0;
    }

    /** `listed` says that the listing could be read. */
    method ScanLocked(io: ScanIo, listed: bool) returns (ok: bool)
      requires listed == Lists(io.entries, files)
      modifies this
      ensures (View(), ok) == ScanStore(old(View()), io)
    {
      if !listed || !io.readable { return false; }
      var found := ScanDirectory(files, io.entries);
      hide ScanEntries;
      count, bytes := |found.records|, found.total;
      files := files - (found.cleanup * io.cleanup.removable);
      records := found.records;
      ok := found.cleanup <= io.cleanup.removable && (found.cleanup == {} || io.cleanup.synced);
      initialized := ok;
    }

    method InventoryLocked(io: ScanIo, listed: bool) returns (ok: bool)
      requires listed == Lists(io.entries, files)
      modifies this
      ensures (View(), ok) == Inventory(old(View()), io)
    {
      if initialized { return true; }
      ok := ScanLocked(io, listed);
    }

    method SaveCheckpoint(key: Key, data: string, valid: bool, rootOk: bool, scan: ScanIo, listed: bool,
        committed: bool, left: Option<nat>)
      requires listed == Lists(scan.entries, files)
      modifies this
      ensures View() == Step(old(View()), Save(key, data, valid, rootOk, scan, committed, left))
    {
      if !ValidKey(key) || !valid || |data| > MAX_DATA_BYTES || !rootOk { return; }
      var ok := InventoryLocked(scan, listed);
      if !ok { return; }
      SaveLocked(key, data, committed, left);
      hide Inventory;
      hide SaveRecord;
    }

    method SaveLocked(key: Key, data: string, committed: bool, left: Option<nat>)
      modifies this
      ensures View() == SaveRecord(old(View()), key, data, committed, left)
    {
      var sum := TotalBytes(records);
      var total: int := sum;
      if key in records { total := total - |records[key]|; }
      if total > MAX_AGGREGATE_DATA_BYTES - |data| { return; }
      if committed {
        if key !in records { count := count + 1; }
        files := files[KeyFile(key) := Envelope(key, data)];
        records := records[key := data];
        bytes := total + |data|;
      } else {
        files := LeaveTemp(files, left);
      }
    }

    method LoadCheckpoint(key: Key, rootOk: bool, scan: ScanIo, listed: bool, readable: bool, remove: RemoveIo)
        returns (r: Option<string>)
      requires listed == Lists(scan.entries, files)
      modifies this
      ensures View() == Step(old(View()), Load(key, rootOk, scan, readable, remove))
      ensures r == if ValidKey(key) && rootOk && Inventory(old(View()), scan).1
                   then LoadRecord(Inventory(old(View()), scan).0, key, readable, remove).1 else None
    {
      if !ValidKey(key) || !rootOk { return None; }
      var ok := InventoryLocked(scan, listed);
      if !ok { return None; }
      var name := KeyFile(key);
      if key !in records || name !in files || !readable { return None; }
      if !Proper(files, name) {
        if name in remove.removable {
          files := files - {name};
          count := Max0(count - 1);
          bytes := Max0(bytes - |records[key]|);
          records := records - {key};
        }
        return None;
      }
      records := records[key := files[name].data];
      return Some(files[name].data);
    }

    method ResetCheckpoint(key: Key, rootOk: bool, readable: bool, remove: RemoveIo)
      modifies this
      ensures View() == Step(old(View()), Reset(key, rootOk, readable, remove))
    {
      if !ValidKey(key) || !rootOk { return; }
      var name := KeyFile(key);
      if name !in files || name !in remove.removable { return; }
      if readable && Proper(files, name) {
        if initialized { records := records - {key}; }
        count := Max0(count - 1);
        bytes := Max0(bytes - |files[name].data|);
      }
      files := files - {name};
    }

    method ReconcileActive(active: seq<Key>, rootOk: bool, scan: ScanIo, listed: bool, remove: RemoveIo)
      requires listed == Lists(scan.entries, files)
      modifies this
      ensures View() == Step(old(View()), Reconcile(active, rootOk, scan, remove))
    {
      for k := 0 to |active|
        invariant View() == old(View())
        invariant forall i :: 0 <= i < k ==> ValidKey(active[i])
      {
        if !ValidKey(active[k]) { return; }
      }
      if !rootOk { return; }
      var ok := ScanLocked(scan, listed);
      if !ok { return; }
      ReconcileLocked(active, remove);
      hide ScanStore;
      hide ReconcileRecords;
    }

    method ReconcileLocked(active: seq<Key>, remove: RemoveIo)
      modifies this
      ensures View() == ReconcileRecords(old(View()), active, remove)
    {
      var gone := Inactive(records, active) * remove.removable;
      records := map key | key in records && KeyFile(key) !in gone :: records[key];
      files := files - gone;
      count := |records|;
      bytes := TotalBytes(records);
    }
  }
}
