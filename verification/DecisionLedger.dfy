/** The attention decision ledger (internal/attention/recorder.go).

    An append-only JSONL file with rotation into numbered archives, retention, repair of
    partial writes, and recovery at start-up. Each I/O step may succeed, report a failure,
    or be the last thing the process does. A step that reports a failure had no effect,
    except a write, which may have put any number of bytes in the file. */
module DecisionLedger {

  datatype Option<T> = None | Some(value: T)

  /** One encoded trace: its sequence number, its material key and its length with the newline. */
  datatype Record = Record(sequence: nat, key: int, length: nat)

  /** Complete lines followed by the bytes of a line that has no newline yet. */
  datatype File = File(lines: seq<Record>, tail: nat)

  datatype Archive = Archive(generation: nat, file: File)

  /** The active file and the archives in the order of their numbers. */
  datatype Disk = Disk(active: File, archives: seq<Archive>)

  datatype Config = Config(capacity: nat, maxBytes: nat, retained: nat)

  datatype Memory = Memory(
    size: nat, next: nat, values: seq<Record>, lastKey: Option<int>, archives: seq<nat>, nextArchive: nat,
    pendingArchive: bool, cleanupPending: bool, writeRecoveryPending: bool, writeRecoverySize: nat)

  /** What happens at one I/O step. `Stops` takes effect and then ends the process. */
  datatype Io = Done | Fails | Stops

  datatype Status = Ok | Failed | Rejected | Stopped

  datatype Outcome = Outcome(disk: Disk, mem: Memory, status: Status)

  datatype RotateIo = RotateIo(prepare: Io, rename: Io, truncate: Io, seek: Io, removes: seq<Io>)

  /** A write puts `written` of the line's bytes in the file; rollback follows when it is not clean. */
  datatype WriteIo = WriteIo(io: Io, written: nat, rollback: Io, seek: Io, stat: Io)

  datatype AppendIo = AppendIo(recoverTruncate: Io, recoverSeek: Io, pending: RotateIo, removes: seq<Io>,
      rotate: RotateIo, write: WriteIo)

  datatype OpenIo = OpenIo(open: Io, truncate: Io, seek: Io, removes: seq<Io>, read: Io, repair: Io)

  // ---------------------------------------------------------------- files

  function Total(lines: seq<Record>): nat {
    if lines == [] then 0 else Total(lines[..|lines| - 1]) + lines[|lines| - 1].length
  }

  function Bytes(f: File): nat { Total(f.lines) + f.tail }

  const EMPTY := File([], 0)

  /** Cutting a file inside a line leaves the line's first bytes as an unterminated tail; a size
      past the end adds zero bytes, which are an unterminated tail too. */
  function Truncate(f: File, size: nat): File
    decreases |f.lines|
  {
    if Total(f.lines) <= size then File(f.lines, size - Total(f.lines))
    else Truncate(File(f.lines[..|f.lines| - 1], f.lines[|f.lines| - 1].length), size)
  }

  function Flatten(archives: seq<Archive>): seq<Record> {
    if archives == [] then [] else archives[0].file.lines + Flatten(archives[1..])
  }

  function Generations(archives: seq<Archive>): seq<nat> {
    seq(|archives|, i requires 0 <= i < |archives| => archives[i].generation)
  }

  function RemoveArchive(archives: seq<Archive>, generation: nat): seq<Archive> {
    if archives == [] then []
    else if archives[0].generation == generation then archives[1..]
    else [archives[0]] + RemoveArchive(archives[1..], generation)
  }

  function LastN<T>(s: seq<T>, n: nat): seq<T> { if |s| <= n then s else s[|s| - n..] }

  function LastSequence(l: seq<Record>): nat { if l == [] then 0 else l[|l| - 1].sequence }

  function LastKey(l: seq<Record>): Option<int> { if l == [] then None else Some(l[|l| - 1].key) }

  // ---------------------------------------------------------------- operations

  function TruncateActive(d: Disk, m: Memory, truncate: Io, seek: Io): Outcome {
    if truncate.Fails? then Outcome(d, m, Failed) else
    var d1 := d.(active := EMPTY);
    if truncate.Stops? || seek.Stops? then Outcome(d1, m, Stopped)
    else if seek.Fails? then Outcome(d1, m, Failed)
    else Outcome(d1, m.(size := 0), Ok)
  }

  function CleanupArchives(c: Config, d: Disk, m: Memory, removes: seq<Io>): Outcome
    decreases |m.archives|
  {
    if |m.archives| <= c.retained then Outcome(d, m.(cleanupPending := false), Ok)
    else if removes == [] || removes[0].Fails? then Outcome(d, m, Failed)
    else
      var d1 := d.(archives := RemoveArchive(d.archives, m.archives[0]));
      if removes[0].Stops? then Outcome(d1, m, Stopped)
      else CleanupArchives(c, d1, m.(archives := m.archives[1..]), removes[1..])
  }

  /** The part of a rotation after the archive is in place. */
  function FinishRotation(c: Config, d: Disk, m: Memory, io: RotateIo): Outcome {
    var t := TruncateActive(d, m, io.truncate, io.seek);
    if !t.status.Ok? then t else
    var r := CleanupArchives(c, t.disk, t.mem.(pendingArchive := false), io.removes);
    if r.status.Failed? then r.(mem := r.mem.(cleanupPending := true)) else r
  }

  function Rotate(c: Config, d: Disk, m: Memory, io: RotateIo): Outcome {
    if m.pendingArchive || c.retained == 0 then FinishRotation(c, d, m, io)
    else if io.prepare.Stops? then Outcome(d, m, Stopped)
    else if io.prepare.Fails? || io.rename.Fails? then Outcome(d, m, Failed)
    else
      var d1 := d.(archives := d.archives + [Archive(m.nextArchive, d.active)]);
      if io.rename.Stops? then Outcome(d1, m, Stopped)
      else FinishRotation(c, d1, m.(archives := m.archives + [m.nextArchive], nextArchive := m.nextArchive
        + 1, pendingArchive := true), io)
  }

  function RecoverPartialWrite(d: Disk, m: Memory, truncate: Io, seek: Io): Outcome {
    if truncate.Fails? then Outcome(d, m, Failed) else
    var d1 := d.(active := Truncate(d.active, m.writeRecoverySize));
    if truncate.Stops? || seek.Stops? then Outcome(d1, m, Stopped)
    else if seek.Fails? then Outcome(d1, m, Failed)
    else Outcome(d1, m.(size := m.writeRecoverySize, writeRecoveryPending := false), Ok)
  }

  /** The file after `written` bytes of the line of `r` have been appended. */
  function Written(f: File, r: Record, written: nat): File {
    if written >= r.length then File(f.lines + [r], f.tail) else f.(tail := f.tail + written)
  }

  function WriteLine(c: Config, d: Disk, m: Memory, r: Record, io: WriteIo): Outcome {
    var written := if io.io.Done? then r.length else io.written;
    var d1 := d.(active := Written(d.active, r, written));
    if io.io.Stops? then Outcome(d1, m, Stopped)
    else if io.io.Fails? then
      if io.rollback.Fails? then
        var m1 := m.(writeRecoveryPending := true, writeRecoverySize := m.size);
        Outcome(d1, if io.stat.Done? then m1.(size := Bytes(d1.active)) else m1, Failed)
      else
        var d2 := d.(active := Truncate(d1.active, m.size));
        if io.rollback.Stops? then Outcome(d2, m, Stopped) else
        var m1 := if io.seek.Fails? then m.(writeRecoveryPending := true, writeRecoverySize := m.size) else m;
        Outcome(d2, if io.stat.Done? then m1.(size := Bytes(d2.active)) else m1, Failed)
    else
      Outcome(d1, m.(size := m.size + r.length, next := r.sequence, values := LastN(m.values
        + [r], c.capacity), lastKey := Some(r.key)), Ok)
  }

  lemma WrittenGrows(f: File, r: Record, written: nat)
    ensures Bytes(f) <= Bytes(Written(f, r, written))
    ensures Bytes(Written(f, r, written)) <= Bytes(f) + r.length
    ensures written >= r.length ==> Bytes(Written(f, r, written)) == Bytes(f) + r.length
  {
    assert (f.lines + [r])[..|f.lines|] == f.lines;
  }

  // The repairs every append makes before it looks at its trace; each stage runs only if the
  // previous one succeeded.

  function Repaired(d: Disk, m: Memory, io: AppendIo): Outcome {
    if m.writeRecoveryPending then RecoverPartialWrite(d, m, io.recoverTruncate, io.recoverSeek) else Outcome(d, m, Ok)
  }

  function Unblocked(c: Config, o: Outcome, io: RotateIo): Outcome {
    if o.status.Ok? && o.mem.pendingArchive then Rotate(c, o.disk, o.mem, io) else o
  }

  function Trimmed(c: Config, o: Outcome, removes: seq<Io>): Outcome {
    if o.status.Ok? && o.mem.cleanupPending then CleanupArchives(c, o.disk, o.mem, removes) else o
  }

  function Prepare(c: Config, d: Disk, m: Memory, io: AppendIo): Outcome {
    Trimmed(c, Unblocked(c, Repaired(d, m, io), io.pending), io.removes)
  }

  /** Rotate when the line would not fit behind what the active file holds. */
  function MadeRoom(c: Config, o: Outcome, length: nat, io: RotateIo): Outcome {
    if o.status.Ok? && o.mem.size > 0 && o.mem.size + length > c.maxBytes then Rotate(c, o.disk, o.mem, io) else o
  }

  function Append(c: Config, d: Disk, m: Memory, key: int, length: nat, io: AppendIo): Outcome {
    var p := Prepare(c, d, m, io);
    if !p.status.Ok? || p.mem.lastKey == Some(key) then p else
    var r := MadeRoom(c, p, length, io.rotate);
    if !r.status.Ok? then r else WriteLine(c, r.disk, r.mem, Record(r.mem.next + 1, key, length), io.write)
  }

  /** The sequence check of start-up. */
  ghost predicate Contiguous(l: seq<Record>) {
    && (forall i :: 0 <= i < |l| ==> l[i].sequence >= 1)
    && (forall i, j :: 0 <= i && j == i + 1 && j < |l| ==> l[j].sequence == l[i].sequence + 1)
  }

  function Newest(archives: seq<Archive>): File
    requires archives != []
  {
    archives[|archives| - 1].file
  }

  function Scanned(c: Config, d: Disk): Memory {
    var generations := Generations(d.archives);
    Memory(Bytes(d.active), 0, [], None, generations,
           if generations == [] then 1
             else generations[|generations| - 1] + 1, false, |generations| > c.retained, false, 0)
  }

  /** Read every record back; the archives must be whole, and a cut-short last line is removed. */
  ghost function Restore(c: Config, d: Disk, m: Memory, repair: Io): Outcome {
    var records := Flatten(d.archives) + d.active.lines;
    if (exists i :: 0 <= i < |d.archives| && (Bytes(d.archives[i].file) > c.maxBytes || d.archives[i].file.tail > 0))
       || Bytes(d.active) > c.maxBytes || !Contiguous(records) then Outcome(d, m, Rejected)
    else if d.active.tail > 0 && !repair.Done? then Outcome(d, m, Failed)
    else Outcome(d.(active := d.active.(tail := 0)),
                 m.(size := Total(d.active.lines), next := LastSequence(records), lastKey := LastKey(records),
                    values := LastN(records, c.capacity)), Ok)
  }

  /** Truncate the active file if its lines are already the newest archive. */
  function RotationFinished(c: Config, d: Disk, io: OpenIo): Outcome {
    var m := Scanned(c, d);
    if m.size != 0 && d.archives != [] && d.active == Newest(d.archives) then TruncateActive(d, m, io.truncate, io.seek)
    else Outcome(d, m, Ok)
  }

  /** Retention at start-up; a removal that fails is tolerated and tried again later. */
  function TrimmedAtStart(c: Config, o: Outcome, removes: seq<Io>): Outcome {
    if !o.status.Ok? || !o.mem.cleanupPending then o else
    var k := CleanupArchives(c, o.disk, o.mem, removes);
    if k.status.Failed? then k.(status := Ok) else k
  }

  ghost function Open(c: Config, d: Disk, io: OpenIo): Outcome {
    var m := Scanned(c, d);
    if !io.open.Done? then Outcome(d, m, Failed)
    else if m.size != 0 && d.archives != [] && (Bytes(d.active) > c.maxBytes || Bytes(Newest(d.archives)) > c.maxBytes)
    then Outcome(d, m, Rejected)
    else
      var k := TrimmedAtStart(c, RotationFinished(c, d, io), io.removes);
      if !k.status.Ok? then k
      else if !io.read.Done? then Outcome(k.disk, k.mem, Failed)
      else Restore(c, k.disk, k.mem, io.repair)
  }

  // ---------------------------------------------------------------- runs

  datatype System = Down(disk: Disk) | Up(disk: Disk, mem: Memory)

  datatype Event = AppendTrace(key: int, length: nat, append: AppendIo) | OpenLedger(open: OpenIo) | StopProcess

  ghost function Step(c: Config, s: System, e: Event): System {
    match e
    case AppendTrace(key, length, io) =>
      if s.Down? then s else
      var o := Append(c, s.disk, s.mem, key, length, io);
      if o.status.Stopped? then Down(o.disk) else Up(o.disk, o.mem)
    case OpenLedger(io) =>
      if s.Up? then s else
      var o := Open(c, s.disk, io);
      if o.status.Ok? then Up(o.disk, o.mem) else Down(o.disk)
    case StopProcess => Down(s.disk)
  }

  ghost function Run(c: Config, events: seq<Event>): System {
    if events == [] then Down(Disk(EMPTY, [])) else Step(c, Run(c, events[..|events| - 1]), events[|events| - 1])
  }

  // ---------------------------------------------------------------- invariant

  /** Consecutive sequence numbers, and neighbours never share a material key. */
  ghost predicate Chain(l: seq<Record>) {
    Contiguous(l) && forall i, j :: 0 <= i && j == i + 1 && j < |l| ==> l[j].key != l[i].key
  }

  /** The archive is committed and the active file still holds the same lines. */
  predicate AwaitsTruncate(d: Disk) { d.archives != [] && d.active == Newest(d.archives) }

  function Durable(d: Disk): seq<Record> {
    if AwaitsTruncate(d) then Flatten(d.archives) else Flatten(d.archives) + d.active.lines
  }

  /** The records a running recorder has acknowledged and still keeps on disk. */
  function Ledger(d: Disk, m: Memory): seq<Record> {
    if m.writeRecoveryPending then Flatten(d.archives) + Truncate(d.active, m.writeRecoverySize).lines else Durable(d)
  }

  ghost predicate Positive(lines: seq<Record>) { forall i :: 0 <= i < |lines| ==> lines[i].length >= 1 }

  ghost predicate ArchivesOk(c: Config, archives: seq<Archive>) {
    && (forall i :: 0 <= i < |archives| ==>
          archives[i].file.tail == 0 && archives[i].file.lines != [] && Positive(archives[i].file.lines)
            && Bytes(archives[i].file) <= c.maxBytes)
    && (forall i, j :: 0 <= i < j < |archives| ==> archives[i].generation < archives[j].generation)
  }

  ghost predicate DiskOk(c: Config, d: Disk) {
    && ArchivesOk(c, d.archives)
    && Positive(d.active.lines)
    && Bytes(d.active) <= c.maxBytes
    && Chain(Durable(d))
  }

  /** `recent` ends with the last `capacity` records of the ledger. */
  predicate Covers(recent: seq<Record>, ledger: seq<Record>, capacity: nat) {
    var wanted := LastN(ledger, capacity);
    |recent| <= capacity && |wanted| <= |recent| && recent[|recent| - |wanted|..] == wanted
  }

  ghost predicate ActiveOk(d: Disk, m: Memory) {
    && !(m.pendingArchive && m.writeRecoveryPending)
    && (m.pendingArchive ==> AwaitsTruncate(d) || (d.archives != [] && d.active == EMPTY))
    && (!m.pendingArchive ==> !AwaitsTruncate(d))
    && (!m.pendingArchive && !m.writeRecoveryPending ==> d.active.tail == 0 && m.size == Bytes(d.active))
    && (m.writeRecoveryPending ==>
          var kept := Truncate(d.active, m.writeRecoverySize);
          kept.tail == 0 && Total(kept.lines) == m.writeRecoverySize && kept.lines <= d.active.lines
            && |d.active.lines| <= |kept.lines| + 1)
  }

  ghost predicate MemOk(c: Config, d: Disk, m: Memory) {
    && m.archives == Generations(d.archives)
    && (forall i :: 0 <= i < |m.archives| ==> m.archives[i] < m.nextArchive)
    && (!m.cleanupPending && !m.pendingArchive ==> |m.archives| <= c.retained)
    && ActiveOk(d, m)
    && m.next == LastSequence(Ledger(d, m)) && m.lastKey == LastKey(Ledger(d, m))
    && Covers(m.values, Ledger(d, m), c.capacity)
  }

  /** `l'` is what retention leaves of `l`: oldest records may go, the newest never does. */
  predicate Retains(l: seq<Record>, l': seq<Record>) {
    |l'| <= |l| && l' == l[|l| - |l'|..] && (l != [] ==> l' != [])
  }

  /** Retention, then at most one new record. */
  predicate Advances(l: seq<Record>, l': seq<Record>) {
    Retains(l, l') || (l' != [] && Retains(l, l'[..|l'| - 1]))
  }

  /** An outcome that keeps the invariant and loses nothing but the oldest records. */
  ghost predicate Keeps(c: Config, l: seq<Record>, o: Outcome) {
    && DiskOk(c, o.disk)
    && !o.status.Rejected?
    && if o.status.Stopped? then Retains(l, Durable(o.disk))
       else MemOk(c, o.disk, o.mem) && Retains(l, Ledger(o.disk, o.mem))
  }

  // ---------------------------------------------------------------- lemmas about files

  lemma TotalAppend(lines: seq<Record>, r: Record)
    ensures Total(lines + [r]) == Total(lines) + r.length
  {
    assert (lines + [r])[..|lines|] == lines;
  }

  lemma TruncateBack(f: File, r: Record, written: nat)
    requires f.tail == 0 && r.length >= 1
    ensures Truncate(Written(f, r, written), Bytes(f)) == f
  {
    TotalAppend(f.lines, r);
    if written >= r.length {
      assert (f.lines + [r])[..|f.lines|] == f.lines;
      assert Truncate(File(f.lines, r.length), Bytes(f)) == f;
    }
  }

  lemma {:induction false} FlattenAppend(archives: seq<Archive>, a: Archive)
    ensures Flatten(archives + [a]) == Flatten(archives) + a.file.lines
  {
    if archives == [] {
      assert archives + [a] == [a];
      assert Flatten([a]) == a.file.lines + Flatten([]);
    } else {
      assert (archives + [a])[1..] == archives[1..] + [a];
      FlattenAppend(archives[1..], a);
    }
  }

  lemma FlattenNewest(archives: seq<Archive>)
    requires archives != []
    ensures Flatten(archives) == Flatten(archives[..|archives| - 1]) + Newest(archives).lines
  {
    var rest := archives[..|archives| - 1];
    assert archives == rest + [archives[|archives| - 1]];
    FlattenAppend(rest, archives[|archives| - 1]);
  }

  /** A chained continuation of the archives cannot repeat the newest one. */
  lemma ChainIsNotAwaiting(c: Config, d: Disk)
    requires ArchivesOk(c, d.archives) && Chain(Flatten(d.archives) + d.active.lines)
    ensures !AwaitsTruncate(d)
  {
    if AwaitsTruncate(d) {
      FlattenNewest(d.archives);
      var l, n := Flatten(d.archives) + d.active.lines, |d.active.lines|;
      assert l[|l| - 2 * n] == d.active.lines[0] && l[|l| - n] == d.active.lines[0];
      ChainSteps(l, |l| - 2 * n, |l| - n);
    }
  }

  lemma {:induction false} ChainSteps(l: seq<Record>, i: nat, j: nat)
    requires Contiguous(l) && i <= j < |l|
    ensures l[j].sequence == l[i].sequence + (j - i)
    decreases j
  {
    if i < j { ChainSteps(l, i, j - 1); }
  }

  lemma RetainsTransitive(a: seq<Record>, b: seq<Record>, e: seq<Record>)
    requires Retains(a, b) && Retains(b, e)
    ensures Retains(a, e)
  {
  }

  lemma CoversRetained(recent: seq<Record>, l: seq<Record>, l': seq<Record>, capacity: nat)
    requires Covers(recent, l, capacity) && Retains(l, l')
    ensures Covers(recent, l', capacity)
    ensures LastSequence(l) == LastSequence(l') && LastKey(l) == LastKey(l')
  {
    var wanted, wanted' := LastN(l, capacity), LastN(l', capacity);
    assert wanted' == wanted[|wanted| - |wanted'|..];
  }

  lemma ChainRetained(l: seq<Record>, l': seq<Record>)
    requires Chain(l) && Retains(l, l')
    ensures Chain(l')
  {
  }

  // ---------------------------------------------------------------- lemmas about operations

  /** Retention on the disk: whole archives go, oldest first, and one always stays. */
  lemma {:induction false} CleanupDisk(c: Config, d: Disk, m: Memory, removes: seq<Io>)
    requires c.retained >= 1 && DiskOk(c, d) && !AwaitsTruncate(d) && m.archives == Generations(d.archives)
    ensures var o := CleanupArchives(c, d, m, removes);
            && DiskOk(c, o.disk) && !AwaitsTruncate(o.disk) && !o.status.Rejected?
            && o.disk.active == d.active
            && Retains(Durable(d), Durable(o.disk))
            && (!o.status.Stopped? ==> o.mem.archives == Generations(o.disk.archives))
            && o.mem == m.(archives := o.mem.archives, cleanupPending := o.mem.cleanupPending)
            && |o.mem.archives| <= |m.archives| && o.mem.archives == m.archives[|m.archives| - |o.mem.archives|..]
            && (o.status.Ok? ==> !o.mem.cleanupPending && |o.mem.archives| <= c.retained)
            && (o.status.Failed? ==> o.mem.cleanupPending == m.cleanupPending)
    decreases |m.archives|
  {
    hide DiskOk;
    hide Retains;
    hide Flatten;
    hide Durable;
    if |m.archives| > c.retained && removes != [] && !removes[0].Fails? {
      var d1 := d.(archives := RemoveArchive(d.archives, m.archives[0]));
      RemoveOldest(c, d, m);
      if !removes[0].Stops? {
        CleanupDisk(c, d1, m.(archives := m.archives[1..]), removes[1..]);
        RetainsTransitive(Durable(d), Durable(d1), Durable(CleanupArchives(c, d, m, removes).disk));
      }
    } else {
      RetainsItself(Durable(d));
    }
  }

  /** Removing the oldest of several archives. */
  lemma RemoveOldest(c: Config, d: Disk, m: Memory)
    requires DiskOk(c, d) && !AwaitsTruncate(d) && m.archives == Generations(d.archives) && |m.archives| >= 2
    ensures var d1 := d.(archives := RemoveArchive(d.archives, m.archives[0]));
            && DiskOk(c, d1) && !AwaitsTruncate(d1) && d1.archives == d.archives[1..]
                 && Generations(d1.archives) == m.archives[1..]
            && Retains(Durable(d), Durable(d1))
  {
    hide Chain;
    hide Positive;
    var d1 := d.(archives := RemoveArchive(d.archives, m.archives[0]));
    assert d1.archives == d.archives[1..];
    assert Newest(d1.archives) == Newest(d.archives);
    assert d1.archives[0].file.lines != [];
    assert Durable(d1) == Durable(d)[|d.archives[0].file.lines|..];
    hide Flatten;
    assert ArchivesOk(c, d1.archives);
    ChainRetained(Durable(d), Durable(d1));
  }

  lemma CleanupKeeps(c: Config, d: Disk, m: Memory, removes: seq<Io>)
    requires c.retained >= 1 && DiskOk(c, d) && MemOk(c, d, m.(cleanupPending := true))
    requires !m.pendingArchive && !m.writeRecoveryPending
    ensures var o := CleanupArchives(c, d, m, removes);
            && Keeps(c, Ledger(d, m), if o.status.Failed? then o.(mem := o.mem.(cleanupPending := true)) else o)
            && o.mem == m.(archives := o.mem.archives, cleanupPending := o.mem.cleanupPending)
            && (o.status.Failed? ==> o.mem.cleanupPending == m.cleanupPending)
  {
    hide DiskOk;
    hide Durable;
    hide Covers;
    CleanupDisk(c, d, m, removes);
    hide CleanupArchives;
    CoversRetained(m.values, Durable(d), Durable(CleanupArchives(c, d, m, removes).disk), c.capacity);
  }

  lemma EmptiedDisk(c: Config, d: Disk, m: Memory)
    requires DiskOk(c, d) && MemOk(c, d, m) && m.pendingArchive
    ensures var d1 := d.(active := EMPTY);
            DiskOk(c, d1) && Durable(d1) == Durable(d) && !AwaitsTruncate(d1) && d1.archives != []
              && Ledger(d, m) == Durable(d)
  {
    hide Covers;
    hide Chain;
    hide LastN;
    assert Newest(d.archives).lines != [];
    assert Durable(d.(active := EMPTY)) == Durable(d);
  }

  lemma FinishRotationKeeps(c: Config, d: Disk, m: Memory, io: RotateIo)
    requires c.retained >= 1 && DiskOk(c, d) && MemOk(c, d, m) && m.pendingArchive
    ensures var o := FinishRotation(c, d, m, io);
            && Keeps(c, Ledger(d, m), o)
            && (o.status.Ok? ==> Settled(o.mem) && !o.mem.cleanupPending && o.disk.active == EMPTY)
  {
    hide Covers;
    hide Chain;
    var t := TruncateActive(d, m, io.truncate, io.seek);
    RetainsItself(Durable(d));
    if !io.truncate.Fails? {
      var d1 := d.(active := EMPTY);
      EmptiedDisk(c, d, m);
      hide DiskOk;
      hide Durable;
      if t.status.Ok? {
        var m1 := t.mem.(pendingArchive := false);
        assert MemOk(c, d1, m1.(cleanupPending := true));
        CleanupDisk(c, d1, m1, io.removes);
        CleanupKeeps(c, d1, m1, io.removes);
        CleanupClears(c, d1, m1, io.removes);
        hide CleanupArchives;
      }
    }
  }

  lemma RetainsItself(l: seq<Record>)
    ensures Retains(l, l)
  {
  }

  /** The active file has become the newest archive and is not empty yet. */
  lemma ArchivedDisk(c: Config, d: Disk, m: Memory)
    requires DiskOk(c, d) && MemOk(c, d, m) && Settled(m) && m.size > 0
    ensures var d1 := d.(archives := d.archives + [Archive(m.nextArchive, d.active)]);
            && DiskOk(c, d1) && AwaitsTruncate(d1) && Durable(d1) == Durable(d)
            && Generations(d1.archives) == Generations(d.archives) + [m.nextArchive]
  {
    var d1 := d.(archives := d.archives + [Archive(m.nextArchive, d.active)]);
    hide Chain;
    hide Covers;
    hide LastN;
    FlattenAppend(d.archives, Archive(m.nextArchive, d.active));
    assert AwaitsTruncate(d1) && Durable(d1) == Durable(d);
    hide Flatten;
    assert ArchivesOk(c, d1.archives) by {
      assert forall i :: 0 <= i < |d.archives| ==> d.archives[i].generation == m.archives[i];
    }
  }

  lemma ArchivedMemory(c: Config, d: Disk, m: Memory, d1: Disk, m1: Memory)
    requires MemOk(c, d, m) && Settled(m) && AwaitsTruncate(d1) && Durable(d1) == Durable(d)
    requires Generations(d1.archives) == Generations(d.archives) + [m.nextArchive]
    requires m1 == m.(archives := m.archives + [m.nextArchive], nextArchive := m.nextArchive
      + 1, pendingArchive := true)
    ensures MemOk(c, d1, m1) && Ledger(d1, m1) == Ledger(d, m) && Ledger(d, m) == Durable(d)
  {
    hide Durable;
    hide Covers;
    hide Generations;
  }

  lemma RotateKeeps(c: Config, d: Disk, m: Memory, io: RotateIo)
    requires c.retained >= 1 && DiskOk(c, d) && MemOk(c, d, m) && !m.writeRecoveryPending
    requires !m.pendingArchive ==> m.size > 0
    ensures var o := Rotate(c, d, m, io);
            && Keeps(c, Ledger(d, m), o)
            && (o.status.Ok? ==> Settled(o.mem) && !o.mem.cleanupPending && o.disk.active == EMPTY)
  {
    hide MemOk;
    hide DiskOk;
    hide Durable;
    hide Covers;
    hide Retains;
    hide Generations;
    hide Flatten;
    hide FinishRotation;
    if m.pendingArchive {
      FinishRotationKeeps(c, d, m, io);
    } else if io.prepare.Done? && !io.rename.Fails? {
      var d1 := d.(archives := d.archives + [Archive(m.nextArchive, d.active)]);
      ArchivedDisk(c, d, m);
      RetainsItself(Durable(d));
      if io.rename.Done? {
        var m1 := m.(archives := m.archives + [m.nextArchive], nextArchive := m.nextArchive
          + 1, pendingArchive := true);
        ArchivedMemory(c, d, m, d1, m1);
        FinishRotationKeeps(c, d1, m1, io);
      }
    } else {
      RetainsItself(Durable(d));
    }
  }

  lemma RecoverKeeps(c: Config, d: Disk, m: Memory, truncate: Io, seek: Io)
    requires DiskOk(c, d) && MemOk(c, d, m) && m.writeRecoveryPending
    ensures var o := RecoverPartialWrite(d, m, truncate, seek);
            Keeps(c, Ledger(d, m), o) && (o.status.Ok? ==> !o.mem.pendingArchive && !o.mem.writeRecoveryPending)
  {
    var f := Truncate(d.active, m.writeRecoverySize);
    assert Truncate(f, m.writeRecoverySize) == f;
    KeptDisk(c, d, f);
    assert !m.pendingArchive;
    hide Truncate;
    hide Covers;
    hide DiskOk;
    var d1, m1 := d.(active := f), m.(size := m.writeRecoverySize, writeRecoveryPending := false);
    assert Ledger(d1, m) == Ledger(d, m) && Ledger(d1, m1) == Ledger(d, m);
    assert ActiveOk(d1, m) && ActiveOk(d1, m1);
    hide ActiveOk;
    hide Ledger;
    assert MemOk(c, d1, m) && MemOk(c, d1, m1);
    hide MemOk;
  }

  /** Dropping unacknowledged lines from the active file. */
  lemma KeptDisk(c: Config, d: Disk, f: File)
    requires DiskOk(c, d) && !AwaitsTruncate(d) && f.tail == 0 && f.lines <= d.active.lines
    ensures DiskOk(c, d.(active := f)) && !AwaitsTruncate(d.(active := f))
    ensures Durable(d.(active := f)) == Flatten(d.archives) + f.lines
  {
    var l, kept := Flatten(d.archives) + d.active.lines, Flatten(d.archives) + f.lines;
    assert kept == l[..|kept|];
    assert Chain(kept);
    ChainIsNotAwaiting(c, d.(active := f));
    assert f.lines == d.active.lines[..|f.lines|];
    TotalPrefix(d.active.lines, |f.lines|);
  }

  lemma {:induction false} TotalPrefix(lines: seq<Record>, n: nat)
    requires n <= |lines|
    ensures Total(lines[..n]) <= Total(lines)
    decreases |lines|
  {
    if n < |lines| {
      assert lines[..|lines| - 1][..n] == lines[..n];
      TotalPrefix(lines[..|lines| - 1], n);
    } else {
      assert lines[..n] == lines;
    }
  }

  /** Two outcomes in a row keep what each keeps. */
  lemma KeepsThen(c: Config, l: seq<Record>, o: Outcome, o': Outcome)
    requires o.status.Ok? && Keeps(c, l, o) && Keeps(c, Ledger(o.disk, o.mem), o')
    ensures Keeps(c, l, o')
  {
    hide DiskOk;
    hide MemOk;
    hide Durable;
    hide Ledger;
    RetainsTransitive(l, Ledger(o.disk, o.mem), if o'.status.Stopped? then Durable(o'.disk)
      else Ledger(o'.disk, o'.mem));
  }

  predicate Settled(m: Memory) { !m.pendingArchive && !m.writeRecoveryPending }

  lemma UnblockedKeeps(c: Config, l: seq<Record>, o: Outcome, io: RotateIo)
    requires c.retained >= 1 && Keeps(c, l, o) && (o.status.Ok? ==> !o.mem.writeRecoveryPending)
    ensures var o' := Unblocked(c, o, io); Keeps(c, l, o') && (o'.status.Ok? ==> Settled(o'.mem))
  {
    if o.status.Ok? && o.mem.pendingArchive {
      RotateKeeps(c, o.disk, o.mem, io);
      hide Keeps;
      KeepsThen(c, l, o, Unblocked(c, o, io));
    }
  }

  lemma TrimmedKeeps(c: Config, l: seq<Record>, o: Outcome, removes: seq<Io>)
    requires c.retained >= 1 && Keeps(c, l, o) && (o.status.Ok? ==> Settled(o.mem))
    ensures var o' := Trimmed(c, o, removes);
            Keeps(c, l, o') && (o'.status.Ok? ==> Settled(o'.mem) && !o'.mem.cleanupPending)
  {
    if o.status.Ok? && o.mem.cleanupPending {
      CleanupKeeps(c, o.disk, o.mem, removes);
      var o' := Trimmed(c, o, removes);
      assert o'.status.Failed? ==> o' == o'.(mem := o'.mem.(cleanupPending := true));
      hide Keeps;
      KeepsThen(c, l, o, o');
      CleanupClears(c, o.disk, o.mem, removes);
    }
  }

  lemma CleanupClears(c: Config, d: Disk, m: Memory, removes: seq<Io>)
    ensures var o := CleanupArchives(c, d, m, removes); o.status.Ok? ==> !o.mem.cleanupPending
    decreases |m.archives|
  {
  }

  lemma PrepareKeeps(c: Config, d: Disk, m: Memory, io: AppendIo)
    requires c.retained >= 1 && DiskOk(c, d) && MemOk(c, d, m)
    ensures var o := Prepare(c, d, m, io);
            && Keeps(c, Ledger(d, m), o)
            && (o.status.Ok? ==> Settled(o.mem) && !o.mem.cleanupPending)
  {
    var l, o := Ledger(d, m), Repaired(d, m, io);
    assert Keeps(c, l, o) && (o.status.Ok? ==> !o.mem.writeRecoveryPending) by {
      if m.writeRecoveryPending { RecoverKeeps(c, d, m, io.recoverTruncate, io.recoverSeek); }
      hide DiskOk;
      hide MemOk;
      hide RecoverPartialWrite;
    }
    hide Keeps;
    hide Repaired;
    hide Unblocked;
    hide Trimmed;
    UnblockedKeeps(c, l, o, io.pending);
    TrimmedKeeps(c, l, Unblocked(c, o, io.pending), io.removes);
  }

  lemma CoversAppended(recent: seq<Record>, l: seq<Record>, r: Record, capacity: nat)
    requires capacity >= 1 && Covers(recent, l, capacity)
    ensures Covers(LastN(recent + [r], capacity), l + [r], capacity)
  {
    var wanted := LastN(l, capacity);
    var w' := LastN(l + [r], capacity);
    assert w' == LastN(wanted + [r], capacity);
    var x := LastN(recent + [r], capacity);
    assert x[|x| - |w'|..] == w';
  }

  ghost predicate Fresh(c: Config, d: Disk, m: Memory, r: Record) {
    && c.capacity >= 1 && DiskOk(c, d) && MemOk(c, d, m) && Settled(m)
    && r.sequence == m.next + 1 && m.lastKey != Some(r.key)
    && r.length >= 1 && Bytes(d.active) + r.length <= c.maxBytes
  }

  lemma ChainAppended(l: seq<Record>, r: Record)
    requires Chain(l) && r.sequence == LastSequence(l) + 1 && LastKey(l) != Some(r.key)
    ensures Chain(l + [r])
  {
  }

  lemma WrittenFile(c: Config, f: File, r: Record, written: nat)
    requires Positive(f.lines) && f.tail == 0 && r.length >= 1 && Bytes(f) + r.length <= c.maxBytes
    ensures var g := Written(f, r, written);
            && Positive(g.lines) && Bytes(g) <= c.maxBytes
            && g.lines == if written >= r.length then f.lines + [r] else f.lines
  {
    WrittenGrows(f, r, written);
  }

  lemma WrittenDisk(c: Config, d: Disk, r: Record, written: nat)
    requires DiskOk(c, d) && !AwaitsTruncate(d) && d.active.tail == 0
    requires r.sequence == LastSequence(Durable(d)) + 1 && LastKey(Durable(d)) != Some(r.key)
    requires r.length >= 1 && Bytes(d.active) + r.length <= c.maxBytes
    ensures var d1 := d.(active := Written(d.active, r, written));
            && DiskOk(c, d1) && !AwaitsTruncate(d1)
            && Durable(d1) == (if written >= r.length then Durable(d) + [r] else Durable(d))
  {
    hide Chain;
    hide Positive;
    hide LastSequence;
    hide LastKey;
    var d1 := d.(active := Written(d.active, r, written));
    WrittenFile(c, d.active, r, written);
    var l := Durable(d);
    ChainAppended(l, r);
    assert Flatten(d.archives) + d1.active.lines == (if written >= r.length then l + [r] else l);
    hide Flatten;
    hide Written;
    hide Total;
    ChainIsNotAwaiting(c, d1);
    hide ArchivesOk;
  }

  /** After a clean write the ledger has one more record. */
  lemma WriteDone(c: Config, d: Disk, m: Memory, r: Record, io: WriteIo)
    requires Fresh(c, d, m, r) && io.io.Done?
    ensures var o := WriteLine(c, d, m, r, io);
            && DiskOk(c, o.disk) && MemOk(c, o.disk, o.mem) && o.status.Ok?
            && Ledger(o.disk, o.mem) == Durable(d) + [r]
  {
    hide DiskOk;
    hide Covers;
    hide Durable;
    hide Total;
    hide LastN;
    WrittenDisk(c, d, r, r.length);
    CoversAppended(m.values, Durable(d), r, c.capacity);
    TotalAppend(d.active.lines, r);
    var l := Durable(d);
    assert LastSequence(l + [r]) == r.sequence && LastKey(l + [r]) == Some(r.key);
  }

  lemma BrokenDisk(c: Config, d: Disk, m: Memory, r: Record, written: nat)
    requires Fresh(c, d, m, r)
    ensures var d1 := d.(active := Written(d.active, r, written));
            DiskOk(c, d) && DiskOk(c, d1) && (Durable(d1) == Durable(d) || Durable(d1) == Durable(d) + [r])
  {
    hide DiskOk;
    hide Covers;
    hide Durable;
    hide ActiveOk;
    SettledActive(c, d, m);
    WrittenDisk(c, d, r, written);
  }

  /** A write that was not clean leaves the ledger as it was, or stops with one more record on disk. */
  lemma WriteBroken(c: Config, d: Disk, m: Memory, r: Record, io: WriteIo)
    requires Fresh(c, d, m, r) && !io.io.Done?
    ensures var o := WriteLine(c, d, m, r, io);
            && DiskOk(c, o.disk) && (o.status.Stopped? || o.status.Failed?)
            && (o.status.Stopped? ==> Durable(o.disk) == Durable(d) || Durable(o.disk) == Durable(d) + [r])
            && (o.status.Failed? ==> MemOk(c, o.disk, o.mem) && Ledger(o.disk, o.mem) == Durable(d))
  {
    hide DiskOk;
    hide MemOk;
    hide ActiveOk;
    hide Ledger;
    hide Durable;
    hide Truncate;
    hide Written;
    var d1 := d.(active := Written(d.active, r, io.written));
    BrokenActive(c, d, m, r, io.written);
    BrokenDisk(c, d, m, r, io.written);
    var o := WriteLine(c, d, m, r, io);
    var m1 := m.(writeRecoveryPending := true, writeRecoverySize := m.size);
    if o.status.Failed? {
      if io.rollback.Fails? {
        assert o.disk == d1 && o.mem == m1.(size := o.mem.size);
        MemSame(c, d, m, d1, o.mem);
      } else if io.seek.Fails? {
        assert o.disk == d && o.mem == m1.(size := o.mem.size);
        MemSame(c, d, m, d, o.mem);
      } else {
        assert o.disk == d && o.mem == m;
      }
    }
  }

  lemma SettledActive(c: Config, d: Disk, m: Memory)
    requires MemOk(c, d, m) && Settled(m)
    ensures d.active.tail == 0 && m.size == Bytes(d.active) && !AwaitsTruncate(d) && Ledger(d, m) == Durable(d)
    ensures ActiveOk(d, m) && m.next == LastSequence(Durable(d)) && m.lastKey == LastKey(Durable(d))
  {
    hide Covers;
    hide Durable;
  }

  /** A write to recover from: truncating back gives the file of before. */
  ghost predicate PendingOk(d1: Disk, d: Disk, m: Memory, size: nat) {
    var m1 := m.(writeRecoveryPending := true, writeRecoverySize := m.size);
    ActiveOk(d1, m1.(size := size)) && Ledger(d1, m1.(size := size)) == Durable(d)
  }

  lemma PendingActive(d1: Disk, d: Disk, m: Memory, size: nat)
    requires Settled(m) && m.size == Bytes(d.active) && d.active.tail == 0 && d1.archives == d.archives
    requires Truncate(d1.active, m.size) == d.active && d.active.lines <= d1.active.lines
      && |d1.active.lines| <= |d.active.lines| + 1
    requires !AwaitsTruncate(d) && !AwaitsTruncate(d1)
    ensures PendingOk(d1, d, m, size)
  {
    hide Truncate;
    hide Flatten;
    hide Total;
  }

  /** The states a failed write can leave, rolled back or waiting for recovery. */
  lemma BrokenActive(c: Config, d: Disk, m: Memory, r: Record, written: nat)
    requires Fresh(c, d, m, r)
    ensures var d1 := d.(active := Written(d.active, r, written));
            var m1 := m.(writeRecoveryPending := true, writeRecoverySize := m.size);
            && d == d.(active := Truncate(d1.active, m.size))
            && (forall size: nat :: ActiveOk(d1, m1.(size := size)) && ActiveOk(d, m1.(size := size)))
            && (forall size: nat :: Ledger(d1, m1.(size := size)) == Ledger(d, m)
                 && Ledger(d, m1.(size := size)) == Ledger(d, m))
            && m.size == Bytes(d.active) && ActiveOk(d, m) && Ledger(d, m) == Durable(d) && MemOk(c, d, m)
  {
    hide DiskOk;
    hide Covers;
    hide Flatten;
    hide LastN;
    hide ActiveOk;
    var d1 := d.(active := Written(d.active, r, written));
    SettledActive(c, d, m);
    assert r.sequence == LastSequence(Durable(d)) + 1 && LastKey(Durable(d)) != Some(r.key);
    WrittenDisk(c, d, r, written);
    WrittenGrows(d.active, r, written);
    TruncateBack(d.active, r, written);
    TruncateBack(d.active, r, 0);
    hide Durable;
    var m1 := m.(writeRecoveryPending := true, writeRecoverySize := m.size);
    forall size: nat
      ensures ActiveOk(d1, m1.(size := size)) && ActiveOk(d, m1.(size := size))
      ensures Ledger(d1, m1.(size := size)) == Ledger(d, m) && Ledger(d, m1.(size := size)) == Ledger(d, m)
    {
      PendingActive(d1, d, m, size);
      PendingActive(d, d, m, size);
    }
  }

  lemma MemSame(c: Config, d: Disk, m: Memory, d': Disk, m': Memory)
    requires MemOk(c, d, m) && ActiveOk(d', m') && Ledger(d', m') == Ledger(d, m) && d'.archives == d.archives
    requires m' == m.(size := m'.size, writeRecoveryPending := m'.writeRecoveryPending,
      writeRecoverySize := m'.writeRecoverySize)
    ensures MemOk(c, d', m')
  {
  }

  lemma MadeRoomKeeps(c: Config, l: seq<Record>, p: Outcome, length: nat, io: RotateIo)
    requires c.retained >= 1 && Keeps(c, l, p) && p.status.Ok? && Settled(p.mem) && !p.mem.cleanupPending
      && length <= c.maxBytes
    ensures var r := MadeRoom(c, p, length, io);
            && Keeps(c, l, r)
            && (r.status.Ok? ==>
                  && Settled(r.mem) && !r.mem.cleanupPending && r.mem.lastKey == p.mem.lastKey
                  && Bytes(r.disk.active) + length <= c.maxBytes)
  {
    var r := MadeRoom(c, p, length, io);
    if p.mem.size > 0 && p.mem.size + length > c.maxBytes {
      RotateKeeps(c, p.disk, p.mem, io);
      KeepsThen(c, l, p, r);
    }
    hide Rotate;
    hide DiskOk;
    hide Covers;
    hide Durable;
  }

  /** The ledger and the invariant after an outcome, whether the process still runs or not. */
  function After(o: Outcome): seq<Record> { if o.status.Stopped? then Durable(o.disk) else Ledger(o.disk, o.mem) }

  ghost predicate StillOk(c: Config, o: Outcome) {
    DiskOk(c, o.disk) && !o.status.Rejected? && (!o.status.Stopped? ==> MemOk(c, o.disk, o.mem))
  }

  lemma AdvancesBy(l: seq<Record>, kept: seq<Record>, r: Record)
    requires Retains(l, kept)
    ensures Advances(l, kept) && Advances(l, kept + [r]) && LastKey(kept + [r]) == Some(r.key)
  {
    assert (kept + [r])[..|kept|] == kept;
  }

  lemma WriteAdvances(c: Config, l: seq<Record>, r: Outcome, record: Record, io: WriteIo)
    requires r.status.Ok? && Keeps(c, l, r) && Fresh(c, r.disk, r.mem, record)
    ensures var o := WriteLine(c, r.disk, r.mem, record, io);
            && StillOk(c, o) && Advances(l, After(o))
            && (o.status.Failed? ==> Retains(l, After(o)))
            && (o.status.Ok? ==> LastKey(After(o)) == Some(record.key))
            && o.disk.archives == r.disk.archives
  {
    hide DiskOk;
    hide Durable;
    hide Covers;
    hide ActiveOk;
    hide MemOk;
    hide Ledger;
    hide LastN;
    hide Retains;
    hide Advances;
    hide Truncate;
    hide Written;
    SettledActive(c, r.disk, r.mem);
    if io.io.Done? { WriteDone(c, r.disk, r.mem, record, io); } else { WriteBroken(c, r.disk, r.mem, record, io); }
    AdvancesBy(l, Durable(r.disk), record);
  }

  /** What one append does in every outcome; the trace's line must fit in a file. */
  lemma AppendKeeps(c: Config, d: Disk, m: Memory, key: int, length: nat, io: AppendIo)
    requires c.retained >= 1 && c.capacity >= 1 && DiskOk(c, d) && MemOk(c, d, m)
    requires 1 <= length <= c.maxBytes
    ensures var o, l := Append(c, d, m, key, length, io), Ledger(d, m);
            && StillOk(c, o) && Advances(l, After(o))
            && (o.status.Failed? ==> Retains(l, After(o)))
            && (o.status.Ok? ==> LastKey(After(o)) == Some(key) && |o.disk.archives| <= c.retained)
  {
    hide *;
    PrepareKeeps(c, d, m, io);
    var p, l := Prepare(c, d, m, io), Ledger(d, m);
    KeepsMeans(c, l, p);
    AppendStages(c, d, m, key, length, io);
    if p.status.Ok? && p.mem.lastKey != Some(key) { RoomAndWrite(c, l, p, key, length, io); }
  }

  /** An append once the repairs are done and the trace is new. */
  lemma RoomAndWrite(c: Config, l: seq<Record>, p: Outcome, key: int, length: nat, io: AppendIo)
    requires c.retained >= 1 && c.capacity >= 1 && 1 <= length <= c.maxBytes
    requires Keeps(c, l, p) && p.status.Ok? && Settled(p.mem) && !p.mem.cleanupPending && p.mem.lastKey != Some(key)
    ensures var r := MadeRoom(c, p, length, io.rotate);
            var o := if r.status.Ok? then WriteLine(c, r.disk, r.mem, Record(r.mem.next + 1, key, length), io.write)
              else r;
            && StillOk(c, o) && Advances(l, After(o))
            && (o.status.Failed? ==> Retains(l, After(o)))
            && (o.status.Ok? ==> LastKey(After(o)) == Some(key) && |o.disk.archives| <= c.retained)
  {
    hide *;
    var r := MadeRoom(c, p, length, io.rotate);
    MadeRoomKeeps(c, l, p, length, io.rotate);
    KeepsMeans(c, l, r);
    if r.status.Ok? {
      MadeRoomFresh(c, l, r, key, length);
      WriteAdvances(c, l, r, Record(r.mem.next + 1, key, length), io.write);
    }
  }

  lemma AppendStages(c: Config, d: Disk, m: Memory, key: int, length: nat, io: AppendIo)
    ensures var p := Prepare(c, d, m, io);
            var r := MadeRoom(c, p, length, io.rotate);
            Append(c, d, m, key, length, io) ==
              if !p.status.Ok? || p.mem.lastKey == Some(key) then p
              else if !r.status.Ok? then r
              else WriteLine(c, r.disk, r.mem, Record(r.mem.next + 1, key, length), io.write)
  {
  }

  lemma MadeRoomFresh(c: Config, l: seq<Record>, r: Outcome, key: int, length: nat)
    requires Keeps(c, l, r) && r.status.Ok? && Settled(r.mem) && c.capacity >= 1 && length >= 1
    requires r.mem.lastKey != Some(key) && Bytes(r.disk.active) + length <= c.maxBytes
    ensures Fresh(c, r.disk, r.mem, Record(r.mem.next + 1, key, length))
  {
  }

  lemma KeepsMeans(c: Config, l: seq<Record>, o: Outcome)
    requires Keeps(c, l, o)
    ensures StillOk(c, o) && Retains(l, After(o)) && Advances(l, After(o))
    ensures o.status.Ok? ==> LastKey(After(o)) == o.mem.lastKey
    ensures o.status.Ok? && Settled(o.mem) && !o.mem.cleanupPending ==> |o.disk.archives| <= c.retained
  {
  }

  // ---------------------------------------------------------------- start-up

  lemma {:induction false} TotalPositive(lines: seq<Record>)
    requires Positive(lines) && lines != []
    ensures Total(lines) >= 1
  {
    if |lines| > 1 { TotalPositive(lines[..|lines| - 1]); }
  }

  /** Start-up finishes a rotation that had only the truncation left, and then sees the same records. */
  lemma OpenTruncates(c: Config, d: Disk, io: OpenIo)
    requires DiskOk(c, d)
    ensures var m := Scanned(c, d);
            && (AwaitsTruncate(d) <==> m.size != 0 && d.archives != [] && d.active == Newest(d.archives))
            && DiskOk(c, d.(active := if AwaitsTruncate(d) then EMPTY else d.active))
            && !AwaitsTruncate(d.(active := if AwaitsTruncate(d) then EMPTY else d.active))
            && Durable(d.(active := if AwaitsTruncate(d) then EMPTY else d.active)) == Durable(d)
  {
    if AwaitsTruncate(d) {
      TotalPositive(d.active.lines);
      assert Newest(d.archives).lines != [];
      assert Durable(d.(active := EMPTY)) == Durable(d);
    }
  }

  lemma ScannedOk(c: Config, d: Disk)
    requires DiskOk(c, d)
    ensures var m := Scanned(c, d);
            && m.archives == Generations(d.archives)
                 && (forall i :: 0 <= i < |m.archives| ==> m.archives[i] < m.nextArchive)
            && (!m.cleanupPending ==> |m.archives| <= c.retained)
  {
    assert forall i :: 0 <= i < |d.archives| ==> d.archives[i].generation == Generations(d.archives)[i];
  }

  lemma RestoreKeeps(c: Config, d: Disk, m: Memory, repair: Io)
    requires ReadyToRestore(c, d, m)
    ensures var o := Restore(c, d, m, repair);
            && (o.status.Ok? || o.status.Failed?) && DiskOk(c, o.disk) && Durable(o.disk) == Durable(d)
            && (o.status.Ok? ==>
                 MemOk(c, o.disk, o.mem) && Settled(o.mem) && o.mem.values == LastN(Durable(d), c.capacity))
  {
    var f := d.active.(tail := 0);
    KeptDisk(c, d, f);
  }

  ghost predicate ReadyToRestore(c: Config, d: Disk, m: Memory) {
    && DiskOk(c, d) && !AwaitsTruncate(d) && Settled(m) && m.archives == Generations(d.archives)
    && (forall i :: 0 <= i < |m.archives| ==> m.archives[i] < m.nextArchive)
    && (!m.cleanupPending ==> |m.archives| <= c.retained)
  }

  lemma RotationFinishedKeeps(c: Config, d: Disk, io: OpenIo)
    requires DiskOk(c, d)
    ensures var t := RotationFinished(c, d, io);
            && DiskOk(c, t.disk) && !t.status.Rejected? && Durable(t.disk) == Durable(d)
            && (t.status.Ok? ==> ReadyToRestore(c, t.disk, t.mem))
  {
    OpenTruncates(c, d, io);
    ScannedOk(c, d);
    OpenBounds(c, d);
    hide DiskOk;
    hide Durable;
    hide Scanned;
  }

  lemma TrimmedAtStartKeeps(c: Config, o: Outcome, removes: seq<Io>)
    requires c.retained >= 1 && DiskOk(c, o.disk) && !o.status.Rejected?
    requires o.status.Ok? ==> ReadyToRestore(c, o.disk, o.mem)
    ensures var k := TrimmedAtStart(c, o, removes);
            && DiskOk(c, k.disk) && !k.status.Rejected? && Retains(Durable(o.disk), Durable(k.disk))
            && (k.status.Ok? ==> ReadyToRestore(c, k.disk, k.mem))
  {
    hide DiskOk;
    hide Durable;
    hide CleanupArchives;
    RetainsItself(Durable(o.disk));
    if o.status.Ok? && o.mem.cleanupPending { CleanupDisk(c, o.disk, o.mem, removes); }
    hide Retains;
  }

  /** Start-up accepts every disk the recorder can leave, drops nothing but what retention drops, and
      reads back the last sequence, the last key and the last `capacity` records. */
  lemma OpenKeeps(c: Config, d: Disk, io: OpenIo)
    requires c.retained >= 1 && DiskOk(c, d)
    ensures var o := Open(c, d, io);
            && !o.status.Rejected? && DiskOk(c, o.disk) && Retains(Durable(d), Durable(o.disk))
            && (o.status.Ok? ==>
                 MemOk(c, o.disk, o.mem) && Settled(o.mem) && o.mem.values == LastN(Durable(o.disk), c.capacity))
  {
    hide DiskOk;
    hide Durable;
    hide MemOk;
    hide Restore;
    hide RotationFinished;
    hide TrimmedAtStart;
    OpenBounds(c, d);
    RotationFinishedKeeps(c, d, io);
    var t := RotationFinished(c, d, io);
    TrimmedAtStartKeeps(c, t, io.removes);
    var k := TrimmedAtStart(c, t, io.removes);
    if k.status.Ok? { RestoreKeeps(c, k.disk, k.mem, io.repair); }
  }

  lemma OpenBounds(c: Config, d: Disk)
    requires DiskOk(c, d)
    ensures Bytes(d.active) <= c.maxBytes && (d.archives != [] ==> Bytes(Newest(d.archives)) <= c.maxBytes)
    ensures Settled(Scanned(c, d))
  {
  }

  // ---------------------------------------------------------------- every run

  /** What the disk holds, or what a running recorder has acknowledged of it. */
  function Records(s: System): seq<Record> { if s.Up? then Ledger(s.disk, s.mem) else Durable(s.disk) }

  ghost predicate SystemOk(c: Config, s: System) { DiskOk(c, s.disk) && (s.Up? ==> MemOk(c, s.disk, s.mem)) }

  /** Every encoded line fits in a file by itself. */
  predicate Fits(c: Config, e: Event) { e.AppendTrace? ==> 1 <= e.length <= c.maxBytes }

  /** A process that stops between operations leaves its ledger, with at most one more whole line. */
  lemma StopAdvances(c: Config, d: Disk, m: Memory)
    requires DiskOk(c, d) && MemOk(c, d, m)
    ensures Advances(Ledger(d, m), Durable(d))
  {
    if m.writeRecoveryPending {
      var kept := Truncate(d.active, m.writeRecoverySize);
      var l, l' := Ledger(d, m), Durable(d);
      assert l <= l' && |l'| <= |l| + 1;
      if l != l' { assert l'[..|l'| - 1] == l; }
    }
  }

  lemma StepKeeps(c: Config, s: System, e: Event)
    requires c.retained >= 1 && c.capacity >= 1 && SystemOk(c, s) && Fits(c, e)
    ensures SystemOk(c, Step(c, s, e)) && Advances(Records(s), Records(Step(c, s, e)))
  {
    hide DiskOk;
    hide MemOk;
    hide Durable;
    hide Append;
    hide Open;
    match e
    case AppendTrace(key, length, io) => if s.Up? { AppendKeeps(c, s.disk, s.mem, key, length, io); }
    case OpenLedger(io) => if s.Down? { OpenKeeps(c, s.disk, io); }
    case StopProcess => if s.Up? { StopAdvances(c, s.disk, s.mem); }
  }

  lemma {:induction false} RunKeeps(c: Config, events: seq<Event>)
    requires c.retained >= 1 && c.capacity >= 1
    requires forall i :: 0 <= i < |events| ==> Fits(c, events[i])
    ensures SystemOk(c, Run(c, events))
  {
    if events != [] {
      RunKeeps(c, events[..|events| - 1]);
      StepKeeps(c, Run(c, events[..|events| - 1]), events[|events| - 1]);
    }
  }

  /** After any run of appends, failures, process stops and restarts the records on disk are
      consecutive, no two neighbours share a material key, and starting again reads them back:
      never rejected, and with the last sequence, last key and last `capacity` records. */
  lemma LedgerSurvives(c: Config, events: seq<Event>, io: OpenIo)
    requires c.retained >= 1 && c.capacity >= 1
    requires forall i :: 0 <= i < |events| ==> Fits(c, events[i])
    ensures var d := Run(c, events).disk;
            var o := Open(c, d, io);
            && Chain(Durable(d))
            && !o.status.Rejected?
            && Retains(Durable(d), Durable(o.disk))
            && (o.status.Ok? ==>
                  && o.mem.next == LastSequence(Durable(d)) && o.mem.lastKey == LastKey(Durable(d))
                  && o.mem.values == LastN(Durable(o.disk), c.capacity)
                  && o.disk.active.tail == 0)
  {
    RunKeeps(c, events);
    OpenKeeps(c, Run(c, events).disk, io);
    hide Open;
    hide Covers;
  }

  function FirstSequence(l: seq<Record>): nat { if l == [] then 0 else l[0].sequence }

  /** `l'` keeps every record of `l` it has not outlived, adds only newer ones, and changes none. */
  ghost predicate Continues(l: seq<Record>, l': seq<Record>) {
    && FirstSequence(l) <= FirstSequence(l') && LastSequence(l) <= LastSequence(l')
    && (forall r :: r in l' && r.sequence <= LastSequence(l) ==> r in l)
    && (forall r :: r in l && r.sequence >= FirstSequence(l') ==> r in l')
  }

  lemma FirstToLast(l: seq<Record>)
    requires Chain(l)
    ensures FirstSequence(l) <= LastSequence(l)
    ensures forall r :: r in l ==> FirstSequence(l) <= r.sequence <= LastSequence(l)
  {
    hide Contiguous;
    forall r | r in l ensures FirstSequence(l) <= r.sequence <= LastSequence(l) {
      var i :| 0 <= i < |l| && l[i] == r;
      ChainSteps(l, 0, i);
      ChainSteps(l, i, |l| - 1);
    }
    if l != [] { assert l[0] in l; }
  }

  lemma RetainsContinues(l: seq<Record>, l': seq<Record>)
    requires Chain(l) && Retains(l, l')
    ensures Chain(l') && Continues(l, l') && LastSequence(l') == LastSequence(l)
      && (l != [] ==> FirstSequence(l') <= LastSequence(l))
  {
    ChainRetained(l, l');
    FirstToLast(l);
    FirstToLast(l');
    var n := |l| - |l'|;
    forall r | r in l && r.sequence >= FirstSequence(l') ensures r in l' {
      var i :| 0 <= i < |l| && l[i] == r;
      if i < n { ChainSteps(l, i, n); } else { assert l'[i - n] == r; }
    }
    assert forall r :: r in l' ==> r in l;
    hide Chain;
  }

  lemma ChainAfter(l: seq<Record>, n: nat)
    requires Chain(l) && n == |l| - 1
    ensures l[n].sequence >= 1 && (n > 0 ==> l[n].sequence == LastSequence(l[..n]) + 1)
  {
  }

  lemma AppendContinues(l: seq<Record>, kept: seq<Record>, r: Record)
    requires Continues(l, kept) && LastSequence(kept) == LastSequence(l)
      && (l != [] ==> kept != [] && FirstSequence(kept) <= LastSequence(l))
    requires r.sequence >= 1 && (kept != [] ==> r.sequence == LastSequence(kept) + 1) && (kept == [] ==> l == [])
    ensures Continues(l, kept + [r])
  {
    assert forall x :: x in kept + [r] <==> x in kept || x == r;
  }

  lemma AdvanceContinues(l: seq<Record>, l': seq<Record>)
    requires Chain(l) && Chain(l') && Advances(l, l')
    ensures Continues(l, l')
  {
    hide Continues;
    if Retains(l, l') {
      RetainsContinues(l, l');
    } else {
      var n := |l'| - 1;
      RetainsContinues(l, l'[..n]);
      assert l' == l'[..n] + [l'[n]];
      ChainAfter(l', n);
      hide Chain;
      AppendContinues(l, l'[..n], l'[n]);
    }
  }

  lemma ContinuesItself(l: seq<Record>)
    ensures Continues(l, l)
  {
  }

  lemma ContinuesThen(l: seq<Record>, l': seq<Record>, l'': seq<Record>)
    requires Continues(l, l') && Continues(l', l'')
    ensures Continues(l, l'')
  {
  }

  lemma StepContinues(c: Config, s: System, e: Event)
    requires c.retained >= 1 && c.capacity >= 1 && SystemOk(c, s) && Fits(c, e)
    ensures Continues(Records(s), Records(Step(c, s, e)))
  {
    hide Step;
    hide SystemOk;
    hide Records;
    hide Chain;
    hide Continues;
    StepKeeps(c, s, e);
    RecordsChain(c, s);
    RecordsChain(c, Step(c, s, e));
    AdvanceContinues(Records(s), Records(Step(c, s, e)));
  }

  /** Over any continuation of a run, acknowledged records go only by retention, oldest first. */
  lemma {:induction false} AcknowledgedRecordsSurvive(c: Config, events: seq<Event>, more: seq<Event>)
    requires c.retained >= 1 && c.capacity >= 1
    requires forall i :: 0 <= i < |events| ==> Fits(c, events[i])
    requires forall i :: 0 <= i < |more| ==> Fits(c, more[i])
    ensures Continues(Records(Run(c, events)), Records(Run(c, events + more)))
    decreases |more|
  {
    hide Continues;
    hide Step;
    hide SystemOk;
    hide Records;
    RunKeeps(c, events);
    if more == [] {
      assert events + more == events;
      ContinuesItself(Records(Run(c, events)));
    } else {
      var shorter := more[..|more| - 1];
      var all := events + more;
      assert all[..|all| - 1] == events + shorter;
      AcknowledgedRecordsSurvive(c, events, shorter);
      RunKeeps(c, events + shorter);
      var s := Run(c, events + shorter);
      StepContinues(c, s, all[|all| - 1]);
      assert Run(c, all) == Step(c, s, all[|all| - 1]);
      ContinuesThen(Records(Run(c, events)), Records(s), Records(Run(c, all)));
    }
  }

  lemma ChainPrefix(l: seq<Record>, n: nat)
    requires Chain(l) && n <= |l|
    ensures Chain(l[..n])
  {
  }

  lemma RecordsChain(c: Config, s: System)
    requires SystemOk(c, s)
    ensures Chain(Records(s))
  {
    if s.Up? && s.mem.writeRecoveryPending {
      var d := s.disk;
      hide Covers;
      hide LastN;
      hide Flatten;
      hide Total;
      hide ArchivesOk;
      assert Records(s) == Durable(d)[..|Records(s)|];
      ChainPrefix(Durable(d), |Records(s)|);
    }
    hide MemOk;
  }

  // ---------------------------------------------------------------- the two hypotheses are needed

  const ALL_DONE := OpenIo(Done, Done, Done, [], Done, Done)

  /** A written line longer than a file's bound makes the next start-up refuse the ledger, and
      only such a line does. */
  lemma ReopensIffLineFits(c: Config, d: Disk, m: Memory, key: int, length: nat, io: AppendIo)
    requires c.retained >= 1 && c.capacity >= 1 && DiskOk(c, d) && MemOk(c, d, m)
    requires length >= 1 && m.lastKey != Some(key) && Append(c, d, m, key, length, io).status.Ok?
    ensures Open(c, Append(c, d, m, key, length, io).disk, ALL_DONE).status.Rejected? <==> length > c.maxBytes
  {
    hide Append;
    if length <= c.maxBytes {
      AppendKeeps(c, d, m, key, length, io);
      OpenKeeps(c, Append(c, d, m, key, length, io).disk, ALL_DONE);
    } else {
      OversizeActive(c, d, m, key, length, io);
      var d' := Append(c, d, m, key, length, io).disk;
      if d'.archives == [] {
        assert TrimmedAtStart(c, RotationFinished(c, d', ALL_DONE), []).disk == d';
      }
    }
  }

  lemma OversizeActive(c: Config, d: Disk, m: Memory, key: int, length: nat, io: AppendIo)
    requires c.retained >= 1 && c.capacity >= 1 && DiskOk(c, d) && MemOk(c, d, m)
    requires length > c.maxBytes && m.lastKey != Some(key) && Append(c, d, m, key, length, io).status.Ok?
    ensures Bytes(Append(c, d, m, key, length, io).disk.active) > c.maxBytes
  {
    hide *;
    PrepareKeeps(c, d, m, io);
    AppendStages(c, d, m, key, length, io);
    var p := Prepare(c, d, m, io);
    if p.status.Ok? {
      SameKey(c, d, m, p);
      var r := MadeRoom(c, p, length, io.rotate);
      WriteBytes(c, r.disk, r.mem, Record(r.mem.next + 1, key, length), io.write);
    }
  }

  lemma SameKey(c: Config, d: Disk, m: Memory, p: Outcome)
    requires MemOk(c, d, m) && Keeps(c, Ledger(d, m), p) && p.status.Ok?
    ensures p.mem.lastKey == m.lastKey
  {
    CoversRetained(m.values, Ledger(d, m), Ledger(p.disk, p.mem), c.capacity);
  }

  lemma WriteBytes(c: Config, d: Disk, m: Memory, r: Record, io: WriteIo)
    ensures var o := WriteLine(c, d, m, r, io); o.status.Ok? ==> Bytes(o.disk.active) >= r.length
  {
    WrittenGrows(d.active, r, r.length);
  }

  /** Cleanup removes whole archives from the old end and leaves the active file alone. */
  lemma {:induction false} CleanupSuffix(c: Config, d: Disk, m: Memory, removes: seq<Io>) returns (n: nat)
    requires ArchivesOk(c, d.archives) && m.archives == Generations(d.archives)
    ensures n <= |d.archives|
    ensures CleanupArchives(c, d, m, removes).disk == d.(archives := d.archives[n..])
    decreases |m.archives|
  {
    n := 0;
    assert d.archives[0..] == d.archives;
    if |m.archives| > c.retained && removes != [] && !removes[0].Fails? {
      var d1 := d.(archives := RemoveArchive(d.archives, m.archives[0]));
      assert d1.archives == d.archives[1..];
      assert Generations(d1.archives) == m.archives[1..];
      n := 1;
      if !removes[0].Stops? {
        hide ArchivesOk;
        RestOk(c, d.archives);
        var k := CleanupSuffix(c, d1, m.(archives := m.archives[1..]), removes[1..]);
        n := k + 1;
        assert d.archives[1..][k..] == d.archives[k + 1..];
      }
    }
  }

  lemma RestOk(c: Config, archives: seq<Archive>)
    requires ArchivesOk(c, archives) && archives != []
    ensures ArchivesOk(c, archives[1..])
  {
    hide Positive;
  }

  lemma {:induction false} FlattenSuffix(archives: seq<Archive>, n: nat)
    requires n <= |archives|
    ensures |Flatten(archives[n..])| <= |Flatten(archives)|
    ensures Flatten(archives[n..]) == Flatten(archives)[|Flatten(archives)| - |Flatten(archives[n..])|..]
  {
    if n == 0 {
      assert archives[0..] == archives;
    } else {
      FlattenSuffix(archives[1..], n - 1);
      assert archives[1..][n - 1..] == archives[n..];
    }
  }

  /** With the active file emptied and some of the archives gone, the newest record is lost. */
  lemma EmptiedLosesNewest(c: Config, d: Disk, m: Memory, n: nat)
    requires DiskOk(c, d) && MemOk(c, d, m) && Settled(m) && m.size > 0 && n <= |d.archives|
    ensures LastSequence(Durable(Disk(EMPTY, d.archives[n..]))) < LastSequence(Durable(d))
  {
    hide Covers;
    hide LastN;
    var l, old' := Durable(d), Flatten(d.archives);
    assert d.active.lines != [] && l == old' + d.active.lines;
    var e := Disk(EMPTY, d.archives[n..]);
    assert !AwaitsTruncate(e) by {
      if e.archives != [] { assert Newest(e.archives) == d.archives[|d.archives| - 1].file; }
    }
    FlattenSuffix(d.archives, n);
    hide Flatten;
    var rest := Flatten(e.archives);
    assert Durable(e) == rest + [] == rest;
    hide Durable;
    if rest != [] {
      assert rest[|rest| - 1] == old'[|old'| - 1] == l[|old'| - 1];
      ChainSteps(l, |old'| - 1, |l| - 1);
    } else {
      assert l[|l| - 1].sequence >= 1;
    }
  }

  /** A rotation keeps the newest record on disk, whatever fails in it and whenever the process stops,
      exactly unless no archive is retained and the truncation takes effect. */
  lemma RotationSurvivesIffRetained(c: Config, d: Disk, m: Memory, io: RotateIo)
    requires DiskOk(c, d) && MemOk(c, d, m) && Settled(m) && m.size > 0
    ensures LastSequence(Durable(Rotate(c, d, m, io).disk)) == LastSequence(Durable(d)) <==>
      c.retained >= 1 || io.truncate.Fails?
  {
    if c.retained >= 1 {
      RotationKeepsNewest(c, d, m, io);
      hide *;
    } else if !io.truncate.Fails? {
      var n := RotationEmpties(c, d, m, io);
      EmptiedLosesNewest(c, d, m, n);
      hide *;
    }
  }

  lemma RotationEmpties(c: Config, d: Disk, m: Memory, io: RotateIo) returns (n: nat)
    requires DiskOk(c, d) && MemOk(c, d, m) && Settled(m) && c.retained == 0 && !io.truncate.Fails?
    ensures n <= |d.archives| && Rotate(c, d, m, io).disk == Disk(EMPTY, d.archives[n..])
  {
    hide Chain;
    hide Covers;
    hide Durable;
    hide ArchivesOk;
    n := 0;
    assert d.archives[0..] == d.archives;
    var t := TruncateActive(d, m, io.truncate, io.seek);
    if t.status.Ok? {
      n := CleanupSuffix(c, t.disk, t.mem.(pendingArchive := false), io.removes);
      hide CleanupArchives;
    }
  }

  lemma RotationKeepsNewest(c: Config, d: Disk, m: Memory, io: RotateIo)
    requires DiskOk(c, d) && MemOk(c, d, m) && Settled(m) && m.size > 0 && c.retained >= 1
    ensures LastSequence(Durable(Rotate(c, d, m, io).disk)) == LastSequence(Durable(d))
  {
    hide DiskOk;
    hide Covers;
    hide Durable;
    hide ActiveOk;
    RotateKeeps(c, d, m, io);
    RotateSettled(c, d, m, io);
    var o := Rotate(c, d, m, io);
    hide Rotate;
    assert Ledger(d, m) == Durable(d);
    RetainsLast(Durable(d), Durable(o.disk));
  }

  lemma RetainsLast(l: seq<Record>, l': seq<Record>)
    requires Retains(l, l')
    ensures LastSequence(l') == LastSequence(l)
  {
  }

  lemma RotateSettled(c: Config, d: Disk, m: Memory, io: RotateIo)
    requires !m.writeRecoveryPending
    ensures !Rotate(c, d, m, io).mem.writeRecoveryPending
  {
    var d1 := d.(archives := d.archives + [Archive(m.nextArchive, d.active)]);
    var m1 := m.(archives := m.archives + [m.nextArchive], nextArchive := m.nextArchive + 1, pendingArchive := true);
    var t, t1 := TruncateActive(d, m, io.truncate, io.seek), TruncateActive(d1, m1, io.truncate, io.seek);
    CleanupSettled(c, t.disk, t.mem.(pendingArchive := false), io.removes);
    CleanupSettled(c, t1.disk, t1.mem.(pendingArchive := false), io.removes);
    hide CleanupArchives;
  }

  lemma {:induction false} CleanupSettled(c: Config, d: Disk, m: Memory, removes: seq<Io>)
    ensures CleanupArchives(c, d, m, removes).mem.writeRecoveryPending == m.writeRecoveryPending
    decreases |m.archives|
  {
    if |m.archives| > c.retained && removes != [] && removes[0].Done? {
      CleanupSettled(c, d.(archives := RemoveArchive(d.archives, m.archives[0])), m.(archives := m.archives[1..]),
        removes[1..]);
    }
  }

  lemma ContiguousAppend(l: seq<Record>, r: Record)
    requires Contiguous(l)
    ensures Contiguous(l + [r]) <==> r.sequence >= 1 && (LastSequence(l) != 0 ==> r.sequence == LastSequence(l) + 1)
    ensures LastSequence(l + [r]) == r.sequence && LastKey(l + [r]) == Some(r.key)
  {
    assert (l + [r])[|l|] == r;
    assert l != [] ==> (l + [r])[|l| - 1] == l[|l| - 1];
  }

  lemma ContiguousPrefix(l: seq<Record>, n: nat)
    requires n <= |l|
    ensures Contiguous(l) ==> Contiguous(l[..n])
  {
  }

  lemma LastNEmpty(n: nat)
    ensures LastN<Record>([], n) == []
  {
  }

  lemma LastNAppend(l: seq<Record>, r: Record, n: nat)
    requires n >= 1
    ensures LastN(LastN(l, n) + [r], n) == LastN(l + [r], n)
  {
  }

  // ---------------------------------------------------------------- the recorder itself

  class Recorder {
    const c: Config
    var disk: Disk
    var size: nat
    var next: nat
    var values: seq<Record>
    var lastKey: Option<int>
    var archives: seq<nat>
    var nextArchive: nat
    var pendingArchive: bool
    var cleanupPending: bool
    var writeRecoveryPending: bool
    var writeRecoverySize: nat

    ghost function View(): Memory reads this {
      Memory(size, next, values, lastKey, archives, nextArchive, pendingArchive, cleanupPending, writeRecoveryPending,
        writeRecoverySize)
    }

    ghost function State(status: Status): Outcome reads this { Outcome(disk, View(), status) }

    /** Scan the directory, before anything is repaired. */
    constructor (c: Config, disk: Disk)
      ensures this.c == c && this.disk == disk && View() == Scanned(c, disk)
    {
      this.c := c;
      this.disk := disk;
      size, next, values, lastKey := Bytes(disk.active), 0, [], None;
      archives := Generations(disk.archives);
      nextArchive := if |disk.archives| > 0 then Generations(disk.archives)[|disk.archives| - 1] + 1 else 1;
      pendingArchive, cleanupPending := false, |disk.archives| > c.retained;
      writeRecoveryPending, writeRecoverySize := false, 0;
    }

    method TruncateActiveFile(truncate: Io, seek: Io) returns (status: Status)
      modifies this
      ensures State(status) == TruncateActive(old(disk), old(View()), truncate, seek)
    {
      if truncate.Fails? { return Failed; }
      disk := disk.(active := EMPTY);
      if truncate.Stops? || seek.Stops? { return Stopped; }
      if seek.Fails? { return Failed; }
      size := 0;
      return Ok;
    }

    method CleanupOldArchives(removes: seq<Io>) returns (status: Status)
      modifies this
      ensures State(status) == CleanupArchives(c, old(disk), old(View()), removes)
    {
      var i := 0;
      while |archives| > c.retained
        invariant 0 <= i <= |removes|
        invariant CleanupArchives(c, disk, View(), removes[i..]) == CleanupArchives(c, old(disk), old(View()), removes)
        decreases |archives|
      {
        if i == |removes| || removes[i].Fails? { return Failed; }
        disk := disk.(archives := RemoveArchive(disk.archives, archives[0]));
        if removes[i].Stops? { return Stopped; }
        archives := archives[1..];
        i := i + 1;
      }
      cleanupPending := false;
      return Ok;
    }

    method RotateFile(io: RotateIo) returns (status: Status)
      modifies this
      ensures State(status) == Rotate(c, old(disk), old(View()), io)
    {
      hide CleanupArchives;
      if !pendingArchive && c.retained > 0 {
        if io.prepare.Stops? { return Stopped; }
        if io.prepare.Fails? || io.rename.Fails? { return Failed; }
        disk := disk.(archives := disk.archives + [Archive(nextArchive, disk.active)]);
        if io.rename.Stops? { return Stopped; }
        archives := archives + [nextArchive];
        nextArchive := nextArchive + 1;
        pendingArchive := true;
      }
      status := TruncateActiveFile(io.truncate, io.seek);
      if !status.Ok? { return; }
      pendingArchive := false;
      status := CleanupOldArchives(io.removes);
      if status.Failed? { cleanupPending := true; }
    }

    method RecoverWrite(truncate: Io, seek: Io) returns (status: Status)
      modifies this
      ensures State(status) == RecoverPartialWrite(old(disk), old(View()), truncate, seek)
    {
      if truncate.Fails? { return Failed; }
      disk := disk.(active := Truncate(disk.active, writeRecoverySize));
      if truncate.Stops? || seek.Stops? { return Stopped; }
      if seek.Fails? { return Failed; }
      size := writeRecoverySize;
      writeRecoveryPending := false;
      return Ok;
    }

    method AppendTrace(key: int, length: nat, io: AppendIo) returns (status: Status)
      modifies this
      ensures State(status) == Append(c, old(disk), old(View()), key, length, io)
    {
      hide CleanupArchives;
      hide Rotate;
      hide RecoverPartialWrite;
      hide WriteLine;
      status := Ok;
      if writeRecoveryPending { status := RecoverWrite(io.recoverTruncate, io.recoverSeek); }
      if !status.Ok? { return; }
      if pendingArchive { status := RotateFile(io.pending); }
      if !status.Ok? { return; }
      if cleanupPending { status := CleanupOldArchives(io.removes); }
      if !status.Ok? || lastKey == Some(key) { return; }
      if size > 0 && size + length > c.maxBytes { status := RotateFile(io.rotate); }
      if !status.Ok? { return; }
      status := Write(Record(next + 1, key, length), io.write);
    }

    method Write(r: Record, io: WriteIo) returns (status: Status)
      modifies this
      ensures State(status) == WriteLine(c, old(disk), old(View()), r, io)
    {
      var start := size;
      var written := if io.io.Done? then r.length else io.written;
      disk := disk.(active := Written(disk.active, r, written));
      if io.io.Stops? { return Stopped; }
      if io.io.Fails? {
        if !io.rollback.Fails? { disk := disk.(active := Truncate(disk.active, start)); }
        if io.rollback.Stops? { return Stopped; }
        if io.rollback.Fails? || io.seek.Fails? { writeRecoveryPending, writeRecoverySize := true, start; }
        if io.stat.Done? { size := Bytes(disk.active); }
        return Failed;
      }
      size := start + r.length;
      next := r.sequence;
      values := LastN(values + [r], c.capacity);
      lastKey := Some(r.key);
      return Ok;
    }

    /** Consume the records line by line, refusing the first gap. */
    method ConsumeLines(lines: seq<Record>, ghost before: seq<Record>) returns (ok: bool)
      requires c.capacity >= 1 && Contiguous(before)
      requires next == LastSequence(before) && lastKey == LastKey(before) && values == LastN(before, c.capacity)
      modifies this`next, this`lastKey, this`values
      ensures ok <==> Contiguous(before + lines)
      ensures ok ==>
        next == LastSequence(before + lines) && lastKey == LastKey(before + lines)
          && values == LastN(before + lines, c.capacity)
    {
      hide Contiguous;
      hide LastN;
      assert before + lines[..0] == before;
      for i := 0 to |lines|
        invariant Contiguous(before + lines[..i])
        invariant next == LastSequence(before + lines[..i]) && lastKey == LastKey(before + lines[..i])
        invariant values == LastN(before + lines[..i], c.capacity)
      {
        ghost var seen := before + lines[..i];
        assert before + lines[..i + 1] == seen + [lines[i]];
        ContiguousAppend(seen, lines[i]);
        LastNAppend(seen, lines[i], c.capacity);
        if lines[i].sequence == 0 || (next != 0 && lines[i].sequence != next + 1) {
          assert (before + lines)[..|seen| + 1] == seen + [lines[i]];
          ContiguousPrefix(before + lines, |seen| + 1);
          return false;
        }
        next, lastKey := lines[i].sequence, Some(lines[i].key);
        values := LastN(values + [lines[i]], c.capacity);
      }
      assert before + lines[..|lines|] == before + lines;
      return true;
    }

    /** Read the archives in order, then the active file, and cut a partial last line. */
    method RestoreLedger(repair: Io) returns (status: Status)
      requires c.capacity >= 1 && next == 0 && values == [] && lastKey == None
      modifies this
      ensures status == Restore(c, old(disk), old(View()), repair).status
      ensures status.Ok? ==> State(status) == Restore(c, old(disk), old(View()), repair)
    {
      hide Contiguous;
      hide LastN;
      hide Total;
      var ok := ConsumeArchives();
      ghost var records := Flatten(disk.archives) + disk.active.lines;
      assert disk.archives[..|disk.archives|] == disk.archives
        && records[..|Flatten(disk.archives)|] == Flatten(disk.archives);
      ContiguousPrefix(records, |Flatten(disk.archives)|);
      if !ok { return Rejected; }
      if Bytes(disk.active) > c.maxBytes { return Rejected; }
      ok := ConsumeLines(disk.active.lines, Flatten(disk.archives));
      if !ok { return Rejected; }
      if disk.active.tail > 0 {
        if !repair.Done? { return Failed; }
        disk := disk.(active := disk.active.(tail := 0));
      }
      size := Total(disk.active.lines);
      return Ok;
    }

    ghost predicate ArchivesRead(n: nat)
      reads this
    {
      && n <= |disk.archives| && Contiguous(Flatten(disk.archives[..n]))
      && forall j :: 0 <= j < n ==> Bytes(disk.archives[j].file) <= c.maxBytes && disk.archives[j].file.tail == 0
    }

    /** The archives in order; refused for a gap, a file over the bound or a cut-short line. */
    method ConsumeArchives() returns (ok: bool)
      requires c.capacity >= 1 && next == 0 && values == [] && lastKey == None
      modifies this`next, this`lastKey, this`values
      ensures ok == ArchivesRead(|disk.archives|)
      ensures ok ==> var read := Flatten(disk.archives);
        next == LastSequence(read) && lastKey == LastKey(read) && values == LastN(read, c.capacity)
    {
      hide Contiguous;
      hide LastN;
      hide Total;
      EmptyIsContiguous();
      LastNEmpty(c.capacity);
      for i := 0 to |disk.archives|
        invariant ArchivesRead(i)
        invariant var read := Flatten(disk.archives[..i]);
        next == LastSequence(read) && lastKey == LastKey(read) && values == LastN(read, c.capacity)
      {
        var file := disk.archives[i].file;
        ghost var read := Flatten(disk.archives[..i]);
        assert disk.archives[..i + 1] == disk.archives[..i] + [disk.archives[i]];
        FlattenAppend(disk.archives[..i], disk.archives[i]);
        if Bytes(file) > c.maxBytes {
          assert !(Bytes(disk.archives[i].file) <= c.maxBytes);
          return false;
        }
        FlattenTail(disk.archives, i + 1);
        assert read + file.lines <= Flatten(disk.archives);
        var consumed := ConsumeLines(file.lines, read);
        if !consumed {
          ContiguousPrefix(Flatten(disk.archives), |read + file.lines|);
          assert Flatten(disk.archives)[..|read + file.lines|] == read + file.lines;
          assert disk.archives[..|disk.archives|] == disk.archives;
          return false;
        }
        if file.tail > 0 { return false; }
      }
      assert disk.archives[..|disk.archives|] == disk.archives;
      return true;
    }
  }

  lemma EmptyIsContiguous()
    ensures Contiguous([])
  {
  }

  lemma {:induction false} FlattenTail(archives: seq<Archive>, n: nat)
    requires n <= |archives|
    ensures Flatten(archives[..n]) <= Flatten(archives)
  {
    if n > 0 {
      assert archives[..n][1..] == archives[1..][..n - 1];
      FlattenTail(archives[1..], n - 1);
    }
  }
}
