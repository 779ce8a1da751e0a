/** What an append and a start-up do to the ledger's files when their I/O succeeds
    (internal/attention/recorder.go), in terms of file contents alone. */
module LedgerAppends {
  import opened DecisionLedger

  /** The acknowledged records that no archive holds yet. */
  function Unarchived(d: Disk, m: Memory): seq<Record> {
    if |Flatten(d.archives)| <= |Ledger(d, m)| then Ledger(d, m)[|Flatten(d.archives)|..] else []
  }

  /** The ledger after a successful append of a trace: nothing for a repeated key, one more line if the
      file is empty or the line fits behind what it holds, otherwise a new archive and a file with that
      line; of the archives the newest `retained` stay. */
  function Appended(c: Config, archives: seq<Archive>, lines: seq<Record>, nextArchive: nat, repeated: bool,
      r: Record): Disk
  {
    var kept := LastN(archives, c.retained);
    if repeated then Disk(File(lines, 0), kept)
    else if lines == [] || Total(lines) + r.length <= c.maxBytes then Disk(File(lines + [r], 0), kept)
    else Disk(File([r], 0), LastN(kept + [Archive(nextArchive, File(lines, 0))], c.retained))
  }

  predicate AllDone(io: seq<Io>) { forall i :: 0 <= i < |io| ==> io[i].Done? }

  predicate RotateDone(io: RotateIo, archives: nat) {
    io.prepare.Done? && io.rename.Done? && io.truncate.Done? && io.seek.Done? && AllDone(io.removes)
      && |io.removes| > archives
  }

  /** Every step that is taken succeeds. */
  predicate AppendDone(io: AppendIo, archives: nat) {
    && io.recoverTruncate.Done? && io.recoverSeek.Done? && RotateDone(io.pending, archives)
    && RotateDone(io.rotate, archives) && AllDone(io.removes) && |io.removes| > archives && io.write.io.Done?
  }

  lemma {:induction false} CleanupDone(c: Config, d: Disk, m: Memory, removes: seq<Io>)
    requires m.archives == Generations(d.archives) && AllDone(removes) && |removes| >= |d.archives|
    ensures CleanupArchives(c, d, m, removes) ==
      Outcome(d.(archives := LastN(d.archives, c.retained)),
              m.(archives := LastN(m.archives, c.retained), cleanupPending := false), Ok)
    decreases |m.archives|
  {
    if |m.archives| > c.retained {
      var d1 := d.(archives := RemoveArchive(d.archives, m.archives[0]));
      RemoveFirst(d.archives);
      LastNRest(d.archives, c.retained);
      LastNRest(m.archives, c.retained);
      hide Generations;
      hide RemoveArchive;
      hide LastN;
      CleanupDone(c, d1, m.(archives := m.archives[1..]), removes[1..]);
    }
  }

  lemma RemoveFirst(archives: seq<Archive>)
    requires archives != []
    ensures RemoveArchive(archives, Generations(archives)[0]) == archives[1..]
    ensures Generations(archives[1..]) == Generations(archives)[1..] && |Generations(archives)| == |archives|
  {
    assert Generations(archives)[0] == archives[0].generation;
  }

  lemma LastNRest<T>(s: seq<T>, n: nat)
    requires |s| > n
    ensures LastN(s[1..], n) == LastN(s, n)
  {
  }

  lemma GenerationsLastN(archives: seq<Archive>, n: nat)
    ensures Generations(LastN(archives, n)) == LastN(Generations(archives), n)
  {
  }

  /** A recorder with nothing left to repair, over given files. */
  function Clean(m: Memory, size: nat, generations: seq<nat>, nextArchive: nat): Memory {
    m.(size := size, archives := generations, nextArchive := nextArchive, pendingArchive := false,
       cleanupPending := false, writeRecoveryPending := false)
  }

  lemma FinishRotationDone(c: Config, d: Disk, m: Memory, io: RotateIo)
    requires m.archives == Generations(d.archives) && RotateDone(io, 0) && |io.removes| >= |d.archives|
    requires !m.writeRecoveryPending
    ensures FinishRotation(c, d, m, io) ==
      Outcome(Disk(EMPTY, LastN(d.archives, c.retained)),
              Clean(m, 0, LastN(m.archives, c.retained), m.nextArchive), Ok)
  {
    CleanupDone(c, d.(active := EMPTY), m.(size := 0, pendingArchive := false), io.removes);
  }

  /** The files and the memory once an append has made its repairs. */
  function Prepared(c: Config, d: Disk, m: Memory): Outcome {
    Outcome(Disk(File(Unarchived(d, m), 0), LastN(d.archives, c.retained)),
            Clean(m, Total(Unarchived(d, m)), LastN(m.archives, c.retained), m.nextArchive), Ok)
  }

  lemma UnarchivedIs(c: Config, d: Disk, m: Memory)
    requires MemOk(c, d, m)
    ensures m.pendingArchive ==> Unarchived(d, m) == []
    ensures m.writeRecoveryPending ==>
      && Truncate(d.active, m.writeRecoverySize) == File(Unarchived(d, m), 0)
      && m.writeRecoverySize == Total(Unarchived(d, m))
    ensures Settled(m) ==> d.active == File(Unarchived(d, m), 0) && m.size == Total(Unarchived(d, m))
    ensures Ledger(d, m) == Flatten(d.archives) + Unarchived(d, m)
    ensures !(m.pendingArchive && m.writeRecoveryPending)
  {
    hide Covers;
    hide Flatten;
    hide LastN;
    hide Total;
    hide Truncate;
  }

  lemma LastNTwice<T>(s: seq<T>, n: nat)
    ensures LastN(LastN(s, n), n) == LastN(s, n)
    ensures |s| <= n ==> LastN(s, n) == s
  {
  }

  lemma RotatePending(c: Config, d: Disk, m: Memory, io: RotateIo)
    requires MemOk(c, d, m) && m.pendingArchive && RotateDone(io, |d.archives|)
    ensures Rotate(c, d, m, io) == Prepared(c, d, m)
  {
    UnarchivedIs(c, d, m);
    FinishRotationDone(c, d, m, io);
    hide MemOk;
    hide FinishRotation;
  }

  lemma PrepareDone(c: Config, d: Disk, m: Memory, io: AppendIo)
    requires MemOk(c, d, m) && AppendDone(io, |d.archives|)
    ensures Prepare(c, d, m, io) == Prepared(c, d, m)
  {
    var o := Repaired(d, m, io);
    UnarchivedIs(c, d, m);
    GenerationsLastN(d.archives, c.retained);
    LastNTwice(d.archives, c.retained);
    LastNTwice(m.archives, c.retained);
    assert m.archives == Generations(d.archives);
    assert !m.cleanupPending && !m.pendingArchive ==> |m.archives| <= c.retained;
    if m.pendingArchive {
      RotatePending(c, d, m, io.pending);
    } else {
      assert o == Outcome(Disk(File(Unarchived(d, m), 0), d.archives),
        m.(size := Total(Unarchived(d, m)), writeRecoveryPending := false), Ok);
      CleanupDone(c, o.disk, o.mem, io.removes);
    }
    hide MemOk;
    hide Rotate;
    hide CleanupArchives;
    hide LastN;
    hide Unarchived;
  }

  lemma UnarchivedPositive(c: Config, d: Disk, m: Memory)
    requires DiskOk(c, d) && MemOk(c, d, m)
    ensures Total(Unarchived(d, m)) == 0 <==> Unarchived(d, m) == []
  {
    UnarchivedIs(c, d, m);
    hide Covers;
    hide Unarchived;
    if Unarchived(d, m) != [] {
      assert Positive(Unarchived(d, m));
      TotalPositive(Unarchived(d, m));
    }
  }

  lemma RotateFull(c: Config, d: Disk, m: Memory, io: RotateIo)
    requires m.archives == Generations(d.archives) && Settled(m) && RotateDone(io, |d.archives|)
    ensures var o := Rotate(c, d, m, io);
      && o.status.Ok? && o.disk == Disk(EMPTY, LastN(d.archives + [Archive(m.nextArchive, d.active)], c.retained))
      && o.mem.next == m.next && o.mem.values == m.values
  {
    var a := Archive(m.nextArchive, d.active);
    if c.retained == 0 {
      FinishRotationDone(c, d, m, io);
    } else {
      var d1, m1 := d.(archives := d.archives + [a]), m.(archives := m.archives + [m.nextArchive],
        nextArchive := m.nextArchive + 1, pendingArchive := true);
      assert m1.archives == Generations(d1.archives);
      FinishRotationDone(c, d1, m1, io);
    }
    hide FinishRotation;
  }

  /** The exact result of an append none of whose steps fails, on every ledger a run can leave, repairs
      included and whatever the length of the line. */
  lemma AppendEffect(c: Config, d: Disk, m: Memory, key: int, length: nat, io: AppendIo)
    requires DiskOk(c, d) && MemOk(c, d, m) && AppendDone(io, |d.archives|)
    ensures var o, r := Append(c, d, m, key, length, io), Record(LastSequence(Ledger(d, m)) + 1, key, length);
      var repeated := LastKey(Ledger(d, m)) == Some(key);
      && o.status.Ok?
      && o.disk == Appended(c, d.archives, Unarchived(d, m), m.nextArchive, repeated, r)
      && o.mem.values == if repeated then m.values else LastN(m.values + [r], c.capacity)
  {
    UnarchivedPositive(c, d, m);
    PrepareDone(c, d, m, io);
    AppendStages(c, d, m, key, length, io);
    assert m.next == LastSequence(Ledger(d, m)) && m.lastKey == LastKey(Ledger(d, m));
    assert m.archives == Generations(d.archives);
    hide MemOk;
    hide DiskOk;
    hide Ledger;
    hide Prepare;
    hide Append;
    hide Unarchived;
    PreparedAppend(c, d, m, Unarchived(d, m), key, length, io);
  }

  /** The rest of an append, from files that need no repair. */
  lemma PreparedAppend(c: Config, d: Disk, m: Memory, lines: seq<Record>, key: int, length: nat, io: AppendIo)
    requires m.archives == Generations(d.archives) && AppendDone(io, |d.archives|)
    requires Total(lines) == 0 <==> lines == []
    ensures var p := Outcome(Disk(File(lines, 0), LastN(d.archives, c.retained)),
        Clean(m, Total(lines), LastN(m.archives, c.retained), m.nextArchive), Ok);
      var r := Record(m.next + 1, key, length);
      var room := MadeRoom(c, p, length, io.rotate);
      && room.status.Ok? && room.mem.next == m.next
      && WriteLine(c, room.disk, room.mem, r, io.write).status.Ok?
      && WriteLine(c, room.disk, room.mem, r, io.write).disk == Appended(c, d.archives, lines, m.nextArchive, false, r)
      && WriteLine(c, room.disk, room.mem, r, io.write).mem.values == LastN(m.values + [r], c.capacity)
  {
    GenerationsLastN(d.archives, c.retained);
    var p := Outcome(Disk(File(lines, 0), LastN(d.archives, c.retained)),
      Clean(m, Total(lines), LastN(m.archives, c.retained), m.nextArchive), Ok);
    RoomDone(c, p, length, io.rotate);
    hide MadeRoom;
    hide LastN;
    hide Total;
    hide Generations;
    assert EMPTY.lines + [Record(m.next + 1, key, length)] == [Record(m.next + 1, key, length)];
  }

  lemma RoomDone(c: Config, p: Outcome, length: nat, io: RotateIo)
    requires p.status.Ok? && Settled(p.mem) && p.mem.archives == Generations(p.disk.archives)
      && RotateDone(io, |p.disk.archives|)
    ensures var o := MadeRoom(c, p, length, io);
      && o.status.Ok? && o.mem.next == p.mem.next && o.mem.values == p.mem.values
      && o.disk ==
        if p.mem.size == 0 || p.mem.size + length <= c.maxBytes then p.disk
        else Disk(EMPTY, LastN(p.disk.archives + [Archive(p.mem.nextArchive, p.disk.active)], c.retained))
  {
    RotateFull(c, p.disk, p.mem, io);
    hide Rotate;
    hide LastN;
  }

  /** The same at any point of any run. */
  lemma AppendEffectOverRuns(c: Config, events: seq<Event>, key: int, length: nat, io: AppendIo)
    requires c.retained >= 1 && c.capacity >= 1
    requires forall i :: 0 <= i < |events| ==> Fits(c, events[i])
    requires Run(c, events).Up? && AppendDone(io, |Run(c, events).disk.archives|)
    ensures var s, s' := Run(c, events), Step(c, Run(c, events), Event.AppendTrace(key, length, io));
      var r := Record(LastSequence(Records(s)) + 1, key, length);
      && s'.Up?
      && s'.disk == Appended(c, s.disk.archives, Unarchived(s.disk, s.mem), s.mem.nextArchive,
                             LastKey(Records(s)) == Some(key), r)
  {
    RunKeeps(c, events);
    var s := Run(c, events);
    AppendEffect(c, s.disk, s.mem, key, length, io);
    hide Append;
  }

  // ---------------------------------------------------------------- whatever fails

  lemma {:induction false} CleanupAddsNothing(c: Config, d: Disk, m: Memory, removes: seq<Io>)
    ensures var o := CleanupArchives(c, d, m, removes);
      && (forall a :: a in o.disk.archives ==> a in d.archives) && o.disk.active == d.active
      && o.mem == m.(archives := o.mem.archives, cleanupPending := o.mem.cleanupPending)
    decreases |m.archives|
  {
    if |m.archives| > c.retained && removes != [] && !removes[0].Fails? {
      RemoveAddsNothing(d.archives, m.archives[0]);
      if !removes[0].Stops? {
        CleanupAddsNothing(c, d.(archives := RemoveArchive(d.archives, m.archives[0])),
          m.(archives := m.archives[1..]), removes[1..]);
      }
    }
  }

  lemma {:induction false} RemoveAddsNothing(archives: seq<Archive>, generation: nat)
    ensures forall a :: a in RemoveArchive(archives, generation) ==> a in archives
  {
    if archives != [] && archives[0].generation != generation { RemoveAddsNothing(archives[1..], generation); }
  }

  lemma FinishRotationAddsNothing(c: Config, d: Disk, m: Memory, io: RotateIo)
    ensures var o := FinishRotation(c, d, m, io);
      && (forall a :: a in o.disk.archives ==> a in d.archives)
      && (o.status.Ok? ==>
            && o.disk.active == EMPTY
            && o.mem == m.(archives := o.mem.archives, cleanupPending := o.mem.cleanupPending, size := 0,
                           pendingArchive := false))
  {
    CleanupAddsNothing(c, d.(active := EMPTY), m.(size := 0, pendingArchive := false), io.removes);
    hide CleanupArchives;
  }

  /** No archive was added and, if all went well, the files hold `lines` behind the archives. */
  ghost predicate Readied(d: Disk, m: Memory, lines: seq<Record>, p: Outcome) {
    && (forall a :: a in p.disk.archives ==> a in d.archives)
    && (p.status.Ok? ==>
          && p.mem.nextArchive == m.nextArchive && p.mem.lastKey == m.lastKey && p.mem.next == m.next
          && p.mem.values == m.values && !p.mem.writeRecoveryPending
          && (!p.mem.pendingArchive ==> p.disk.active == File(lines, 0) && p.mem.size == Total(lines)))
  }

  lemma RepairedReadies(c: Config, d: Disk, m: Memory, io: AppendIo)
    requires MemOk(c, d, m)
    ensures var o := Repaired(d, m, io);
      Readied(d, m, Unarchived(d, m), o) && (o.status.Ok? && o.mem.pendingArchive ==> Unarchived(d, m) == [])
  {
    UnarchivedIs(c, d, m);
    hide *;
    RepairedIs(d, m, Unarchived(d, m), io);
  }

  lemma RepairedIs(d: Disk, m: Memory, lines: seq<Record>, io: AppendIo)
    requires !(m.pendingArchive && m.writeRecoveryPending) && (m.pendingArchive ==> lines == [])
    requires m.writeRecoveryPending ==>
      Truncate(d.active, m.writeRecoverySize) == File(lines, 0) && m.writeRecoverySize == Total(lines)
    requires Settled(m) ==> d.active == File(lines, 0) && m.size == Total(lines)
    ensures var o := Repaired(d, m, io);
      Readied(d, m, lines, o) && (o.status.Ok? && o.mem.pendingArchive ==> lines == [])
  {
    hide Truncate;
    hide Total;
  }

  lemma UnblockedReadies(c: Config, d: Disk, m: Memory, lines: seq<Record>, o: Outcome, io: RotateIo)
    requires Readied(d, m, lines, o) && (o.status.Ok? && o.mem.pendingArchive ==> lines == [])
    ensures var u := Unblocked(c, o, io); Readied(d, m, lines, u) && (u.status.Ok? ==> Settled(u.mem))
  {
    FinishRotationAddsNothing(c, o.disk, o.mem, io);
    hide FinishRotation;
  }

  lemma TrimmedReadies(c: Config, d: Disk, m: Memory, lines: seq<Record>, u: Outcome, removes: seq<Io>)
    requires Readied(d, m, lines, u) && (u.status.Ok? ==> Settled(u.mem))
    ensures var p := Trimmed(c, u, removes); Readied(d, m, lines, p) && (p.status.Ok? ==> Settled(p.mem))
  {
    CleanupAddsNothing(c, u.disk, u.mem, removes);
    hide CleanupArchives;
    hide Total;
  }

  /** What is left to archive once the repairs are done, whatever they went through. */
  lemma PrepareAddsNothing(c: Config, d: Disk, m: Memory, io: AppendIo)
    requires MemOk(c, d, m)
    ensures var p := Prepare(c, d, m, io); Readied(d, m, Unarchived(d, m), p) && (p.status.Ok? ==> Settled(p.mem))
  {
    var lines, o := Unarchived(d, m), Repaired(d, m, io);
    RepairedReadies(c, d, m, io);
    UnblockedReadies(c, d, m, lines, o, io.pending);
    TrimmedReadies(c, d, m, lines, Unblocked(c, o, io.pending), io.removes);
    hide Repaired;
    hide Unblocked;
    hide Trimmed;
    hide Readied;
    hide MemOk;
  }

  /** Whatever fails, an archive appears only when a new trace's line does not fit behind what the active
      file holds, and it holds exactly those records under the next number. */
  lemma NewArchiveOnlyWhenFull(c: Config, d: Disk, m: Memory, key: int, length: nat, io: AppendIo, a: Archive)
    requires MemOk(c, d, m)
    requires a in Append(c, d, m, key, length, io).disk.archives && a !in d.archives
    ensures a == Archive(m.nextArchive, File(Unarchived(d, m), 0))
    ensures LastKey(Ledger(d, m)) != Some(key) && Total(Unarchived(d, m)) > 0
      && Total(Unarchived(d, m)) + length > c.maxBytes
  {
    PrepareAddsNothing(c, d, m, io);
    hide MemOk;
    hide Prepare;
    hide Unarchived;
    hide Ledger;
    AppendStages(c, d, m, key, length, io);
    hide Append;
    RoomAdds(c, Prepare(c, d, m, io), length, io.rotate, a);
    hide MadeRoom;
  }

  lemma RoomAdds(c: Config, p: Outcome, length: nat, io: RotateIo, a: Archive)
    requires p.status.Ok? ==> Settled(p.mem)
    ensures a in MadeRoom(c, p, length, io).disk.archives && a !in p.disk.archives ==>
      && p.status.Ok? && a == Archive(p.mem.nextArchive, p.disk.active)
      && p.mem.size > 0 && p.mem.size + length > c.maxBytes
  {
    var d1 := p.disk.(archives := p.disk.archives + [Archive(p.mem.nextArchive, p.disk.active)]);
    var m1 := p.mem.(archives := p.mem.archives + [p.mem.nextArchive], nextArchive := p.mem.nextArchive + 1,
      pendingArchive := true);
    FinishRotationAddsNothing(c, p.disk, p.mem, io);
    FinishRotationAddsNothing(c, d1, m1, io);
    hide FinishRotation;
  }

  /** With nothing to repair and room for the line, an append is its write. */
  lemma AppendIsWrite(c: Config, d: Disk, m: Memory, key: int, length: nat, io: AppendIo)
    requires MemOk(c, d, m) && Settled(m) && !m.cleanupPending
    requires LastKey(Ledger(d, m)) != Some(key) && Bytes(d.active) + length <= c.maxBytes
    ensures d.active.tail == 0 && m.size == Bytes(d.active)
    ensures Append(c, d, m, key, length, io) ==
      WriteLine(c, d, m, Record(LastSequence(Ledger(d, m)) + 1, key, length), io.write)
  {
    UnarchivedIs(c, d, m);
    AppendStages(c, d, m, key, length, io);
    assert m.next == LastSequence(Ledger(d, m)) && m.lastKey == LastKey(Ledger(d, m));
    hide MemOk;
    hide Append;
    hide Ledger;
    hide WriteLine;
    hide Rotate;
  }

  /** With nothing to repair, a new trace that fits is one more line and nothing else, whatever I/O other
      than its write would have done. */
  lemma FittingAppend(c: Config, d: Disk, m: Memory, key: int, length: nat, io: AppendIo)
    requires MemOk(c, d, m) && Settled(m) && !m.cleanupPending
    requires LastKey(Ledger(d, m)) != Some(key) && Bytes(d.active) + length <= c.maxBytes && io.write.io.Done?
    ensures var o, r := Append(c, d, m, key, length, io), Record(LastSequence(Ledger(d, m)) + 1, key, length);
      o.status.Ok? && o.disk.archives == d.archives && o.disk.active == File(d.active.lines + [r], 0)
  {
    AppendIsWrite(c, d, m, key, length, io);
    hide MemOk;
    hide Append;
    hide Ledger;
  }

  /** A write that fails is reported, and undone at once if the truncation works: the files are as before
      and nothing is left to repair. If it does not, the next append has the repair to make. */
  lemma FailedWriteEffect(c: Config, d: Disk, m: Memory, key: int, length: nat, io: AppendIo)
    requires MemOk(c, d, m) && Settled(m) && !m.cleanupPending
    requires LastKey(Ledger(d, m)) != Some(key) && 1 <= length && Bytes(d.active) + length <= c.maxBytes
    requires io.write.io.Fails? && !io.write.rollback.Stops?
    ensures var o := Append(c, d, m, key, length, io);
      && o.status.Failed? && o.disk.archives == d.archives
      && (io.write.rollback.Done? ==> o.disk == d)
      && (o.mem.writeRecoveryPending <==> io.write.rollback.Fails? || io.write.seek.Fails?)
      && o.mem.next == m.next && o.mem.lastKey == m.lastKey && o.mem.values == m.values
  {
    AppendIsWrite(c, d, m, key, length, io);
    TruncateBack(d.active, Record(LastSequence(Ledger(d, m)) + 1, key, length), io.write.written);
    hide Truncate;
    hide MemOk;
    hide Append;
    hide Ledger;
  }

  // ---------------------------------------------------------------- start-up

  predicate NoneStops(io: seq<Io>) { forall i :: 0 <= i < |io| ==> !io[i].Stops? }

  lemma {:induction false} CleanupGoesOn(c: Config, d: Disk, m: Memory, removes: seq<Io>)
    requires NoneStops(removes)
    ensures var o := CleanupArchives(c, d, m, removes); (o.status.Ok? || o.status.Failed?) && o.disk.active == d.active
    decreases |m.archives|
  {
    if |m.archives| > c.retained && removes != [] && !removes[0].Fails? {
      CleanupGoesOn(c, d.(archives := RemoveArchive(d.archives, m.archives[0])), m.(archives := m.archives[1..]),
        removes[1..]);
    }
  }

  /** Start-up succeeds exactly if the files can be opened and read, an interrupted rotation can be finished
      and a cut-short line removed; a removal that fails does not stop it. The active file then holds its
      complete lines, or nothing if they are the newest archive already. */
  lemma OpenEffect(c: Config, d: Disk, io: OpenIo)
    requires c.retained >= 1 && DiskOk(c, d) && NoneStops(io.removes)
    ensures var o := Open(c, d, io);
      && (o.status.Ok? <==>
            io.open.Done? && io.read.Done?
            && (if AwaitsTruncate(d) then io.truncate.Done? && io.seek.Done?
                else d.active.tail > 0 ==> io.repair.Done?))
      && (o.status.Ok? ==> o.disk.active == if AwaitsTruncate(d) then EMPTY else File(d.active.lines, 0))
      && (o.status.Ok? && AllDone(io.removes) && |io.removes| >= |d.archives| ==>
            o.disk.archives == LastN(d.archives, c.retained))
  {
    FinishedAtStart(c, d, io);
    OpenBounds(c, d);
    RotationFinishedKeeps(c, d, io);
    var t := RotationFinished(c, d, io);
    TrimmedAtStartKeeps(c, t, io.removes);
    CleanedAtStart(c, t, io.removes);
    var k := TrimmedAtStart(c, t, io.removes);
    if k.status.Ok? { RestoredAtStart(c, k.disk, k.mem, io.repair); }
    hide DiskOk;
    hide ReadyToRestore;
    hide RotationFinished;
    hide TrimmedAtStart;
    hide Restore;
    hide AwaitsTruncate;
    hide Durable;
    hide LastN;
  }

  lemma FinishedAtStart(c: Config, d: Disk, io: OpenIo)
    requires DiskOk(c, d)
    ensures var t := RotationFinished(c, d, io);
      && (t.status.Ok? <==> (AwaitsTruncate(d) ==> io.truncate.Done? && io.seek.Done?))
      && (t.status.Ok? ==> t.disk == d.(active := if AwaitsTruncate(d) then EMPTY else d.active))
      && t.mem.archives == Generations(d.archives) && (!t.mem.cleanupPending ==> |d.archives| <= c.retained)
  {
    OpenTruncates(c, d, io);
    hide DiskOk;
    hide Durable;
  }

  lemma CleanedAtStart(c: Config, t: Outcome, removes: seq<Io>)
    requires NoneStops(removes)
    ensures var k := TrimmedAtStart(c, t, removes);
      && (k.status.Ok? <==> t.status.Ok?) && k.disk.active == t.disk.active
      && (AllDone(removes) && |removes| >= |t.disk.archives| && t.status.Ok?
          && t.mem.archives == Generations(t.disk.archives)
          && (!t.mem.cleanupPending ==> |t.disk.archives| <= c.retained) ==>
            k.disk.archives == LastN(t.disk.archives, c.retained))
  {
    CleanupGoesOn(c, t.disk, t.mem, removes);
    if AllDone(removes) && |removes| >= |t.disk.archives| && t.mem.archives == Generations(t.disk.archives) {
      CleanupDone(c, t.disk, t.mem, removes);
    }
    hide CleanupArchives;
  }

  lemma RestoredAtStart(c: Config, d: Disk, m: Memory, repair: Io)
    requires ReadyToRestore(c, d, m)
    ensures var o := Restore(c, d, m, repair);
      && (o.status.Ok? <==> (d.active.tail > 0 ==> repair.Done?))
      && (o.status.Ok? ==> o.disk == d.(active := File(d.active.lines, 0)))
  {
    RestoreKeeps(c, d, m, repair);
    hide DiskOk;
    hide Durable;
  }

  /** Sequence numbers that start at one or later and count up by one. */
  ghost predicate CountsUp(l: seq<Record>) {
    l == [] || (l[0].sequence >= 1 && forall i :: 0 <= i < |l| ==> l[i].sequence == l[0].sequence + i)
  }

  lemma ContiguousCountsUp(l: seq<Record>)
    ensures Contiguous(l) <==> CountsUp(l)
  {
    if Contiguous(l) && l != [] {
      forall i | 0 <= i < |l| ensures l[i].sequence == l[0].sequence + i { ChainSteps(l, 0, i); }
    }
  }

  /** Whatever the directory holds, start-up accepts it exactly if no file is over the bound, every archive ends
      with a whole line and the records count up, leaving out an active file that repeats the newest archive. */
  lemma OpenAcceptsExactly(c: Config, d: Disk, io: OpenIo)
    requires |d.archives| <= c.retained && io.open.Done? && io.read.Done? && io.repair.Done?
    requires io.truncate.Done? && io.seek.Done? && Positive(d.active.lines)
    ensures var archived := d.archives != [] && d.active == d.archives[|d.archives| - 1].file;
      Open(c, d, io).status.Ok? <==>
        && (forall i :: 0 <= i < |d.archives| ==>
              Bytes(d.archives[i].file) <= c.maxBytes && d.archives[i].file.tail == 0)
        && Bytes(d.active) <= c.maxBytes
        && CountsUp(Flatten(d.archives) + if archived then [] else d.active.lines)
  {
    if d.active.lines != [] { TotalPositive(d.active.lines); }
    var archived := d.archives != [] && d.active == d.archives[|d.archives| - 1].file;
    var left := d.(active := if archived && Bytes(d.active) > 0 then EMPTY else d.active);
    assert Flatten(d.archives) + left.active.lines == Flatten(d.archives) + if archived then [] else d.active.lines;
    hide Positive;
    hide Flatten;
    hide CountsUp;
    var t := RotationFinished(c, d, io);
    assert t.status.Ok? && !t.mem.cleanupPending && t.disk == left;
    hide RotationFinished;
    RestoreAccepts(c, left, t.mem, io.repair);
    hide Restore;
  }

  lemma RestoreAccepts(c: Config, d: Disk, m: Memory, repair: Io)
    requires repair.Done?
    ensures Restore(c, d, m, repair).status.Ok? <==>
      && (forall i :: 0 <= i < |d.archives| ==>
              Bytes(d.archives[i].file) <= c.maxBytes && d.archives[i].file.tail == 0)
      && Bytes(d.active) <= c.maxBytes && CountsUp(Flatten(d.archives) + d.active.lines)
  {
    hide Total;
    ContiguousCountsUp(Flatten(d.archives) + d.active.lines);
    hide Contiguous;
    hide CountsUp;
    hide Flatten;
  }
}
