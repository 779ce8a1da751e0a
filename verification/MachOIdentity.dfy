/** Inserting a deterministic LC_UUID into a Mach-O file (cmd/releasectl/macho.go).

    A file is a byte array; its load commands are read back independently of the insertion. The digest
    of the old contents is a parameter: any 32 bytes. */
module MachOIdentity {

  type Byte = x: int | 0 <= x < 256

  datatype Option<T> = None | Some(value: T)

  const HEADER_SIZE := 32
  const MAGIC_64 := 0xfeed_facf
  const LC_UUID := 0x1b
  const UUID_CMD_SIZE := 24
  const UINT32 := 0x1_0000_0000

  // ---------------------------------------------------------------- reading

  function U32(d: seq<Byte>, i: nat): nat
    requires i + 4 <= |d|
  {
    d[i] as int + 0x100 * (d[i + 1] as int) + 0x1_0000 * (d[i + 2] as int) + 0x100_0000 * (d[i + 3] as int)
  }

  /** A load command: all its bytes, header included. */
  datatype Command = Command(kind: nat, bytes: seq<Byte>)

  /** The n commands that fill the bytes from offset to end exactly, or nothing. */
  function Commands(d: seq<Byte>, offset: nat, n: nat, end: nat): Option<seq<Command>>
    requires offset <= end <= |d|
    decreases n
  {
    if n == 0 then (if offset == end then Some([]) else None)
    else if offset + 8 > end then None
    else
      var size := U32(d, offset + 4);
      if size < 8 || offset + size > end then None else
      var rest := Commands(d, offset + size, n - 1, end);
      if rest.None? then None else Some([Command(U32(d, offset), d[offset..offset + size])] + rest.value)
  }

  predicate HasHeader(d: seq<Byte>) { |d| >= HEADER_SIZE && U32(d, 0) == MAGIC_64 }

  function LoadEnd(d: seq<Byte>): nat
    requires HasHeader(d)
  {
    HEADER_SIZE + U32(d, 20)
  }

  /** The load command table of a file. */
  function LoadCommands(d: seq<Byte>): Option<seq<Command>> {
    if !HasHeader(d) || LoadEnd(d) > |d| then None else Commands(d, HEADER_SIZE, U32(d, 16), LoadEnd(d))
  }

  predicate NoUuid(commands: Option<seq<Command>>) {
    commands.Some? && forall k :: 0 <= k < |commands.value| ==> commands.value[k].kind != LC_UUID
  }

  /** A UUID can be inserted: a well-formed table without one, followed by zero padding for it. */
  predicate Insertable(d: seq<Byte>) {
    && HasHeader(d) && LoadEnd(d) + UUID_CMD_SIZE <= |d| && NoUuid(LoadCommands(d))
    && forall i :: LoadEnd(d) <= i < LoadEnd(d) + UUID_CMD_SIZE ==> d[i] == 0
  }

  // ---------------------------------------------------------------- writing

  function Le32(v: nat): seq<Byte>
    requires v < UINT32
  {
    [v % 0x100, v / 0x100 % 0x100, v / 0x1_0000 % 0x100, v / 0x100_0000]
  }

  lemma Le32Read(v: nat, d: seq<Byte>, i: nat)
    requires v < UINT32 && i + 4 <= |d| && d[i..i + 4] == Le32(v)
    ensures U32(d, i) == v
  {
    var b := d[i..i + 4];
    assert d[i] == b[0] && d[i + 1] == b[1] && d[i + 2] == b[2] && d[i + 3] == b[3];
    Split(v);
  }

  lemma Split(v: nat)
    ensures v ==
      v % 0x100 + 0x100 * (v / 0x100 % 0x100) + 0x1_0000 * (v / 0x1_0000 % 0x100) + 0x100_0000 * (v / 0x100_0000)
  {
    assert v / 0x1_0000 == v / 0x100 / 0x100;
    assert v / 0x100_0000 == v / 0x1_0000 / 0x100;
  }

  /** Version 5 and the variant of sections 4.2 and 4.1 of RFC 9562, over the first 16 digest bytes. */
  function Uuid(digest: seq<Byte>): (u: seq<Byte>)
    requires |digest| >= 16
    ensures |u| == 16 && u[6] / 16 == 5 && u[8] / 64 == 2
    ensures u[6] % 16 == digest[6] % 16 && u[8] % 64 == digest[8] % 64
    ensures forall i :: 0 <= i < 16 && i != 6 && i != 8 ==> u[i] == digest[i]
  {
    digest[..6] + [digest[6] % 16 + 0x50, digest[7], digest[8] % 64 + 0x80] + digest[9..16]
  }

  function UuidCommand(digest: seq<Byte>): seq<Byte>
    requires |digest| >= 16
  {
    Le32(LC_UUID) + Le32(UUID_CMD_SIZE) + Uuid(digest)
  }

  /** What the file holds afterwards. */
  function Inserted(d: seq<Byte>, digest: seq<Byte>): seq<Byte>
    requires HasHeader(d) && LoadEnd(d) + UUID_CMD_SIZE <= |d| < UINT32 && U32(d, 16) + 1 < UINT32 && |digest| >= 16
  {
    d[..16] + Le32(U32(d, 16) + 1) + Le32(U32(d, 20) + UUID_CMD_SIZE) + d[24..LoadEnd(d)] + UuidCommand(digest)
      + d[LoadEnd(d) + UUID_CMD_SIZE..]
  }

  // ---------------------------------------------------------------- the table after insertion

  lemma SameU32(d: seq<Byte>, e: seq<Byte>, i: nat)
    requires i + 4 <= |d| && i + 4 <= |e| && d[i..i + 4] == e[i..i + 4]
    ensures U32(d, i) == U32(e, i)
  {
    var a, b := d[i..i + 4], e[i..i + 4];
    assert d[i] == a[0] && d[i + 1] == a[1] && d[i + 2] == a[2] && d[i + 3] == a[3];
    assert e[i] == b[0] && e[i + 1] == b[1] && e[i + 2] == b[2] && e[i + 3] == b[3];
  }

  /** A table followed by one more command reads as the table and that command. */
  lemma {:induction false} OneMoreCommand(d: seq<Byte>, e: seq<Byte>, offset: nat, n: nat, end: nat, end': nat)
    requires offset <= end <= |d| && end + 8 <= end' <= |e| && d[offset..end] == e[offset..end]
    requires Commands(d, offset, n, end).Some? && U32(e, end + 4) == end' - end
    ensures Commands(e, offset, n + 1, end') ==
      Some(Commands(d, offset, n, end).value + [Command(U32(e, end), e[end..end'])])
    decreases n
  {
    hide U32;
    if n == 0 {
      assert Commands(e, end', 0, end') == Some([]);
      var last := Command(U32(e, end), e[end..end']);
      assert Commands(e, offset, 1, end') == Some([last] + []);
      assert Commands(d, offset, 0, end).value + [last] == [last] + [];
    } else {
      var size := U32(d, offset + 4);
      Slices(d, e, offset, end, offset, offset + 4);
      Slices(d, e, offset, end, offset + 4, offset + 8);
      SameU32(d, e, offset);
      SameU32(d, e, offset + 4);
      Slices(d, e, offset, end, offset, offset + size);
      Slices(d, e, offset, end, offset + size, end);
      OneMoreCommand(d, e, offset + size, n - 1, end, end');
      var head, rest, last := Command(U32(d, offset), d[offset..offset + size]), Commands(d, offset
        + size, n - 1, end).value, Command(U32(e, end), e[end..end']);
      assert Commands(e, offset + size, n, end') == Some(rest + [last]);
      assert Commands(e, offset, n + 1, end') == Some([head] + (rest + [last]));
      assert [head] + (rest + [last]) == [head] + rest + [last];
    }
  }

  lemma Slices(d: seq<Byte>, e: seq<Byte>, lo: nat, hi: nat, i: nat, j: nat)
    requires lo <= i <= j <= hi && hi <= |d| && hi <= |e| && d[lo..hi] == e[lo..hi]
    ensures d[i..j] == e[i..j]
  {
    forall k | i <= k < j ensures d[k] == e[k] {
      assert d[k] == d[lo..hi][k - lo] && e[k] == e[lo..hi][k - lo];
    }
  }

  /** Each command takes at least eight bytes. */
  lemma {:induction false} CommandsFit(d: seq<Byte>, offset: nat, n: nat, end: nat)
    requires offset <= end <= |d| && Commands(d, offset, n, end).Some?
    ensures 8 * n <= end - offset && |Commands(d, offset, n, end).value| == n
    decreases n
  {
    if n > 0 { CommandsFit(d, offset + U32(d, offset + 4), n - 1, end); }
  }

  lemma CountFits(d: seq<Byte>)
    requires Insertable(d) && |d| < UINT32
    ensures U32(d, 16) + 1 < UINT32
  {
    CommandsFit(d, HEADER_SIZE, U32(d, 16), LoadEnd(d));
  }

  lemma InsertedParts(d: seq<Byte>, digest: seq<Byte>)
    requires HasHeader(d) && LoadEnd(d) + UUID_CMD_SIZE <= |d| < UINT32 && U32(d, 16) + 1 < UINT32 && |digest| >= 16
    ensures
      var e, end := Inserted(d, digest), LoadEnd(d);
      && |e| == |d| && e[..16] == d[..16] && e[16..20] == Le32(U32(d, 16) + 1)
           && e[20..24] == Le32(U32(d, 20) + UUID_CMD_SIZE)
      && e[24..end] == d[24..end] && e[end..end + UUID_CMD_SIZE] == UuidCommand(digest)
      && e[end + UUID_CMD_SIZE..] == d[end + UUID_CMD_SIZE..]
  {
  }

  /** The length and every byte outside the two header fields and the new command stay the same, and the
      table reads back as the old one with the new command at its end. */
  lemma InsertionAddsOneCommand(d: seq<Byte>, digest: seq<Byte>)
    requires Insertable(d) && |d| < UINT32 && |digest| >= 16
    ensures U32(d, 16) + 1 < UINT32
    ensures
      var e := Inserted(d, digest);
      && |e| == |d|
      && (forall i :: 0 <= i < |d| && !(16 <= i < 24) && !(LoadEnd(d) <= i < LoadEnd(d) + UUID_CMD_SIZE) ==>
           e[i] == d[i])
      && LoadCommands(e) == Some(LoadCommands(d).value + [Command(LC_UUID, UuidCommand(digest))])
  {
    CountFits(d);
    var e, end := Inserted(d, digest), LoadEnd(d);
    InsertedParts(d, digest);
    hide Inserted;
    hide UuidCommand;
    hide U32;
    hide Le32;
    TableAfter(d, e, digest);
    Unchanged(d, e, end);
    hide LoadCommands;
  }

  lemma TableAfter(d: seq<Byte>, e: seq<Byte>, digest: seq<Byte>)
    requires HasHeader(d) && |e| == |d| < UINT32 && e[..16] == d[..16] && U32(d, 16) + 1 < UINT32 && |digest| >= 16
    requires LoadEnd(d) + UUID_CMD_SIZE <= |d| && LoadCommands(d).Some?
    requires e[16..20] == Le32(U32(d, 16) + 1) && e[20..24] == Le32(U32(d, 20) + UUID_CMD_SIZE)
    requires e[24..LoadEnd(d)] == d[24..LoadEnd(d)] && e[LoadEnd(d)..LoadEnd(d) + UUID_CMD_SIZE] == UuidCommand(digest)
    ensures LoadCommands(e) == Some(LoadCommands(d).value + [Command(LC_UUID, UuidCommand(digest))])
  {
    hide UuidCommand;
    hide U32;
    hide Le32;
    hide Commands;
    var end := LoadEnd(d);
    HeaderAfter(d, e);
    CommandAfter(e, end, digest);
    Slices(d, e, 24, end, HEADER_SIZE, end);
    OneMoreCommand(d, e, HEADER_SIZE, U32(d, 16), end, end + UUID_CMD_SIZE);
  }

  lemma HeaderAfter(d: seq<Byte>, e: seq<Byte>)
    requires HasHeader(d) && |e| == |d| && e[..16] == d[..16] && U32(d, 16) + 1 < UINT32
      && U32(d, 20) + UUID_CMD_SIZE < UINT32
    requires e[16..20] == Le32(U32(d, 16) + 1) && e[20..24] == Le32(U32(d, 20) + UUID_CMD_SIZE)
    ensures HasHeader(e) && U32(e, 16) == U32(d, 16) + 1 && U32(e, 20) == U32(d, 20) + UUID_CMD_SIZE
  {
    hide U32;
    assert e[0..4] == e[..16][0..4] && d[0..4] == d[..16][0..4];
    SameU32(d, e, 0);
    Le32Read(U32(d, 16) + 1, e, 16);
    Le32Read(U32(d, 20) + UUID_CMD_SIZE, e, 20);
  }

  lemma Window(e: seq<Byte>, at: nat, c: seq<Byte>, i: nat, j: nat)
    requires at + |c| <= |e| && e[at..at + |c|] == c && i <= j <= |c|
    ensures e[at + i..at + j] == c[i..j]
  {
    forall k | i <= k < j ensures e[at + k] == c[k] {
      assert e[at + k] == e[at..at + |c|][k];
    }
  }

  lemma CommandAfter(e: seq<Byte>, end: nat, digest: seq<Byte>)
    requires |digest| >= 16 && end + UUID_CMD_SIZE <= |e| && e[end..end + UUID_CMD_SIZE] == UuidCommand(digest)
    ensures U32(e, end) == LC_UUID && U32(e, end + 4) == UUID_CMD_SIZE
  {
    hide U32;
    var c := UuidCommand(digest);
    Window(e, end, c, 0, 4);
    Window(e, end, c, 4, 8);
    assert c[0..4] == Le32(LC_UUID) && c[4..8] == Le32(UUID_CMD_SIZE);
    Le32Read(LC_UUID, e, end);
    Le32Read(UUID_CMD_SIZE, e, end + 4);
  }

  lemma Unchanged(d: seq<Byte>, e: seq<Byte>, end: nat)
    requires |e| == |d| && 32 <= end && end + UUID_CMD_SIZE <= |d|
    requires e[..16] == d[..16] && e[24..end] == d[24..end] && e[end + UUID_CMD_SIZE..] == d[end + UUID_CMD_SIZE..]
    ensures forall i :: 0 <= i < |d| && !(16 <= i < 24) && !(end <= i < end + UUID_CMD_SIZE) ==> e[i] == d[i]
  {
    forall i | 0 <= i < |d| && !(16 <= i < 24) && !(end <= i < end + UUID_CMD_SIZE) ensures e[i] == d[i] {
      if i < 16 {
        assert e[i] == e[..16][i];
      } else if i < end {
        assert e[i] == e[24..end][i - 24] && d[i] == d[24..end][i - 24];
      } else {
        assert e[i] == e[end + UUID_CMD_SIZE..][i - end - UUID_CMD_SIZE];
        assert d[i] == d[end + UUID_CMD_SIZE..][i - end - UUID_CMD_SIZE];
      }
    }
  }

  /** A second insertion is refused. */
  lemma SecondInsertionRefused(d: seq<Byte>, digest: seq<Byte>)
    requires Insertable(d) && |d| < UINT32 && |digest| >= 16
    ensures U32(d, 16) + 1 < UINT32 && !Insertable(Inserted(d, digest))
  {
    InsertionAddsOneCommand(d, digest);
    var cs := LoadCommands(d).value;
    assert LoadCommands(Inserted(d, digest)).value[|cs|].kind == LC_UUID;
  }

  // ---------------------------------------------------------------- in place

  /** The scan is at command k of n: what is left decides the rest. */
  ghost predicate ScanAt(d: seq<Byte>, n: nat, end: nat, k: nat, offset: nat) {
    && k <= n && HEADER_SIZE <= offset <= end <= |d|
    && var all, rest := Commands(d, HEADER_SIZE, n, end), Commands(d, offset, n - k, end);
    && (all.Some? <==> rest.Some?)
    && (all.Some? ==>
          && |all.value| == n && |rest.value| == n - k && all.value[k..] == rest.value
          && forall i :: 0 <= i < k ==> all.value[i].kind != LC_UUID)
  }

  /** Walks the load commands; whether they are well formed and hold no UUID. */
  method ScanCommands(data: array<Byte>, n: nat, end: nat) returns (ok: bool)
    requires HEADER_SIZE <= end <= data.Length
    ensures ok == NoUuid(Commands(data[..], HEADER_SIZE, n, end))
  {
    hide U32;
    hide ScanAt;
    ghost var d := data[..];
    ScanStarts(d, n, end);
    var offset: nat := HEADER_SIZE;
    for k := 0 to n
      invariant HEADER_SIZE <= offset <= end && ScanAt(d, n, end, k, offset)
    {
      ScanNext(d, n, end, k, offset);
      if offset + 8 > end { return false; }
      var kind := ReadU32(data, offset);
      var size := ReadU32(data, offset + 4);
      if size < 8 || offset + size > end { return false; }
      if kind == LC_UUID { return false; }
      offset := offset + size;
    }
    ScanEnds(d, n, end, offset);
    ok := offset == end;
  }

  lemma ScanStarts(d: seq<Byte>, n: nat, end: nat)
    requires HEADER_SIZE <= end <= |d|
    ensures ScanAt(d, n, end, 0, HEADER_SIZE)
  {
    var all := Commands(d, HEADER_SIZE, n, end);
    if all.Some? { CommandsFit(d, HEADER_SIZE, n, end); }
  }

  /** One command further, or the reason to refuse. */
  lemma ScanNext(d: seq<Byte>, n: nat, end: nat, k: nat, offset: nat)
    requires k < n && ScanAt(d, n, end, k, offset)
    ensures
      if offset + 8 > end || U32(d, offset + 4) < 8 || offset + U32(d, offset + 4) > end || U32(d, offset) == LC_UUID
      then !NoUuid(Commands(d, HEADER_SIZE, n, end))
      else ScanAt(d, n, end, k + 1, offset + U32(d, offset + 4))
  {
    hide U32;
    var all, rest := Commands(d, HEADER_SIZE, n, end), Commands(d, offset, n - k, end);
    if rest.Some? {
      assert all.value[k] == all.value[k..][0] == rest.value[0];
      var next := Commands(d, offset + U32(d, offset + 4), n - k - 1, end);
      assert rest.value[1..] == next.value;
      assert all.value[k + 1..] == all.value[k..][1..];
      assert rest.value[0].kind == U32(d, offset);
    }
  }

  lemma ScanEnds(d: seq<Byte>, n: nat, end: nat, offset: nat)
    requires ScanAt(d, n, end, n, offset)
    ensures NoUuid(Commands(d, HEADER_SIZE, n, end)) <==> offset == end
  {
  }

  method ReadU32(data: array<Byte>, i: nat) returns (v: nat)
    requires i + 4 <= data.Length
    ensures v == U32(data[..], i)
  {
    v := data[i] as int + 0x100 * (data[i + 1] as int) + 0x1_0000 * (data[i + 2] as int)
      + 0x100_0000 * (data[i + 3] as int);
  }

  method PutU32(data: array<Byte>, i: nat, v: nat)
    requires i + 4 <= data.Length && v < UINT32
    modifies data
    ensures data[..] == old(data[..i]) + Le32(v) + old(data[i + 4..])
  {
    data[i], data[i + 1], data[i + 2], data[i + 3] :=
      v % 0x100, v / 0x100 % 0x100, v / 0x1_0000 % 0x100, v / 0x100_0000;
  }

  method CopyInto(data: array<Byte>, i: nat, s: seq<Byte>)
    requires i + |s| <= data.Length
    modifies data
    ensures data[..] == old(data[..i]) + s + old(data[i + |s|..])
  {
    for k := 0 to |s|
      invariant data[..i] == old(data[..i]) && data[i..i + k] == s[..k] && data[i + k..] == old(data[i + k..])
    {
      data[i + k] := s[k];
    }
  }

  /** Every check before anything is written. */
  method CheckInsertable(data: array<Byte>) returns (ok: bool)
    ensures ok == Insertable(data[..])
  {
    if data.Length < HEADER_SIZE { return false; }
    var magic := ReadU32(data, 0);
    if magic != MAGIC_64 { return false; }
    var ncmds := ReadU32(data, 16);
    var sizeofcmds := ReadU32(data, 20);
    hide U32;
    hide Commands;
    hide NoUuid;
    var end := HEADER_SIZE + sizeofcmds;
    if end + UUID_CMD_SIZE > data.Length { return false; }
    var wellFormed := ScanCommands(data, ncmds, end);
    if !wellFormed { return false; }
    for i := end to end + UUID_CMD_SIZE
      invariant forall j :: end <= j < i ==> data[j] == 0
    {
      if data[i] != 0 { return false; }
    }
    return true;
  }

  /** addDeterministicMachOUUID on the file's bytes: refused and unchanged, or inserted. */
  method AddUuid(data: array<Byte>, digest: seq<Byte>) returns (ok: bool)
    requires |digest| == 32 && data.Length < UINT32
    modifies data
    ensures ok == old(Insertable(data[..]))
    ensures if ok then U32(old(data[..]), 16) + 1 < UINT32
      && data[..] == Inserted(old(data[..]), digest) else data[..] == old(data[..])
  {
    hide U32;
    hide Commands;
    hide NoUuid;
    hide Inserted;
    hide UuidCommand;
    ok := CheckInsertable(data);
    if !ok { return; }
    ghost var d := data[..];
    var ncmds := ReadU32(data, 16);
    var sizeofcmds := ReadU32(data, 20);
    var end := HEADER_SIZE + sizeofcmds;
    CountFits(d);
    var command := UuidCommand(digest);
    assert |command| == UUID_CMD_SIZE by { CommandSize(digest); }
    CopyInto(data, end, command);
    ghost var d1 := data[..];
    PutU32(data, 16, ncmds + 1);
    ghost var d2 := data[..];
    PutU32(data, 20, sizeofcmds + UUID_CMD_SIZE);
    assert d1 == d[..end] + command + d[end + UUID_CMD_SIZE..];
    assert d2 == d1[..16] + Le32(ncmds + 1) + d1[20..];
    PutTogether(d, data[..], digest);
  }

  lemma CommandSize(digest: seq<Byte>)
    requires |digest| >= 16
    ensures |UuidCommand(digest)| == UUID_CMD_SIZE
  {
  }

  lemma PutTogether(d: seq<Byte>, e: seq<Byte>, digest: seq<Byte>)
    requires HasHeader(d) && LoadEnd(d) + UUID_CMD_SIZE <= |d| < UINT32 && U32(d, 16) + 1 < UINT32 && |digest| >= 16
    requires
      var end := LoadEnd(d);
      var d1 := d[..end] + UuidCommand(digest) + d[end + UUID_CMD_SIZE..];
      var d2 := d1[..16] + Le32(U32(d, 16) + 1) + d1[20..];
      e == d2[..20] + Le32(U32(d, 20) + UUID_CMD_SIZE) + d2[24..]
    ensures e == Inserted(d, digest)
  {
  }
}
