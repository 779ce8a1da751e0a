/** Saving and restoring the attention tables (internal/attention/state.go,
    internal/daemon/attention_state.go): which documents are valid, what is saved, what comes back, and
    that every document the engine can save is valid. */
module AttentionDocuments {
  import Identifiers
  import opened AttentionTables

  const MAX_STATE_ENTRIES := 2048

  // ---------------------------------------------------------------- identities

  predicate Blank(c: char) { c == ' ' || 9 <= c as int <= 13 }

  predicate Control(c: char) { (c as int) < 32 || c as int == 127 }

  predicate ValidPart(p: string) {
    && Identifiers.IsBytes(p) && |p| <= 128
    && (exists i :: 0 <= i < |p| && !Blank(p[i])) && (forall i :: 0 <= i < |p| ==> !Control(p[i]))
  }

  predicate ValidIdentity(i: Identity) {
    ValidPart(i.pluginId) && ValidPart(i.instanceId) && ValidPart(i.channel) && ValidPart(i.key) && i.generation > 0
  }

  function IdOf(i: Identity): string
    requires ValidIdentity(i)
  {
    Identifiers.Encode([i.pluginId, i.instanceId, i.channel, i.key])
  }

  /** An identifier determines the identity up to its generation. */
  lemma SameIdSameParts(i: Identity, j: Identity)
    requires ValidIdentity(i) && ValidIdentity(j) && IdOf(i) == IdOf(j)
    ensures i.(generation := j.generation) == j
  {
    var left, right := [i.pluginId, i.instanceId, i.channel, i.key], [j.pluginId, j.instanceId, j.channel, j.key];
    Identifiers.EncodeIsInjective(left, right);
    assert left[0] == right[0] && left[1] == right[1] && left[2] == right[2] && left[3] == right[3];
  }

  // ---------------------------------------------------------------- documents

  datatype ShownEntry = ShownEntry(identity: Identity, shownAt: int)

  datatype AckEntry = AckEntry(identity: Identity, observedAt: int, touchedAt: int)

  datatype Document = Document(acks: seq<AckEntry>, shown: seq<ShownEntry>)

  predicate ValidShown(e: ShownEntry) { ValidIdentity(e.identity) && e.shownAt != 0 }

  predicate ValidAck(e: AckEntry) { ValidIdentity(e.identity) && e.observedAt != 0 && e.touchedAt != 0 }

  predicate ValidShowns(s: seq<ShownEntry>) {
    && (forall i :: 0 <= i < |s| ==> ValidShown(s[i]))
    && (forall i, j :: 0 <= i < j < |s| ==> IdOf(s[i].identity) != IdOf(s[j].identity))
  }

  predicate ValidAcks(s: seq<AckEntry>) {
    && (forall i :: 0 <= i < |s| ==> ValidAck(s[i]))
    && (forall i, j :: 0 <= i < j < |s| ==> IdOf(s[i].identity) != IdOf(s[j].identity))
  }

  predicate ValidDocument(d: Document) {
    |d.acks| + |d.shown| <= MAX_STATE_ENTRIES && ValidAcks(d.acks) && ValidShowns(d.shown)
  }

  method ValidateStateDocument(d: Document) returns (ok: bool)
    ensures ok == ValidDocument(d)
  {
    hide ValidIdentity;
    if |d.acks| + |d.shown| > MAX_STATE_ENTRIES { return false; }
    var seen: set<string> := {};
    for k := 0 to |d.acks|
      invariant ValidAcks(d.acks[..k])
      invariant forall id :: id in seen <==> exists i :: 0 <= i < k && IdOf(d.acks[i].identity) == id
    {
      var e := d.acks[k];
      assert d.acks[..k + 1] == d.acks[..k] + [e];
      if !ValidAck(e) { return false; }
      if IdOf(e.identity) in seen { return false; }
      seen := seen + {IdOf(e.identity)};
    }
    assert d.acks[..|d.acks|] == d.acks;
    seen := {};
    for k := 0 to |d.shown|
      invariant ValidShowns(d.shown[..k])
      invariant forall id :: id in seen <==> exists i :: 0 <= i < k && IdOf(d.shown[i].identity) == id
    {
      var e := d.shown[k];
      assert d.shown[..k + 1] == d.shown[..k] + [e];
      if !ValidShown(e) { return false; }
      if IdOf(e.identity) in seen { return false; }
      seen := seen + {IdOf(e.identity)};
    }
    assert d.shown[..|d.shown|] == d.shown;
    return true;
  }

  // ---------------------------------------------------------------- what is saved

  ghost predicate Owns(id: string, i: Identity) { ValidIdentity(i) && IdOf(i) == id }

  /** Identities admitted to the tables are valid and stored under their own identifiers. */
  ghost predicate TablesOk(t: Tables) {
    && (forall id :: id in t.shown ==> t.shown[id] != 0)
    && (forall id :: id in t.meta ==> Owns(id, t.meta[id].identity))
    && (forall id :: id in t.acks ==>
          && t.acks[id].observedAt != 0 && t.acks[id].touchedAt != 0
          && Owns(id, t.acks[id].identity) && t.acks[id].generation == t.acks[id].identity.generation)
  }

  ghost predicate LiveOk(live: map<string, Record>) {
    forall id :: id in live ==> Owns(id, live[id].identity) && live[id].observedAt != 0
  }

  /** The entry saved for a last-shown time, if any. */
  function ShownEntryOf(t: Tables, live: map<string, Record>, id: string): Option<ShownEntry>
    requires id in t.shown
  {
    if id in t.meta then (if t.meta[id].persistent then Some(ShownEntry(t.meta[id].identity, t.shown[id])) else None)
    else if id in live && live[id].persists then Some(ShownEntry(live[id].identity, t.shown[id]))
    else None
  }

  function AckEntryOf(t: Tables, id: string): AckEntry
    requires id in t.acks
  {
    AckEntry(t.acks[id].identity, t.acks[id].observedAt, t.acks[id].touchedAt)
  }

  /** The document holds each saved entry, once, and nothing else. */
  ghost predicate Saves(d: Document, t: Tables, live: map<string, Record>) {
    && (forall e :: e in d.shown <==> exists id :: id in t.shown && ShownEntryOf(t, live, id) == Some(e))
    && (forall e :: e in d.acks <==> exists id :: id in t.acks && AckEntryOf(t, id) == e)
    && (forall i, j :: 0 <= i < j < |d.shown| ==> d.shown[i] != d.shown[j])
    && (forall i, j :: 0 <= i < j < |d.acks| ==> d.acks[i] != d.acks[j])
  }

  /** The entries of the identifiers visited so far. */
  ghost predicate ShownSoFar(shown: seq<ShownEntry>, t: Tables, live: map<string, Record>, visited: set<string>) {
    && visited <= t.shown.Keys && ValidShowns(shown) && |shown| <= |visited|
    && (forall e :: e in shown ==>
         ValidIdentity(e.identity) && IdOf(e.identity) in visited && ShownEntryOf(t, live, IdOf(e.identity)) == Some(e))
    && (forall id :: id in visited && ShownEntryOf(t, live, id).Some? ==> ShownEntryOf(t, live, id).value in shown)
  }

  lemma ShownMore(shown: seq<ShownEntry>, t: Tables, live: map<string, Record>, visited: set<string>, id: string)
    requires TablesOk(t) && LiveOk(live) && ShownSoFar(shown, t, live, visited) && id in t.shown && id !in visited
    ensures var entry := ShownEntryOf(t, live, id);
      ShownSoFar(if entry.Some? then shown + [entry.value] else shown, t, live, visited + {id})
  {
    hide ValidIdentity;
    hide IdOf;
    var entry := ShownEntryOf(t, live, id);
    if entry.Some? {
      assert Owns(id, entry.value.identity);
      assert forall i :: 0 <= i < |shown| ==> shown[i] in shown;
    }
  }

  lemma NoneYet(t: Tables, live: map<string, Record>)
    ensures ShownSoFar([], t, live, {}) && AcksSoFar([], t, {})
  {
  }

  method CollectShown(t: Tables, live: map<string, Record>) returns (shown: seq<ShownEntry>)
    requires TablesOk(t) && LiveOk(live)
    ensures ShownSoFar(shown, t, live, t.shown.Keys)
  {
    hide ShownSoFar;
    hide TablesOk;
    hide LiveOk;
    shown := [];
    var left := t.shown.Keys;
    assert t.shown.Keys - left == {};
    NoneYet(t, live);
    while left != {}
      invariant left <= t.shown.Keys && ShownSoFar(shown, t, live, t.shown.Keys - left)
      decreases left
    {
      var id :| id in left;
      ShownMore(shown, t, live, t.shown.Keys - left, id);
      assert t.shown.Keys - left + {id} == t.shown.Keys - (left - {id});
      var entry := ShownEntryOf(t, live, id);
      if entry.Some? { shown := shown + [entry.value]; }
      left := left - {id};
    }
    assert t.shown.Keys - left == t.shown.Keys;
  }

  ghost predicate AcksSoFar(acks: seq<AckEntry>, t: Tables, visited: set<string>) {
    && visited <= t.acks.Keys && ValidAcks(acks) && |acks| == |visited|
    && (forall e :: e in acks ==>
         ValidIdentity(e.identity) && IdOf(e.identity) in visited && AckEntryOf(t, IdOf(e.identity)) == e)
    && (forall id :: id in visited ==> AckEntryOf(t, id) in acks)
  }

  lemma AcksMore(acks: seq<AckEntry>, t: Tables, visited: set<string>, id: string)
    requires TablesOk(t) && AcksSoFar(acks, t, visited) && id in t.acks && id !in visited
    ensures AcksSoFar(acks + [AckEntryOf(t, id)], t, visited + {id})
  {
    hide ValidIdentity;
    hide IdOf;
    assert Owns(id, t.acks[id].identity);
    assert forall i :: 0 <= i < |acks| ==> acks[i] in acks;
  }

  method CollectAcks(t: Tables) returns (acks: seq<AckEntry>)
    requires TablesOk(t)
    ensures AcksSoFar(acks, t, t.acks.Keys)
  {
    hide AcksSoFar;
    hide TablesOk;
    acks := [];
    var left := t.acks.Keys;
    assert t.acks.Keys - left == {};
    NoneYet(t, map[]);
    while left != {}
      invariant left <= t.acks.Keys && AcksSoFar(acks, t, t.acks.Keys - left)
      decreases left
    {
      var id :| id in left;
      AcksMore(acks, t, t.acks.Keys - left, id);
      assert t.acks.Keys - left + {id} == t.acks.Keys - (left - {id});
      acks := acks + [AckEntryOf(t, id)];
      left := left - {id};
    }
    assert t.acks.Keys - left == t.acks.Keys;
  }

  method StateDocument(t: Tables, live: map<string, Record>) returns (d: Document)
    requires TablesOk(t) && LiveOk(live)
    ensures Saves(d, t, live)
  {
    var shown := CollectShown(t, live);
    var acks := CollectAcks(t);
    d := Document(acks, shown);
  }

  // ---------------------------------------------------------------- what is restored

  /** The generations of the applications configured now. */
  type Generations = map<(string, string), nat>

  predicate Restorable(i: Identity, at: int, gens: Generations, limits: Limits, now: int) {
    at <= now && !Expired(at, limits, now) && (i.pluginId, i.instanceId) in gens
      && gens[(i.pluginId, i.instanceId)] == i.generation
  }

  predicate RestorableAck(e: AckEntry, gens: Generations, limits: Limits, now: int) {
    e.observedAt <= now && Restorable(e.identity, e.touchedAt, gens, limits, now)
  }

  function RestoreShown(s: seq<ShownEntry>, gens: Generations, limits: Limits, now: int): Tables
    requires ValidShowns(s)
  {
    if s == [] then Tables(map[], map[], map[]) else
    var before, e := RestoreShown(s[..|s| - 1], gens, limits, now), s[|s| - 1];
    if !Restorable(e.identity, e.shownAt, gens, limits, now) then before
    else before.(shown := before.shown[IdOf(e.identity) := e.shownAt],
      meta := before.meta[IdOf(e.identity) := Meta(e.identity, true)])
  }

  function RestoreAcks(s: seq<AckEntry>, gens: Generations, limits: Limits, now: int): map<string, Ack>
    requires ValidAcks(s)
  {
    if s == [] then map[] else
    var before, e := RestoreAcks(s[..|s| - 1], gens, limits, now), s[|s| - 1];
    if !RestorableAck(e, gens, limits, now) then before
    else before[IdOf(e.identity) := Ack(e.identity, e.identity.generation, e.observedAt, e.touchedAt)]
  }

  function Restored(d: Document, gens: Generations, limits: Limits, now: int): Tables
    requires ValidDocument(d)
  {
    RestoreShown(d.shown, gens, limits, now).(acks := RestoreAcks(d.acks, gens, limits, now))
  }

  lemma {:induction false} ShownFrom(s: seq<ShownEntry>, gens: Generations, limits: Limits, now: int, id: string)
      returns (i: nat)
    requires ValidShowns(s)
      && (id in RestoreShown(s, gens, limits, now).shown || id in RestoreShown(s, gens, limits, now).meta)
    ensures i < |s| && IdOf(s[i].identity) == id && Restorable(s[i].identity, s[i].shownAt, gens, limits, now)
  {
    hide ValidIdentity;
    hide IdOf;
    i := |s| - 1;
    if !(IdOf(s[i].identity) == id && Restorable(s[i].identity, s[i].shownAt, gens, limits, now)) {
      i := ShownFrom(s[..i], gens, limits, now, id);
    }
  }

  lemma {:induction false} ShownBack(s: seq<ShownEntry>, gens: Generations, limits: Limits, now: int, i: nat)
    requires ValidShowns(s) && i < |s|
    ensures
      var r, e := RestoreShown(s, gens, limits, now), s[i];
      if Restorable(e.identity, e.shownAt, gens, limits, now)
      then IdOf(e.identity) in r.shown && r.shown[IdOf(e.identity)] == e.shownAt && IdOf(e.identity) in r.meta
        && r.meta[IdOf(e.identity)] == Meta(e.identity, true)
      else IdOf(e.identity) !in r.shown
  {
    hide ValidIdentity;
    hide IdOf;
    var n := |s| - 1;
    if i < n {
      ShownBack(s[..n], gens, limits, now, i);
    } else if !Restorable(s[n].identity, s[n].shownAt, gens, limits, now)
      && IdOf(s[n].identity) in RestoreShown(s[..n], gens, limits, now).shown {
      var k := ShownFrom(s[..n], gens, limits, now, IdOf(s[n].identity));
      assert false;
    }
  }

  lemma {:induction false} AcksFrom(s: seq<AckEntry>, gens: Generations, limits: Limits, now: int, id: string)
      returns (i: nat)
    requires ValidAcks(s) && id in RestoreAcks(s, gens, limits, now)
    ensures i < |s| && IdOf(s[i].identity) == id && RestorableAck(s[i], gens, limits, now)
  {
    hide ValidIdentity;
    hide IdOf;
    i := |s| - 1;
    if !(IdOf(s[i].identity) == id && RestorableAck(s[i], gens, limits, now)) {
      i := AcksFrom(s[..i], gens, limits, now, id);
    }
  }

  lemma {:induction false} AcksBack(s: seq<AckEntry>, gens: Generations, limits: Limits, now: int, i: nat)
    requires ValidAcks(s) && i < |s|
    ensures
      var r, e := RestoreAcks(s, gens, limits, now), s[i];
      if RestorableAck(e, gens, limits, now)
      then IdOf(e.identity) in r
        && r[IdOf(e.identity)] == Ack(e.identity, e.identity.generation, e.observedAt, e.touchedAt)
      else IdOf(e.identity) !in r
  {
    hide ValidIdentity;
    hide IdOf;
    var n := |s| - 1;
    if i < n {
      AcksBack(s[..n], gens, limits, now, i);
    } else if !RestorableAck(s[n], gens, limits, now) && IdOf(s[n].identity) in RestoreAcks(s[..n], gens, limits, now) {
      var k := AcksFrom(s[..n], gens, limits, now, IdOf(s[n].identity));
      assert false;
    }
  }

  lemma {:induction false} RestoredSizes(shown: seq<ShownEntry>, acks: seq<AckEntry>, gens: Generations,
      limits: Limits, now: int)
    requires ValidShowns(shown) && ValidAcks(acks)
    ensures |RestoreShown(shown, gens, limits, now).shown| <= |shown|
      && |RestoreAcks(acks, gens, limits, now)| <= |acks|
    decreases |shown| + |acks|
  {
    hide ValidIdentity;
    hide IdOf;
    if shown != [] { RestoredSizes(shown[..|shown| - 1], acks, gens, limits, now); }
    if acks != [] { RestoredSizes(shown, acks[..|acks| - 1], gens, limits, now); }
  }

  /** The entry saved under an identifier. */
  lemma SavedShown(t: Tables, live: map<string, Record>, d: Document, i: nat)
    requires TablesOk(t) && LiveOk(live) && Saves(d, t, live) && i < |d.shown|
    ensures ValidShown(d.shown[i])
    ensures IdOf(d.shown[i].identity) in t.shown && ShownEntryOf(t, live, IdOf(d.shown[i].identity)) == Some(d.shown[i])
  {
    hide ValidIdentity;
    hide IdOf;
    assert d.shown[i] in d.shown;
    var x :| x in t.shown && ShownEntryOf(t, live, x) == Some(d.shown[i]);
    assert Owns(x, d.shown[i].identity);
  }

  lemma SavedAck(t: Tables, live: map<string, Record>, d: Document, i: nat)
    requires TablesOk(t) && Saves(d, t, live) && i < |d.acks|
    ensures ValidAck(d.acks[i])
    ensures IdOf(d.acks[i].identity) in t.acks && AckEntryOf(t, IdOf(d.acks[i].identity)) == d.acks[i]
  {
    hide ValidIdentity;
    hide IdOf;
    assert d.acks[i] in d.acks;
    var x :| x in t.acks && AckEntryOf(t, x) == d.acks[i];
    assert Owns(x, d.acks[i].identity);
  }

  lemma {:induction false} DistinctFit(ids: seq<string>, keys: set<string>)
    requires forall i :: 0 <= i < |ids| ==> ids[i] in keys
    requires forall i, j :: 0 <= i < j < |ids| ==> ids[i] != ids[j]
    ensures |ids| <= |keys|
  {
    if ids != [] {
      var n := |ids| - 1;
      DistinctFit(ids[..n], keys - {ids[n]});
    }
  }

  /** Every identity saved is valid and no identifier is saved twice: different entries stand under
      different identifiers. */
  lemma SavedShownsAreValid(t: Tables, live: map<string, Record>, d: Document)
    requires TablesOk(t) && LiveOk(live) && Saves(d, t, live)
    ensures ValidShowns(d.shown) && |d.shown| <= |t.shown|
  {
    hide ValidIdentity;
    hide IdOf;
    hide TablesOk;
    hide LiveOk;
    hide ShownEntryOf;
    hide AckEntryOf;
    forall i | 0 <= i < |d.shown|
      ensures ValidShown(d.shown[i]) && IdOf(d.shown[i].identity) in t.shown
      ensures ShownEntryOf(t, live, IdOf(d.shown[i].identity)) == Some(d.shown[i])
    {
      SavedShown(t, live, d, i);
    }
    assert forall i, j :: 0 <= i < j < |d.shown| ==> IdOf(d.shown[i].identity) != IdOf(d.shown[j].identity);
    var ids := seq(|d.shown|, i requires 0 <= i < |d.shown| => IdOf(d.shown[i].identity));
    DistinctFit(ids, t.shown.Keys);
  }

  lemma SavedAcksAreValid(t: Tables, live: map<string, Record>, d: Document)
    requires TablesOk(t) && Saves(d, t, live)
    ensures ValidAcks(d.acks) && |d.acks| <= |t.acks|
  {
    hide ValidIdentity;
    hide IdOf;
    hide TablesOk;
    hide ShownEntryOf;
    hide AckEntryOf;
    forall i | 0 <= i < |d.acks|
      ensures ValidAck(d.acks[i]) && IdOf(d.acks[i].identity) in t.acks
      ensures AckEntryOf(t, IdOf(d.acks[i].identity)) == d.acks[i]
    {
      SavedAck(t, live, d, i);
    }
    assert forall i, j :: 0 <= i < j < |d.acks| ==> IdOf(d.acks[i].identity) != IdOf(d.acks[j].identity);
    var ids := seq(|d.acks|, i requires 0 <= i < |d.acks| => IdOf(d.acks[i].identity));
    DistinctFit(ids, t.acks.Keys);
  }

  lemma SavedIsValid(t: Tables, live: map<string, Record>, d: Document)
    requires TablesOk(t) && LiveOk(live) && Saves(d, t, live) && Size(t) <= MAX_STATE_ENTRIES
    ensures ValidDocument(d)
  {
    SavedShownsAreValid(t, live, d);
    SavedAcksAreValid(t, live, d);
    hide Saves;
    hide TablesOk;
    hide LiveOk;
    hide ValidShowns;
    hide ValidAcks;
  }

  lemma ShownIsSaved(t: Tables, live: map<string, Record>, d: Document, id: string) returns (i: nat)
    requires TablesOk(t) && LiveOk(live) && Saves(d, t, live) && id in t.shown && ShownEntryOf(t, live, id).Some?
    ensures i < |d.shown| && d.shown[i] == ShownEntryOf(t, live, id).value && ValidIdentity(d.shown[i].identity)
      && IdOf(d.shown[i].identity) == id
  {
    hide ValidIdentity;
    hide IdOf;
    var e := ShownEntryOf(t, live, id).value;
    assert Owns(id, e.identity);
    assert e in d.shown;
    i :| 0 <= i < |d.shown| && d.shown[i] == e;
  }

  lemma AckIsSaved(t: Tables, live: map<string, Record>, d: Document, id: string) returns (i: nat)
    requires TablesOk(t) && Saves(d, t, live) && id in t.acks
    ensures i < |d.acks| && d.acks[i] == AckEntryOf(t, id) && ValidIdentity(d.acks[i].identity)
      && IdOf(d.acks[i].identity) == id
  {
    hide ValidIdentity;
    hide IdOf;
    var e := AckEntryOf(t, id);
    assert Owns(id, e.identity);
    assert e in d.acks;
    i :| 0 <= i < |d.acks| && d.acks[i] == e;
  }

  /** The application is configured now, in the same generation. */
  predicate Configured(i: Identity, gens: Generations) {
    (i.pluginId, i.instanceId) in gens && gens[(i.pluginId, i.instanceId)] == i.generation
  }

  /** Which last-shown times are saved, and under whose identity: those marked as persistent, and those without
      a mark whose observation is present and persists. */
  lemma SavedShownsAre(t: Tables, live: map<string, Record>, d: Document, id: string)
    requires TablesOk(t) && LiveOk(live) && Saves(d, t, live) && id in t.shown
    ensures
      var saved := if id in t.meta then t.meta[id].persistent else id in live && live[id].persists;
      var identity := if id in t.meta then t.meta[id].identity else if id in live then live[id].identity
        else Identity("", "", 0, "", "");
      if saved then ShownEntry(identity, t.shown[id]) in d.shown
      else forall e :: e in d.shown ==> ValidIdentity(e.identity) && IdOf(e.identity) != id
  {
    hide ValidIdentity;
    hide IdOf;
    if ShownEntryOf(t, live, id).Some? {
      var i := ShownIsSaved(t, live, d, id);
      assert d.shown[i] in d.shown;
    } else {
      forall e | e in d.shown ensures ValidIdentity(e.identity) && IdOf(e.identity) != id {
        var i :| 0 <= i < |d.shown| && d.shown[i] == e;
        SavedShown(t, live, d, i);
      }
    }
  }

  /** Restoring a saved document brings back exactly the saved last-shown times that are still
      restorable, as they were. */
  lemma RestoreShownAfterSave(t: Tables, live: map<string, Record>, d: Document, gens: Generations, limits: Limits,
      now: int, id: string)
    requires TablesOk(t) && LiveOk(live) && Saves(d, t, live) && Size(t) <= MAX_STATE_ENTRIES
    ensures ValidDocument(d)
    ensures
      var r := Restored(d, gens, limits, now);
      && (id in r.shown <==>
            && id in t.shown && ShownEntryOf(t, live, id).Some? && t.shown[id] <= now < t.shown[id] + limits.ttl
            && limits.ttl > 0 && Configured(ShownEntryOf(t, live, id).value.identity, gens))
      && (id in r.shown && id in t.shown ==> r.shown[id] == t.shown[id])
  {
    hide ValidIdentity;
    hide IdOf;
    hide Saves;
    hide TablesOk;
    hide LiveOk;
    SavedIsValid(t, live, d);
    if id in Restored(d, gens, limits, now).shown {
      var i := ShownFrom(d.shown, gens, limits, now, id);
      SavedShown(t, live, d, i);
    }
    if id in t.shown && ShownEntryOf(t, live, id).Some? {
      var i := ShownIsSaved(t, live, d, id);
      ShownBack(d.shown, gens, limits, now, i);
    }
    hide RestoreShown;
  }

  /** And exactly the acknowledgements that are still restorable, as they were. */
  lemma RestoreAcksAfterSave(t: Tables, live: map<string, Record>, d: Document, gens: Generations, limits: Limits,
      now: int, id: string)
    requires TablesOk(t) && LiveOk(live) && Saves(d, t, live) && Size(t) <= MAX_STATE_ENTRIES
    ensures ValidDocument(d)
    ensures
      var r := Restored(d, gens, limits, now);
      && (id in r.acks <==>
            && id in t.acks && t.acks[id].observedAt <= now && t.acks[id].touchedAt <= now
            && now < t.acks[id].touchedAt + limits.ttl && limits.ttl > 0 && Configured(t.acks[id].identity, gens))
      && (id in r.acks && id in t.acks ==> r.acks[id] == t.acks[id])
  {
    hide ValidIdentity;
    hide IdOf;
    hide Saves;
    SavedIsValid(t, live, d);
    if id in Restored(d, gens, limits, now).acks {
      var i := AcksFrom(d.acks, gens, limits, now, id);
      SavedAck(t, live, d, i);
    }
    if id in t.acks {
      var i := AckIsSaved(t, live, d, id);
      AcksBack(d.acks, gens, limits, now, i);
    }
    hide RestoreAcks;
    hide RestoreShown;
  }

  // ---------------------------------------------------------------- every saved document is valid

  /** What the engine does to the tables. */
  datatype Op =
    | Prune(live: map<string, Record>, now: int)
    | Show(id: string, record: Record, persistent: bool, live: map<string, Record>, now: int)
    | Acknowledge(id: string, record: Record, live: map<string, Record>, now: int, pruned: Tables)
    | RemoveInstance
    | Restore(document: Document, gens: Generations, now: int)

  function Proposed(t: Tables, id: string, record: Record, now: int): Tables {
    t.(acks := t.acks[id := Ack(record.identity, record.identity.generation, record.observedAt, now)])
  }

  ghost predicate Steps(t: Tables, op: Op, r: Tables, limits: Limits) {
    match op
    case Prune(live, now) => LiveOk(live) && Pruned(t, r, live, limits, now)
    case Show(id, record, persistent, live, now) =>
      && LiveOk(live) && Owns(id, record.identity) && now != 0
      && Pruned(t.(shown := t.shown[id := now], meta := t.meta[id := Meta(record.identity, persistent)]), r, live,
           limits, now)
    case Acknowledge(id, record, live, now, pruned) =>
      && LiveOk(live) && id in live && live[id] == record && now != 0 && Pruned(t, pruned, live, limits, now)
      && var proposed := Proposed(pruned, id, record, now);
      && Shrinks(proposed, r) && Size(r) == Size(proposed) - Excess(proposed, limits.capacity)
      && EvictsFirst(VictimsOf(proposed, live.Keys), VictimsOf(r, live.Keys), Excess(proposed, limits.capacity))
    case RemoveInstance => Shrinks(t, r)
    case Restore(document, gens, now) =>
      ValidDocument(document) && r == Restored(document, gens, limits, now)
  }

  ghost predicate Runs(states: seq<Tables>, ops: seq<Op>, limits: Limits) {
    && |states| == |ops| + 1 && states[0] == Tables(map[], map[], map[])
    && forall k :: 0 <= k < |ops| ==> Steps(states[k], ops[k], states[k + 1], limits)
  }

  lemma ShrinksKeeps(t: Tables, r: Tables)
    requires TablesOk(t) && Shrinks(t, r)
    ensures TablesOk(r) && Size(r) <= Size(t)
  {
    SubsetSize(r.shown.Keys, t.shown.Keys);
    SubsetSize(r.acks.Keys, t.acks.Keys);
  }

  lemma PrunedShrinks(t: Tables, r: Tables, live: map<string, Record>, limits: Limits, now: int)
    requires Pruned(t, r, live, limits, now)
    ensures Shrinks(t, r) && (limits.capacity > 0 ==> Size(r) <= limits.capacity)
  {
    hide VictimsOf;
  }

  lemma RestoredOk(d: Document, gens: Generations, limits: Limits, now: int)
    requires ValidDocument(d)
    ensures var r := Restored(d, gens, limits, now); TablesOk(r) && Size(r) <= |d.shown| + |d.acks|
  {
    hide ValidIdentity;
    hide IdOf;
    RestoredSizes(d.shown, d.acks, gens, limits, now);
    var r := Restored(d, gens, limits, now);
    hide RestoreShown;
    hide RestoreAcks;
    forall id | id in r.shown ensures r.shown[id] != 0 {
      var i := ShownFrom(d.shown, gens, limits, now, id);
      ShownBack(d.shown, gens, limits, now, i);
    }
    forall id | id in r.meta ensures Owns(id, r.meta[id].identity) {
      var i := ShownFrom(d.shown, gens, limits, now, id);
      ShownBack(d.shown, gens, limits, now, i);
    }
    forall id | id in r.acks
      ensures r.acks[id].observedAt != 0 && r.acks[id].touchedAt != 0
      ensures Owns(id, r.acks[id].identity) && r.acks[id].generation == r.acks[id].identity.generation
    {
      var i := AcksFrom(d.acks, gens, limits, now, id);
      AcksBack(d.acks, gens, limits, now, i);
    }
  }

  lemma ProposedOk(t: Tables, id: string, record: Record, live: map<string, Record>, now: int)
    requires TablesOk(t) && LiveOk(live) && id in live && live[id] == record && now != 0
    ensures TablesOk(Proposed(t, id, record, now))
  {
    hide IdOf;
    hide ValidIdentity;
  }

  lemma StepsKeep(t: Tables, op: Op, r: Tables, limits: Limits)
    requires 0 < limits.capacity <= MAX_STATE_ENTRIES && TablesOk(t) && Size(t) <= MAX_STATE_ENTRIES
      && Steps(t, op, r, limits)
    ensures TablesOk(r) && Size(r) <= MAX_STATE_ENTRIES
  {
    hide VictimsOf;
    hide Pruned;
    hide IdOf;
    hide ValidIdentity;
    hide Shrinks;
    hide EvictsFirst;
    match op
    case Prune(live, now) => PrunedShrinks(t, r, live, limits, now); ShrinksKeeps(t, r);
    case Show(id, record, persistent, live, now) =>
      var shown := t.(shown := t.shown[id := now], meta := t.meta[id := Meta(record.identity, persistent)]);
      PrunedShrinks(shown, r, live, limits, now);
      ShrinksKeeps(shown, r);
    case Acknowledge(id, record, live, now, pruned) =>
      PrunedShrinks(t, pruned, live, limits, now);
      ShrinksKeeps(t, pruned);
      ProposedOk(pruned, id, record, live, now);
      ShrinksKeeps(Proposed(pruned, id, record, now), r);
    case RemoveInstance => ShrinksKeeps(t, r);
    case Restore(document, gens, now) => RestoredOk(document, gens, limits, now);
  }

  lemma EmptyOk()
    ensures TablesOk(Tables(map[], map[], map[]))
  {
  }

  lemma {:induction false} RunsKeep(states: seq<Tables>, ops: seq<Op>, limits: Limits, k: nat)
    requires Runs(states, ops, limits) && 0 < limits.capacity <= MAX_STATE_ENTRIES && k < |states|
    ensures TablesOk(states[k]) && Size(states[k]) <= MAX_STATE_ENTRIES
  {
    hide Steps;
    hide TablesOk;
    if k > 0 {
      RunsKeep(states, ops, limits, k - 1);
      StepsKeep(states[k - 1], ops[k - 1], states[k], limits);
    } else {
      EmptyOk();
    }
  }

  /** Over every run of the engine, with any capacity up to the document limit, every document it can
      save passes validation. */
  lemma SavedDocumentsAreValid(states: seq<Tables>, ops: seq<Op>, limits: Limits, k: nat, live: map<string, Record>,
      d: Document)
    requires Runs(states, ops, limits) && 0 < limits.capacity <= MAX_STATE_ENTRIES && k < |states|
    requires LiveOk(live) && Saves(d, states[k], live)
    ensures ValidDocument(d)
  {
    RunsKeep(states, ops, limits, k);
    SavedIsValid(states[k], live, d);
  }

  /** A new acknowledgement is evicted at once exactly when the tables are full and every other entry is
      later in eviction order, which takes acknowledgements of live identities at the same instant or
      in the future. */
  lemma NewAcknowledgementSurvives(proposed: Tables, r: Tables, live: set<string>, capacity: int, id: string, now: int)
    requires id in proposed.acks && id in live && proposed.acks[id].touchedAt == now && capacity > 0
    requires Excess(proposed, capacity) <= 1
    requires Shrinks(proposed, r)
      && EvictsFirst(VictimsOf(proposed, live), VictimsOf(r, live), Excess(proposed, capacity))
    ensures id !in r.acks <==>
      && Excess(proposed, capacity) == 1
      && forall v :: v in VictimsOf(proposed, live) && (v.id != id || !v.ack) ==> Before(Victim(id, now, true, true), v)
  {
    var all, kept := VictimsOf(proposed, live), VictimsOf(r, live);
    var mine := Victim(id, now, true, true);
    hide VictimsOf;
    IsVictim(proposed, live, mine);
    IsVictim(r, live, mine);
    hide Before;
    assert id !in r.acks <==> mine in all - kept;
    if mine in all - kept {
      OnlyOne(all - kept, mine);
      forall v | v in all && (v.id != id || !v.ack) ensures Before(mine, v) {
        assert v != mine;
        assert v !in all - kept;
        assert v in kept;
      }
    } else if Excess(proposed, capacity) == 1 {
      var gone :| gone in all - kept;
      BeforeTotal(gone, mine);
      assert Before(gone, mine);
      IsVictim(proposed, live, gone);
      assert gone.id != id || !gone.ack;
    }
  }

  lemma OnlyOne(s: set<Victim>, v: Victim)
    requires v in s && |s| <= 1
    ensures s == {v}
  {
    assert |s - {v}| == |s| - 1;
  }

  /** Showing an identity records it at that time, under its identity, unless its record is what the capacity
      takes: then the tables are full and everything kept is later in eviction order. Other entries are only ever
      pruned. */
  lemma ShowEffect(t: Tables, id: string, record: Record, persistent: bool, live: map<string, Record>, now: int,
      r: Tables, limits: Limits)
    requires Steps(t, Show(id, record, persistent, live, now), r, limits) && limits.ttl > 0
    ensures id in r.shown ==> r.shown[id] == now && id in r.meta && r.meta[id] == Meta(record.identity, persistent)
    ensures id !in r.shown ==>
      && limits.capacity > 0 && Size(r) == limits.capacity
      && forall k :: k in VictimsOf(r, live.Keys) ==> Before(Victim(id, now, false, id in live), k)
    ensures forall x :: x in r.shown && x != id ==> x in t.shown && r.shown[x] == t.shown[x]
    ensures forall x :: x in r.acks ==> x in t.acks && r.acks[x] == t.acks[x]
  {
    hide LiveOk;
    hide Owns;
    hide Pruned;
    var t1 := t.(shown := t.shown[id := now], meta := t.meta[id := Meta(record.identity, persistent)]);
    PrunedEntry(t1, r, live, limits, now, id);
    PrunedShrinks(t1, r, live, limits, now);
    if id in r.shown { PrunedMeta(t1, r, live, limits, now, id); }
    hide VictimsOf;
  }

  lemma PrunedEntry(t: Tables, r: Tables, live: map<string, Record>, limits: Limits, now: int, id: string)
    requires Pruned(t, r, live, limits, now) && id in t.shown && !Expired(t.shown[id], limits, now)
    ensures id !in r.shown ==>
      && limits.capacity > 0 && Size(r) == limits.capacity
      && forall k :: k in VictimsOf(r, live.Keys) ==> Before(Victim(id, t.shown[id], false, id in live), k)
  {
    hide VictimsOf;
    hide EvictsFirst;
    hide Before;
    hide FreshAcks;
    hide Restrict;
    EvictedFirst(Fresh(t, live, limits, now), r, live.Keys, Victim(id, t.shown[id], false, id in live.Keys),
      limits.capacity);
  }

  lemma PrunedMeta(t: Tables, r: Tables, live: map<string, Record>, limits: Limits, now: int, id: string)
    requires Pruned(t, r, live, limits, now) && id in r.shown && id in t.meta
    ensures id in r.meta
  {
    hide VictimsOf;
    hide EvictsFirst;
    hide Fresh;
  }

  lemma EvictedFirst(t: Tables, r: Tables, live: set<string>, v: Victim, capacity: int)
    requires EvictsFirst(VictimsOf(t, live), VictimsOf(r, live), Excess(t, capacity))
    requires !v.ack && v.id in t.shown && v == Victim(v.id, t.shown[v.id], false, v.id in live)
    ensures v.id !in r.shown ==> capacity > 0 && Size(t) > capacity
    ensures v.id !in r.shown ==> forall k :: k in VictimsOf(r, live) ==> Before(v, k)
  {
    hide VictimsOf;
    hide Before;
    IsVictim(t, live, v);
    IsVictim(r, live, v);
    assert v.id !in r.shown ==> v in VictimsOf(t, live) - VictimsOf(r, live);
  }

  /** An acknowledgement records the observation present now at that time, unless it is evicted at once (see
      `NewAcknowledgementSurvives`); every other entry is as the prune before it left it, or evicted. */
  lemma AcknowledgeEffect(t: Tables, id: string, record: Record, live: map<string, Record>, now: int, pruned: Tables,
      r: Tables, limits: Limits)
    requires Steps(t, Acknowledge(id, record, live, now, pruned), r, limits)
    ensures id in r.acks ==>
      r.acks[id] == Ack(record.identity, record.identity.generation, record.observedAt, now)
    ensures forall x :: x in r.acks && x != id ==> x in pruned.acks && r.acks[x] == pruned.acks[x]
    ensures forall x :: x in r.shown ==> x in pruned.shown && r.shown[x] == pruned.shown[x]
    ensures !Superseded(Ack(record.identity, record.identity.generation, record.observedAt, now), id, live)
    ensures limits.capacity <= 0 || Size(pruned) < limits.capacity ==>
      r.shown == pruned.shown && r.acks == pruned.acks[id := Ack(record.identity, record.identity.generation,
        record.observedAt, now)]
  {
    hide LiveOk;
    hide Pruned;
    hide EvictsFirst;
    hide VictimsOf;
    var proposed := Proposed(pruned, id, record, now);
    assert |proposed.acks| <= |pruned.acks| + 1;
    if limits.capacity <= 0 || Size(pruned) < limits.capacity {
      assert Size(r) == Size(proposed);
      SameSizeSame(proposed, r);
      assert r.shown == proposed.shown && r.acks == proposed.acks;
    }
  }

  // ---------------------------------------------------------------- the engine's tables

  /** The fields the engine prunes in place, with its running counts. */
  class Engine {
    var shown: map<string, int>
    var meta: map<string, Meta>
    var acks: map<string, Ack>
    var shownExpired: nat
    var shownEvicted: nat
    var acksExpired: nat
    var acksSuperseded: nat
    var acksEvicted: nat
    const limits: Limits

    function View(): Tables reads this { Tables(shown, meta, acks) }

    /** Every removal so far, by the engine's own counts. */
    function ShownRemoved(): nat reads this { shownExpired + shownEvicted }

    function AcksRemoved(): nat reads this { acksExpired + acksSuperseded + acksEvicted }

    constructor (limits: Limits)
      ensures View() == Tables(map[], map[], map[]) && ShownRemoved() == 0 && AcksRemoved() == 0
        && this.limits == limits
    {
      shown, meta, acks := map[], map[], map[];
      shownExpired, shownEvicted, acksExpired, acksSuperseded, acksEvicted := 0, 0, 0, 0, 0;
      this.limits := limits;
    }

    method PruneState(live: map<string, Record>, now: int) returns (changed: bool)
      modifies this
      ensures Pruned(old(View()), View(), live, limits, now)
      ensures ShownRemoved() - old(ShownRemoved()) == old(|shown|) - |shown|
      ensures AcksRemoved() - old(AcksRemoved()) == old(|acks|) - |acks|
      ensures changed == (Size(View()) != Size(old(View())))
    {
      var before := |shown| + |acks|;
      var t, counts := PruneTables(View(), live, limits, now);
      hide Pruned;
      shown, meta, acks := t.shown, t.meta, t.acks;
      shownExpired := shownExpired + counts.shownExpired;
      shownEvicted := shownEvicted + counts.shownEvicted;
      acksExpired := acksExpired + counts.acksExpired;
      acksSuperseded := acksSuperseded + counts.acksSuperseded;
      acksEvicted := acksEvicted + counts.acksEvicted;
      changed := |shown| + |acks| != before;
    }

    method ShowWinner(id: string, record: Record, persistent: bool, live: map<string, Record>, now: int)
      requires LiveOk(live) && Owns(id, record.identity) && now != 0
      modifies this
      ensures Steps(old(View()), Show(id, record, persistent, live, now), View(), limits)
    {
      hide Pruned;
      hide LiveOk;
      hide Owns;
      shown := shown[id := now];
      meta := meta[id := Meta(record.identity, persistent)];
      var changed := PruneState(live, now);
    }

    /** The acknowledgement takes effect only once saved; pruning it first does in any case. */
    method AcknowledgeRecord(id: string, live: map<string, Record>, now: int, saved: bool)
        returns (ghost pruned: Tables)
      requires LiveOk(live) && id in live && now != 0
      modifies this
      ensures Pruned(old(View()), pruned, live, limits, now)
      ensures if saved then Steps(old(View()), Acknowledge(id, live[id], live, now, pruned), View(), limits)
        else View() == pruned
      ensures ShownRemoved() - old(ShownRemoved()) == old(|shown|) - |shown|
      ensures saved ==>
        AcksRemoved() - old(AcksRemoved()) == old(|acks|) + (if id in pruned.acks then 0 else 1) - |acks|
    {
      hide Pruned;
      hide VictimsOf;
      hide Shrinks;
      hide MetaKept;
      hide EvictsFirst;
      hide LiveOk;
      var changed := PruneState(live, now);
      pruned := View();
      var proposed := Proposed(View(), id, live[id], now);
      var r, moreShown, moreAcks := PruneCombined(proposed, live.Keys, limits.capacity);
      hide Excess;
      assert |proposed.acks| == |acks| + if id in acks then 0 else 1;
      if saved {
        shown, meta, acks := r.shown, r.meta, r.acks;
        shownEvicted := shownEvicted + moreShown;
        acksEvicted := acksEvicted + moreAcks;
      }
    }
  }
}
