/** The bounded attention tables (internal/daemon/attention_state.go) and the documents they are saved
    as (internal/attention/state.go).

    One table says when each identity was last shown, the other which observation of it was
    acknowledged. Times are integers, zero meaning no time; the observation records present now are the
    live ones. */
module AttentionTables {
  datatype Option<T> = None | Some(value: T)

  // ---------------------------------------------------------------- eviction order

  predicate StringLess(a: string, b: string) {
    b != [] && (a == [] || a[0] < b[0] || (a[0] == b[0] && StringLess(a[1..], b[1..])))
  }

  lemma {:induction false} StringTotal(a: string, b: string)
    ensures a == b || StringLess(a, b) || StringLess(b, a)
    ensures !(StringLess(a, b) && StringLess(b, a)) && !StringLess(a, a)
    decreases |a|
  {
    if a != [] && b != [] {
      StringTotal(a[1..], b[1..]);
      StringTotal(a[1..], a[1..]);
      assert a == [a[0]] + a[1..] && b == [b[0]] + b[1..];
    } else if a != [] {
      StringTotal(a[1..], a[1..]);
    }
  }

  lemma {:induction false} StringTransitive(a: string, b: string, c: string)
    requires StringLess(a, b) && StringLess(b, c)
    ensures StringLess(a, c)
    decreases |a|
  {
    if a != [] && a[0] == b[0] && b[0] == c[0] { StringTransitive(a[1..], b[1..], c[1..]); }
  }

  datatype Victim = Victim(id: string, at: int, ack: bool, isLive: bool)

  /** Absent before live, older before newer, last-shown before acknowledged, then by name. */
  predicate Before(l: Victim, r: Victim) {
    if l.isLive != r.isLive then r.isLive
    else if l.at != r.at then l.at < r.at
    else if l.ack != r.ack then r.ack
    else StringLess(l.id, r.id)
  }

  lemma BeforeTotal(l: Victim, r: Victim)
    ensures l == r || Before(l, r) || Before(r, l)
    ensures !(Before(l, r) && Before(r, l)) && !Before(l, l)
  {
    StringTotal(l.id, r.id);
    StringTotal(l.id, l.id);
  }

  lemma BeforeTransitive(a: Victim, b: Victim, c: Victim)
    requires Before(a, b) && Before(b, c)
    ensures Before(a, c)
  {
    if StringLess(a.id, b.id) && StringLess(b.id, c.id) { StringTransitive(a.id, b.id, c.id); }
  }

  // ---------------------------------------------------------------- sorting

  ghost predicate Sorted(s: seq<Victim>) { forall i, j :: 0 <= i < j < |s| ==> s[i] == s[j] || Before(s[i], s[j]) }

  function Insert(v: Victim, s: seq<Victim>): seq<Victim> {
    if s == [] || Before(v, s[0]) then [v] + s else [s[0]] + Insert(v, s[1..])
  }

  lemma SortedCons(v: Victim, s: seq<Victim>)
    requires Sorted(s) && forall j :: 0 <= j < |s| ==> v == s[j] || Before(v, s[j])
    ensures Sorted([v] + s)
  {
    hide Before;
  }

  lemma SortedHead(v: Victim, s: seq<Victim>)
    requires Sorted(s) && s != [] && Before(v, s[0])
    ensures Sorted([v] + s)
  {
    hide Before;
    forall j | 0 <= j < |s| ensures Before(v, s[j]) {
      if s[0] != s[j] { BeforeTransitive(v, s[0], s[j]); }
    }
    SortedCons(v, s);
  }

  lemma {:induction false} InsertIs(v: Victim, s: seq<Victim>)
    requires Sorted(s)
    ensures Sorted(Insert(v, s)) && multiset(Insert(v, s)) == multiset(s) + multiset{v}
  {
    hide Before;
    if s == [] {
    } else if Before(v, s[0]) {
      SortedHead(v, s);
    } else {
      InsertIs(v, s[1..]);
      var rest := Insert(v, s[1..]);
      BeforeTotal(v, s[0]);
      assert s == [s[0]] + s[1..];
      forall j | 0 <= j < |rest| ensures s[0] == rest[j] || Before(s[0], rest[j]) {
        assert rest[j] in multiset(rest);
        assert rest[j] == v || rest[j] in s[1..];
      }
      SortedCons(s[0], rest);
    }
  }

  function SortVictims(s: seq<Victim>): seq<Victim> { if s == [] then [] else Insert(s[0], SortVictims(s[1..])) }

  lemma {:induction false} SortIs(s: seq<Victim>)
    ensures Sorted(SortVictims(s)) && multiset(SortVictims(s)) == multiset(s)
  {
    if s != [] {
      SortIs(s[1..]);
      InsertIs(s[0], SortVictims(s[1..]));
      assert s == [s[0]] + s[1..];
    }
  }

  // ---------------------------------------------------------------- what an eviction is

  /** Exactly n victims go, and everything that goes comes before everything that stays. */
  ghost predicate EvictsFirst(all: set<Victim>, kept: set<Victim>, n: nat) {
    && kept <= all && |all - kept| == n
    && forall r, k :: r in all - kept && k in kept ==> Before(r, k)
  }

  /** That says which ones. */
  lemma EvictionIsDetermined(all: set<Victim>, kept: set<Victim>, other: set<Victim>, n: nat)
    requires EvictsFirst(all, kept, n) && EvictsFirst(all, other, n)
    ensures kept == other
  {
    if x :| x in kept && x !in other {
      SameSize(all, kept, other, n);
      if y :| y in other && y !in kept {
        assert x in all - other && y in all - kept;
        BeforeTotal(x, y);
        assert false;
      } else {
        assert other <= kept - {x};
        SubsetSize(other, kept - {x});
        assert false;
      }
    } else {
      SameSize(all, kept, other, n);
      if y :| y in other && y !in kept {
        assert kept <= other - {y};
        SubsetSize(kept, other - {y});
        assert false;
      }
    }
  }

  lemma SameSize(all: set<Victim>, kept: set<Victim>, other: set<Victim>, n: nat)
    requires kept <= all && other <= all && |all - kept| == n && |all - other| == n
    ensures |kept| == |other|
  {
  }

  lemma {:induction false} SubsetSize<T>(a: set<T>, b: set<T>)
    requires a <= b
    ensures |a| <= |b|
    decreases a
  {
    if x :| x in a { SubsetSize(a - {x}, b - {x}); }
  }

  /** Taking the first n of a sorted list evicts first. */
  lemma TakingEvicts(all: set<Victim>, sorted: seq<Victim>, n: nat)
    requires Sorted(sorted) && n <= |sorted| && (forall i, j :: 0 <= i < j < |sorted| ==> sorted[i] != sorted[j])
    requires forall v :: v in all <==> v in sorted
    ensures EvictsFirst(all, all - (set i | 0 <= i < n :: sorted[i]), n)
  {
    var gone := set i | 0 <= i < n :: sorted[i];
    DistinctSize(sorted, n);
    assert gone <= all;
    assert all - (all - gone) == gone;
  }

  lemma {:induction false} DistinctSize(s: seq<Victim>, n: nat)
    requires n <= |s| && forall i, j :: 0 <= i < j < |s| ==> s[i] != s[j]
    ensures |set i | 0 <= i < n :: s[i]| == n
  {
    if n > 0 {
      DistinctSize(s, n - 1);
      assert (set i | 0 <= i < n :: s[i]) == (set i | 0 <= i < n - 1 :: s[i]) + {s[n - 1]};
    }
  }

  // ---------------------------------------------------------------- the tables

  datatype Identity = Identity(pluginId: string, instanceId: string, generation: nat, channel: string, key: string)

  /** Who was shown, and whether that is saved. */
  datatype Meta = Meta(identity: Identity, persistent: bool)

  datatype Ack = Ack(identity: Identity, generation: nat, observedAt: int, touchedAt: int)

  /** An observation present now; `persists` says that its rule resolves and is not interactive. */
  datatype Record = Record(identity: Identity, observedAt: int, persists: bool)

  datatype Tables = Tables(shown: map<string, int>, meta: map<string, Meta>, acks: map<string, Ack>)

  datatype Limits = Limits(capacity: int, ttl: int)

  ghost predicate Sub<V(!new)>(a: map<string, V>, b: map<string, V>) { forall k :: k in a ==> k in b && a[k] == b[k] }

  ghost predicate Shrinks(before: Tables, after: Tables) {
    Sub(after.shown, before.shown) && Sub(after.acks, before.acks) && Sub(after.meta, before.meta)
  }

  ghost function VictimsOf(t: Tables, live: set<string>): set<Victim> {
    (set id | id in t.shown :: Victim(id, t.shown[id], false, id in live)) +
    (set id | id in t.acks :: Victim(id, t.acks[id].touchedAt, true, id in live))
  }

  function Size(t: Tables): nat { |t.shown| + |t.acks| }

  lemma OneLess<V>(m: map<string, V>, id: string)
    requires id in m
    ensures |m - {id}| == |m| - 1
  {
    assert (m - {id}).Keys == m.Keys - {id};
  }

  /** Lists every entry of both tables once. */
  method CollectVictims(t: Tables, live: set<string>) returns (victims: seq<Victim>)
    ensures |victims| == Size(t) && forall v :: v in victims <==> v in VictimsOf(t, live)
    ensures forall i, j :: 0 <= i < j < |victims| ==> victims[i] != victims[j]
  {
    victims := [];
    var left := t.shown;
    while left != map[]
      invariant Sub(left, t.shown) && |victims| + |left| == |t.shown|
      invariant forall v :: v in victims <==>
        v.id in t.shown && v.id !in left && v == Victim(v.id, t.shown[v.id], false, v.id in live)
      invariant forall i, j :: 0 <= i < j < |victims| ==> victims[i] != victims[j]
      decreases |left|
    {
      var id :| id in left;
      OneLess(left, id);
      victims := victims + [Victim(id, left[id], false, id in live)];
      left := left - {id};
    }
    var more := t.acks;
    while more != map[]
      invariant Sub(more, t.acks) && |victims| + |more| == Size(t)
      invariant forall v :: v in victims <==>
        || (v.id in t.shown && v == Victim(v.id, t.shown[v.id], false, v.id in live))
        || (v.id in t.acks && v.id !in more && v == Victim(v.id, t.acks[v.id].touchedAt, true, v.id in live))
      invariant forall i, j :: 0 <= i < j < |victims| ==> victims[i] != victims[j]
      decreases |more|
    {
      var id :| id in more;
      OneLess(more, id);
      victims := victims + [Victim(id, more[id].touchedAt, true, id in live)];
      more := more - {id};
    }
  }

  lemma {:induction false} SeenTwice(s: seq<Victim>, i: nat, j: nat)
    requires i < j < |s| && s[i] == s[j]
    ensures multiset(s)[s[i]] >= 2
  {
    assert s == s[..j] + s[j..];
    assert s[i] in s[..j] && s[i] in s[j..];
    assert multiset(s) == multiset(s[..j]) + multiset(s[j..]);
  }

  lemma {:induction false} SeenOnce(s: seq<Victim>, v: Victim)
    requires forall i, j :: 0 <= i < j < |s| ==> s[i] != s[j]
    ensures multiset(s)[v] <= 1
  {
    if s != [] {
      SeenOnce(s[1..], v);
      assert s == [s[0]] + s[1..];
      assert s[0] !in s[1..];
    }
  }

  lemma SortedIsDistinct(s: seq<Victim>, sorted: seq<Victim>)
    requires multiset(s) == multiset(sorted) && forall i, j :: 0 <= i < j < |s| ==> s[i] != s[j]
    ensures |sorted| == |s| && (forall v :: v in sorted <==> v in s)
    ensures forall i, j :: 0 <= i < j < |sorted| ==> sorted[i] != sorted[j]
  {
    assert |sorted| == |multiset(sorted)| && |s| == |multiset(s)|;
    forall v
      ensures v in sorted <==> v in s
    {
      assert v in sorted <==> v in multiset(sorted);
      assert v in s <==> v in multiset(s);
    }
    forall i, j | 0 <= i < j < |sorted| ensures sorted[i] != sorted[j] {
      SeenOnce(s, sorted[i]);
      if sorted[i] == sorted[j] { SeenTwice(sorted, i, j); }
    }
  }

  method RankVictims(t: Tables, live: set<string>) returns (victims: seq<Victim>)
    ensures |victims| == Size(t) && (forall v :: v in VictimsOf(t, live) <==> v in victims)
    ensures Sorted(victims) && forall i, j :: 0 <= i < j < |victims| ==> victims[i] != victims[j]
  {
    var collected := CollectVictims(t, live);
    SortIs(collected);
    victims := SortVictims(collected);
    SortedIsDistinct(collected, victims);
  }

  // ---------------------------------------------------------------- combined eviction

  function Drop(t: Tables, v: Victim): Tables {
    if v.ack then t.(acks := t.acks - {v.id}) else t.(shown := t.shown - {v.id}, meta := t.meta - {v.id})
  }

  lemma IsVictim(t: Tables, live: set<string>, v: Victim)
    ensures v in VictimsOf(t, live) <==>
      if v.ack then v.id in t.acks && v == Victim(v.id, t.acks[v.id].touchedAt, true, v.id in live)
      else v.id in t.shown && v == Victim(v.id, t.shown[v.id], false, v.id in live)
  {
  }

  lemma DropOne(t: Tables, live: set<string>, v: Victim)
    requires v in VictimsOf(t, live)
    ensures VictimsOf(Drop(t, v), live) == VictimsOf(t, live) - {v}
    ensures |Drop(t, v).acks| == |t.acks| - (if v.ack then 1 else 0)
      && |Drop(t, v).shown| == |t.shown| - (if v.ack then 0 else 1)
  {
    hide VictimsOf;
    IsVictim(t, live, v);
    if v.ack { OneLess(t.acks, v.id); } else { OneLess(t.shown, v.id); }
    forall w ensures w in VictimsOf(Drop(t, v), live) <==> w in VictimsOf(t, live) && w != v {
      IsVictim(t, live, w);
      IsVictim(Drop(t, v), live, w);
    }
  }

  function Excess(t: Tables, capacity: int): nat {
    if capacity <= 0 || Size(t) <= capacity then 0 else Size(t) - capacity
  }

  ghost predicate MetaKept(before: Tables, after: Tables) {
    && Sub(after.meta, before.meta)
    && (forall id :: id in before.meta && (id in after.shown || id !in before.shown) ==> id in after.meta)
    && (forall id :: id in after.meta && id in before.shown ==> id in after.shown)
  }

  /** The first k victims have gone from both tables. */
  ghost predicate Evicting(t: Tables, r: Tables, live: set<string>, victims: seq<Victim>, k: nat) {
    && k <= |victims| && Shrinks(t, r) && MetaKept(t, r)
    && VictimsOf(r, live) == VictimsOf(t, live) - (set i | 0 <= i < k :: victims[i])
  }

  lemma DropShrinks(t: Tables, r: Tables, v: Victim)
    requires Shrinks(t, r) && MetaKept(t, r) && (!v.ack ==> v.id in r.shown)
    ensures Shrinks(t, Drop(r, v)) && MetaKept(t, Drop(r, v))
  {
  }

  lemma EvictNext(t: Tables, r: Tables, live: set<string>, victims: seq<Victim>, k: nat)
    requires Evicting(t, r, live, victims, k) && k < |victims| && victims[k] in VictimsOf(t, live)
    requires forall i, j :: 0 <= i < j < |victims| ==> victims[i] != victims[j]
    ensures victims[k] in VictimsOf(r, live) && Evicting(t, Drop(r, victims[k]), live, victims, k + 1)
  {
    hide VictimsOf;
    hide Shrinks;
    hide MetaKept;
    hide Drop;
    var v := victims[k];
    assert v in VictimsOf(r, live);
    IsVictim(r, live, v);
    DropShrinks(t, r, v);
    DropOne(r, live, v);
    assert (set i | 0 <= i < k + 1 :: victims[i]) == (set i | 0 <= i < k :: victims[i]) + {v};
  }

  method EvictVictims(t: Tables, ghost live: set<string>, victims: seq<Victim>, n: nat)
      returns (r: Tables, shownEvicted: nat, acksEvicted: nat)
    requires n <= |victims| && (forall v :: v in victims ==> v in VictimsOf(t, live))
    requires forall i, j :: 0 <= i < j < |victims| ==> victims[i] != victims[j]
    ensures Evicting(t, r, live, victims, n) && shownEvicted + acksEvicted == n
    ensures |r.shown| + shownEvicted == |t.shown| && |r.acks| + acksEvicted == |t.acks|
  {
    hide VictimsOf;
    hide Shrinks;
    hide MetaKept;
    r, shownEvicted, acksEvicted := t, 0, 0;
    assert Evicting(t, r, live, victims, 0) by { NoEviction(t, live); }
    hide Evicting;
    for k := 0 to n
      invariant Evicting(t, r, live, victims, k) && shownEvicted + acksEvicted == k
      invariant |r.shown| + shownEvicted == |t.shown| && |r.acks| + acksEvicted == |t.acks|
    {
      var v := victims[k];
      EvictNext(t, r, live, victims, k);
      DropOne(r, live, v);
      if v.ack {
        r := r.(acks := r.acks - {v.id});
        acksEvicted := acksEvicted + 1;
      } else {
        r := r.(shown := r.shown - {v.id}, meta := r.meta - {v.id});
        shownEvicted := shownEvicted + 1;
      }
    }
  }

  /** Brings the two tables together within the capacity, counting what it takes from each. */
  method PruneCombined(t: Tables, live: set<string>, capacity: int)
      returns (r: Tables, shownEvicted: nat, acksEvicted: nat)
    ensures EvictsFirst(VictimsOf(t, live), VictimsOf(r, live), Excess(t, capacity))
    ensures Shrinks(t, r) && MetaKept(t, r) && Size(r) == Size(t) - Excess(t, capacity)
    ensures |r.shown| + shownEvicted == |t.shown| && |r.acks| + acksEvicted == |t.acks|
  {
    hide VictimsOf;
    hide Shrinks;
    hide MetaKept;
    var remaining := Size(t) - capacity;
    if capacity <= 0 || remaining <= 0 {
      NoEviction(t, live);
      return t, 0, 0;
    }
    var victims := RankVictims(t, live);
    r, shownEvicted, acksEvicted := EvictVictims(t, live, victims, remaining);
    hide EvictsFirst;
    TakingEvicts(VictimsOf(t, live), victims, remaining);
    EvictingMeans(t, r, live, victims, remaining);
    hide Evicting;
    hide Sorted;
  }

  lemma NoEviction(t: Tables, live: set<string>)
    ensures EvictsFirst(VictimsOf(t, live), VictimsOf(t, live), 0) && Shrinks(t, t) && MetaKept(t, t)
  {
    assert VictimsOf(t, live) - VictimsOf(t, live) == {};
  }

  lemma EvictingMeans(t: Tables, r: Tables, live: set<string>, victims: seq<Victim>, k: nat)
    requires Evicting(t, r, live, victims, k)
    ensures Shrinks(t, r) && MetaKept(t, r) && k <= |victims|
    ensures VictimsOf(r, live) == VictimsOf(t, live) - (set i | 0 <= i < k :: victims[i])
  {
  }

  // ---------------------------------------------------------------- expiry

  predicate Expired(at: int, limits: Limits, now: int) { limits.ttl <= 0 || at + limits.ttl <= now }

  /** The acknowledged observation is not the one present now. */
  predicate Superseded(ack: Ack, id: string, live: map<string, Record>) {
    id in live && (ack.generation != live[id].identity.generation || ack.observedAt != live[id].observedAt)
  }

  function FreshShown(shown: map<string, int>, limits: Limits, now: int): map<string, int> {
    map id | id in shown && !Expired(shown[id], limits, now) :: shown[id]
  }

  function FreshAcks(acks: map<string, Ack>, live: map<string, Record>, limits: Limits, now: int): map<string, Ack> {
    map id | id in acks && !Expired(acks[id].touchedAt, limits, now) && !Superseded(acks[id], id, live) :: acks[id]
  }

  method ExpireShown(shown: map<string, int>, limits: Limits, now: int) returns (r: map<string, int>, pruned: nat)
    ensures r == FreshShown(shown, limits, now) && |r| + pruned == |shown|
  {
    r, pruned := shown, 0;
    var left := shown.Keys;
    while left != {}
      invariant left <= r.Keys && Sub(r, shown) && |r| + pruned == |shown|
      invariant forall id :: id in shown && id !in left ==> (id in r <==> !Expired(shown[id], limits, now))
      decreases left
    {
      var id :| id in left;
      if Expired(shown[id], limits, now) {
        OneLess(r, id);
        r := r - {id};
        pruned := pruned + 1;
      }
      left := left - {id};
    }
  }

  /** Counts apart what has expired and what has been superseded. */
  method ExpireAcks(acks: map<string, Ack>, live: map<string, Record>, limits: Limits, now: int)
    returns (r: map<string, Ack>, expired: nat, superseded: nat)
    ensures r == FreshAcks(acks, live, limits, now) && |r| + expired + superseded == |acks|
    ensures expired == |set id | id in acks && Expired(acks[id].touchedAt, limits, now)|
  {
    r, expired, superseded := acks, 0, 0;
    var left := acks.Keys;
    ghost var gone := {};
    while left != {}
      invariant left <= r.Keys && Sub(r, acks) && |r| + expired + superseded == |acks|
      invariant forall id :: id in acks && id !in left ==>
        (id in r <==> !Expired(acks[id].touchedAt, limits, now) && !Superseded(acks[id], id, live))
      invariant gone == (set id | id in acks && id !in left && Expired(acks[id].touchedAt, limits, now))
        && expired == |gone|
      decreases left
    {
      var id :| id in left;
      if Expired(acks[id].touchedAt, limits, now) {
        OneLess(r, id);
        r := r - {id};
        gone := gone + {id};
        expired := expired + 1;
      } else if Superseded(acks[id], id, live) {
        OneLess(r, id);
        r := r - {id};
        superseded := superseded + 1;
      }
      left := left - {id};
    }
    assert gone == set id | id in acks && Expired(acks[id].touchedAt, limits, now);
  }

  // ---------------------------------------------------------------- one table over capacity

  function AbsentOnly(times: map<string, int>, live: set<string>): map<string, int> {
    map id | id in times && id !in live :: times[id]
  }

  /** Absent entries have gone, oldest first, until the table fits or only live ones are left. */
  ghost predicate AbsentEvicted(times: map<string, int>, kept: map<string, int>, live: set<string>, capacity: int) {
    && Sub(kept, times) && (forall id :: id in times && id in live ==> id in kept)
    && (capacity <= 0 || |times| <= capacity ==> kept == times)
    && (capacity > 0 && |times| > capacity ==>
         |kept| == capacity || (|kept| > capacity && forall id :: id in kept ==> id in live))
    && (forall r, k :: r in times && r !in kept && k in kept && k !in live ==>
          Before(Victim(r, times[r], false, false), Victim(k, times[k], false, false)))
  }

  lemma AbsentRest(times: map<string, int>, live: set<string>, kept: map<string, int>, absent: map<string, int>)
    requires Sub(kept, times) && absent == AbsentOnly(times, live) && |times| - |kept| == |absent|
    requires forall id :: id in times && id !in kept ==> id in absent
    ensures forall id :: id in kept ==> id in live
  {
    assert times.Keys - kept.Keys <= absent.Keys;
    assert |times.Keys - kept.Keys| == |times.Keys| - |kept.Keys| by { assert kept.Keys <= times.Keys; }
    if id :| id in kept && id !in live {
      assert times.Keys - kept.Keys <= absent.Keys - {id};
      SubsetSize(times.Keys - kept.Keys, absent.Keys - {id});
      assert false;
    }
  }

  method EvictAbsent(times: map<string, int>, live: set<string>, capacity: int)
      returns (kept: map<string, int>, evicted: nat)
    ensures AbsentEvicted(times, kept, live, capacity) && |kept| + evicted == |times|
  {
    if capacity <= 0 || |times| <= capacity { return times, 0; }
    var absent := AbsentOnly(times, live);
    var victims := RankVictims(Tables(absent, map[], map[]), {});
    var n := if |victims| < |times| - capacity then |victims| else |times| - capacity;
    var t := Tables(times, map[], map[]);
    forall v | v in victims ensures v in VictimsOf(t, {}) && !v.ack {
      IsVictim(Tables(absent, map[], map[]), {}, v);
      IsVictim(t, {}, v);
    }
    var r, shownEvicted, acksEvicted := EvictVictims(t, {}, victims, n);
    kept, evicted := r.shown, shownEvicted;
    EvictingMeans(t, r, {}, victims, n);
    AbsentEvictedIs(times, kept, live, capacity, victims, n, t, r);
  }

  lemma AbsentFacts(times: map<string, int>, kept: map<string, int>, live: set<string>, victims: seq<Victim>, n: nat,
      t: Tables, r: Tables)
    requires t == Tables(times, map[], map[]) && kept == r.shown
    requires Sorted(victims) && (forall i, j :: 0 <= i < j < |victims| ==> victims[i] != victims[j])
    requires var absent := AbsentOnly(times, live);
      |victims| == |absent| && forall v :: v in VictimsOf(Tables(absent, map[], map[]), {}) <==> v in victims
    requires Evicting(t, r, {}, victims, n)
    ensures n <= |victims| && Sub(kept, times) && (forall id :: id in times && id in live ==> id in kept)
    ensures forall x, k :: x in times && x !in kept && k in kept && k !in live ==>
      Before(Victim(x, times[x], false, false), Victim(k, times[k], false, false))
  {
    var first := set i | 0 <= i < n :: victims[i];
    hide VictimsOf;
    forall id | id in times
      ensures id in kept <==> Victim(id, times[id], false, false) !in first
      ensures id in AbsentOnly(times, live) <==> Victim(id, times[id], false, false) in victims
    {
      AbsentMember(times, kept, live, victims, n, t, r, id);
    }
    assert forall v :: v in first ==> v in victims;
    forall id | id in times && id in live ensures id in kept {
      assert id !in AbsentOnly(times, live);
    }
    RemovedFirst(times, kept, live, victims, n);
    hide Before;
    hide Sorted;
    hide AbsentOnly;
  }

  lemma AbsentEvictedIs(times: map<string, int>, kept: map<string, int>, live: set<string>, capacity: int,
      victims: seq<Victim>, n: nat, t: Tables, r: Tables)
    requires capacity > 0 && |times| > capacity && t == Tables(times, map[], map[]) && kept == r.shown
    requires Sorted(victims) && (forall i, j :: 0 <= i < j < |victims| ==> victims[i] != victims[j])
    requires var absent := AbsentOnly(times, live);
      |victims| == |absent| && forall v :: v in VictimsOf(Tables(absent, map[], map[]), {}) <==> v in victims
    requires Evicting(t, r, {}, victims, n)
    requires n == (if |victims| < |times| - capacity then |victims| else |times| - capacity) && |kept| == |times| - n
    ensures AbsentEvicted(times, kept, live, capacity)
  {
    hide VictimsOf;
    hide Before;
    hide Sorted;
    hide Evicting;
    AbsentFacts(times, kept, live, victims, n, t, r);
    if n == |victims| { AbsentRest(times, live, kept, AbsentOnly(times, live)); }
    hide AbsentOnly;
  }

  lemma RemovedFirst(times: map<string, int>, kept: map<string, int>, live: set<string>, victims: seq<Victim>, n: nat)
    requires Sorted(victims) && n <= |victims| && (forall i, j :: 0 <= i < j < |victims| ==> victims[i] != victims[j])
      && Sub(kept, times)
    requires forall id :: id in times ==>
      (id in kept <==> Victim(id, times[id], false, false) !in (set i | 0 <= i < n :: victims[i]))
    requires forall id :: id in times && id !in live ==> Victim(id, times[id], false, false) in victims
    ensures forall x, k :: x in times && x !in kept && k in kept && k !in live ==>
      Before(Victim(x, times[x], false, false), Victim(k, times[k], false, false))
  {
    hide Before;
    forall x, k | x in times && x !in kept && k in kept && k !in live
      ensures Before(Victim(x, times[x], false, false), Victim(k, times[k], false, false))
    {
      var i :| 0 <= i < n && victims[i] == Victim(x, times[x], false, false);
      var j :| 0 <= j < |victims| && victims[j] == Victim(k, times[k], false, false);
      assert j >= n;
    }
  }

  lemma AbsentMember(times: map<string, int>, kept: map<string, int>, live: set<string>, victims: seq<Victim>, n: nat,
      t: Tables, r: Tables, id: string)
    requires t == Tables(times, map[], map[]) && kept == r.shown && id in times
    requires var absent := AbsentOnly(times, live);
      |victims| == |absent| && forall v :: v in VictimsOf(Tables(absent, map[], map[]), {}) <==> v in victims
    requires Evicting(t, r, {}, victims, n)
    ensures id in kept <==> Victim(id, times[id], false, false) !in (set i | 0 <= i < n :: victims[i])
    ensures id in AbsentOnly(times, live) <==> Victim(id, times[id], false, false) in victims
  {
    hide VictimsOf;
    var v := Victim(id, times[id], false, false);
    IsVictim(t, {}, v);
    IsVictim(r, {}, v);
    IsVictim(Tables(AbsentOnly(times, live), map[], map[]), {}, v);
  }

  // ---------------------------------------------------------------- a whole prune

  function Restrict<V>(m: map<string, V>, keys: set<string>): map<string, V> { map id | id in m && id in keys :: m[id] }

  function Fresh(t: Tables, live: map<string, Record>, limits: Limits, now: int): Tables {
    var shown := FreshShown(t.shown, limits, now);
    Tables(shown, Restrict(t.meta, shown.Keys), FreshAcks(t.acks, live, limits, now))
  }

  /** What a prune promises: whatever is not expired or superseded stays, except that the excess over the
      capacity goes in eviction order, as if it had been evicted from both tables at once. */
  ghost predicate Pruned(t: Tables, r: Tables, live: map<string, Record>, limits: Limits, now: int) {
    var unexpired := Fresh(t, live, limits, now);
    && Sub(r.shown, unexpired.shown) && Sub(r.acks, unexpired.acks) && r.meta == Restrict(t.meta, r.shown.Keys)
    && Size(r) == (if limits.capacity <= 0 || Size(unexpired) <= limits.capacity then Size(unexpired)
         else limits.capacity)
    && EvictsFirst(VictimsOf(unexpired, live.Keys), VictimsOf(r, live.Keys), Excess(unexpired, limits.capacity))
  }

  datatype Counts = Counts(shownExpired: nat, shownEvicted: nat, acksExpired: nat, acksSuperseded: nat,
      acksEvicted: nat)

  /** The last-shown table on its own. */
  method PruneShown(shown: map<string, int>, live: set<string>, limits: Limits, now: int)
    returns (r: map<string, int>, expired: nat, evicted: nat)
    ensures AbsentEvicted(FreshShown(shown, limits, now), r, live, limits.capacity)
    ensures |r| + expired + evicted == |shown|
  {
    var unexpired;
    unexpired, expired := ExpireShown(shown, limits, now);
    r, evicted := EvictAbsent(unexpired, live, limits.capacity);
  }

  function TouchedAt(acks: map<string, Ack>): map<string, int> { map id | id in acks :: acks[id].touchedAt }

  /** The acknowledgements on their own. */
  method PruneAcks(acks: map<string, Ack>, live: map<string, Record>, limits: Limits, now: int)
    returns (r: map<string, Ack>, expired: nat, superseded: nat, evicted: nat)
    ensures Sub(r, FreshAcks(acks, live, limits, now))
    ensures AbsentEvicted(TouchedAt(FreshAcks(acks, live, limits, now)), TouchedAt(r), live.Keys, limits.capacity)
    ensures |r| + expired + superseded + evicted == |acks|
    ensures expired == |set id | id in acks && Expired(acks[id].touchedAt, limits, now)|
  {
    var unexpired;
    unexpired, expired, superseded := ExpireAcks(acks, live, limits, now);
    hide AbsentEvicted;
    var kept;
    kept, evicted := EvictAbsent(TouchedAt(unexpired), live.Keys, limits.capacity);
    r := Restrict(unexpired, kept.Keys);
    TouchedRestrict(unexpired, kept, live.Keys, limits.capacity);
  }

  lemma TouchedRestrict(acks: map<string, Ack>, kept: map<string, int>, live: set<string>, capacity: int)
    requires AbsentEvicted(TouchedAt(acks), kept, live, capacity)
    ensures TouchedAt(Restrict(acks, kept.Keys)) == kept
    ensures |Restrict(acks, kept.Keys)| == |kept| && |TouchedAt(acks)| == |acks|
  {
    assert Restrict(acks, kept.Keys).Keys == kept.Keys;
    assert TouchedAt(acks).Keys == acks.Keys;
  }

  /** pruneState: expiry and one-table limits, then the combined limit. Every removal is counted once. */
  method PruneTables(t: Tables, live: map<string, Record>, limits: Limits, now: int) returns (r: Tables, counts: Counts)
    ensures Pruned(t, r, live, limits, now)
    ensures |r.shown| + counts.shownExpired + counts.shownEvicted == |t.shown|
    ensures |r.acks| + counts.acksExpired + counts.acksSuperseded + counts.acksEvicted == |t.acks|
    ensures counts.acksExpired == |set id | id in t.acks && Expired(t.acks[id].touchedAt, limits, now)|
  {
    hide AbsentEvicted;
    hide EvictsFirst;
    hide VictimsOf;
    hide Pruned;
    hide FreshShown;
    hide FreshAcks;
    hide TouchedAt;
    var shown, shownExpired, shownEvicted := PruneShown(t.shown, live.Keys, limits, now);
    var acks, acksExpired, acksSuperseded, acksEvicted := PruneAcks(t.acks, live, limits, now);
    var middle := Tables(shown, Restrict(t.meta, shown.Keys), acks);
    var moreShown, moreAcks;
    r, moreShown, moreAcks := PruneCombined(middle, live.Keys, limits.capacity);
    counts := Counts(shownExpired, shownEvicted + moreShown, acksExpired, acksSuperseded, acksEvicted + moreAcks);
    PrunedIs(t, middle, r, live, limits, now);
  }

  lemma PrunedIs(t: Tables, middle: Tables, r: Tables, live: map<string, Record>, limits: Limits, now: int)
    requires AbsentEvicted(FreshShown(t.shown, limits, now), middle.shown, live.Keys, limits.capacity)
    requires Sub(middle.acks, FreshAcks(t.acks, live, limits, now))
    requires AbsentEvicted(TouchedAt(FreshAcks(t.acks, live, limits, now)), TouchedAt(middle.acks), live.Keys,
      limits.capacity)
    requires middle.meta == Restrict(t.meta, middle.shown.Keys)
    requires Shrinks(middle, r) && MetaKept(middle, r) && Size(r) == Size(middle) - Excess(middle, limits.capacity)
    requires EvictsFirst(VictimsOf(middle, live.Keys), VictimsOf(r, live.Keys), Excess(middle, limits.capacity))
    ensures Pruned(t, r, live, limits, now)
  {
    hide FreshShown;
    hide FreshAcks;
    hide VictimsOf;
    hide EvictsFirst;
    hide AbsentEvicted;
    hide TouchedAt;
    hide Restrict;
    hide MetaKept;
    var unexpired := Fresh(t, live, limits, now);
    MetaIs(t, middle, r);
    EvictedSizes(unexpired.shown, middle.shown, live.Keys, limits.capacity);
    EvictedAcks(unexpired.acks, middle.acks, live.Keys, limits.capacity);
    SizeIs(unexpired, middle, limits.capacity);
    assert Sub(r.shown, unexpired.shown) && Sub(r.acks, unexpired.acks);
    StagesEvictFirst(unexpired, middle, r, live.Keys, limits.capacity);
    hide Sub;
    hide Shrinks;
    hide Excess;
    hide Size;
  }

  lemma EvictedAcks(acks: map<string, Ack>, kept: map<string, Ack>, live: set<string>, capacity: int)
    requires Sub(kept, acks) && AbsentEvicted(TouchedAt(acks), TouchedAt(kept), live, capacity)
    ensures |kept| <= |acks| && (forall id :: id in acks && id in live ==> id in kept)
    ensures if capacity <= 0 || |acks| <= capacity then |kept| == |acks| else |kept| >= capacity
  {
    EvictedSizes(TouchedAt(acks), TouchedAt(kept), live, capacity);
    assert TouchedAt(acks).Keys == acks.Keys && TouchedAt(kept).Keys == kept.Keys;
    hide AbsentEvicted;
  }

  lemma EvictedSizes(times: map<string, int>, kept: map<string, int>, live: set<string>, capacity: int)
    requires AbsentEvicted(times, kept, live, capacity)
    ensures |kept| <= |times| && Sub(kept, times) && (forall id :: id in times && id in live ==> id in kept)
    ensures if capacity <= 0 || |times| <= capacity then |kept| == |times| else |kept| >= capacity
  {
    SubsetSize(kept.Keys, times.Keys);
  }

  lemma {:induction false} VictimCount(t: Tables, live: set<string>)
    ensures |VictimsOf(t, live)| == Size(t)
    decreases Size(t)
  {
    hide VictimsOf;
    if id :| id in t.shown {
      var v := Victim(id, t.shown[id], false, id in live);
      IsVictim(t, live, v);
      DropOne(t, live, v);
      VictimCount(Drop(t, v), live);
    } else if id :| id in t.acks {
      var v := Victim(id, t.acks[id].touchedAt, true, id in live);
      IsVictim(t, live, v);
      DropOne(t, live, v);
      VictimCount(Drop(t, v), live);
    } else {
      forall v ensures v !in VictimsOf(t, live) { IsVictim(t, live, v); }
      assert VictimsOf(t, live) == {};
    }
  }

  /** The ghost of the stages: what the one-table stages left, and what the combined one left of that. */
  ghost predicate Staged(unexpired: Tables, middle: Tables, r: Tables, live: set<string>, capacity: int) {
    && AbsentEvicted(unexpired.shown, middle.shown, live, capacity)
    && Sub(middle.acks, unexpired.acks)
    && AbsentEvicted(TouchedAt(unexpired.acks), TouchedAt(middle.acks), live, capacity)
    && Sub(r.shown, middle.shown) && Sub(r.acks, middle.acks) && (capacity > 0 ==> Size(r) <= capacity)
    && EvictsFirst(VictimsOf(middle, live), VictimsOf(r, live), Excess(middle, capacity))
  }

  lemma SomeMissing<V, W>(large: map<string, V>, small: map<string, W>) returns (id: string)
    requires |small| < |large|
    ensures id in large && id !in small
  {
    if large.Keys <= small.Keys { SubsetSize(large.Keys, small.Keys); }
    id :| id in large && id !in small;
  }

  /** An entry of the one table that the other table keeps company with at the end has an older entry of the
      other table evicted before it: the combined stage made room, so it took something in between. */
  lemma ShownGoFirst(unexpired: Tables, middle: Tables, r: Tables, live: set<string>, capacity: int, x: Victim,
      k: Victim)
    requires Staged(unexpired, middle, r, live, capacity)
    requires x in VictimsOf(unexpired, live) && x !in VictimsOf(middle, live) && !x.ack && k in VictimsOf(r, live)
    ensures Before(x, k)
  {
    hide VictimsOf;
    IsVictim(unexpired, live, x);
    IsVictim(middle, live, x);
    IsVictim(r, live, k);
    EvictedSizes(unexpired.shown, middle.shown, live, capacity);
    if k.ack && !k.isLive {
      assert |r.acks| >= 1;
      var id := SomeMissing(middle.shown, r.shown);
      var y := Victim(id, middle.shown[id], false, id in live);
      IsVictim(middle, live, y);
      IsVictim(r, live, y);
      assert Before(y, k);
      assert Before(x, y);
      BeforeTransitive(x, y, k);
    }
    hide TouchedAt;
  }

  lemma AcksGoFirst(unexpired: Tables, middle: Tables, r: Tables, live: set<string>, capacity: int, x: Victim,
      k: Victim)
    requires Staged(unexpired, middle, r, live, capacity)
    requires x in VictimsOf(unexpired, live) && x !in VictimsOf(middle, live) && x.ack && k in VictimsOf(r, live)
    ensures Before(x, k)
  {
    hide VictimsOf;
    IsVictim(unexpired, live, x);
    IsVictim(middle, live, x);
    IsVictim(r, live, k);
    EvictedAcks(unexpired.acks, middle.acks, live, capacity);
    assert x.id in TouchedAt(unexpired.acks) && x.id !in TouchedAt(middle.acks);
    assert |TouchedAt(unexpired.acks)| == |unexpired.acks| by {
      assert TouchedAt(unexpired.acks).Keys == unexpired.acks.Keys;
    }
    if !k.ack && !k.isLive {
      assert |r.shown| >= 1;
      var id := SomeMissing(middle.acks, r.acks);
      var y := Victim(id, middle.acks[id].touchedAt, true, id in live);
      IsVictim(middle, live, y);
      IsVictim(r, live, y);
      assert Before(y, k);
      assert id in TouchedAt(middle.acks);
      assert Before(x, y);
      BeforeTransitive(x, y, k);
    } else if k.ack && !k.isLive {
      assert k.id in TouchedAt(middle.acks);
    }
  }

  /** The stages together evict what one eviction from both tables at once would have. */
  lemma StagesEvictFirst(unexpired: Tables, middle: Tables, r: Tables, live: set<string>, capacity: int)
    requires Staged(unexpired, middle, r, live, capacity)
    requires Size(r) == if capacity <= 0 || Size(unexpired) <= capacity then Size(unexpired) else capacity
    ensures EvictsFirst(VictimsOf(unexpired, live), VictimsOf(r, live), Excess(unexpired, capacity))
  {
    hide *;
    var all, kept := VictimsOf(unexpired, live), VictimsOf(r, live);
    KeptAreOfAll(unexpired, middle, r, live, capacity);
    VictimCount(unexpired, live);
    VictimCount(r, live);
    LessKept(unexpired, r, live, capacity);
    forall x, k | x in all - kept && k in kept ensures Before(x, k) {
      GoneIsBefore(unexpired, middle, r, live, capacity, x, k);
    }
    EvictsFirstIs(all, kept, Excess(unexpired, capacity));
  }

  lemma EvictsFirstIs(all: set<Victim>, kept: set<Victim>, n: nat)
    requires kept <= all && |all| - |kept| == n
    requires forall x, k :: x in all - kept && k in kept ==> Before(x, k)
    ensures EvictsFirst(all, kept, n)
  {
    hide Before;
  }

  lemma LessKept(unexpired: Tables, r: Tables, live: set<string>, capacity: int)
    requires Size(r) == if capacity <= 0 || Size(unexpired) <= capacity then Size(unexpired) else capacity
    ensures Size(unexpired) - Size(r) == Excess(unexpired, capacity)
  {
  }

  lemma KeptAreOfAll(unexpired: Tables, middle: Tables, r: Tables, live: set<string>, capacity: int)
    requires Staged(unexpired, middle, r, live, capacity)
    ensures VictimsOf(r, live) <= VictimsOf(unexpired, live)
  {
    EvictedSizes(unexpired.shown, middle.shown, live, capacity);
    hide AbsentEvicted;
    hide TouchedAt;
    hide VictimsOf;
    forall v | v in VictimsOf(r, live) ensures v in VictimsOf(unexpired, live) {
      IsVictim(r, live, v);
      IsVictim(unexpired, live, v);
    }
  }

  lemma GoneIsBefore(unexpired: Tables, middle: Tables, r: Tables, live: set<string>, capacity: int, x: Victim,
      k: Victim)
    requires Staged(unexpired, middle, r, live, capacity)
    requires x in VictimsOf(unexpired, live) && x !in VictimsOf(r, live) && k in VictimsOf(r, live)
    ensures Before(x, k)
  {
    if x in VictimsOf(middle, live) {
      hide VictimsOf;
      hide AbsentEvicted;
    } else {
      hide *;
      if x.ack { AcksGoFirst(unexpired, middle, r, live, capacity, x, k); }
      else { ShownGoFirst(unexpired, middle, r, live, capacity, x, k); }
    }
  }

  lemma MetaIs(t: Tables, middle: Tables, r: Tables)
    requires middle.meta == Restrict(t.meta, middle.shown.Keys) && Shrinks(middle, r) && MetaKept(middle, r)
    ensures r.meta == Restrict(t.meta, r.shown.Keys)
  {
  }

  lemma SizeIs(unexpired: Tables, middle: Tables, capacity: int)
    requires |middle.shown| <= |unexpired.shown| && |middle.acks| <= |unexpired.acks|
    requires if capacity <= 0 || |unexpired.shown| <= capacity then |middle.shown| == |unexpired.shown|
      else |middle.shown| >= capacity
    requires if capacity <= 0 || |unexpired.acks| <= capacity then |middle.acks| == |unexpired.acks|
      else |middle.acks| >= capacity
    ensures Size(middle) - Excess(middle, capacity) == if capacity <= 0 || Size(unexpired) <= capacity
      then Size(unexpired) else capacity
  {
  }

  /** What stays after a prune is within its time to live and, for an acknowledgement, of the observation present
      now if there is one; if all of that fits, all of it stays. */
  lemma PruneKeepsFresh(t: Tables, r: Tables, live: map<string, Record>, limits: Limits, now: int, id: string)
    requires Pruned(t, r, live, limits, now)
    ensures
      var freshShown := id in t.shown && limits.ttl > 0 && now < t.shown[id] + limits.ttl;
      var freshAck := id in t.acks && limits.ttl > 0 && now < t.acks[id].touchedAt + limits.ttl
        && (id in live ==>
              t.acks[id].generation == live[id].identity.generation && t.acks[id].observedAt == live[id].observedAt);
      && (id in r.shown ==> freshShown && r.shown[id] == t.shown[id])
      && (id in r.acks ==> freshAck && r.acks[id] == t.acks[id])
      && (limits.capacity <= 0 || Size(r) < limits.capacity ==>
            (id in r.shown <==> freshShown) && (id in r.acks <==> freshAck))
  {
    hide EvictsFirst;
    hide VictimsOf;
    var unexpired := Fresh(t, live, limits, now);
    if limits.capacity <= 0 || Size(r) < limits.capacity { SameSizeSame(unexpired, r); }
  }

  lemma SameSizeSame(t: Tables, r: Tables)
    requires Sub(r.shown, t.shown) && Sub(r.acks, t.acks) && Size(r) == Size(t)
    ensures r.shown.Keys == t.shown.Keys && r.acks.Keys == t.acks.Keys
  {
    SubsetSize(r.shown.Keys, t.shown.Keys);
    SubsetSize(r.acks.Keys, t.acks.Keys);
    if x :| x in t.shown && x !in r.shown { SubsetSize(r.shown.Keys, t.shown.Keys - {x}); }
    if x :| x in t.acks && x !in r.acks { SubsetSize(r.acks.Keys, t.acks.Keys - {x}); }
  }

  /** That leaves one possible result. */
  lemma PruneIsDetermined(t: Tables, r: Tables, r': Tables, live: map<string, Record>, limits: Limits, now: int)
    requires Pruned(t, r, live, limits, now) && Pruned(t, r', live, limits, now)
    ensures r == r'
  {
    var unexpired := Fresh(t, live, limits, now);
    EvictionIsDetermined(VictimsOf(unexpired, live.Keys), VictimsOf(r, live.Keys), VictimsOf(r', live.Keys),
      Excess(unexpired, limits.capacity));
    hide VictimsOf;
    hide EvictsFirst;
    hide Fresh;
    hide Excess;
    hide Size;
    SameVictims(unexpired, r, r', live.Keys);
  }

  lemma SameVictims(t: Tables, r: Tables, r': Tables, live: set<string>)
    requires Sub(r.shown, t.shown) && Sub(r.acks, t.acks) && Sub(r'.shown, t.shown) && Sub(r'.acks, t.acks)
    requires VictimsOf(r, live) == VictimsOf(r', live)
    ensures r.shown == r'.shown && r.acks == r'.acks
  {
    hide VictimsOf;
    forall id ensures id in r.shown <==> id in r'.shown {
      if id in t.shown {
        IsVictim(r, live, Victim(id, t.shown[id], false, id in live));
        IsVictim(r', live, Victim(id, t.shown[id], false, id in live));
      }
    }
    forall id ensures id in r.acks <==> id in r'.acks {
      if id in t.acks {
        IsVictim(r, live, Victim(id, t.acks[id].touchedAt, true, id in live));
        IsVictim(r', live, Victim(id, t.acks[id].touchedAt, true, id in live));
      }
    }
  }
}
