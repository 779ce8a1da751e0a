/** Application generations over the history of one configuration file (internal/config/store.go).

    Everything about an application except its generation is one opaque value, as is a plugin record:
    the source compares both with deep equality. */
module ConfigGenerations {

  datatype Option<T> = None | Some(value: T)

  datatype App = App(pluginId: string, settings: string, generation: nat)

  datatype Plugin = Plugin(record: string)

  datatype Document = Document(generation: nat, device: string, plugins: map<string, Plugin>, apps: map<string, App>)

  const UINT64 := 0x1_0000_0000_0000_0000

  /** Unsigned increment, with wrap-around. */
  function Successor(generation: nat): nat { (generation + 1) % UINT64 }

  /** The part of Validate that concerns generations and cross-references. */
  predicate Valid(d: Document) {
    && 0 < d.generation < UINT64
    && forall id :: id in d.apps ==> 0 < d.apps[id].generation <= d.generation && d.apps[id].pluginId in d.plugins
  }

  // ---------------------------------------------------------------- assigning generations

  predicate SameConfiguration(left: App, right: App) { left.(generation := 0) == right.(generation := 0) }

  /** The application is in both documents with the same configuration and the same plugin record. */
  predicate Unchanged(previous: Document, next: Document, id: string) {
    && id in previous.apps && id in next.apps
    && previous.apps[id].pluginId in previous.plugins && next.apps[id].pluginId in next.plugins
    && SameConfiguration(previous.apps[id], next.apps[id])
    && previous.plugins[previous.apps[id].pluginId] == next.plugins[next.apps[id].pluginId]
  }

  function AssignedGeneration(previous: Option<Document>, next: Document, id: string): nat {
    if previous.Some? && Unchanged(previous.value, next, id) then previous.value.apps[id].generation
      else next.generation
  }

  function AssignAppGenerations(previous: Option<Document>, next: Document): Document {
    next.(apps := map id | id in next.apps :: next.apps[id].(generation := AssignedGeneration(previous, next, id)))
  }

  // ---------------------------------------------------------------- the store

  /** The file, and every document committed to it, oldest first. */
  datatype Store = Store(file: Option<Document>, history: seq<Document>)

  /** `loads`: the file reads back valid; `accepted`: the rest of Validate passes; `committed`: the
      atomic replacement went through, whether or not it reported an error afterwards. */
  datatype Io = Io(loads: bool, accepted: bool, committed: bool)

  datatype Action =
    | Replace(expected: nat, next: Document, io: Io)
    | Update(expected: nat, mutated: Document, io: Io)

  function Write(s: Store, next: Document, io: Io): Store {
    if !io.accepted || !Valid(next) || !io.committed then s else Store(Some(next), s.history + [next])
  }

  function Step(s: Store, a: Action): Store {
    match a
    case Replace(expected, next, io) =>
      if next.generation != Successor(expected) || (s.file.Some? && !io.loads)
         || (if s.file.Some? then s.file.value.generation != expected else expected != 0) then s
      else Write(s, AssignAppGenerations(s.file, next), io)
    case Update(expected, mutated, io) =>
      if s.file.None? || !io.loads || s.file.value.generation != expected then s
      else Write(s, AssignAppGenerations(s.file, mutated.(generation := Successor(expected))), io)
  }

  function Run(file: Option<Document>, actions: seq<Action>): Store {
    if actions == [] then Store(file, if file.Some? then [file.value] else [])
    else Step(Run(file, actions[..|actions| - 1]), actions[|actions| - 1])
  }

  // ---------------------------------------------------------------- what a commit does

  /** A document follows another: one generation later, its applications assigned from it. */
  ghost predicate Follows(previous: Document, next: Document) {
    && next.generation == previous.generation + 1
    && forall id :: id in next.apps ==>
         next.apps[id].generation == if Unchanged(previous, next, id) then previous.apps[id].generation
           else next.generation
  }

  ghost predicate HistoryOk(h: seq<Document>) {
    && (forall k :: 0 <= k < |h| ==> Valid(h[k]))
    && (forall k :: 0 < k < |h| ==> Follows(h[k - 1], h[k]))
  }

  ghost predicate StoreOk(s: Store) {
    && HistoryOk(s.history)
    && (s.file.Some? <==> s.history != [])
    && (s.file.Some? ==> s.file.value == s.history[|s.history| - 1])
  }

  lemma AssignFollows(previous: Document, next: Document)
    requires next.generation == previous.generation + 1
    ensures Follows(previous, AssignAppGenerations(Some(previous), next))
  {
    var result := AssignAppGenerations(Some(previous), next);
    forall id | id in result.apps
      ensures result.apps[id].generation == if Unchanged(previous, result, id) then previous.apps[id].generation
        else next.generation
    {
      assert SameConfiguration(next.apps[id], result.apps[id]);
      assert Unchanged(previous, result, id) == Unchanged(previous, next, id);
    }
  }

  lemma StepKeeps(s: Store, a: Action)
    requires StoreOk(s)
    ensures StoreOk(Step(s, a))
  {
    var t := Step(s, a);
    if t != s && s.file.Some? {
      var next := if a.Replace? then a.next else a.mutated.(generation := Successor(a.expected));
      assert Valid(t.file.value);
      AssignFollows(s.file.value, next);
    }
  }

  lemma {:induction false} RunKeeps(file: Option<Document>, actions: seq<Action>)
    requires file.Some? ==> Valid(file.value)
    ensures StoreOk(Run(file, actions))
  {
    if actions != [] {
      RunKeeps(file, actions[..|actions| - 1]);
      StepKeeps(Run(file, actions[..|actions| - 1]), actions[|actions| - 1]);
    }
  }

  /** The document a caller asks for. */
  function Requested(a: Action): Document {
    if a.Replace? then a.next else a.mutated.(generation := a.expected + 1)
  }

  ghost predicate Commits(s: Store, a: Action) {
    var next := Requested(a);
    && a.io.accepted && a.io.committed && next.generation == a.expected + 1 < UINT64
    && (if s.file.Some? then a.io.loads && s.file.value.generation == a.expected else a.Replace? && a.expected == 0)
    && (forall id :: id in next.apps ==> next.apps[id].pluginId in next.plugins)
  }

  /** Something is committed exactly if the expected generation is the file's own (zero if there is no file, which
      only Replace creates), the requested one is the next, every application's plugin is configured and the I/O
      succeeds. Committed is then what was requested, but for the applications' generations: the old one for an
      unchanged application and the document's own for any other. Otherwise nothing changes. */
  lemma CommitEffect(file: Option<Document>, actions: seq<Action>, a: Action)
    requires file.Some? ==> Valid(file.value)
    ensures
      var s, s' := Run(file, actions), Step(Run(file, actions), a);
      var next := Requested(a);
      if !Commits(s, a) then s' == s else
      && s'.file.Some? && s'.history == s.history + [s'.file.value]
      && s'.file.value == next.(apps := s'.file.value.apps) && s'.file.value.apps.Keys == next.apps.Keys
      && forall id :: id in next.apps ==>
           s'.file.value.apps[id] == next.apps[id].(generation :=
             if s.file.Some? && Unchanged(s.file.value, next, id) then s.file.value.apps[id].generation
             else next.generation)
  {
    RunKeeps(file, actions);
    var s, next := Run(file, actions), Requested(a);
    assert s.file.Some? ==> Valid(s.file.value);
    hide Run;
    hide StoreOk;
    StepCommits(s, a);
    hide Step;
    if Commits(s, a) { AssignedIsValid(s.file, next); }
    hide AssignAppGenerations;
  }

  lemma StepCommits(s: Store, a: Action)
    requires s.file.Some? ==> Valid(s.file.value)
    ensures var d := AssignAppGenerations(s.file, Requested(a));
      Step(s, a) == if Commits(s, a) then Store(Some(d), s.history + [d]) else s
  {
    var next := Requested(a);
    if next.generation == a.expected + 1 && (s.file.Some? ==> s.file.value.generation == a.expected) {
      AssignedIsValid(s.file, next);
    }
    hide AssignAppGenerations;
    hide Unchanged;
    if a.Update? && a.expected + 1 >= UINT64 && s.file.Some? && s.file.value.generation == a.expected {
      assert Successor(a.expected) == 0;
      assert !Valid(AssignAppGenerations(s.file, a.mutated.(generation := 0))) by { ZeroIsInvalid(s.file, a.mutated); }
    }
  }

  lemma ZeroIsInvalid(previous: Option<Document>, next: Document)
    ensures !Valid(AssignAppGenerations(previous, next.(generation := 0)))
  {
  }

  lemma AssignedIsValid(previous: Option<Document>, next: Document)
    requires previous.Some? ==> Valid(previous.value) && previous.value.generation < next.generation
    requires 0 < next.generation
    ensures
      var d := AssignAppGenerations(previous, next);
      && (Valid(d) <==>
            (next.generation < UINT64 && forall id :: id in next.apps ==> next.apps[id].pluginId in next.plugins))
      && d == next.(apps := d.apps) && d.apps.Keys == next.apps.Keys
      && forall id :: id in next.apps ==>
           d.apps[id] == next.apps[id].(generation :=
             if previous.Some? && Unchanged(previous.value, next, id) then previous.value.apps[id].generation
             else next.generation)
  {
    var d := AssignAppGenerations(previous, next);
    assert forall id :: id in next.apps ==>
      0 < d.apps[id].generation <= next.generation && d.apps[id].pluginId == next.apps[id].pluginId;
    if Valid(d) {
      forall id | id in next.apps ensures next.apps[id].pluginId in next.plugins { assert id in d.apps; }
    }
  }

  // ---------------------------------------------------------------- history lemmas

  lemma {:induction false} DocumentsCount(h: seq<Document>, i: nat, j: nat)
    requires HistoryOk(h) && i <= j < |h|
    ensures h[j].generation == h[i].generation + (j - i)
  {
    if i < j { DocumentsCount(h, i, j - 1); }
  }

  /** Unchanged from each document to the next, all the way. */
  ghost predicate UnchangedThrough(h: seq<Document>, i: nat, j: nat, id: string)
    requires i <= j < |h|
  {
    forall k :: i < k <= j ==> Unchanged(h[k - 1], h[k], id)
  }

  lemma {:induction false} SameGenerationStep(h: seq<Document>, i: nat, j: nat, id: string)
    requires HistoryOk(h) && i <= j < |h| && id in h[i].apps && id in h[j].apps
    ensures h[i].apps[id].generation <= h[j].apps[id].generation
    ensures h[i].apps[id].generation == h[j].apps[id].generation <==> UnchangedThrough(h, i, j, id)
    ensures UnchangedThrough(h, i, j, id) ==>
      SameConfiguration(h[i].apps[id], h[j].apps[id])
        && h[i].plugins[h[i].apps[id].pluginId] == h[j].plugins[h[j].apps[id].pluginId]
  {
    if i < j {
      assert Follows(h[j - 1], h[j]);
      if Unchanged(h[j - 1], h[j], id) {
        SameGenerationStep(h, i, j - 1, id);
      } else {
        DocumentsCount(h, i, j);
      }
    }
  }

  // ---------------------------------------------------------------- main results

  /** Two committed documents give an application the same generation exactly when it was unchanged,
      plugin record included, in every commit between them; generations never go down. */
  lemma SameGenerationIffUnchanged(file: Option<Document>, actions: seq<Action>, i: nat, j: nat, id: string)
    requires file.Some? ==> Valid(file.value)
    requires i <= j < |Run(file, actions).history|
    requires id in Run(file, actions).history[i].apps && id in Run(file, actions).history[j].apps
    ensures
      var h := Run(file, actions).history;
      && h[i].apps[id].generation <= h[j].apps[id].generation
      && (h[i].apps[id].generation == h[j].apps[id].generation <==> UnchangedThrough(h, i, j, id))
  {
    RunKeeps(file, actions);
    SameGenerationStep(Run(file, actions).history, i, j, id);
  }

  /** So a generation stands for one configuration and one plugin record. */
  lemma GenerationIdentifiesConfiguration(file: Option<Document>, actions: seq<Action>, i: nat, j: nat, id: string)
    requires file.Some? ==> Valid(file.value)
    requires i < |Run(file, actions).history| && j < |Run(file, actions).history|
    requires id in Run(file, actions).history[i].apps && id in Run(file, actions).history[j].apps
    requires Run(file, actions).history[i].apps[id].generation == Run(file, actions).history[j].apps[id].generation
    ensures
      var d, e := Run(file, actions).history[i], Run(file, actions).history[j];
      && d.apps[id] == e.apps[id]
      && d.apps[id].pluginId in d.plugins && e.apps[id].pluginId in e.plugins
      && d.plugins[d.apps[id].pluginId] == e.plugins[e.apps[id].pluginId]
  {
    RunKeeps(file, actions);
    var h := Run(file, actions).history;
    if i <= j { SameGenerationStep(h, i, j, id); } else { SameGenerationStep(h, j, i, id); }
    assert h[i].apps[id].(generation := 0).(generation := h[i].apps[id].generation) == h[i].apps[id];
  }

  /** An application recreated after document j gets a generation larger than j's own, so larger than
      any it had before. */
  lemma RecreatedIsNewer(file: Option<Document>, actions: seq<Action>, i: nat, j: nat, k: nat, id: string)
    requires file.Some? ==> Valid(file.value)
    requires i < j < k < |Run(file, actions).history|
    requires var h := Run(file, actions).history; id in h[i].apps && id !in h[j].apps && id in h[k].apps
    ensures var h := Run(file, actions).history;
    h[i].apps[id].generation <= h[i].generation < h[j].generation < h[k].apps[id].generation
  {
    RunKeeps(file, actions);
    var h := Run(file, actions).history;
    DocumentsCount(h, i, j);
    NewerThanAbsence(h, j, k, id);
  }

  lemma {:induction false} NewerThanAbsence(h: seq<Document>, j: nat, k: nat, id: string)
    requires HistoryOk(h) && j < k < |h| && id !in h[j].apps && id in h[k].apps
    ensures h[j].generation < h[k].apps[id].generation
  {
    assert Follows(h[k - 1], h[k]);
    DocumentsCount(h, j, k);
    if Unchanged(h[k - 1], h[k], id) { NewerThanAbsence(h, j, k - 1, id); }
  }

  /** Committed generations count up by one and never wrap; no application exceeds its document. */
  lemma CommittedDocumentsAreValid(file: Option<Document>, actions: seq<Action>, k: nat)
    requires file.Some? ==> Valid(file.value)
    requires k < |Run(file, actions).history|
    ensures
      var h := Run(file, actions).history;
      && Valid(h[k]) && h[k].generation == h[0].generation + k < UINT64
      && (file.None? ==> h[0].generation == 1)
  {
    RunKeeps(file, actions);
    DocumentsCount(Run(file, actions).history, 0, k);
    if file.None? { FirstIsOne(actions); }
  }

  lemma {:induction false} FirstIsOne(actions: seq<Action>)
    ensures var h := Run(None, actions).history; h != [] ==> h[0].generation == 1
  {
    if actions != [] {
      FirstIsOne(actions[..|actions| - 1]);
      RunKeeps(None, actions[..|actions| - 1]);
    }
  }

  // ---------------------------------------------------------------- the store object

  class ConfigStore {
    var file: Option<Document>
    ghost var history: seq<Document>

    ghost function View(): Store reads this { Store(file, history) }

    constructor (initial: Option<Document>)
      ensures View() == Run(initial, [])
    {
      file := initial;
      history := if initial.Some? then [initial.value] else [];
    }

    /** Edits the applications one by one, in any order. */
    static method AssignGenerations(previous: Option<Document>, next: Document) returns (result: Document)
      ensures result == AssignAppGenerations(previous, next)
    {
      var apps := next.apps;
      var left := next.apps.Keys;
      while left != {}
        invariant left <= next.apps.Keys && apps.Keys == next.apps.Keys
        invariant forall id :: id in apps ==>
          apps[id] == if id in left then next.apps[id]
            else next.apps[id].(generation := AssignedGeneration(previous, next, id))
        decreases left
      {
        var id :| id in left;
        var app := apps[id];
        var generation := next.generation;
        if previous.Some? && id in previous.value.apps {
          var oldApp := previous.value.apps[id];
          if oldApp.pluginId in previous.value.plugins && app.pluginId in next.plugins && SameConfiguration(oldApp, app)
             && previous.value.plugins[oldApp.pluginId] == next.plugins[app.pluginId] {
            generation := oldApp.generation;
          }
        }
        apps := apps[id := app.(generation := generation)];
        left := left - {id};
      }
      result := next.(apps := apps);
    }

    method WriteDocument(next: Document, io: Io) returns (ok: bool)
      modifies this
      ensures View() == Write(old(View()), next, io)
      ensures ok ==> file == Some(next) && Valid(next)
    {
      ok := false;
      if io.accepted && Valid(next) && io.committed {
        file := Some(next);
        history := history + [next];
        ok := true;
      }
    }

    method ReplaceWithOutcome(expected: nat, next: Document, io: Io) returns (ok: bool)
      modifies this
      ensures View() == Step(old(View()), Replace(expected, next, io))
    {
      ok := false;
      if next.generation != Successor(expected) { return; }
      if file.Some? && !io.loads { return; }
      if file.Some? && file.value.generation != expected { return; }
      if file.None? && expected != 0 { return; }
      var result := AssignGenerations(file, next);
      ok := WriteDocument(result, io);
    }

    method UpdateDocument(expected: nat, mutated: Document, io: Io) returns (ok: bool)
      modifies this
      ensures View() == Step(old(View()), Update(expected, mutated, io))
    {
      ok := false;
      if file.None? || !io.loads { return; }
      if file.value.generation != expected { return; }
      var result := AssignGenerations(file, mutated.(generation := Successor(file.value.generation)));
      ok := WriteDocument(result, io);
    }
  }
}
