/** Foreground session ownership (internal/daemon/session_owner.go), the launch path
    (reconciler_operations.go) and the effects of departures (session_runtime.go).

    The coordinator's transitions are lock-held regions. A launch is admitted, invokes the plugin
    outside the lock, and then promotes its session or ends it; meanwhile plugins report sessions
    finished, critical presentations take over and configuration changes. */
module ForegroundSessions {

  datatype Option<T> = None | Some(value: T)

  /** A session's identity; the token counts interactive admissions from one. */
  datatype Session = Session(pluginId: string, instanceId: string, generation: nat, token: nat)

  datatype Coordinator = Coordinator(
    foreground: Option<Session>, executing: bool, pending: Option<Session>, nextSession: nat,
    critical: string, criticalSequence: nat)

  const IDLE := Coordinator(None, false, None, 0, "", 0)

  // ---------------------------------------------------------------- transitions

  function Begin(c: Coordinator, pluginId: string, instanceId: string, generation: nat)
      : (Coordinator, Option<Session>)
  {
    if c.critical != "" || c.executing then (c, None) else
    var admission := Session(pluginId, instanceId, generation, c.nextSession + 1);
    (c.(nextSession := c.nextSession + 1, pending := Some(admission)), Some(admission))
  }

  function Cancel(c: Coordinator, admission: Session): Coordinator {
    if c.pending == Some(admission) then c.(pending := None) else c
  }

  /** The new state, the session replaced, and whether the admission was promoted. */
  function Promote(c: Coordinator, admission: Session): (Coordinator, Option<Session>, bool) {
    if c.pending != Some(admission) then (c, None, false)
    else (c.(pending := None, foreground := Some(admission), executing := false), c.foreground, true)
  }

  function ClearForeground(c: Coordinator): Coordinator { c.(foreground := None, executing := false) }

  predicate Belongs(s: Option<Session>, pluginId: string, instanceId: string) {
    s.Some? && s.value.pluginId == pluginId && s.value.instanceId == instanceId
  }

  function Detach(c: Coordinator, pluginId: string, instanceId: string): (Coordinator, Option<Session>) {
    var c1 := if Belongs(c.pending, pluginId, instanceId) then c.(pending := None) else c;
    if Belongs(c.foreground, pluginId, instanceId) then (ClearForeground(c1), c.foreground) else (c1, None)
  }

  /** An empty instance or a zero token matches anything. */
  predicate Matches(s: Option<Session>, instanceId: string, token: nat) {
    s.Some? && (instanceId == "" || s.value.instanceId == instanceId) && (token == 0 || s.value.token == token)
  }

  function Clear(c: Coordinator, instanceId: string, token: nat): (Coordinator, Option<Session>) {
    var c1 := if Matches(c.pending, instanceId, token) then c.(pending := None) else c;
    if Matches(c.foreground, instanceId, token) then (ClearForeground(c1), c.foreground) else (c1, None)
  }

  /** A session the plugin side reports as gone: invalidated, or completed. */
  function Reported(c: Coordinator, session: Session, pendingEligible: bool): Coordinator {
    var c1 := if pendingEligible && c.pending == Some(session) then c.(pending := None) else c;
    if c.foreground == Some(session) then ClearForeground(c1) else c1
  }

  function ConfigurationChanged(c: Coordinator, stillCurrent: bool): Coordinator {
    if c.pending.Some? && !stillCurrent then c.(pending := None) else c
  }

  function BeginExecution(c: Coordinator, session: Session, live: bool): (Coordinator, bool) {
    if c.critical != "" || c.executing || c.foreground != Some(session) || !live then (c, false)
    else (c.(pending := None, executing := true), true)
  }

  function AcquireCritical(c: Coordinator, identity: string): (Coordinator, Option<Session>, bool) {
    if c.executing then (c, None, false)
    else if c.critical != "" then (c.(criticalSequence := c.criticalSequence + 1, critical := identity), None, true)
    else (ClearForeground(c.(pending := None)).(criticalSequence := c.criticalSequence + 1, critical := identity),
      c.foreground, true)
  }

  function ReleaseCritical(c: Coordinator): Coordinator { c.(critical := "") }

  // ---------------------------------------------------------------- the machine

  /** The one launch in progress; launches are serialized. */
  datatype Launch = Quiet | Invoking(admission: Session) | Deciding(admission: Session)

  /** The coordinator, the launch, and the histories: sessions the plugin started, sessions promoted,
      EndSession calls owed and made, and departures the plugin side reported itself. */
  datatype System = System(
    c: Coordinator, launch: Launch, invoked: set<Session>, promoted: set<Session>,
    owed: set<Session>, ended: set<Session>, reported: set<Session>)

  const INIT := System(IDLE, Quiet, {}, {}, {}, {}, {})

  datatype Action =
    | Admit(pluginId: string, instanceId: string, generation: nat)
    | InvokeReturns(ok: bool)
    | Decide(stillValid: bool)
    | IssueEnd(session: Session)
    | DetachApp(pluginId: string, instanceId: string)
    | ClearMatching(instanceId: string, token: nat)
    | PluginReports(session: Session, pendingEligible: bool)
    | NewConfiguration(stillCurrent: bool)
    | Execute(session: Session, live: bool)
    | TakeCritical(identity: string)
    | DropCritical

  function AsSet(s: Option<Session>): set<Session> { if s.Some? then {s.value} else {} }

  /** A departure whose EndSession call is now owed. */
  function Depart(s: System, c: Coordinator, gone: Option<Session>): System { s.(c := c, owed := s.owed + AsSet(gone)) }

  function DecideStep(s: System, stillValid: bool): System
    requires s.launch.Deciding?
  {
    var admission := s.launch.admission;
    if !stillValid then Depart(s, Cancel(s.c, admission), Some(admission)).(launch := Quiet) else
    var (c, previous, accepted) := Promote(s.c, admission);
    if accepted then Depart(s, c, previous).(launch := Quiet, promoted := s.promoted + {admission})
    else Depart(s, c, Some(admission)).(launch := Quiet)
  }

  function Step(s: System, a: Action): System {
    match a
    case Admit(pluginId, instanceId, generation) =>
      if !s.launch.Quiet? || generation == 0 || pluginId == "" || instanceId == "" then s else
      var (c, admission) := Begin(s.c, pluginId, instanceId, generation);
      if admission.None? then s else s.(c := c, launch := Invoking(admission.value))
    case InvokeReturns(ok) =>
      if !s.launch.Invoking? then s
      else if ok then s.(launch := Deciding(s.launch.admission), invoked := s.invoked + {s.launch.admission})
      else s.(launch := Quiet, c := Cancel(s.c, s.launch.admission))
    case Decide(stillValid) => if s.launch.Deciding? then DecideStep(s, stillValid) else s
    case IssueEnd(session) =>
      if session in s.owed then s.(owed := s.owed - {session}, ended := s.ended + {session}) else s
    case DetachApp(pluginId, instanceId) => var (c, gone) := Detach(s.c, pluginId, instanceId); Depart(s, c, gone)
    case ClearMatching(instanceId, token) => var (c, gone) := Clear(s.c, instanceId, token); Depart(s, c, gone)
    case PluginReports(session, pendingEligible) =>
      s.(c := Reported(s.c, session, pendingEligible),
         reported := if s.c.foreground == Some(session) then s.reported + {session} else s.reported)
    case NewConfiguration(stillCurrent) => s.(c := ConfigurationChanged(s.c, stillCurrent))
    case Execute(session, live) => s.(c := BeginExecution(s.c, session, live).0)
    case TakeCritical(identity) => var (c, gone, acquired) := AcquireCritical(s.c, identity); Depart(s, c, gone)
    case DropCritical => s.(c := ReleaseCritical(s.c))
  }

  function Run(actions: seq<Action>): System {
    if actions == [] then INIT else Step(Run(actions[..|actions| - 1]), actions[|actions| - 1])
  }

  // ---------------------------------------------------------------- invariant

  ghost predicate CoordinatorInv(c: Coordinator) {
    && (c.critical != "" ==> c.foreground.None? && c.pending.None? && !c.executing)
    && (c.executing ==> c.foreground.Some? && c.pending.None?)
    && (c.pending.Some? && c.foreground.Some? ==> c.pending.value.token > c.foreground.value.token)
    && (c.pending.Some? ==> 1 <= c.pending.value.token <= c.nextSession)
    && (c.foreground.Some? ==> 1 <= c.foreground.value.token <= c.nextSession)
  }

  function Undecided(l: Launch): set<Session> { if l.Deciding? then {l.admission} else {} }

  /** Every session a plugin started is in exactly one place. */
  ghost predicate Accounted(s: System) {
    && s.invoked == AsSet(s.c.foreground) + s.owed + s.ended + s.reported + Undecided(s.launch)
    && AsSet(s.c.foreground) !! s.owed !! s.ended !! s.reported !! Undecided(s.launch)
    && AsSet(s.c.foreground) + s.reported <= s.promoted <= s.invoked
    && s.promoted !! Undecided(s.launch)
  }

  ghost predicate TokensOk(s: System) {
    && (forall x :: x in s.invoked ==> x.token <= s.c.nextSession)
    && (s.c.pending.Some? ==> !s.launch.Quiet? && s.launch.admission == s.c.pending.value)
    && (!s.launch.Quiet? ==> s.launch.admission.token == s.c.nextSession)
    && (s.launch.Invoking? ==> forall x :: x in s.invoked ==> x.token < s.c.nextSession)
    && (s.launch.Deciding? ==> forall x :: x in s.invoked && x != s.launch.admission ==> x.token < s.c.nextSession)
  }

  ghost predicate SystemInv(s: System) { CoordinatorInv(s.c) && Accounted(s) && TokensOk(s) }

  lemma CoordinatorKeeps(s: System, a: Action)
    requires CoordinatorInv(s.c)
    ensures CoordinatorInv(Step(s, a).c)
  {
  }

  lemma TokensKeep(s: System, a: Action)
    requires TokensOk(s) && CoordinatorInv(s.c)
    ensures TokensOk(Step(s, a))
  {
  }

  /** A foreground session that departs moves into the owed calls. */
  lemma DepartKeeps(s: System, c: Coordinator, gone: Option<Session>)
    requires Accounted(s)
    requires (c.foreground == s.c.foreground && gone.None?) || (c.foreground.None? && gone == s.c.foreground)
    ensures Accounted(Depart(s, c, gone))
  {
  }

  lemma DecideKeeps(s: System, stillValid: bool)
    requires Accounted(s) && s.launch.Deciding?
    ensures Accounted(DecideStep(s, stillValid))
  {
    var t := DecideStep(s, stillValid);
    var admission := s.launch.admission;
    assert admission in s.invoked && admission !in s.promoted;
    if t.c.foreground == s.c.foreground {
      assert t.owed == s.owed + {admission};
    } else {
      assert t.owed == s.owed + AsSet(s.c.foreground);
    }
  }

  lemma AccountedKeeps(s: System, a: Action)
    requires Accounted(s) && TokensOk(s)
    ensures Accounted(Step(s, a))
  {
    match a
    case Decide(stillValid) => if s.launch.Deciding? { DecideKeeps(s, stillValid); }
    case DetachApp(p, i) => var (c, gone) := Detach(s.c, p, i); DepartKeeps(s, c, gone);
    case ClearMatching(i, t) => var (c, gone) := Clear(s.c, i, t); DepartKeeps(s, c, gone);
    case TakeCritical(i) => var (c, gone, _) := AcquireCritical(s.c, i); DepartKeeps(s, c, gone);
    case _ =>
  }

  lemma StepKeeps(s: System, a: Action)
    requires SystemInv(s)
    ensures SystemInv(Step(s, a))
  {
    hide Step;
    hide CoordinatorInv;
    hide Accounted;
    hide TokensOk;
    CoordinatorKeeps(s, a);
    TokensKeep(s, a);
    AccountedKeeps(s, a);
  }

  lemma {:induction false} RunKeeps(actions: seq<Action>)
    ensures SystemInv(Run(actions))
  {
    if actions != [] {
      RunKeeps(actions[..|actions| - 1]);
      StepKeeps(Run(actions[..|actions| - 1]), actions[|actions| - 1]);
    }
  }

  // ---------------------------------------------------------------- main results

  /** Critical ownership excludes a session, an admission and execution; execution needs a session and
      excludes an admission; an admission is newer than the session it would replace. */
  lemma OwnersExcludeEachOther(actions: seq<Action>)
    ensures
      var c := Run(actions).c;
      && (c.critical != "" ==> c.foreground.None? && c.pending.None? && !c.executing)
      && (c.executing ==> c.foreground.Some? && c.pending.None?)
      && (c.pending.Some? && c.foreground.Some? ==> c.pending.value.token > c.foreground.value.token)
  {
    RunKeeps(actions);
  }

  /** Every session a plugin started and whose launch has returned was promoted or had its EndSession
      call issued; a promoted one is in exactly one of: foreground, EndSession issued or under way,
      departed on the plugin side's own report. */
  lemma InvokedSessionsAreSettled(actions: seq<Action>, x: Session)
    requires x in Run(actions).invoked
    ensures
      var s := Run(actions);
      var inForeground, inOwed := s.c.foreground == Some(x), x in s.owed;
      var inEnded, inReported := x in s.ended, x in s.reported;
      && (s.launch == Deciding(x) || x in s.promoted || inOwed || inEnded)
      && (x in s.promoted ==> inForeground || inOwed || inEnded || inReported)
      && (inForeground ==> !inOwed && !inEnded && !inReported)
      && (inOwed ==> !inEnded && !inReported)
      && (inEnded ==> !inReported)
  {
    RunKeeps(actions);
  }

  predicate Leaves(s: System, a: Action, x: Session) { s.c.foreground == Some(x) && Step(s, a).c.foreground != Some(x) }

  predicate Enters(s: System, a: Action, x: Session) { s.c.foreground != Some(x) && Step(s, a).c.foreground == Some(x) }

  /** A departing session gets an EndSession call unless the plugin side reported the departure. */
  lemma DeparturesAreSettled(actions: seq<Action>, a: Action, x: Session)
    requires Leaves(Run(actions), a, x)
    ensures
      var s, s' := Run(actions), Step(Run(actions), a);
      && x !in s.owed && x !in s.ended && x !in s.reported
      && (x in s'.reported) == a.PluginReports? && (x in s'.owed) == !a.PluginReports?
      && (a.PluginReports? ==> a.session == x)
  {
    RunKeeps(actions);
  }

  /** How often x left the foreground, and how often EndSession was called for it, over a run. */
  function Departures(actions: seq<Action>, x: Session): nat {
    if actions == [] then 0 else
    var before := actions[..|actions| - 1];
    Departures(before, x) + if Leaves(Run(before), actions[|actions| - 1], x) then 1 else 0
  }

  function EndCalls(actions: seq<Action>, x: Session): nat {
    if actions == [] then 0 else
    var before := actions[..|actions| - 1];
    EndCalls(before, x) + if x in Run(before).owed && actions[|actions| - 1] == IssueEnd(x) then 1 else 0
  }

  /** Histories only grow; a session enters the foreground once, from its own launch. */
  lemma HistoryStep(s: System, a: Action, x: Session)
    requires SystemInv(s)
    ensures var t := Step(s, a);
      && s.promoted <= t.promoted && s.ended <= t.ended && s.reported <= t.reported && s.owed <= t.owed + t.ended
      && (x in t.promoted && x !in s.promoted <==> Enters(s, a, x))
      && (x in t.ended && x !in s.ended <==> x in s.owed && a == IssueEnd(x))
  {
    match a
    case Decide(stillValid) =>
    case _ =>
  }

  /** A promoted session leaves the foreground exactly once, and once it has, for good. */
  lemma {:induction false} LeavesExactlyOnce(actions: seq<Action>, x: Session)
    ensures Departures(actions, x) == if x in Run(actions).promoted && Run(actions).c.foreground != Some(x) then 1
      else 0
    ensures EndCalls(actions, x) == if x in Run(actions).ended then 1 else 0
  {
    if actions != [] {
      var before, a := actions[..|actions| - 1], actions[|actions| - 1];
      LeavesExactlyOnce(before, x);
      RunKeeps(before);
      RunKeeps(actions);
      HistoryStep(Run(before), a, x);
      hide Step;
    }
  }

  lemma SequenceStep(s: System, a: Action)
    requires CoordinatorInv(s.c)
    ensures var t := Step(s, a);
      && s.c.criticalSequence <= t.c.criticalSequence
      && (s.c.critical == "" && t.c.criticalSequence == s.c.criticalSequence ==> t.c.critical == "")
  {
  }

  /** While the critical sequence a launcher admission recorded is unchanged, no critical presentation
      has owned the foreground since. */
  lemma {:induction false} AdmissionIsUninterrupted(actions: seq<Action>, admitted: nat, k: nat)
    requires admitted <= k <= |actions|
    requires Run(actions[..admitted]).c.critical == ""
    ensures Run(actions[..admitted]).c.criticalSequence <= Run(actions[..k]).c.criticalSequence
    ensures Run(actions[..k]).c.criticalSequence == Run(actions[..admitted]).c.criticalSequence ==>
      forall j :: admitted <= j <= k ==> Run(actions[..j]).c.critical == ""
  {
    if k > admitted {
      AdmissionIsUninterrupted(actions, admitted, k - 1);
      RunKeeps(actions[..k - 1]);
      SequenceStep(Run(actions[..k - 1]), actions[k - 1]);
      assert actions[..k][..k - 1] == actions[..k - 1];
      hide Step;
    }
  }

  // ---------------------------------------------------------------- the coordinator object

  /** The coordinator's fields as the source keeps them: empty strings and a zero token mean none. */
  class SessionCoordinator {
    var foreground: string
    var foregroundPlugin: string
    var foregroundSession: nat
    var foregroundGeneration: nat
    var executing: bool
    var pendingForeground: string
    var pendingPlugin: string
    var pendingSession: nat
    var pendingGeneration: nat
    var nextSession: nat
    var criticalIdentity: string
    var criticalSequence: nat

    ghost predicate Valid() reads this {
      && (if foreground == "" then foregroundPlugin == "" && foregroundSession == 0 && foregroundGeneration == 0
          else foregroundPlugin != "" && foregroundSession != 0)
      && (if pendingForeground == "" then pendingPlugin == "" && pendingSession == 0 && pendingGeneration == 0
          else pendingPlugin != "" && pendingSession != 0)
    }

    function View(): Coordinator reads this {
      Coordinator(
        if foreground == "" then None else Some(Session(foregroundPlugin, foreground, foregroundGeneration,
          foregroundSession)),
        executing,
        if pendingForeground == "" then None else Some(Session(pendingPlugin, pendingForeground, pendingGeneration,
          pendingSession)),
        nextSession, criticalIdentity, criticalSequence)
    }

    constructor ()
      ensures Valid() && View() == IDLE
    {
      foreground, foregroundPlugin, foregroundSession, foregroundGeneration, executing := "", "", 0, 0, false;
      pendingForeground, pendingPlugin, pendingSession, pendingGeneration := "", "", 0, 0;
      nextSession, criticalIdentity, criticalSequence := 0, "", 0;
    }

    method ClearForegroundLocked()
      requires Valid()
      modifies this
      ensures Valid() && View() == ClearForeground(old(View()))
    {
      foreground, foregroundPlugin, foregroundSession, foregroundGeneration := "", "", 0, 0;
      executing := false;
    }

    method ClearPendingLocked()
      requires Valid()
      modifies this
      ensures Valid() && View() == old(View()).(pending := None)
    {
      pendingForeground, pendingPlugin, pendingGeneration, pendingSession := "", "", 0, 0;
    }

    predicate PendingMatchesAdmission(admission: Session) reads this {
      && pendingPlugin == admission.pluginId && pendingForeground == admission.instanceId
      && pendingGeneration == admission.generation && pendingSession == admission.token
    }

    method BeginAdmission(pluginId: string, instanceId: string, generation: nat) returns (admission: Option<Session>)
      requires Valid() && pluginId != "" && instanceId != ""
      modifies this
      ensures Valid() && (View(), admission) == Begin(old(View()), pluginId, instanceId, generation)
    {
      if criticalIdentity != "" || executing {
        return None;
      }
      nextSession := nextSession + 1;
      pendingForeground, pendingPlugin, pendingGeneration, pendingSession :=
        instanceId, pluginId, generation, nextSession;
      admission := Some(Session(pluginId, instanceId, generation, nextSession));
    }

    method CancelAdmission(admission: Session)
      requires Valid()
      modifies this
      ensures Valid() && View() == Cancel(old(View()), admission)
    {
      if PendingMatchesAdmission(admission) {
        ClearPendingLocked();
      }
    }

    method PromoteAdmission(admission: Session) returns (previous: Option<Session>, accepted: bool)
      requires Valid() && admission.instanceId != ""
      modifies this
      ensures Valid() && (View(), previous, accepted) == Promote(old(View()), admission)
    {
      if !PendingMatchesAdmission(admission) {
        return None, false;
      }
      ClearPendingLocked();
      previous := View().foreground;
      foreground, foregroundPlugin := admission.instanceId, admission.pluginId;
      foregroundSession, foregroundGeneration := admission.token, admission.generation;
      executing := false;
      accepted := true;
    }

    method DetachSession(pluginId: string, instanceId: string) returns (termination: Option<Session>)
      requires Valid() && instanceId != ""
      modifies this
      ensures Valid() && (View(), termination) == Detach(old(View()), pluginId, instanceId)
    {
      termination := None;
      if pendingForeground == instanceId && pendingPlugin == pluginId {
        ClearPendingLocked();
      }
      if foreground == instanceId && foregroundPlugin == pluginId {
        termination := View().foreground;
        ClearForegroundLocked();
      }
    }

    method ClearSession(expected: string, expectedToken: nat) returns (termination: Option<Session>)
      requires Valid()
      modifies this
      ensures Valid() && (View(), termination) == Clear(old(View()), expected, expectedToken)
    {
      var activeMatch := (expected == "" || foreground == expected)
        && (expectedToken == 0 || foregroundSession == expectedToken);
      var pendingMatch := (expected == "" || pendingForeground == expected)
        && (expectedToken == 0 || pendingSession == expectedToken);
      if pendingMatch && pendingForeground != "" {
        ClearPendingLocked();
      }
      if !activeMatch || foreground == "" {
        return None;
      }
      termination := View().foreground;
      ClearForegroundLocked();
    }

    method CompleteSession(session: Session, pendingEligible: bool) returns (foregroundChanged: bool)
      requires Valid() && session.instanceId != ""
      modifies this
      ensures Valid() && View() == Reported(old(View()), session, pendingEligible)
      ensures foregroundChanged == (old(View()).foreground == Some(session))
    {
      foregroundChanged := && foregroundPlugin == session.pluginId && foreground == session.instanceId
                           && foregroundGeneration == session.generation && foregroundSession == session.token;
      if pendingEligible && PendingMatchesAdmission(session) {
        ClearPendingLocked();
      }
      if foregroundChanged {
        ClearForegroundLocked();
      }
    }

    method BeginExecuting(session: Session, live: bool) returns (ok: bool)
      requires Valid() && session.instanceId != ""
      modifies this
      ensures Valid() && (View(), ok) == BeginExecution(old(View()), session, live)
    {
      if criticalIdentity != "" {
        return false;
      }
      if executing || foregroundPlugin != session.pluginId || foreground != session.instanceId ||
         foregroundGeneration != session.generation || foregroundSession != session.token {
        return false;
      }
      if !live {
        return false;
      }
      ClearPendingLocked();
      executing := true;
      ok := true;
    }

    method TakeCriticalOwnership(identity: string) returns (termination: Option<Session>, acquired: bool)
      requires Valid()
      modifies this
      ensures Valid() && (View(), termination, acquired) == AcquireCritical(old(View()), identity)
    {
      if executing {
        return None, false;
      }
      if criticalIdentity != "" {
        criticalSequence := criticalSequence + 1;
        criticalIdentity := identity;
        return None, true;
      }
      ClearPendingLocked();
      termination := View().foreground;
      ClearForegroundLocked();
      criticalSequence := criticalSequence + 1;
      criticalIdentity := identity;
      acquired := true;
    }

    method DropCriticalOwnership() returns (released: bool)
      requires Valid()
      modifies this
      ensures Valid() && View() == ReleaseCritical(old(View())) && released == (old(criticalIdentity) != "")
    {
      released := criticalIdentity != "";
      criticalIdentity := "";
    }
  }
}
