/** Who may take the foreground, who gives way, and what is then owed (internal/daemon/session_owner.go,
    reconciler_operations.go, session_runtime.go): for each part of the coordinator's state, exactly which
    steps change it and to what, in every reachable state. */
module ForegroundEffects {
  import opened ForegroundSessions

  /** The foreground session, or the admission, is one the step speaks of. */
  predicate Named(a: Action, x: Session) {
    || (a.DetachApp? && x.pluginId == a.pluginId && x.instanceId == a.instanceId)
    || (a.ClearMatching? && (a.instanceId == "" || x.instanceId == a.instanceId)
          && (a.token == 0 || x.token == a.token))
    || (a.PluginReports? && x == a.session)
  }

  /** A launch whose plugin call succeeded is decided, its admission is still pending and still valid. */
  predicate Promotes(s: System, a: Action) {
    a.Decide? && a.stillValid && s.launch.Deciding? && s.c.pending == Some(s.launch.admission)
  }

  predicate Displaces(s: System, a: Action) { a.TakeCritical? && !s.c.executing }

  predicate Executes(s: System, a: Action) {
    a.Execute? && a.live && s.c.critical == "" && !s.c.executing && s.c.foreground == Some(a.session)
  }

  predicate Admits(s: System, a: Action) {
    && a.Admit? && s.launch.Quiet? && a.generation != 0 && a.pluginId != "" && a.instanceId != ""
    && s.c.critical == "" && !s.c.executing
  }

  /** Nothing but a running execution stops a critical presentation: it takes the foreground, displacing a
      session and an admission, and until it is released nobody else has either. */
  lemma CriticalChanges(actions: seq<Action>, a: Action)
    ensures var c, c' := Run(actions).c, Step(Run(actions), a).c;
      if Displaces(Run(actions), a) then
        && c'.critical == a.identity && c'.criticalSequence == c.criticalSequence + 1
        && c'.foreground.None? && c'.pending.None? && !c'.executing
      else
        && c'.critical == (if a.DropCritical? then "" else c.critical)
        && c'.criticalSequence == c.criticalSequence
        && (a.TakeCritical? ==> Step(Run(actions), a) == Run(actions))
  {
    RunKeeps(actions);
    hide Accounted;
    hide TokensOk;
  }

  /** The foreground session is replaced exactly by a promoted launch and removed exactly by a step that names
      it or by a critical presentation. */
  lemma ForegroundChanges(actions: seq<Action>, a: Action)
    ensures var s, s' := Run(actions), Step(Run(actions), a);
      s'.c.foreground ==
        if Promotes(s, a) then Some(s.launch.admission)
        else if s.c.foreground.Some? && (Named(a, s.c.foreground.value) || Displaces(s, a)) then None
        else s.c.foreground
  {
    RunKeeps(actions);
    hide Accounted;
    hide TokensOk;
  }

  /** Execution begins exactly for the live foreground session with nobody else executing or critical, and
      ends exactly when that session is replaced or leaves. */
  lemma ExecutionChanges(actions: seq<Action>, a: Action)
    ensures var s, s' := Run(actions), Step(Run(actions), a);
      s'.c.executing <==> Executes(s, a) || (s.c.executing && s'.c.foreground == s.c.foreground)
  {
    RunKeeps(actions);
    hide Accounted;
  }

  /** An admission is given exactly to a valid request while no launch, critical presentation or execution is
      in progress, under the next token. It is withdrawn exactly when its launch fails or is decided, by a step
      that names it, by a configuration that no longer has the app, by an execution or by a critical
      presentation. */
  lemma AdmissionChanges(actions: seq<Action>, a: Action)
    ensures var s, s' := Run(actions), Step(Run(actions), a);
      var token := s.c.nextSession + 1;
      && s'.c.nextSession == (if Admits(s, a) then token else s.c.nextSession)
      && s'.c.pending ==
        if Admits(s, a) then Some(Session(a.pluginId, a.instanceId, a.generation, token))
        else if s.c.pending.Some?
          && ((a.InvokeReturns? && !a.ok && s.launch.Invoking?) || (a.Decide? && s.launch.Deciding?)
              || (Named(a, s.c.pending.value) && (a.PluginReports? ==> a.pendingEligible))
              || (a.NewConfiguration? && !a.stillCurrent) || Executes(s, a) || Displaces(s, a)) then None
        else s.c.pending
  {
    RunKeeps(actions);
    hide Accounted;
  }

  /** A launch goes from its admission through its plugin call to its decision. */
  lemma LaunchChanges(actions: seq<Action>, a: Action)
    ensures var s, s' := Run(actions), Step(Run(actions), a);
      && s'.launch ==
        (if Admits(s, a) then Invoking(s'.c.pending.value)
         else if a.InvokeReturns? && s.launch.Invoking? then
           if a.ok then Deciding(s.launch.admission) else Quiet
         else if a.Decide? && s.launch.Deciding? then Quiet
         else s.launch)
      && s'.invoked ==
        (if a.InvokeReturns? && a.ok && s.launch.Invoking? then s.invoked + {s.launch.admission} else s.invoked)
  {
    RunKeeps(actions);
    hide Accounted;
    hide TokensOk;
  }

  /** EndSession becomes owed exactly for a session that leaves the foreground without its plugin's report and
      for a started session that is not promoted; it is paid by calling it. */
  lemma OwedChanges(actions: seq<Action>, a: Action)
    ensures var s, s' := Run(actions), Step(Run(actions), a);
      var left := if s'.c.foreground != s.c.foreground && !a.PluginReports? then AsSet(s.c.foreground) else {};
      var refused := if a.Decide? && s.launch.Deciding? && !Promotes(s, a) then {s.launch.admission} else {};
      if a.IssueEnd? && a.session in s.owed then s'.owed == s.owed - {a.session} && s'.ended == s.ended + {a.session}
      else s'.owed == s.owed + left + refused && s'.ended == s.ended
  {
    RunKeeps(actions);
    hide Accounted;
    hide TokensOk;
  }

  /** From every reachable state with no launch under way, once nothing is critical or executing, a launch that
      is not disturbed puts its session in the foreground, and the one it replaces is owed its EndSession. */
  lemma LaunchSucceeds(actions: seq<Action>, pluginId: string, instanceId: string, generation: nat)
    requires Admits(Run(actions), Admit(pluginId, instanceId, generation))
    ensures var s := Run(actions);
      var s' := Step(Step(Step(s, Admit(pluginId, instanceId, generation)), InvokeReturns(true)), Decide(true));
      var x := Session(pluginId, instanceId, generation, s.c.nextSession + 1);
      && s'.c.foreground == Some(x) && x in s'.promoted && s'.launch.Quiet? && s'.c.pending.None?
      && s'.owed == s.owed + AsSet(s.c.foreground)
  {
  }
}
