/** What each command of the activation wizard stores, told without its bookkeeping: in every
    state that a run can reach, dropping stale confirmations and checking them comes down to the
    phase and a few comparisons (scripts/activation_wizard.py:522-1003). */
module ActivationEffects {
  import opened Wrappers
  import opened Activation
  import opened ActivationSafety
  import opened ActivationTheorems

  /** The state with one more entry in its history, of which the last 512 are kept. */
  function Then(s: State, to: Phase, e: Event, input: Option<Digest>, from: State): State {
    var all := from.history + [Entry(Some(from.phase), to, e, input, from.revision + 1)];
    s.(phase := to, revision := from.revision + 1, history := if |all| > 512 then all[|all| - 512..] else all)
  }

  /** What a command that is carried out leaves in the state file. */
  function Plain(s: State, c: Command): State
    requires FactsOk(s)
  {
    match c
    case CmdInit => s
    case CmdStatus => s
    case CmdConfirmDiscovery(scope) =>
      Then(s.(scope := Some(scope), discoveryGate := Some(DiscoveryBinding(scope))), ReadyForDiscovery, DiscoveryConfirmed, Some(DiscoveryBinding(scope)), s)
    case CmdRecordDiscovery(scope, evidence) =>
      Then(s.(report := Some(Report(scope, evidence))), ReadyForDiscovery, DiscoveryRecorded, Some(OfReport(Report(scope, evidence))), s)
    case CmdProposeProfile(profile) =>
      Then(s.(profile := Some(profile), profileGate := if s.profile == Some(profile) then s.profileGate else None),
           ProfileProposed, ProfileOffered, Some(OfProfile(profile)), s)
    case CmdConfirmProfile =>
      if s.report.None? || s.profile.None? then s else
      var d := Some(ProfileBinding(s.report.value, s.profile.value));
      Then(s.(profileGate := d), ProfileConfirmed, ProfileAccepted, d, s)
    case CmdRecordPilot(settings, passed, evidence) =>
      if s.profile.None? then s else
      var contract := Contract(settings, s.profile.value);
      var pilot := Pilot(contract, passed, evidence);
      Then(s.(contract := Some(contract), pilot := Some(pilot), reason := if passed then None else Some(PilotFailed),
              activationGate := if s.contract == Some(contract) && s.pilot == Some(pilot) then s.activationGate else None),
           if passed then PilotPassed else Degraded, if passed then PilotPass else PilotFail, Some(OfPilot(pilot)), s)
    case CmdConfirmActivation =>
      if s.contract.None? || s.profile.None? || s.pilot.None? then s else
      var d := Some(ActivationBinding(s.contract.value, s.profile.value, s.pilot.value));
      Then(s.(activationGate := d), PilotPassed, ActivationConfirmed, d, s)
    case CmdScheduleHandoff(_, _, locator) =>
      if s.contract.None? || s.profile.None? || s.pilot.None? then s
      else s.(handoff := Some(Handoff(s.contract.value, s.profile.value, s.pilot.value, locator)), revision := s.revision + 1)
    case CmdRecordSchedule(task) =>
      if s.contract.None? || s.handoff.None? || task.None? then s
      else Then(s.(schedule := Some(Schedule(task.value, s.contract.value, s.handoff.value, true))), Active, ScheduleRecorded, Some(OfHandoff(s.handoff.value)), s)
    case CmdPause => if s.schedule.None? then s else Then(s.(schedule := Some(s.schedule.value.(enabled := false))), Paused, Pausing, None, s)
    case CmdResume => if s.schedule.None? then s else Then(s.(schedule := Some(s.schedule.value.(enabled := true))), Active, Resuming, None, s)
    case CmdCheckDrift(settings, _) =>
      if s.profile.None? then s else
      var current := Contract(settings, s.profile.value);
      Then(s.(activationGate := None, reason := Some(if s.contract.Some? && s.contract != Some(current) then ContractDrift else ScheduleIdUnknown)),
           NeedsReconfirmation, DriftFlagged, Some(OfContract(current)), s)
  }

  lemma ConfirmDiscoveryEffect(s: State, scope: nat)
    requires FactsOk(s) && ConfirmDiscovery(s, scope).Some?
    ensures ConfirmDiscovery(s, scope).value == Plain(s, CmdConfirmDiscovery(scope))
  {
    PreparingDropsNothing(s);
  }

  lemma RecordDiscoveryEffect(s: State, scope: nat, evidence: nat)
    requires FactsOk(s) && RecordDiscovery(s, scope, evidence).Some?
    ensures RecordDiscovery(s, scope, evidence).value == Plain(s, CmdRecordDiscovery(scope, evidence))
  {
    PreparingDropsNothing(s);
  }

  lemma ProposeProfileEffect(s: State, profile: nat)
    requires FactsOk(s) && ProposeProfile(s, profile).Some?
    ensures ProposeProfile(s, profile).value == Plain(s, CmdProposeProfile(profile))
  {
    PreparingDropsNothing(s);
  }

  lemma ConfirmProfileEffect(s: State)
    requires FactsOk(s) && ConfirmGate(s, Profile, ProfileAccepted).Some?
    ensures ConfirmGate(s, Profile, ProfileAccepted).value == Plain(s, CmdConfirmProfile)
  {
    PreparingDropsNothing(s);
  }

  lemma RecordPilotEffect(s: State, settings: nat, passed: bool, evidence: nat)
    requires FactsOk(s) && RecordPilot(s, settings, passed, evidence).Some?
    ensures RecordPilot(s, settings, passed, evidence).value == Plain(s, CmdRecordPilot(settings, passed, evidence))
  {
    hide HistoryOk, Fits;
    PreparingDropsNothing(s);
    if passed { assert Target(s.phase, PilotPass) == Some(PilotPassed); } else { assert Target(s.phase, PilotFail) == Some(Degraded); }
  }

  lemma ConfirmActivationEffect(s: State)
    requires FactsOk(s) && ConfirmGate(s, Activation, ActivationConfirmed).Some?
    ensures ConfirmGate(s, Activation, ActivationConfirmed).value == Plain(s, CmdConfirmActivation)
  {
    PreparingDropsNothing(s);
  }

  lemma ScheduleHandoffEffect(s: State, file: Option<Contract>, settings: nat, schedulable: bool, locator: nat)
    requires FactsOk(s) && ScheduleHandoff(s, file, settings, schedulable, locator).Some?
    ensures ScheduleHandoff(s, file, settings, schedulable, locator).value == Plain(s, CmdScheduleHandoff(settings, schedulable, locator))
  {
    PreparingDropsNothing(s);
  }

  lemma RecordScheduleEffect(s: State, file: Option<Handoff>, task: Option<nat>)
    requires FactsOk(s) && RecordSchedule(s, file, task).Some?
    ensures RecordSchedule(s, file, task).value == Plain(s, CmdRecordSchedule(task))
  {
    PreparingDropsNothing(s);
  }

  lemma PauseEffect(s: State)
    requires FactsOk(s) && Simple(s, Pausing).Some?
    ensures Simple(s, Pausing).value == Plain(s, CmdPause)
  {
    PreparingDropsNothing(s);
  }

  lemma ResumeEffect(s: State)
    requires FactsOk(s) && Simple(s, Resuming).Some?
    ensures Simple(s, Resuming).value == Plain(s, CmdResume)
  {
    PreparingDropsNothing(s);
  }

  lemma CheckDriftEffect(s: State, settings: nat, observed: Option<nat>)
    requires FactsOk(s) && CheckDrift(s, settings, observed).Some?
    ensures CheckDrift(s, settings, observed).value == Plain(s, CmdCheckDrift(settings, observed))
  {
    PreparingDropsNothing(s);
  }

  lemma Effects(h: Home, c: Command)
    requires h.disk.Some? && FactsOk(h.disk.value) && Outcome(h, c).Some?
    ensures Outcome(h, c).value == Plain(h.disk.value, c)
  {
    hide FactsOk, Plain, ConfirmDiscovery, RecordDiscovery, ProposeProfile, ConfirmGate, RecordPilot, ScheduleHandoff, RecordSchedule, Simple, CheckDrift;
    var s := h.disk.value;
    match c {
      case CmdInit =>
      case CmdStatus => StatusWritesNothing(s);
      case CmdConfirmDiscovery(scope) => ConfirmDiscoveryEffect(s, scope);
      case CmdRecordDiscovery(scope, evidence) => RecordDiscoveryEffect(s, scope, evidence);
      case CmdProposeProfile(profile) => ProposeProfileEffect(s, profile);
      case CmdConfirmProfile => ConfirmProfileEffect(s);
      case CmdRecordPilot(settings, passed, evidence) => RecordPilotEffect(s, settings, passed, evidence);
      case CmdConfirmActivation => ConfirmActivationEffect(s);
      case CmdScheduleHandoff(settings, schedulable, locator) => ScheduleHandoffEffect(s, h.contractFile, settings, schedulable, locator);
      case CmdRecordSchedule(task) => RecordScheduleEffect(s, h.handoffFile, task);
      case CmdPause => PauseEffect(s);
      case CmdResume => ResumeEffect(s);
      case CmdCheckDrift(settings, observed) => CheckDriftEffect(s, settings, observed);
    }
  }

  /** In every reachable state a command either leaves the state file alone or stores exactly the
      plain state. */
  lemma WhatACommandStores(h: Home, c: Command)
    requires Good(h) && h.disk.Some?
    ensures Step(h, c).disk == Some(if Carried(h, h.disk.value, c) then Plain(h.disk.value, c) else h.disk.value)
  {
    WhatEachPhaseAllows(h, c);
    if Outcome(h, c).Some? { Effects(h, c); }
    hide Good, Carried, Plain, Outcome, FactsOk;
  }

  /** And the artifacts: a pilot or a discovery that passes its confirmation check writes its
      files, a handoff that is carried out its own; every other file stays. */
  lemma WhatACommandWrites(h: Home, c: Command)
    requires Good(h) && h.disk.Some?
    ensures var s, h' := h.disk.value, Step(h, c);
            var pilots := c.CmdRecordPilot? && s.profileGate.Some? && s.profile.Some?;
            && h'.contractFile == (if pilots then Some(Contract(c.settings, s.profile.value)) else h.contractFile)
            && h'.renderedFile == (if pilots then Some(Contract(c.settings, s.profile.value)) else h.renderedFile)
            && h'.receiptFile == (if pilots then Some(Pilot(Contract(c.settings, s.profile.value), c.passed, c.evidence)) else h.receiptFile)
            && h'.reportFile == (if c.CmdRecordDiscovery? && s.discoveryGate.Some? && s.scope == Some(c.scope) then Some(Report(c.scope, c.evidence)) else h.reportFile)
            && h'.handoffFile == (if c.CmdScheduleHandoff? && Carried(h, s, c) && s.contract.Some? && s.profile.Some? && s.pilot.Some?
                                  then Some(Handoff(s.contract.value, s.profile.value, s.pilot.value, c.locator)) else h.handoffFile)
  {
    WhatEachPhaseAllows(h, c);
    hide HistoryOk, CheckDrift, ConfirmDiscovery, ProposeProfile, RecordSchedule, ConfirmGate, Simple, Status;
    PreparingDropsNothing(h.disk.value);
  }

  /** The first command that does anything installs. */
  lemma WhatTheFirstCommandStores(c: Command)
    ensures Step(NO_HOME, c) ==
              if c.CmdInit? then NO_HOME.(disk := Some(State(Installed, 1, None, None, None, None, None, None, None, None, None, None, None,
                                                             [Entry(None, Installed, Init, None, 1)])))
              else NO_HOME
  {
  }

  /** The confirmation is of the current facts. */
  predicate Fits(s: State, g: Gate) {
    match g
    case Discovery => s.scope.Some? && s.discoveryGate == Some(DiscoveryBinding(s.scope.value))
    case Profile => s.report.Some? && s.profile.Some? && s.profileGate == Some(ProfileBinding(s.report.value, s.profile.value))
    case Activation =>
      s.contract.Some? && s.profile.Some? && s.pilot.Some? && s.activationGate == Some(ActivationBinding(s.contract.value, s.profile.value, s.pilot.value))
  }

  /** The status command repairs a state file that anyone may have edited: it drops exactly the
      confirmations that are not of the current facts, and where it drops none it writes nothing;
      a lost activation is put on record. */
  lemma StatusRepairs(h: Home)
    requires h.disk.Some?
    ensures var s, h' := h.disk.value, Step(h, CmdStatus);
            && h'.disk.Some? && h' == h.(disk := h'.disk)
            && var s' := h'.disk.value;
               var lost := s.activationGate.Some? && !Fits(s, Activation);
               if (s.discoveryGate.None? || Fits(s, Discovery)) && (s.profileGate.None? || Fits(s, Profile)) && !lost then s' == s
               else
                 && s' == s.(discoveryGate := if Fits(s, Discovery) then s.discoveryGate else None,
                             profileGate := if Fits(s, Profile) then s.profileGate else None,
                             activationGate := if lost then None else s.activationGate,
                             revision := s.revision + 1, history := s'.history)
                 && (!lost ==> s'.history == s.history)
                 && (lost ==> s'.history != [] && s'.history[|s'.history| - 1]
                                == Entry(Some(s.phase), s.phase, ActivationRevoked, if s.contract.Some? then Some(OfContract(s.contract.value)) else None, s.revision + 1))
  {
    StatusWrites(h);
    WhatInvalidateDrops(h.disk.value);
    hide Step, Invalidate, Fits;
  }

  lemma StatusWrites(h: Home)
    requires h.disk.Some?
    ensures Step(h, CmdStatus) == h.(disk := if Status(h.disk.value).Some? then Status(h.disk.value) else h.disk)
  {
    hide Status;
  }

  lemma WhatInvalidateDrops(s: State)
    ensures Invalidate(s) == s.(discoveryGate := if Fits(s, Discovery) then s.discoveryGate else None,
                                profileGate := if Fits(s, Profile) then s.profileGate else None,
                                activationGate := if Fits(s, Activation) then s.activationGate else None)
  {
  }

  // ---------------------------------------------------------------------
  // The task that runs
  // ---------------------------------------------------------------------

  /** The task of the last record-schedule that a run accepted. */
  function TaskSeen(h: Home, c: Command, seen: Option<nat>): Option<nat> {
    if c.CmdRecordSchedule? && Outcome(h, c).Some? then c.task else seen
  }

  function LastTask(h: Home, commands: seq<Command>, seen: Option<nat>): Option<nat>
    decreases |commands|
  {
    if commands == [] then seen else LastTask(Step(h, commands[0]), commands[1..], TaskSeen(h, commands[0], seen))
  }

  /** A recorded schedule is of the task that was recorded last. */
  ghost predicate TaskOk(h: Home, seen: Option<nat>) {
    Good(h) && (h.disk.Some? && h.disk.value.schedule.Some? ==> seen == Some(h.disk.value.schedule.value.task))
  }

  lemma StepKeepsTask(h: Home, c: Command, seen: Option<nat>)
    requires TaskOk(h, seen)
    ensures TaskOk(Step(h, c), TaskSeen(h, c, seen))
  {
    StepKeepsGood(h, c);
    if h.disk.Some? {
      WhatACommandStores(h, c);
      WhatEachPhaseAllows(h, c);
      hide Good, Step, Outcome, FactsOk;
    }
  }

  lemma {:induction false} RunKeepsTask(h: Home, commands: seq<Command>, seen: Option<nat>)
    requires TaskOk(h, seen)
    ensures TaskOk(Run(h, commands), LastTask(h, commands, seen))
    decreases |commands|
  {
    hide TaskOk, Step, TaskSeen;
    if commands != [] {
      StepKeepsTask(h, commands[0], seen);
      RunKeepsTask(Step(h, commands[0]), commands[1..], TaskSeen(h, commands[0], seen));
    }
  }

  /** Of every run that ends active or paused: the recorded task is the one of the last
      record-schedule command that was accepted.  A drift check with the settings of the contract
      that observes exactly this task, or observes none, commits nothing; with any other task it
      revokes the activation and asks for reconfirmation. */
  lemma TheTaskThatRuns(commands: seq<Command>, observed: Option<nat>)
    requires var d := Run(NO_HOME, commands).disk; d.Some? && (d.value.phase == Active || d.value.phase == Paused)
    ensures var s := Run(NO_HOME, commands).disk.value;
            && s.schedule.Some? && s.contract.Some? && LastTask(NO_HOME, commands, None) == Some(s.schedule.value.task)
            && var h' := Step(Run(NO_HOME, commands), CmdCheckDrift(s.contract.value.settings, observed));
               if observed == None || observed == Some(s.schedule.value.task) then h' == Run(NO_HOME, commands)
               else
                 && h'.disk.Some? && h'.disk.value.phase == NeedsReconfirmation && h'.disk.value.activationGate == None
                 && h'.disk.value.reason == Some(ScheduleIdUnknown) && h'.disk.value.schedule == s.schedule
  {
    hide HistoryOk, Run, Step;
    RunKeepsTask(NO_HOME, commands, None);
    var h := Run(NO_HOME, commands);
    var c := CmdCheckDrift(h.disk.value.contract.value.settings, observed);
    WhatACommandStores(h, c);
    WhatACommandWrites(h, c);
  }
}
