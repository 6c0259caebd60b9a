/** How a wizard becomes active, what it may then still get wrong, and that it can always
    become active again. */
module ActivationTheorems {
  import opened Wrappers
  import opened Activation
  import opened ActivationSafety

  // ---------------------------------------------------------------------
  // The trace of a run, which unlike the stored history is never truncated
  // ---------------------------------------------------------------------

  /** The entry that a command commits, if it commits one. */
  function Logged(h: Home, c: Command): seq<Entry> {
    match Outcome(h, c)
    case None => []
    case Some(s) => if s.history != [] && Last(s).revision == s.revision then [Last(s)] else []
  }

  function Trace(h: Home, commands: seq<Command>): seq<Entry>
    decreases |commands|
  {
    if commands == [] then [] else Logged(h, commands[0]) + Trace(Step(h, commands[0]), commands[1..])
  }

  datatype Deed = Deed(event: Event, input: Digest)

  /** The deeds occur in the trace, in this order. */
  predicate Ordered(deeds: seq<Deed>, trace: seq<Entry>)
    decreases |trace|
  {
    if deeds == [] then true
    else if trace == [] then false
    else
      var last, rest := trace[|trace| - 1], trace[..|trace| - 1];
      || Ordered(deeds, rest)
      || (&& last.event == deeds[|deeds| - 1].event && last.input == Some(deeds[|deeds| - 1].input)
          && Ordered(deeds[..|deeds| - 1], rest))
  }

  lemma OrderedGrows(deeds: seq<Deed>, trace: seq<Entry>, e: Entry)
    requires Ordered(deeds, trace)
    ensures Ordered(deeds, trace + [e])
  {
    assert (trace + [e])[..|trace|] == trace;
  }

  lemma OrderedNext(deeds: seq<Deed>, trace: seq<Entry>, d: Deed, e: Entry)
    requires Ordered(deeds, trace) && e.event == d.event && e.input == Some(d.input)
    ensures Ordered(deeds + [d], trace + [e])
  {
    assert (trace + [e])[..|trace|] == trace;
    assert (deeds + [d])[..|deeds|] == deeds;
  }

  // ---------------------------------------------------------------------
  // The road to active
  // ---------------------------------------------------------------------

  function Deeds1(s: State): seq<Deed>
    requires s.discoveryGate.Some?
  {
    [Deed(DiscoveryConfirmed, s.discoveryGate.value)]
  }

  function Deeds2(s: State): seq<Deed>
    requires s.discoveryGate.Some? && s.profileGate.Some?
  {
    Deeds1(s) + [Deed(ProfileAccepted, s.profileGate.value)]
  }

  function Deeds3(s: State): seq<Deed>
    requires s.discoveryGate.Some? && s.profileGate.Some? && s.pilot.Some?
  {
    Deeds2(s) + [Deed(PilotPass, OfPilot(s.pilot.value))]
  }

  function Deeds4(s: State): seq<Deed>
    requires s.discoveryGate.Some? && s.profileGate.Some? && s.pilot.Some? && s.activationGate.Some?
  {
    Deeds3(s) + [Deed(ActivationConfirmed, s.activationGate.value)]
  }

  function Deeds5(s: State): seq<Deed>
    requires s.discoveryGate.Some? && s.profileGate.Some? && s.pilot.Some? && s.activationGate.Some? && s.schedule.Some?
  {
    Deeds4(s) + [Deed(ScheduleRecorded, OfHandoff(s.schedule.value.handoff))]
  }

  /** The trace explains the state: each thing it claims was done, after the things it needs. */
  predicate Explained(s: State, trace: seq<Entry>)
    requires FactsOk(s)
  {
    && (s.phase != Installed ==> Ordered(Deeds1(s), trace))
    && (s.profileGate.Some? ==> s.phase != Installed && s.phase != ReadyForDiscovery && Ordered(Deeds2(s), trace))
    && (s.phase == PilotPassed || s.phase == Active || s.phase == Paused ==> Ordered(Deeds3(s), trace))
    && (s.activationGate.Some? ==> Piloted(s) && Ordered(Deeds4(s), trace))
    && (s.phase == Active || s.phase == Paused ==> Ordered(Deeds5(s), trace))
  }

  lemma ExplainedGrows(s: State, trace: seq<Entry>, e: Entry)
    requires FactsOk(s) && Explained(s, trace)
    ensures Explained(s, trace + [e])
  {
    if s.phase != Installed { OrderedGrows(Deeds1(s), trace, e); }
    if s.profileGate.Some? { OrderedGrows(Deeds2(s), trace, e); }
    if s.phase == PilotPassed || s.phase == Active || s.phase == Paused { OrderedGrows(Deeds3(s), trace, e); }
    if s.activationGate.Some? { OrderedGrows(Deeds4(s), trace, e); }
    if s.phase == Active || s.phase == Paused { OrderedGrows(Deeds5(s), trace, e); }
  }

  lemma ConfirmDiscoveryExplained(s: State, scope: nat, trace: seq<Entry>, e: Entry)
    requires FactsOk(s) && Explained(s, trace)
    requires ConfirmDiscovery(s, scope).Some? && FactsOk(ConfirmDiscovery(s, scope).value)
    requires e.event == DiscoveryConfirmed && e.input == Some(DiscoveryBinding(scope))
    ensures Explained(ConfirmDiscovery(s, scope).value, trace + [e])
  {
    hide Ordered;
    OrderedNothing(trace);
    OrderedNext([], trace, Deed(DiscoveryConfirmed, DiscoveryBinding(scope)), e);
    var d := Deed(DiscoveryConfirmed, DiscoveryBinding(scope));
    assert [] + [d] == [d];
  }

  lemma OrderedNothing(trace: seq<Entry>)
    ensures Ordered([], trace)
  {
  }

  lemma RecordDiscoveryExplained(s: State, scope: nat, evidence: nat, trace: seq<Entry>, e: Entry)
    requires FactsOk(s) && Explained(s, trace)
    requires RecordDiscovery(s, scope, evidence).Some? && FactsOk(RecordDiscovery(s, scope, evidence).value)
    ensures Explained(RecordDiscovery(s, scope, evidence).value, trace + [e])
  {
    hide Ordered;
    ExplainedGrows(s, trace, e);
  }

  lemma ProposeProfileExplained(s: State, profile: nat, trace: seq<Entry>, e: Entry)
    requires FactsOk(s) && Explained(s, trace)
    requires ProposeProfile(s, profile).Some? && FactsOk(ProposeProfile(s, profile).value)
    ensures Explained(ProposeProfile(s, profile).value, trace + [e])
  {
    hide Ordered;
    ExplainedGrows(s, trace, e);
  }

  lemma ConfirmProfileExplained(s: State, trace: seq<Entry>, e: Entry)
    requires FactsOk(s) && Explained(s, trace)
    requires ConfirmGate(s, Profile, ProfileAccepted).Some? && FactsOk(ConfirmGate(s, Profile, ProfileAccepted).value)
    requires e.event == ProfileAccepted && e.input == CurrentBinding(s, Profile)
    ensures Explained(ConfirmGate(s, Profile, ProfileAccepted).value, trace + [e])
  {
    hide Ordered;
    PreparingDropsNothing(s);
    ExplainedGrows(s, trace, e);
    OrderedNext(Deeds1(s), trace, Deed(ProfileAccepted, e.input.value), e);
  }

  lemma RecordPilotExplained(s: State, settings: nat, passed: bool, evidence: nat, trace: seq<Entry>, e: Entry)
    requires FactsOk(s) && Explained(s, trace)
    requires RecordPilot(s, settings, passed, evidence).Some? && FactsOk(RecordPilot(s, settings, passed, evidence).value)
    requires passed ==> e.event == PilotPass && s.profile.Some? && e.input == Some(OfPilot(Pilot(Contract(settings, s.profile.value), true, evidence)))
    ensures Explained(RecordPilot(s, settings, passed, evidence).value, trace + [e])
  {
    hide Ordered;
    PreparingDropsNothing(s);
    ExplainedGrows(s, trace, e);
    if passed { OrderedNext(Deeds2(s), trace, Deed(PilotPass, e.input.value), e); }
  }

  lemma ConfirmActivationExplained(s: State, trace: seq<Entry>, e: Entry)
    requires FactsOk(s) && Explained(s, trace)
    requires ConfirmGate(s, Activation, ActivationConfirmed).Some? && FactsOk(ConfirmGate(s, Activation, ActivationConfirmed).value)
    requires e.event == ActivationConfirmed && e.input == CurrentBinding(s, Activation)
    ensures Explained(ConfirmGate(s, Activation, ActivationConfirmed).value, trace + [e])
  {
    hide Ordered;
    PreparingDropsNothing(s);
    ExplainedGrows(s, trace, e);
    OrderedNext(Deeds3(s), trace, Deed(ActivationConfirmed, e.input.value), e);
  }

  lemma RecordScheduleExplained(s: State, file: Option<Handoff>, task: Option<nat>, trace: seq<Entry>, e: Entry)
    requires FactsOk(s) && Explained(s, trace)
    requires RecordSchedule(s, file, task).Some? && FactsOk(RecordSchedule(s, file, task).value)
    requires e.event == ScheduleRecorded && e.input == Some(OfHandoff(RecordSchedule(s, file, task).value.schedule.value.handoff))
    ensures Explained(RecordSchedule(s, file, task).value, trace + [e])
  {
    hide Ordered;
    PreparingDropsNothing(s);
    ExplainedGrows(s, trace, e);
    OrderedNext(Deeds4(s), trace, Deed(ScheduleRecorded, e.input.value), e);
  }

  lemma SimpleExplained(s: State, ev: Event, trace: seq<Entry>, e: Entry)
    requires FactsOk(s) && Explained(s, trace) && (ev == Pausing || ev == Resuming)
    requires Simple(s, ev).Some? && FactsOk(Simple(s, ev).value)
    ensures Explained(Simple(s, ev).value, trace + [e])
  {
    hide Ordered;
    PreparingDropsNothing(s);
    ExplainedGrows(s, trace, e);
  }

  lemma CheckDriftExplained(s: State, settings: nat, observed: Option<nat>, trace: seq<Entry>, e: Entry)
    requires FactsOk(s) && Explained(s, trace)
    requires CheckDrift(s, settings, observed).Some? && FactsOk(CheckDrift(s, settings, observed).value)
    ensures Explained(CheckDrift(s, settings, observed).value, trace + [e])
  {
    hide Ordered;
    PreparingDropsNothing(s);
    ExplainedGrows(s, trace, e);
  }

  lemma ScheduleHandoffExplained(s: State, file: Option<Contract>, settings: nat, schedulable: bool, locator: nat, trace: seq<Entry>)
    requires FactsOk(s) && Explained(s, trace)
    requires ScheduleHandoff(s, file, settings, schedulable, locator).Some? && FactsOk(ScheduleHandoff(s, file, settings, schedulable, locator).value)
    ensures Explained(ScheduleHandoff(s, file, settings, schedulable, locator).value, trace)
  {
    hide Ordered;
    PreparingDropsNothing(s);
  }

  /** A move logs exactly the event and the input it was given. */
  lemma MoveIsLogged(s: State, s1: State, e: Event, input: Option<Digest>)
    requires HistoryOk(s) && s1.phase == s.phase && s1.history == s.history && s1.revision == s.revision
    requires Moved(s1, e, input).Some?
    ensures var s' := Moved(s1, e, input).value;
            s'.history != [] && Last(s').event == e && Last(s').input == input && Last(s').revision == s'.revision
  {
    RecordKeepsHistory(s, s1, e, input, Target(s.phase, e).value);
  }

  ghost predicate Told(h: Home, trace: seq<Entry>) {
    Good(h) && (h.disk.Some? ==> Explained(h.disk.value, trace))
  }

  /** The three commands that carry a human confirmation. */
  lemma ConfirmationsTold(h: Home, c: Command, trace: seq<Entry>)
    requires Told(h, trace) && h.disk.Some? && Outcome(h, c).Some? && FactsOk(Outcome(h, c).value)
    requires c.CmdConfirmDiscovery? || c.CmdConfirmProfile? || c.CmdConfirmActivation?
    ensures Explained(Outcome(h, c).value, trace + Logged(h, c))
  {
    hide Ordered, FactsOk, HistoryOk, Explained;
    var s := h.disk.value;
    GatesOf(s);
    PreparingDropsNothing(s);
    match c {
      case CmdConfirmDiscovery(scope) =>
        var d := DiscoveryBinding(scope);
        MoveIsLogged(s, Invalidate(s.(scope := Some(scope))).(discoveryGate := Some(d)), DiscoveryConfirmed, Some(d));
        ConfirmDiscoveryExplained(s, scope, trace, Logged(h, c)[0]);
      case CmdConfirmProfile =>
        MoveIsLogged(s, SetGate(s, Profile, CurrentBinding(s, Profile)), ProfileAccepted, CurrentBinding(s, Profile));
        ConfirmProfileExplained(s, trace, Logged(h, c)[0]);
      case CmdConfirmActivation =>
        MoveIsLogged(s, SetGate(s, Activation, CurrentBinding(s, Activation)), ActivationConfirmed, CurrentBinding(s, Activation));
        ConfirmActivationExplained(s, trace, Logged(h, c)[0]);
    }
  }

  lemma GatesOf(s: State)
    requires FactsOk(s)
    ensures AllGatesValid(s)
  {
  }

  lemma ReceiptsTold(h: Home, c: Command, trace: seq<Entry>)
    requires Told(h, trace) && h.disk.Some? && Outcome(h, c).Some? && FactsOk(Outcome(h, c).value)
    requires c.CmdRecordDiscovery? || c.CmdProposeProfile? || c.CmdRecordPilot? || c.CmdRecordSchedule?
    ensures Explained(Outcome(h, c).value, trace + Logged(h, c))
  {
    hide Ordered, FactsOk, HistoryOk, Explained;
    var s := h.disk.value;
    GatesOf(s);
    PreparingDropsNothing(s);
    match c {
      case CmdRecordDiscovery(scope, evidence) =>
        MoveIsLogged(s, Invalidate(s.(report := Some(Report(scope, evidence)))), DiscoveryRecorded, Some(OfReport(Report(scope, evidence))));
        RecordDiscoveryExplained(s, scope, evidence, trace, Logged(h, c)[0]);
      case CmdProposeProfile(profile) =>
        MoveIsLogged(s, Invalidate(s.(profile := Some(profile))), ProfileOffered, Some(OfProfile(profile)));
        ProposeProfileExplained(s, profile, trace, Logged(h, c)[0]);
      case CmdRecordPilot(settings, passed, evidence) =>
        var contract := Contract(settings, s.profile.value);
        var pilot := Pilot(contract, passed, evidence);
        var s1 := Invalidate(s.(contract := Some(contract), pilot := Some(pilot))).(reason := if passed then None else Some(PilotFailed));
        MoveIsLogged(s, s1, if passed then PilotPass else PilotFail, Some(OfPilot(pilot)));
        RecordPilotExplained(s, settings, passed, evidence, trace, Logged(h, c)[0]);
      case CmdRecordSchedule(task) =>
        var schedule := Schedule(task.value, s.contract.value, s.handoff.value, true);
        MoveIsLogged(s, s.(schedule := Some(schedule)), ScheduleRecorded, Some(OfHandoff(s.handoff.value)));
        RecordScheduleExplained(s, h.handoffFile, task, trace, Logged(h, c)[0]);
    }
  }

  lemma HandoffTold(h: Home, c: Command, trace: seq<Entry>)
    requires Told(h, trace) && h.disk.Some? && c.CmdScheduleHandoff? && Outcome(h, c).Some? && FactsOk(Outcome(h, c).value)
    ensures Explained(Outcome(h, c).value, trace + Logged(h, c))
  {
    hide Ordered, Explained;
    PreparingDropsNothing(h.disk.value);
    assert Logged(h, c) == [];
    assert trace + [] == trace;
    ScheduleHandoffExplained(h.disk.value, h.contractFile, c.settings, c.schedulable, c.locator, trace);
  }

  lemma UpkeepTold(h: Home, c: Command, trace: seq<Entry>)
    requires Told(h, trace) && h.disk.Some? && Outcome(h, c).Some? && FactsOk(Outcome(h, c).value)
    requires c.CmdPause? || c.CmdResume? || c.CmdCheckDrift?
    ensures Explained(Outcome(h, c).value, trace + Logged(h, c))
  {
    hide Ordered, FactsOk, HistoryOk, Explained;
    var s := h.disk.value;
    GatesOf(s);
    PreparingDropsNothing(s);
    if c.CmdCheckDrift? {
      DriftIsFlagged(s, c.settings, c.observed);
      CheckDriftExplained(s, c.settings, c.observed, trace, Logged(h, c)[0]);
    } else {
      var e := if c.CmdPause? then Pausing else Resuming;
      MoveIsLogged(s, s.(schedule := if s.schedule.Some? then Some(s.schedule.value.(enabled := e != Pausing)) else None), e, None);
      SimpleExplained(s, e, trace, Logged(h, c)[0]);
    }
  }

  /** Whenever a drift check commits anything from a good state, it committed a move to
      reconfirmation: the silent self-loop is never taken. */
  lemma DriftIsFlagged(s: State, settings: nat, observed: Option<nat>)
    requires FactsOk(s) && HistoryOk(s) && CheckDrift(s, settings, observed).Some?
    ensures var s' := CheckDrift(s, settings, observed).value;
            && s'.phase == NeedsReconfirmation && s'.activationGate.None? && s'.schedule == s.schedule
            && s'.history != [] && Last(s').event == DriftFlagged && Last(s').revision == s'.revision
  {
    hide HistoryOk;
    PreparingDropsNothing(s);
    var current := Contract(settings, s.profile.value);
    var drifted := s.contract.Some? && s.contract.value != current;
    MoveIsLogged(s, s.(activationGate := None, reason := Some(if drifted then ContractDrift else ScheduleIdUnknown)), DriftFlagged, Some(OfContract(current)));
  }

  lemma StepTold(h: Home, c: Command, trace: seq<Entry>)
    requires Told(h, trace)
    ensures Told(Step(h, c), trace + Logged(h, c))
  {
    hide FactsOk, HistoryOk, Explained;
    StepKeepsGood(h, c);
    hide Good, Outcome;
    if Outcome(h, c).None? {
      assert trace + [] == trace;
    } else if h.disk.None? {
      FirstTold(h, c, trace);
    } else {
      GoodFacts(h, c);
      if c.CmdConfirmDiscovery? || c.CmdConfirmProfile? || c.CmdConfirmActivation? { ConfirmationsTold(h, c, trace); }
      else if c.CmdScheduleHandoff? { HandoffTold(h, c, trace); }
      else if c.CmdPause? || c.CmdResume? || c.CmdCheckDrift? { UpkeepTold(h, c, trace); }
      else if c.CmdInit? || c.CmdStatus? { NothingToTell(h, c); }
      else { ReceiptsTold(h, c, trace); }
    }
  }

  lemma GoodFacts(h: Home, c: Command)
    requires Good(Step(h, c)) && Outcome(h, c).Some?
    ensures FactsOk(Outcome(h, c).value)
  {
  }

  lemma FirstTold(h: Home, c: Command, trace: seq<Entry>)
    requires h.disk.None? && Outcome(h, c).Some? && FactsOk(Outcome(h, c).value)
    ensures Explained(Outcome(h, c).value, trace + Logged(h, c))
  {
  }

  lemma NothingToTell(h: Home, c: Command)
    requires Good(h) && h.disk.Some? && (c.CmdInit? || c.CmdStatus?)
    ensures Outcome(h, c).None?
  {
    StatusWritesNothing(h.disk.value);
  }

  lemma {:induction false} RunTold(h: Home, commands: seq<Command>, before: seq<Entry>)
    requires Told(h, before)
    ensures Told(Run(h, commands), before + Trace(h, commands))
    decreases |commands|
  {
    hide Told, Logged, Step;
    if commands == [] {
      assert before + [] == before;
    } else {
      StepTold(h, commands[0], before);
      RunTold(Step(h, commands[0]), commands[1..], before + Logged(h, commands[0]));
      assert before + Logged(h, commands[0]) + Trace(Step(h, commands[0]), commands[1..]) == before + Trace(h, commands);
    }
  }

  /** Nothing becomes active without all five deeds, in this order, each of exactly the facts
      that the state now holds: the scope, the profile and its discovery report, a passing
      pilot of the contract, the activation of that contract, profile and pilot, and a task
      for that contract. */
  lemma RoadToActive(commands: seq<Command>)
    requires Run(NO_HOME, commands).disk.Some? && Run(NO_HOME, commands).disk.value.phase == Active
    ensures var s := Run(NO_HOME, commands).disk.value;
            && s.scope.Some? && s.report.Some? && s.profile.Some? && s.contract.Some? && s.pilot.Some? && s.schedule.Some?
            && s.report.value.scope == s.scope.value
            && s.pilot.value.passed && s.pilot.value.contract == s.contract.value && s.contract.value.profile == s.profile.value
            && s.schedule.value.contract == s.contract.value
            && Ordered([Deed(DiscoveryConfirmed, DiscoveryBinding(s.scope.value)),
                        Deed(ProfileAccepted, ProfileBinding(s.report.value, s.profile.value)),
                        Deed(PilotPass, OfPilot(s.pilot.value)),
                        Deed(ActivationConfirmed, ActivationBinding(s.contract.value, s.profile.value, s.pilot.value)),
                        Deed(ScheduleRecorded, OfHandoff(s.schedule.value.handoff))],
                       Trace(NO_HOME, commands))
  {
    hide Ordered, Trace, Run, HistoryOk;
    RunTold(NO_HOME, commands, []);
    assert [] + Trace(NO_HOME, commands) == Trace(NO_HOME, commands);
    var s := Run(NO_HOME, commands).disk.value;
    assert Deeds5(s) == [Deeds5(s)[0], Deeds5(s)[1], Deeds5(s)[2], Deeds5(s)[3], Deeds5(s)[4]];
  }

  // ---------------------------------------------------------------------
  // No dead end
  // ---------------------------------------------------------------------

  /** Commands that make any good home active, whatever went wrong before. */
  function Recipe(h: Home): seq<Command> {
    match h.disk
    case None => [CmdInit] + FromInstalled(0)
    case Some(s) =>
      match s.phase
      case Installed => FromInstalled(0)
      case ReadyForDiscovery => FromReady(if s.scope.Some? then s.scope.value else 0)
      case ProfileProposed => [CmdConfirmProfile] + FromConfirmed()
      case ProfileConfirmed => FromConfirmed()
      case PilotPassed => FromConfirmed()
      case Active => []
      case Paused => [CmdResume]
      case Degraded => FromConfirmed()
      case NeedsReconfirmation => FromConfirmed()
  }

  function FromConfirmed(): seq<Command> {
    [CmdRecordPilot(0, true, 0), CmdConfirmActivation, CmdScheduleHandoff(0, true, 0), CmdRecordSchedule(Some(0))]
  }

  function FromReady(scope: nat): seq<Command> {
    [CmdRecordDiscovery(scope, 0), CmdProposeProfile(0), CmdConfirmProfile] + FromConfirmed()
  }

  function FromInstalled(scope: nat): seq<Command> { [CmdConfirmDiscovery(scope)] + FromReady(scope) }

  predicate IsActive(h: Home) { h.disk.Some? && h.disk.value.phase == Active }

  lemma RunAppend(h: Home, c: Command, rest: seq<Command>)
    ensures Run(h, [c] + rest) == Run(Step(h, c), rest)
  {
    assert ([c] + rest)[1..] == rest;
  }

  lemma PilotStep(h: Home)
    requires Good(h) && h.disk.Some?
    requires h.disk.value.phase in {ProfileConfirmed, PilotPassed, Degraded, NeedsReconfirmation}
    ensures var h' := Step(h, CmdRecordPilot(0, true, 0));
            && h'.disk.Some? && h'.disk.value.phase == PilotPassed && h'.disk.value.profile == h.disk.value.profile && h.disk.value.profile.Some?
            && h'.contractFile == h'.disk.value.contract == Some(Contract(0, h.disk.value.profile.value))
  {
    hide HistoryOk, ConfirmDiscovery, RecordDiscovery, ProposeProfile, Simple, CheckDrift, Status, ConfirmGate, RecordSchedule, ScheduleHandoff;
    PreparingDropsNothing(h.disk.value);
  }

  lemma ConfirmedBecomesActive(h: Home)
    requires Good(h) && h.disk.Some?
    requires h.disk.value.phase in {ProfileConfirmed, PilotPassed, Degraded, NeedsReconfirmation}
    ensures IsActive(Run(h, FromConfirmed()))
  {
    hide Good, Step;
    var c := CmdRecordPilot(0, true, 0);
    PilotStep(h);
    StepKeepsGood(h, c);
    PilotedBecomesActive(Step(h, c));
    RunAppend(h, c, FromConfirmed()[1..]);
    assert [c] + FromConfirmed()[1..] == FromConfirmed();
  }

  lemma PilotedBecomesActive(h: Home)
    requires Good(h) && h.disk.Some? && h.disk.value.phase == PilotPassed
    requires h.contractFile == h.disk.value.contract && h.contractFile == Some(Contract(0, h.disk.value.profile.value))
    ensures IsActive(Run(h, FromConfirmed()[1..]))
  {
    hide HistoryOk, ConfirmDiscovery, RecordDiscovery, ProposeProfile, Simple, CheckDrift, Status, RecordPilot, RecordSchedule, ScheduleHandoff;
    var s := h.disk.value;
    PreparingDropsNothing(s);
    var h1 := Step(h, CmdConfirmActivation);
    StepKeepsGood(h, CmdConfirmActivation);
    assert h1.disk.value.contract == s.contract && h1.disk.value.profile == s.profile && h1.disk.value.phase == PilotPassed;
    ActivatedBecomesActive(h1);
    RunAppend(h, CmdConfirmActivation, FromConfirmed()[2..]);
    assert [CmdConfirmActivation] + FromConfirmed()[2..] == FromConfirmed()[1..];
  }

  lemma ActivatedBecomesActive(h: Home)
    requires Good(h) && h.disk.Some? && h.disk.value.phase == PilotPassed && GrantIsValid(h.disk.value, Activation)
    requires h.contractFile == h.disk.value.contract && h.contractFile == Some(Contract(0, h.disk.value.profile.value))
    ensures IsActive(Run(h, FromConfirmed()[2..]))
  {
    hide HistoryOk, ConfirmDiscovery, RecordDiscovery, ProposeProfile, Simple, CheckDrift, Status, ConfirmGate, RecordPilot;
    var s := h.disk.value;
    PreparingDropsNothing(s);
    var handoff, record := FromConfirmed()[2], FromConfirmed()[3];
    var h1 := Step(h, handoff);
    StepKeepsGood(h, handoff);
    PreparingDropsNothing(h1.disk.value);
    assert IsActive(Step(h1, record));
    RunAppend(h, handoff, [record]);
    RunAppend(h1, record, []);
    assert [handoff] + [record] == FromConfirmed()[2..];
    assert [record] + [] == [record];
  }

  lemma ReadyBecomesActive(h: Home)
    requires Good(h) && h.disk.Some? && h.disk.value.phase == ReadyForDiscovery
    ensures IsActive(Run(h, FromReady(h.disk.value.scope.value)))
  {
    hide HistoryOk;
    var scope := h.disk.value.scope.value;
    var c1, c2 := CmdRecordDiscovery(scope, 0), CmdProposeProfile(0);
    PreparingDropsNothing(h.disk.value);
    var h1 := Step(h, c1);
    StepKeepsGood(h, c1);
    PreparingDropsNothing(h1.disk.value);
    assert h1.disk.value.phase == ReadyForDiscovery && h1.disk.value.report.Some?;
    var h2 := Step(h1, c2);
    StepKeepsGood(h1, c2);
    assert h2.disk.value.phase == ProfileProposed;
    ProposedBecomesActive(h2);
    RunAppend(h, c1, [c2] + ([CmdConfirmProfile] + FromConfirmed()));
    RunAppend(h1, c2, [CmdConfirmProfile] + FromConfirmed());
    assert [c1] + ([c2] + ([CmdConfirmProfile] + FromConfirmed())) == FromReady(scope);
  }

  lemma ProposedBecomesActive(h: Home)
    requires Good(h) && h.disk.Some? && h.disk.value.phase == ProfileProposed
    ensures IsActive(Run(h, [CmdConfirmProfile] + FromConfirmed()))
  {
    hide HistoryOk;
    PreparingDropsNothing(h.disk.value);
    StepKeepsGood(h, CmdConfirmProfile);
    assert Step(h, CmdConfirmProfile).disk.value.phase == ProfileConfirmed;
    ConfirmedBecomesActive(Step(h, CmdConfirmProfile));
    RunAppend(h, CmdConfirmProfile, FromConfirmed());
  }

  lemma InstalledBecomesActive(h: Home)
    requires Good(h) && h.disk.Some? && h.disk.value.phase == Installed
    ensures IsActive(Run(h, FromInstalled(0)))
  {
    hide HistoryOk;
    var c := CmdConfirmDiscovery(0);
    PreparingDropsNothing(h.disk.value);
    StepKeepsGood(h, c);
    assert Step(h, c).disk.value.phase == ReadyForDiscovery && Step(h, c).disk.value.scope == Some(0);
    ReadyBecomesActive(Step(h, c));
    RunAppend(h, c, FromReady(0));
  }

  /** From every state that any run can reach, drift, failed pilots and interruptions
      included, some continuation becomes active. */
  lemma NoDeadEnd(commands: seq<Command>)
    ensures IsActive(Run(Run(NO_HOME, commands), Recipe(Run(NO_HOME, commands))))
  {
    hide HistoryOk;
    RunKeepsGood(NO_HOME, commands);
    var h := Run(NO_HOME, commands);
    match h.disk {
      case None =>
        StepKeepsGood(h, CmdInit);
        InstalledBecomesActive(Step(h, CmdInit));
        RunAppend(h, CmdInit, FromInstalled(0));
      case Some(s) =>
        match s.phase {
          case Installed => InstalledBecomesActive(h);
          case ReadyForDiscovery => ReadyBecomesActive(h);
          case ProfileProposed => ProposedBecomesActive(h);
          case Active =>
          case Paused => ResumeBecomesActive(h);
          case _ => ConfirmedBecomesActive(h);
        }
    }
  }

  lemma ResumeBecomesActive(h: Home)
    requires Good(h) && h.disk.Some? && h.disk.value.phase == Paused
    ensures IsActive(Run(h, [CmdResume]))
  {
    hide HistoryOk;
    PreparingDropsNothing(h.disk.value);
    assert IsActive(Step(h, CmdResume));
    RunAppend(h, CmdResume, []);
    assert [CmdResume] + [] == [CmdResume];
  }

  // ---------------------------------------------------------------------
  // What an active state does not promise
  // ---------------------------------------------------------------------

  /** The scheduled handoff always names a passing pilot of the current contract. */
  lemma ScheduledHandoffHasSomePilot(commands: seq<Command>)
    requires IsActive(Run(NO_HOME, commands))
    ensures var s := Run(NO_HOME, commands).disk.value;
            && s.schedule.Some? && s.pilot.Some? && s.contract.Some?
            && s.schedule.value.handoff.contract == s.contract.value && Some(s.schedule.value.handoff.profile) == s.profile
            && s.schedule.value.handoff.pilot.passed && s.schedule.value.handoff.pilot.contract == s.contract.value
            && (s.schedule.value.handoff.pilot == s.pilot.value <==> s.schedule.value.handoff.pilot.evidence == s.pilot.value.evidence)
  {
    RunKeepsGood(NO_HOME, commands);
  }

  /** What a run did with pilots, told from its commands: the last pilot that was accepted, and
      the pilot that was the last one when the last handoff succeeded. */
  datatype Seen = Seen(last: Option<Pilot>, handedOff: Option<Pilot>)

  function Watch(h: Home, c: Command, seen: Seen): Seen {
    if Outcome(h, c).None? then seen
    else if c.CmdRecordPilot? && h.disk.Some? && h.disk.value.profile.Some? then
      seen.(last := Some(Pilot(Contract(c.settings, h.disk.value.profile.value), c.passed, c.evidence)))
    else if c.CmdScheduleHandoff? then seen.(handedOff := seen.last)
    else seen
  }

  function Watched(h: Home, commands: seq<Command>, seen: Seen): Seen
    decreases |commands|
  {
    if commands == [] then seen else Watched(Step(h, commands[0]), commands[1..], Watch(h, commands[0], seen))
  }

  const NOTHING_SEEN: Seen := Seen(None, None)

  /** The state agrees with what was seen, and a task in force came with the last handoff. */
  predicate Witnessed(s: State, seen: Seen) {
    && s.pilot == seen.last
    && (s.handoff.Some? ==> seen.handedOff == Some(s.handoff.value.pilot))
    && (s.phase == Active || s.phase == Paused ==> s.schedule.Some? && s.handoff == Some(s.schedule.value.handoff))
  }

  ghost predicate HomeWitnessed(h: Home, seen: Seen) {
    Good(h) && (if h.disk.Some? then Witnessed(h.disk.value, seen) else seen == NOTHING_SEEN)
  }

  lemma PilotWitnessed(h: Home, c: Command, seen: Seen)
    requires HomeWitnessed(h, seen) && h.disk.Some? && Outcome(h, c).Some?
    requires c.CmdRecordPilot? || c.CmdScheduleHandoff? || c.CmdRecordSchedule?
    ensures Witnessed(Outcome(h, c).value, Watch(h, c, seen))
  {
    hide HistoryOk, ConfirmDiscovery, RecordDiscovery, ProposeProfile, Simple, CheckDrift, Status, ConfirmGate;
    PreparingDropsNothing(h.disk.value);
  }

  lemma OtherWitnessed(h: Home, c: Command, seen: Seen)
    requires HomeWitnessed(h, seen) && h.disk.Some? && Outcome(h, c).Some?
    requires !c.CmdRecordPilot? && !c.CmdScheduleHandoff? && !c.CmdRecordSchedule?
    ensures Witnessed(Outcome(h, c).value, Watch(h, c, seen))
  {
    hide HistoryOk, RecordPilot, RecordSchedule, ScheduleHandoff;
    PreparingDropsNothing(h.disk.value);
  }

  lemma StepWitnessed(h: Home, c: Command, seen: Seen)
    requires HomeWitnessed(h, seen)
    ensures HomeWitnessed(Step(h, c), Watch(h, c, seen))
  {
    StepKeepsGood(h, c);
    hide Good, Witnessed, Outcome;
    if h.disk.None? {
      FirstWitnessed(h, c, seen);
    } else if Outcome(h, c).Some? {
      if c.CmdRecordPilot? || c.CmdScheduleHandoff? || c.CmdRecordSchedule? { PilotWitnessed(h, c, seen); } else { OtherWitnessed(h, c, seen); }
    }
  }

  lemma FirstWitnessed(h: Home, c: Command, seen: Seen)
    requires h.disk.None? && seen == NOTHING_SEEN
    ensures Outcome(h, c).Some? ==> Witnessed(Outcome(h, c).value, Watch(h, c, seen))
    ensures Outcome(h, c).None? ==> Watch(h, c, seen) == seen
  {
  }

  lemma {:induction false} RunWitnessed(h: Home, commands: seq<Command>, seen: Seen)
    requires HomeWitnessed(h, seen)
    ensures HomeWitnessed(Run(h, commands), Watched(h, commands, seen))
    decreases |commands|
  {
    hide HomeWitnessed, Step, Watch;
    if commands != [] {
      StepWitnessed(h, commands[0], seen);
      RunWitnessed(Step(h, commands[0]), commands[1..], Watch(h, commands[0], seen));
    }
  }

  /** But it may be an earlier pilot than the one the user confirmed: recording the task
      compares contracts only, and a rerun pilot leaves the handoff in place.  Of every run that
      ends active, the recorded handoff names the pilot that was current at the last handoff,
      and that is the pilot of the confirmed state exactly when the last pilot accepted before
      that handoff and the last pilot accepted in the whole run left the same receipt, however
      many others were accepted in between. */
  lemma RecordedHandoffPilot(commands: seq<Command>)
    requires IsActive(Run(NO_HOME, commands))
    ensures var s, seen := Run(NO_HOME, commands).disk.value, Watched(NO_HOME, commands, NOTHING_SEEN);
            && s.schedule.Some? && s.pilot.Some? && seen.last == s.pilot
            && seen.handedOff == Some(s.schedule.value.handoff.pilot)
            && (s.schedule.value.handoff.pilot == s.pilot.value <==> seen.handedOff == seen.last)
  {
    RunWitnessed(NO_HOME, commands, NOTHING_SEEN);
  }

  /** What was seen at the last handoff is what the run up to it had seen last, as long as no
      later handoff succeeds. */
  lemma {:induction false} WatchedAfterHandoff(h: Home, commands: seq<Command>, seen: Seen)
    requires NoHandoff(h, commands)
    ensures Watched(h, commands, seen).handedOff == seen.handedOff
    decreases |commands|
  {
    if commands != [] { WatchedAfterHandoff(Step(h, commands[0]), commands[1..], Watch(h, commands[0], seen)); }
  }

  predicate NoHandoff(h: Home, commands: seq<Command>)
    decreases |commands|
  {
    commands == [] || (!(commands[0].CmdScheduleHandoff? && Outcome(h, commands[0]).Some?) && NoHandoff(Step(h, commands[0]), commands[1..]))
  }

  lemma {:induction false} WatchedConcat(h: Home, a: seq<Command>, b: seq<Command>, seen: Seen)
    ensures Run(h, a + b) == Run(Run(h, a), b)
    ensures Watched(h, a + b, seen) == Watched(Run(h, a), b, Watched(h, a, seen))
    decreases |a|
  {
    hide Step, Watch;
    if a == [] {
      assert a + b == b;
    } else {
      assert (a + b)[1..] == a[1..] + b;
      WatchedConcat(Step(h, a[0]), a[1..], b, Watch(h, a[0], seen));
    }
  }

  /** The same, told at the last handoff of the run. */
  lemma PilotAtTheLastHandoff(before: seq<Command>, handoff: Command, rest: seq<Command>)
    requires handoff.CmdScheduleHandoff? && Outcome(Run(NO_HOME, before), handoff).Some?
    requires NoHandoff(Step(Run(NO_HOME, before), handoff), rest)
    requires IsActive(Run(NO_HOME, before + ([handoff] + rest)))
    ensures var all := before + ([handoff] + rest);
            var s := Run(NO_HOME, all).disk.value;
            s.schedule.Some? && s.pilot.Some? &&
            (s.schedule.value.handoff.pilot == s.pilot.value <==>
               Watched(NO_HOME, before, NOTHING_SEEN).last == Watched(NO_HOME, all, NOTHING_SEEN).last)
  {
    hide IsActive, Step, Outcome;
    var all := before + ([handoff] + rest);
    var h, seen := Run(NO_HOME, before), Watched(NO_HOME, before, NOTHING_SEEN);
    RecordedHandoffPilot(all);
    WatchedConcat(NO_HOME, before, [handoff] + rest, NOTHING_SEEN);
    assert ([handoff] + rest)[1..] == rest;
    WatchedAfterHandoff(Step(h, handoff), rest, Watch(h, handoff, seen));
  }

  /** From every home whose pilot and activation are confirmed: hand off, rerun the pilot with
      other evidence, confirm again and record the task. */
  function StaleHandoffRun(s: State): seq<Command>
    requires s.contract.Some? && s.pilot.Some?
  {
    [CmdScheduleHandoff(s.contract.value.settings, true, 0), CmdRecordPilot(s.contract.value.settings, true, s.pilot.value.evidence + 1)]
    + [CmdConfirmActivation, CmdRecordSchedule(Some(0))]
  }

  /** Such a run ends active with a task whose handoff names the pilot before the last. */
  lemma HandoffMayNameAnOlderPilot(h: Home)
    requires Good(h) && h.disk.Some? && h.disk.value.phase == PilotPassed && GrantIsValid(h.disk.value, Activation)
    requires h.contractFile == h.disk.value.contract
    ensures var h' := Run(h, StaleHandoffRun(h.disk.value));
            && IsActive(h') && h'.disk.value.schedule.Some? && h'.disk.value.pilot.Some?
            && h'.disk.value.schedule.value.handoff.pilot != h'.disk.value.pilot.value
  {
    hide Good, Step, GrantIsValid;
    HandoffStep(h);
    var s := h.disk.value;
    var c1, c2 := StaleHandoffRun(s)[0], StaleHandoffRun(s)[1];
    var h1 := Step(h, c1);
    PilotAgainStep(h1, s.contract.value.settings, s.pilot.value.evidence + 1);
    HandoffRecorded(Step(h1, c2));
    RunAppend(h, c1, [c2] + [CmdConfirmActivation, CmdRecordSchedule(Some(0))]);
    RunAppend(h1, c2, [CmdConfirmActivation, CmdRecordSchedule(Some(0))]);
    assert [c1] + ([c2] + [CmdConfirmActivation, CmdRecordSchedule(Some(0))]) == StaleHandoffRun(s);
  }

  lemma HandoffStep(h: Home)
    requires Good(h) && h.disk.Some? && h.disk.value.phase == PilotPassed && GrantIsValid(h.disk.value, Activation)
    requires h.contractFile == h.disk.value.contract
    ensures var s := h.disk.value;
            s.contract.Some? && s.pilot.Some? && s.profile.Some?
    ensures var s := h.disk.value;
            var h' := Step(h, CmdScheduleHandoff(s.contract.value.settings, true, 0));
            && Good(h') && h'.disk.Some? && h'.disk.value.phase == PilotPassed
            && h'.disk.value.contract == s.contract && h'.disk.value.profile == s.profile && h'.disk.value.pilot == s.pilot
            && s.contract.value.profile == s.profile.value
            && h'.handoffFile == h'.disk.value.handoff && h'.handoffFile.Some?
            && h'.handoffFile.value.pilot == s.pilot.value && Some(h'.handoffFile.value.contract) == s.contract
  {
    hide HistoryOk, ConfirmDiscovery, RecordDiscovery, ProposeProfile, Simple, CheckDrift, Status, ConfirmGate, RecordSchedule, RecordPilot;
    PreparingDropsNothing(h.disk.value);
    StepKeepsGood(h, CmdScheduleHandoff(h.disk.value.contract.value.settings, true, 0));
  }

  lemma PilotAgainStep(h: Home, settings: nat, evidence: nat)
    requires Good(h) && h.disk.Some? && h.disk.value.phase == PilotPassed && h.handoffFile == h.disk.value.handoff
    requires h.disk.value.profile.Some? && h.disk.value.contract == Some(Contract(settings, h.disk.value.profile.value))
    ensures var h' := Step(h, CmdRecordPilot(settings, true, evidence));
            && Good(h') && h'.disk.Some? && h'.disk.value.phase == PilotPassed
            && h'.disk.value.contract == h.disk.value.contract
            && h'.disk.value.pilot == Some(Pilot(h.disk.value.contract.value, true, evidence))
            && h'.handoffFile == h'.disk.value.handoff == h.handoffFile
  {
    hide HistoryOk, ConfirmDiscovery, RecordDiscovery, ProposeProfile, Simple, CheckDrift, Status, ConfirmGate, RecordSchedule, ScheduleHandoff;
    PreparingDropsNothing(h.disk.value);
    StepKeepsGood(h, CmdRecordPilot(settings, true, evidence));
  }

  lemma HandoffRecorded(h: Home)
    requires Good(h) && h.disk.Some? && h.disk.value.phase == PilotPassed
    requires h.handoffFile.Some? && h.handoffFile == h.disk.value.handoff && Some(h.handoffFile.value.contract) == h.disk.value.contract
    ensures var h' := Run(h, [CmdConfirmActivation, CmdRecordSchedule(Some(0))]);
            && IsActive(h') && h'.disk.value.pilot == h.disk.value.pilot
            && h'.disk.value.schedule.Some? && h'.disk.value.schedule.value.handoff == h.handoffFile.value
  {
    hide Good, Step;
    ConfirmStep(h);
    var h1 := Step(h, CmdConfirmActivation);
    StepKeepsGood(h, CmdConfirmActivation);
    RecordStep(h1);
    RunAppend(h, CmdConfirmActivation, [CmdRecordSchedule(Some(0))]);
    RunAppend(h1, CmdRecordSchedule(Some(0)), []);
    assert [CmdConfirmActivation] + [CmdRecordSchedule(Some(0))] == [CmdConfirmActivation, CmdRecordSchedule(Some(0))];
    assert [CmdRecordSchedule(Some(0))] + [] == [CmdRecordSchedule(Some(0))];
  }

  lemma ConfirmStep(h: Home)
    requires Good(h) && h.disk.Some? && h.disk.value.phase == PilotPassed
    ensures var h' := Step(h, CmdConfirmActivation);
            && h'.disk.Some? && h'.disk.value.phase == PilotPassed && GrantIsValid(h'.disk.value, Activation)
            && h'.handoffFile == h.handoffFile && h'.disk.value.handoff == h.disk.value.handoff
            && h'.disk.value.contract == h.disk.value.contract && h'.disk.value.pilot == h.disk.value.pilot
  {
    hide HistoryOk, ConfirmDiscovery, RecordDiscovery, ProposeProfile, Simple, CheckDrift, Status, RecordPilot, RecordSchedule, ScheduleHandoff;
    PreparingDropsNothing(h.disk.value);
  }

  lemma RecordStep(h: Home)
    requires Good(h) && h.disk.Some? && h.disk.value.phase == PilotPassed && GrantIsValid(h.disk.value, Activation)
    requires h.handoffFile.Some? && h.handoffFile == h.disk.value.handoff && Some(h.handoffFile.value.contract) == h.disk.value.contract
    ensures var h' := Step(h, CmdRecordSchedule(Some(0)));
            && IsActive(h') && h'.disk.value.pilot == h.disk.value.pilot
            && h'.disk.value.schedule.Some? && h'.disk.value.schedule.value.handoff == h.handoffFile.value
  {
    hide HistoryOk, ConfirmDiscovery, RecordDiscovery, ProposeProfile, Simple, CheckDrift, Status, RecordPilot, ConfirmGate, ScheduleHandoff;
    PreparingDropsNothing(h.disk.value);
  }

  /** A pilot run again keeps the activation confirmed exactly when it ran the same settings on
      the same evidence: its receipt is then the very one that was confirmed. */
  lemma RerunPilot(s: State, settings: nat, evidence: nat)
    requires FactsOk(s) && s.phase == PilotPassed && s.activationGate.Some?
    ensures RecordPilot(s, settings, true, evidence).Some?
    ensures RecordPilot(s, settings, true, evidence).value.activationGate.Some?
            <==> settings == s.contract.value.settings && evidence == s.pilot.value.evidence
  {
    PreparingDropsNothing(s);
  }

  /** A drift check never touches the recorded task: a state that asks for reconfirmation
      says `enabled` exactly when the task was enabled before the drift was flagged. */
  lemma DriftLeavesTheTask(s: State, settings: nat, observed: Option<nat>)
    requires FactsOk(s) && HistoryOk(s) && CheckDrift(s, settings, observed).Some?
    ensures var s' := CheckDrift(s, settings, observed).value;
            && s'.phase == NeedsReconfirmation && s'.activationGate.None? && s'.schedule == s.schedule
            && (s.phase == Active ==> s'.schedule.Some? && s'.schedule.value.enabled)
            && (s.phase == Paused ==> s'.schedule.Some? && !s'.schedule.value.enabled)
  {
    DriftIsFlagged(s, settings, observed);
  }

  /** A refused command leaves the stored state and the handoff alone, yet it can overwrite the
      artifacts of a pilot or of a discovery: each changes exactly when the command passes its
      confirmation check, the phase takes no such result, and the file said something else. */
  lemma RefusedCommands(h: Home, c: Command)
    requires Good(h) && h.disk.Some? && Outcome(h, c).None?
    ensures var s, h' := h.disk.value, Step(h, c);
            && h'.disk == h.disk && h'.handoffFile == h.handoffFile
            && (h'.reportFile != h.reportFile <==>
                  && c.CmdRecordDiscovery? && s.scope == Some(c.scope) && GrantIsValid(s, Discovery)
                  && s.phase != ReadyForDiscovery && h.reportFile != Some(Report(c.scope, c.evidence)))
            && (h'.contractFile != h.contractFile <==>
                  PilotIsRefused(s, c) && h.contractFile != Some(Contract(c.settings, s.profile.value)))
            && (h'.renderedFile != h.renderedFile <==>
                  PilotIsRefused(s, c) && h.renderedFile != Some(Contract(c.settings, s.profile.value)))
            && (h'.receiptFile != h.receiptFile <==>
                  PilotIsRefused(s, c) && h.receiptFile != Some(Pilot(Contract(c.settings, s.profile.value), c.passed, c.evidence)))
  {
    hide HistoryOk, ConfirmDiscovery, ProposeProfile, Simple, CheckDrift, Status, ConfirmGate, RecordSchedule, ScheduleHandoff;
    PreparingDropsNothing(h.disk.value);
  }

  /** A pilot with a confirmed profile in a phase that takes no pilot result. */
  predicate PilotIsRefused(s: State, c: Command) {
    c.CmdRecordPilot? && GrantIsValid(s, Profile) && Target(s.phase, if c.passed then PilotPass else PilotFail).None?
  }

  // ---------------------------------------------------------------------
  // What each phase allows
  // ---------------------------------------------------------------------

  predicate TakesPilots(p: Phase) { p == ProfileConfirmed || p == PilotPassed || p == Degraded || p == NeedsReconfirmation }

  /** When a command is carried out in a reachable state.  Most of its checks collapse to the
      phase, because the phase already implies the confirmations. */
  predicate Carried(h: Home, s: State, c: Command) {
    match c
    case CmdInit => false
    case CmdStatus => false
    case CmdConfirmDiscovery(_) => s.phase == Installed
    case CmdRecordDiscovery(scope, _) => s.phase == ReadyForDiscovery && s.scope == Some(scope)
    case CmdProposeProfile(_) => (s.phase == ReadyForDiscovery && s.report.Some?) || s.phase == ProfileProposed || s.phase == NeedsReconfirmation
    case CmdConfirmProfile => s.phase == ProfileProposed
    case CmdRecordPilot(_, _, _) => TakesPilots(s.phase)
    case CmdConfirmActivation => s.phase == PilotPassed
    case CmdScheduleHandoff(settings, schedulable, _) =>
      && s.phase == PilotPassed && s.activationGate.Some? && schedulable && h.contractFile == s.contract
      && s.contract == Some(Contract(settings, if s.profile.Some? then s.profile.value else 0))
    case CmdRecordSchedule(task) =>
      && s.phase == PilotPassed && s.activationGate.Some? && task.Some?
      && h.handoffFile.Some? && h.handoffFile == s.handoff && Some(h.handoffFile.value.contract) == s.contract
    case CmdPause => s.phase == Active
    case CmdResume => s.phase == Paused
    case CmdCheckDrift(settings, observed) =>
      && (s.phase == ProfileConfirmed || s.phase == PilotPassed || s.phase == Active || s.phase == Paused)
      && (|| (s.contract.Some? && s.contract != Some(Contract(settings, if s.profile.Some? then s.profile.value else 0)))
          || (s.schedule.None? && observed.Some?)
          || (s.schedule.Some? && s.contract != Some(s.schedule.value.contract))
          || (s.schedule.Some? && observed.Some? && observed.value != s.schedule.value.task))
  }

  lemma WhenDriftIsChecked(h: Home, s: State, settings: nat, observed: Option<nat>)
    requires FactsOk(s)
    ensures CheckDrift(s, settings, observed).Some? <==> Carried(h, s, CmdCheckDrift(settings, observed))
  {
    PreparingDropsNothing(s);
  }

  lemma WhenPilotsAreTaken(h: Home, s: State, c: Command)
    requires FactsOk(s) && h.disk == Some(s) && (c.CmdRecordPilot? || c.CmdScheduleHandoff? || c.CmdRecordSchedule?)
    ensures Outcome(h, c).Some? <==> Carried(h, s, c)
  {
    hide CheckDrift, ConfirmDiscovery, RecordDiscovery, ProposeProfile, ConfirmGate, Simple, Status;
    PreparingDropsNothing(s);
  }

  /** In every reachable state a command is carried out exactly then. */
  lemma WhatEachPhaseAllows(h: Home, c: Command)
    requires Good(h) && h.disk.Some?
    ensures Outcome(h, c).Some? <==> Carried(h, h.disk.value, c)
  {
    hide HistoryOk, CheckDrift, RecordPilot, ScheduleHandoff, RecordSchedule;
    PreparingDropsNothing(h.disk.value);
    if c.CmdCheckDrift? { WhenDriftIsChecked(h, h.disk.value, c.settings, c.observed); }
    if c.CmdRecordPilot? || c.CmdScheduleHandoff? || c.CmdRecordSchedule? { WhenPilotsAreTaken(h, h.disk.value, c); }
  }
}
