/** What every run of the activation wizard keeps, and what it takes to become active. */
module ActivationSafety {
  import opened Wrappers
  import opened Activation

  // ---------------------------------------------------------------------
  // Facts that hold in each phase
  // ---------------------------------------------------------------------

  /** Every recorded confirmation still matches the facts. */
  predicate AllGatesValid(s: State) {
    && (s.discoveryGate.Some? ==> GrantIsValid(s, Discovery))
    && (s.profileGate.Some? ==> GrantIsValid(s, Profile))
    && (s.activationGate.Some? ==> GrantIsValid(s, Activation))
  }

  predicate Confirmed(s: State) { GrantIsValid(s, Discovery) && GrantIsValid(s, Profile) }

  /** A passing pilot of the current contract, for the confirmed profile. */
  predicate Piloted(s: State) {
    && Confirmed(s)
    && s.contract.Some? && s.pilot.Some? && s.pilot.value.passed
    && s.pilot.value.contract == s.contract.value
    && Some(s.contract.value.profile) == s.profile
  }

  /** The handoff on record asks for a contract that a passing pilot ran. */
  predicate HandoffOk(h: Handoff) {
    h.profile == h.contract.profile && h.pilot.contract == h.contract && h.pilot.passed
  }

  /** The recorded task runs the current contract, and is enabled as asked. */
  predicate Scheduled(s: State, enabled: bool) {
    && s.schedule.Some? && Some(s.schedule.value.contract) == s.contract
    && s.schedule.value.handoff.contract == s.schedule.value.contract
    && HandoffOk(s.schedule.value.handoff)
    && s.schedule.value.enabled == enabled
  }

  predicate PhaseOk(s: State) {
    match s.phase
    case Installed => s.scope.None? && s.report.None? && s.profile.None? && s.contract.None? && s.schedule.None? && s.activationGate.None?
    case ReadyForDiscovery => GrantIsValid(s, Discovery) && s.profile.None? && s.contract.None? && s.schedule.None? && s.activationGate.None?
    case ProfileProposed => GrantIsValid(s, Discovery) && CurrentBinding(s, Profile).Some? && s.activationGate.None?
    case ProfileConfirmed => Confirmed(s) && s.activationGate.None?
    case PilotPassed => Piloted(s)
    case Active => Piloted(s) && GrantIsValid(s, Activation) && Scheduled(s, true)
    case Paused => Piloted(s) && GrantIsValid(s, Activation) && Scheduled(s, false)
    case Degraded => Confirmed(s) && s.activationGate.None?
    case NeedsReconfirmation => Confirmed(s) && s.activationGate.None?
  }

  predicate EntryOk(e: Entry) {
    || (e.event == Init && e.from == None && e.to == Installed)
    || (e.from.Some? && Target(e.from.value, e.event) == Some(e.to))
  }

  ghost predicate Walk(h: seq<Entry>) {
    && (forall i :: 0 <= i < |h| ==> EntryOk(h[i]))
    && (forall i, j :: 0 <= i < j < |h| ==> h[i].revision < h[j].revision)
    && (forall i :: 0 < i < |h| ==> h[i].from == Some(h[i - 1].to))
  }

  /** The history is a walk of the transition table that ends in the current state, with
      increasing revisions, and it is never empty nor too long. */
  ghost predicate HistoryOk(s: State) {
    && 1 <= |s.history| <= MAX_HISTORY
    && Walk(s.history)
    && s.history[|s.history| - 1].to == s.phase
    && s.history[|s.history| - 1].revision <= s.revision
  }

  predicate FactsOk(s: State) {
    AllGatesValid(s) && PhaseOk(s) && (s.handoff.Some? ==> HandoffOk(s.handoff.value)) && (s.report.Some? ==> Some(s.report.value.scope) == s.scope)
  }

  ghost predicate Good(h: Home) {
    && (h.disk.Some? ==> FactsOk(h.disk.value) && HistoryOk(h.disk.value))
    && (h.handoffFile.Some? ==> HandoffOk(h.handoffFile.value))
  }

  /** In a good state preparing a command drops no confirmation. */
  lemma PreparingDropsNothing(s: State)
    requires AllGatesValid(s)
    ensures Invalidate(s) == s
  {
  }

  lemma WalkGrows(h: seq<Entry>, e: Entry)
    requires Walk(h) && |h| > 0 && EntryOk(e)
    requires e.from == Some(h[|h| - 1].to) && h[|h| - 1].revision < e.revision
    ensures Walk(h + [e])
  {
  }

  lemma WalkSuffix(h: seq<Entry>, n: nat)
    requires Walk(h) && n <= |h|
    ensures Walk(h[n..])
  {
    var t := h[n..];
    assert forall i :: 0 <= i < |t| ==> t[i] == h[n + i];
  }

  lemma TruncatedWalk(h: seq<Entry>)
    requires Walk(h) && |h| > 0
    ensures Walk(Truncated(h)) && 1 <= |Truncated(h)| <= MAX_HISTORY
    ensures Truncated(h)[|Truncated(h)| - 1] == h[|h| - 1]
  {
    if |h| > MAX_HISTORY { WalkSuffix(h, |h| - MAX_HISTORY); }
  }

  lemma RecordKeepsHistory(s: State, s1: State, e: Event, input: Option<Digest>, to: Phase)
    requires HistoryOk(s) && s1.phase == s.phase && s1.history == s.history && s1.revision == s.revision
    requires Target(s.phase, e) == Some(to)
    ensures HistoryOk(Record(s1, to, e, input))
    ensures Last(Record(s1, to, e, input)) == Entry(Some(s.phase), to, e, input, s.revision + 1)
  {
    hide Walk, Truncated;
    var entry := Entry(Some(s.phase), to, e, input, s.revision + 1);
    WalkGrows(s.history, entry);
    TruncatedWalk(s.history + [entry]);
  }

  function Last(s: State): Entry
    requires s.history != []
  {
    s.history[|s.history| - 1]
  }

  /** What a command may commit from a good state. */
  ghost predicate GoodCommit(s: State, s': State) {
    FactsOk(s') && HistoryOk(s') && s'.revision == s.revision + 1
  }

  lemma Committed(s: State, s1: State, e: Event, input: Option<Digest>)
    requires HistoryOk(s) && s1.phase == s.phase && s1.history == s.history && s1.revision == s.revision
    requires Moved(s1, e, input).Some? ==> FactsOk(Moved(s1, e, input).value)
    ensures Moved(s1, e, input).Some? ==> GoodCommit(s, Moved(s1, e, input).value)
  {
    if Target(s.phase, e).Some? {
      RecordKeepsHistory(s, s1, e, input, Target(s.phase, e).value);
    }
  }

  // ---------------------------------------------------------------------
  // One lemma per command
  // ---------------------------------------------------------------------

  ghost predicate GoodOption(s: State, o: Option<State>) { o.Some? ==> GoodCommit(s, o.value) }

  lemma ConfirmDiscoveryGood(s: State, scope: nat)
    requires FactsOk(s) && HistoryOk(s)
    ensures GoodOption(s, ConfirmDiscovery(s, scope))
  {
    hide HistoryOk;
    PreparingDropsNothing(s);
    var s1 := Invalidate(s.(scope := Some(scope))).(discoveryGate := Some(DiscoveryBinding(scope)));
    Committed(s, s1, DiscoveryConfirmed, Some(DiscoveryBinding(scope)));
  }

  lemma RecordDiscoveryGood(s: State, scope: nat, evidence: nat)
    requires FactsOk(s) && HistoryOk(s)
    ensures GoodOption(s, RecordDiscovery(s, scope, evidence))
  {
    hide HistoryOk;
    PreparingDropsNothing(s);
    if GrantIsValid(s, Discovery) && s.scope == Some(scope) {
      var report := Report(scope, evidence);
      Committed(s, Invalidate(s.(report := Some(report))), DiscoveryRecorded, Some(OfReport(report)));
    }
  }

  lemma ProposeProfileGood(s: State, profile: nat)
    requires FactsOk(s) && HistoryOk(s)
    ensures GoodOption(s, ProposeProfile(s, profile))
  {
    hide HistoryOk;
    PreparingDropsNothing(s);
    if s.report.Some? {
      Committed(s, Invalidate(s.(profile := Some(profile))), ProfileOffered, Some(OfProfile(profile)));
    }
  }

  lemma ConfirmGateGood(s: State, g: Gate, e: Event)
    requires FactsOk(s) && HistoryOk(s)
    requires (g == Profile && e == ProfileAccepted) || (g == Activation && e == ActivationConfirmed)
    ensures GoodOption(s, ConfirmGate(s, g, e))
  {
    hide HistoryOk;
    PreparingDropsNothing(s);
    var binding := CurrentBinding(s, g);
    if binding.Some? {
      Committed(s, SetGate(s, g, binding), e, binding);
    }
  }

  lemma RecordPilotGood(s: State, settings: nat, passed: bool, evidence: nat)
    requires FactsOk(s) && HistoryOk(s)
    ensures GoodOption(s, RecordPilot(s, settings, passed, evidence))
  {
    hide HistoryOk;
    PreparingDropsNothing(s);
    if GrantIsValid(s, Profile) {
      var contract := Contract(settings, s.profile.value);
      var pilot := Pilot(contract, passed, evidence);
      var s1 := Invalidate(s.(contract := Some(contract), pilot := Some(pilot))).(reason := if passed then None else Some(PilotFailed));
      Committed(s, s1, if passed then PilotPass else PilotFail, Some(OfPilot(pilot)));
    }
  }

  lemma ScheduleHandoffGood(s: State, file: Option<Contract>, settings: nat, schedulable: bool, locator: nat)
    requires FactsOk(s) && HistoryOk(s)
    ensures GoodOption(s, ScheduleHandoff(s, file, settings, schedulable, locator))
  {
    PreparingDropsNothing(s);
  }

  lemma RecordScheduleGood(s: State, file: Option<Handoff>, task: Option<nat>)
    requires FactsOk(s) && HistoryOk(s)
    ensures GoodOption(s, RecordSchedule(s, file, task))
  {
    hide HistoryOk;
    PreparingDropsNothing(s);
    if RecordSchedule(s, file, task).Some? {
      var schedule := Schedule(task.value, s.contract.value, s.handoff.value, true);
      Committed(s, s.(schedule := Some(schedule)), ScheduleRecorded, Some(OfHandoff(s.handoff.value)));
    }
  }

  lemma SimpleGood(s: State, e: Event)
    requires FactsOk(s) && HistoryOk(s) && (e == Pausing || e == Resuming)
    ensures GoodOption(s, Simple(s, e))
  {
    hide HistoryOk;
    PreparingDropsNothing(s);
    Committed(s, s.(schedule := if s.schedule.Some? then Some(s.schedule.value.(enabled := e != Pausing)) else None), e, None);
  }

  lemma CheckDriftGood(s: State, settings: nat, observed: Option<nat>)
    requires FactsOk(s) && HistoryOk(s)
    ensures GoodOption(s, CheckDrift(s, settings, observed))
  {
    hide HistoryOk;
    PreparingDropsNothing(s);
    if s.profile.Some? {
      var current := Contract(settings, s.profile.value);
      var drifted := s.contract.Some? && s.contract.value != current;
      Committed(s, s.(activationGate := None, reason := Some(if drifted then ContractDrift else ScheduleIdUnknown)), DriftFlagged, Some(OfContract(current)));
    }
  }

  lemma OutcomeGood(h: Home, c: Command)
    requires Good(h) && h.disk.Some?
    ensures GoodOption(h.disk.value, Outcome(h, c))
  {
    hide FactsOk, HistoryOk, GoodCommit, ConfirmDiscovery, RecordDiscovery, ProposeProfile, ConfirmGate, RecordPilot, ScheduleHandoff, RecordSchedule, Simple, CheckDrift;
    var s := h.disk.value;
    match c {
      case CmdInit =>
      case CmdStatus => StatusWritesNothing(s);
      case CmdConfirmDiscovery(scope) => ConfirmDiscoveryGood(s, scope);
      case CmdRecordDiscovery(scope, evidence) => RecordDiscoveryGood(s, scope, evidence);
      case CmdProposeProfile(profile) => ProposeProfileGood(s, profile);
      case CmdConfirmProfile => ConfirmGateGood(s, Profile, ProfileAccepted);
      case CmdRecordPilot(settings, passed, evidence) => RecordPilotGood(s, settings, passed, evidence);
      case CmdConfirmActivation => ConfirmGateGood(s, Activation, ActivationConfirmed);
      case CmdScheduleHandoff(settings, schedulable, locator) => ScheduleHandoffGood(s, h.contractFile, settings, schedulable, locator);
      case CmdRecordSchedule(task) => RecordScheduleGood(s, h.handoffFile, task);
      case CmdPause => SimpleGood(s, Pausing);
      case CmdResume => SimpleGood(s, Resuming);
      case CmdCheckDrift(settings, observed) => CheckDriftGood(s, settings, observed);
    }
  }

  /** `status` never writes: there is never a stale confirmation for it to drop. */
  lemma StatusWritesNothing(s: State)
    requires FactsOk(s)
    ensures Status(s) == None
  {
    PreparingDropsNothing(s);
  }

  lemma HandoffFileGood(h: Home, c: Command)
    requires Good(h)
    ensures var h' := ArtifactsAfter(h, c); h'.disk == h.disk && (h'.handoffFile.Some? ==> HandoffOk(h'.handoffFile.value))
  {
    if c.CmdScheduleHandoff? && h.disk.Some? { PreparingDropsNothing(h.disk.value); }
  }

  lemma StepKeepsGood(h: Home, c: Command)
    requires Good(h)
    ensures Good(Step(h, c))
  {
    hide FactsOk, HistoryOk, Outcome, ArtifactsAfter;
    HandoffFileGood(h, c);
    if h.disk.Some? { OutcomeGood(h, c); } else { FirstCommand(h, c); }
  }

  lemma FirstCommand(h: Home, c: Command)
    requires h.disk.None?
    ensures Outcome(h, c).Some? ==> c.CmdInit? && Outcome(h, c).value == DefaultState()
    ensures FactsOk(DefaultState()) && HistoryOk(DefaultState())
  {
    assert EntryOk(DefaultState().history[0]);
  }

  /** Main invariant: it holds after every run of commands, from nothing. */
  lemma {:induction false} RunKeepsGood(h: Home, commands: seq<Command>)
    requires Good(h)
    ensures Good(Run(h, commands))
    decreases |commands|
  {
    if commands != [] {
      StepKeepsGood(h, commands[0]);
      RunKeepsGood(Step(h, commands[0]), commands[1..]);
    }
  }

  // ---------------------------------------------------------------------
  // What a reader of the state file may conclude
  // ---------------------------------------------------------------------

  /** Of every state that any run commits: each confirmation matches the current facts; an
      activation confirmation exists only in three phases; and an active or paused wizard has
      one, with a passing pilot and a task of exactly the current contract, enabled exactly
      when it is active. */
  lemma CommittedStates(commands: seq<Command>)
    ensures match Run(NO_HOME, commands).disk
            case None => true
            case Some(s) =>
              && AllGatesValid(s)
              && (s.activationGate.Some? ==> s.phase == PilotPassed || s.phase == Active || s.phase == Paused)
              && (s.phase == Active || s.phase == Paused ==>
                    && s.activationGate == CurrentBinding(s, Activation) && s.activationGate.Some?
                    && s.pilot.value.passed && s.pilot.value.contract == s.contract.value
                    && s.schedule.Some? && s.schedule.value.contract == s.contract.value
                    && (s.schedule.value.enabled <==> s.phase == Active))
  {
    RunKeepsGood(NO_HOME, commands);
  }

  /** Every committed history is a walk of the transition table that ends in the current
      state, across truncation; the event that records a silently lost confirmation never
      occurs in it. */
  lemma CommittedHistories(commands: seq<Command>, i: nat)
    ensures match Run(NO_HOME, commands).disk
            case None => true
            case Some(s) =>
              && 1 <= |s.history| <= MAX_HISTORY && s.history[|s.history| - 1].to == s.phase
              && (i < |s.history| ==> s.history[i].event != ActivationRevoked)
              && (0 < i < |s.history| ==>
                    s.history[i].from == Some(s.history[i - 1].to)
                    && Target(s.history[i - 1].to, s.history[i].event) == Some(s.history[i].to)
                    && s.history[i - 1].revision < s.history[i].revision <= s.revision)
  {
    RunKeepsGood(NO_HOME, commands);
    match Run(NO_HOME, commands).disk {
      case None =>
      case Some(s) => if i < |s.history| { assert EntryOk(s.history[i]); }
    }
  }

  /** Every commit raises the revision by exactly one. */
  lemma CommitsAreNumbered(h: Home, c: Command)
    requires Good(h) && h.disk.Some?
    ensures Step(h, c).disk == h.disk || (Step(h, c).disk.Some? && Step(h, c).disk.value.revision == h.disk.value.revision + 1)
  {
    hide FactsOk, HistoryOk, Outcome;
    OutcomeGood(h, c);
  }
}
