/** The activation wizard (scripts/activation_state.py and scripts/activation_wizard.py).

    SHA-256 over canonical JSON is taken as injective, so a digest is represented by the
    document it digests.  Confirmation ids and timestamps are left out. */
module Activation {
  import opened Wrappers

  datatype Phase =
    | Installed | ReadyForDiscovery | ProfileProposed | ProfileConfirmed | PilotPassed
    | Active | Paused | Degraded | NeedsReconfirmation

  datatype Event =
    | Init | DiscoveryConfirmed | DiscoveryRecorded | ProfileOffered | ProfileAccepted
    | PilotPass | PilotFail | ActivationConfirmed | ScheduleRecorded
    | Pausing | Resuming | DriftFlagged | ActivationRevoked

  /** The transition table; a missing pair is refused. */
  function Target(p: Phase, e: Event): Option<Phase> {
    match (p, e)
    case (Installed, DiscoveryConfirmed) => Some(ReadyForDiscovery)
    case (ReadyForDiscovery, DiscoveryRecorded) => Some(ReadyForDiscovery)
    case (ReadyForDiscovery, ProfileOffered) => Some(ProfileProposed)
    case (ProfileProposed, ProfileOffered) => Some(ProfileProposed)
    case (ProfileProposed, ProfileAccepted) => Some(ProfileConfirmed)
    case (ProfileConfirmed, PilotPass) => Some(PilotPassed)
    case (ProfileConfirmed, PilotFail) => Some(Degraded)
    case (ProfileConfirmed, DriftFlagged) => Some(NeedsReconfirmation)
    case (PilotPassed, ActivationConfirmed) => Some(PilotPassed)
    case (PilotPassed, PilotPass) => Some(PilotPassed)
    case (PilotPassed, ScheduleRecorded) => Some(Active)
    case (PilotPassed, PilotFail) => Some(Degraded)
    case (PilotPassed, DriftFlagged) => Some(NeedsReconfirmation)
    case (Active, Pausing) => Some(Paused)
    case (Active, DriftFlagged) => Some(NeedsReconfirmation)
    case (Paused, Resuming) => Some(Active)
    case (Paused, DriftFlagged) => Some(NeedsReconfirmation)
    case (Degraded, PilotPass) => Some(PilotPassed)
    case (Degraded, PilotFail) => Some(Degraded)
    case (NeedsReconfirmation, ProfileOffered) => Some(ProfileProposed)
    case (NeedsReconfirmation, PilotPass) => Some(PilotPassed)
    case (NeedsReconfirmation, PilotFail) => Some(Degraded)
    case _ => None
  }

  // ---------------------------------------------------------------------
  // The facts that confirmations bind
  // ---------------------------------------------------------------------

  datatype Report = Report(scope: nat, evidence: nat)

  /** What a configuration and its environment resolve to, together with the profile. */
  datatype Contract = Contract(settings: nat, profile: nat)

  datatype Pilot = Pilot(contract: Contract, passed: bool, evidence: nat)

  datatype Handoff = Handoff(contract: Contract, profile: nat, pilot: Pilot, locator: nat)

  /** A digest: of a gate's binding, or of the receipt that an event was given. */
  datatype Digest =
    | DiscoveryBinding(scope: nat)
    | ProfileBinding(report: Report, profile: nat)
    | ActivationBinding(contract: Contract, profile: nat, pilot: Pilot)
    | OfReport(report: Report)
    | OfProfile(profile: nat)
    | OfPilot(pilot: Pilot)
    | OfHandoff(handoff: Handoff)
    | OfContract(contract: Contract)

  datatype Schedule = Schedule(task: nat, contract: Contract, handoff: Handoff, enabled: bool)

  datatype DegradedReason = PilotFailed | ContractDrift | ScheduleIdUnknown

  datatype Entry = Entry(from: Option<Phase>, to: Phase, event: Event, input: Option<Digest>, revision: nat)

  datatype Gate = Discovery | Profile | Activation

  datatype State = State(
    phase: Phase,
    revision: nat,
    scope: Option<nat>,
    report: Option<Report>,
    profile: Option<nat>,
    contract: Option<Contract>,
    pilot: Option<Pilot>,
    handoff: Option<Handoff>,
    reason: Option<DegradedReason>,
    discoveryGate: Option<Digest>,
    profileGate: Option<Digest>,
    activationGate: Option<Digest>,
    schedule: Option<Schedule>,
    history: seq<Entry>)

  const MAX_HISTORY: nat := 512

  function DefaultState(): State {
    State(Installed, 1, None, None, None, None, None, None, None, None, None, None, None,
          [Entry(None, Installed, Init, None, 1)])
  }

  function CurrentBinding(s: State, g: Gate): Option<Digest> {
    match g
    case Discovery => if s.scope.Some? then Some(DiscoveryBinding(s.scope.value)) else None
    case Profile => if s.report.Some? && s.profile.Some? then Some(ProfileBinding(s.report.value, s.profile.value)) else None
    case Activation =>
      if s.contract.Some? && s.profile.Some? && s.pilot.Some?
      then Some(ActivationBinding(s.contract.value, s.profile.value, s.pilot.value)) else None
  }

  function Confirmation(s: State, g: Gate): Option<Digest> {
    match g
    case Discovery => s.discoveryGate
    case Profile => s.profileGate
    case Activation => s.activationGate
  }

  predicate GrantIsValid(s: State, g: Gate) {
    Confirmation(s, g).Some? && Confirmation(s, g) == CurrentBinding(s, g)
  }

  function Kept(s: State, g: Gate): Option<Digest> { if GrantIsValid(s, g) then Confirmation(s, g) else None }

  /** Drops every confirmation that no longer matches the facts. */
  function Invalidate(s: State): State {
    s.(discoveryGate := Kept(s, Discovery), profileGate := Kept(s, Profile), activationGate := Kept(s, Activation))
  }

  function SetGate(s: State, g: Gate, d: Option<Digest>): State {
    match g
    case Discovery => s.(discoveryGate := d)
    case Profile => s.(profileGate := d)
    case Activation => s.(activationGate := d)
  }

  // ---------------------------------------------------------------------
  // Recording
  // ---------------------------------------------------------------------

  function Truncated(h: seq<Entry>): seq<Entry> {
    if |h| > MAX_HISTORY then h[|h| - MAX_HISTORY..] else h
  }

  function Record(s: State, to: Phase, e: Event, input: Option<Digest>): State {
    s.(phase := to, revision := s.revision + 1,
       history := Truncated(s.history + [Entry(Some(s.phase), to, e, input, s.revision + 1)]))
  }

  function Moved(s: State, e: Event, input: Option<Digest>): Option<State> {
    match Target(s.phase, e) case None => None case Some(p) => Some(Record(s, p, e, input))
  }

  /** The self-loop that records a confirmation lost without a transition. */
  function Revoked(s: State, input: Option<Digest>): State { Record(s, s.phase, ActivationRevoked, input) }

  function Unrecorded(s: State): State { s.(revision := s.revision + 1) }

  /** What is stored when confirmations were lost and there is no transition to write. */
  function AfterGateLoss(s: State, activationLost: bool, input: Option<Digest>): State {
    if activationLost then Revoked(s, input) else Unrecorded(s)
  }

  // ---------------------------------------------------------------------
  // Commands
  // ---------------------------------------------------------------------

  datatype Command =
    | CmdInit
    | CmdStatus
    | CmdConfirmDiscovery(scope: nat)
    | CmdRecordDiscovery(scope: nat, evidence: nat)
    | CmdProposeProfile(profile: nat)
    | CmdConfirmProfile
    | CmdRecordPilot(settings: nat, passed: bool, evidence: nat)
    | CmdConfirmActivation
    | CmdScheduleHandoff(settings: nat, schedulable: bool, locator: nat)
    | CmdRecordSchedule(task: Option<nat>)
    | CmdPause
    | CmdResume
    | CmdCheckDrift(settings: nat, observed: Option<nat>)

  /** The state directory: the state file and the artifacts.  Commands read back the contract
      and the handoff; the report, the pilot's receipt and the contract's rendering are for the
      reader. */
  datatype Home = Home(
    disk: Option<State>,
    contractFile: Option<Contract>,
    handoffFile: Option<Handoff>,
    reportFile: Option<Report>,
    renderedFile: Option<Contract>,
    receiptFile: Option<Pilot>)

  function Commit(h: Home, s: Option<State>): Home { if s.Some? then h.(disk := s) else h }

  function OfContractOpt(c: Option<Contract>): Option<Digest> { if c.Some? then Some(OfContract(c.value)) else None }

  function Status(s: State): Option<State> {
    var s1 := Invalidate(s);
    if s1 == s then None else Some(AfterGateLoss(s1, s1.activationGate != s.activationGate, OfContractOpt(s1.contract)))
  }

  function ConfirmDiscovery(s: State, scope: nat): Option<State> {
    var s1 := Invalidate(Invalidate(s).(scope := Some(scope)));
    Moved(s1.(discoveryGate := Some(DiscoveryBinding(scope))), DiscoveryConfirmed, Some(DiscoveryBinding(scope)))
  }

  function RecordDiscovery(s: State, scope: nat, evidence: nat): Option<State> {
    var s1 := Invalidate(s);
    if !GrantIsValid(s1, Discovery) || s1.scope != Some(scope) then None else
    var report := Report(scope, evidence);
    Moved(Invalidate(s1.(report := Some(report))), DiscoveryRecorded, Some(OfReport(report)))
  }

  function ProposeProfile(s: State, profile: nat): Option<State> {
    var s1 := Invalidate(s);
    if s1.report.None? then None else
    Moved(Invalidate(s1.(profile := Some(profile))), ProfileOffered, Some(OfProfile(profile)))
  }

  /** Confirms a gate: the binding is computed from the facts, never supplied. */
  function ConfirmGate(s: State, g: Gate, e: Event): Option<State> {
    var s1 := Invalidate(s);
    var binding := CurrentBinding(s1, g);
    if binding.None? then None else Moved(SetGate(s1, g, binding), e, binding)
  }

  function RecordPilot(s: State, settings: nat, passed: bool, evidence: nat): Option<State> {
    var s1 := Invalidate(s);
    if !GrantIsValid(s1, Profile) then None else
    var contract := Contract(settings, s1.profile.value);
    var pilot := Pilot(contract, passed, evidence);
    var s2 := Invalidate(s1.(contract := Some(contract), pilot := Some(pilot)));
    Moved(s2.(reason := if passed then None else Some(PilotFailed)), if passed then PilotPass else PilotFail, Some(OfPilot(pilot)))
  }

  function ScheduleHandoff(s: State, contractFile: Option<Contract>, settings: nat, schedulable: bool, locator: nat): Option<State> {
    var s1 := Invalidate(s);
    if !GrantIsValid(s1, Activation) || s1.phase != PilotPassed then None
    else if contractFile != s1.contract || Contract(settings, s1.profile.value) != s1.contract.value then None
    else if !schedulable then None
    else Some(Unrecorded(s1.(handoff := Some(Handoff(s1.contract.value, s1.profile.value, s1.pilot.value, locator)))))
  }

  function RecordSchedule(s: State, handoffFile: Option<Handoff>, task: Option<nat>): Option<State> {
    var s1 := Invalidate(s);
    if !GrantIsValid(s1, Activation) || handoffFile.None? || handoffFile != s1.handoff then None
    else if handoffFile.value.contract != s1.contract.value || task.None? then None
    else
      var schedule := Schedule(task.value, s1.contract.value, s1.handoff.value, true);
      Moved(s1.(schedule := Some(schedule)), ScheduleRecorded, Some(OfHandoff(s1.handoff.value)))
  }

  function Simple(s: State, e: Event): Option<State> {
    var s1 := Invalidate(s);
    if e == Resuming && !GrantIsValid(s1, Activation) then None else
    Moved(s1.(schedule := if s1.schedule.Some? then Some(s1.schedule.value.(enabled := e != Pausing)) else None), e, None)
  }

  predicate ScheduleDrifted(s: State, observed: Option<nat>) {
    if s.schedule.None? then observed.Some?
    else Some(s.schedule.value.contract) != s.contract || (observed.Some? && observed.value != s.schedule.value.task)
  }

  function CheckDrift(s: State, settings: nat, observed: Option<nat>): Option<State> {
    var s1 := Invalidate(s);
    if s1.profile.None? then None else
    var current := Contract(settings, s1.profile.value);
    var contractDrifted := s1.contract.Some? && s1.contract.value != current;
    if contractDrifted || ScheduleDrifted(s1, observed) then
      var s2 := s1.(activationGate := None);
      if Target(s.phase, DriftFlagged).Some? then
        Moved(s2.(reason := Some(if contractDrifted then ContractDrift else ScheduleIdUnknown)), DriftFlagged, Some(OfContract(current)))
      else if s2 != s then Some(AfterGateLoss(s2, s.activationGate.Some?, Some(OfContract(current))))
      else None
    else if s1 != s then Some(AfterGateLoss(s1, s1.activationGate != s.activationGate, OfContractOpt(s1.contract)))
    else None
  }

  /** What a command commits; `None` when it is refused or has nothing to store. */
  function Outcome(h: Home, c: Command): Option<State> {
    match h.disk
    case None => if c.CmdInit? then Some(DefaultState()) else None
    case Some(s) =>
      match c
      case CmdInit => None
      case CmdStatus => Status(s)
      case CmdConfirmDiscovery(scope) => ConfirmDiscovery(s, scope)
      case CmdRecordDiscovery(scope, evidence) => RecordDiscovery(s, scope, evidence)
      case CmdProposeProfile(profile) => ProposeProfile(s, profile)
      case CmdConfirmProfile => ConfirmGate(s, Profile, ProfileAccepted)
      case CmdRecordPilot(settings, passed, evidence) => RecordPilot(s, settings, passed, evidence)
      case CmdConfirmActivation => ConfirmGate(s, Activation, ActivationConfirmed)
      case CmdScheduleHandoff(settings, schedulable, locator) => ScheduleHandoff(s, h.contractFile, settings, schedulable, locator)
      case CmdRecordSchedule(task) => RecordSchedule(s, h.handoffFile, task)
      case CmdPause => Simple(s, Pausing)
      case CmdResume => Simple(s, Resuming)
      case CmdCheckDrift(settings, observed) => CheckDrift(s, settings, observed)
  }

  /** A pilot writes its contract, the rendering and its receipt before it asks whether the
      transition is legal; so does a discovery with its report. */
  predicate WritesPilot(h: Home, c: Command) {
    c.CmdRecordPilot? && h.disk.Some? && GrantIsValid(Invalidate(h.disk.value), Profile)
  }

  predicate WritesReport(h: Home, c: Command) {
    c.CmdRecordDiscovery? && h.disk.Some?
    && GrantIsValid(Invalidate(h.disk.value), Discovery) && h.disk.value.scope == Some(c.scope)
  }

  function ArtifactsAfter(h: Home, c: Command): Home {
    if WritesPilot(h, c) then
      var contract := Contract(c.settings, h.disk.value.profile.value);
      h.(contractFile := Some(contract), renderedFile := Some(contract), receiptFile := Some(Pilot(contract, c.passed, c.evidence)))
    else if WritesReport(h, c) then h.(reportFile := Some(Report(c.scope, c.evidence)))
    else if c.CmdScheduleHandoff? && Outcome(h, c).Some? then h.(handoffFile := Outcome(h, c).value.handoff)
    else h
  }

  function Step(h: Home, c: Command): Home { Commit(ArtifactsAfter(h, c), Outcome(h, c)) }

  function Run(h: Home, commands: seq<Command>): Home
    decreases |commands|
  {
    if commands == [] then h else Run(Step(h, commands[0]), commands[1..])
  }

  const NO_HOME: Home := Home(None, None, None, None, None, None)

  // ---------------------------------------------------------------------
  // The wizard as it works: a document edited in place, then committed
  // ---------------------------------------------------------------------

  class Wizard {
    var doc: State
    var disk: Option<State>
    var contractFile: Option<Contract>
    var handoffFile: Option<Handoff>
    var reportFile: Option<Report>
    var renderedFile: Option<Contract>
    var receiptFile: Option<Pilot>

    function Contents(): Home
      reads this
    {
      Home(disk, contractFile, handoffFile, reportFile, renderedFile, receiptFile)
    }

    constructor ()
      ensures Contents() == NO_HOME
    {
      doc, disk := DefaultState(), None;
      contractFile, handoffFile, reportFile, renderedFile, receiptFile := None, None, None, None, None;
    }

    /** Drops the stale confirmations, gate by gate, and says which were dropped. */
    method InvalidateStale() returns (dropped: seq<Gate>)
      modifies this`doc
      ensures doc == Invalidate(old(doc))
      ensures forall g :: g in dropped <==> Confirmation(old(doc), g).Some? && Confirmation(doc, g).None?
    {
      dropped := [];
      var gates := [Discovery, Profile, Activation];
      var i := 0;
      while i < 3
        invariant 0 <= i <= 3
        invariant forall g :: CurrentBinding(doc, g) == CurrentBinding(old(doc), g)
        invariant doc == old(doc).(discoveryGate := if i > 0 then Kept(old(doc), Discovery) else old(doc).discoveryGate,
                                   profileGate := if i > 1 then Kept(old(doc), Profile) else old(doc).profileGate,
                                   activationGate := if i > 2 then Kept(old(doc), Activation) else old(doc).activationGate)
        invariant forall g :: g in dropped <==> Confirmation(old(doc), g).Some? && Confirmation(doc, g).None?
      {
        if Confirmation(doc, gates[i]).Some? && !GrantIsValid(doc, gates[i]) {
          doc := SetGate(doc, gates[i], None);
          dropped := dropped + [gates[i]];
        }
        i := i + 1;
      }
    }

    method ApplyTransition(e: Event, input: Option<Digest>) returns (ok: bool)
      modifies this`doc
      ensures ok <==> Target(old(doc).phase, e).Some?
      ensures if ok then Moved(old(doc), e, input) == Some(doc) else doc == old(doc)
    {
      var to := Target(doc.phase, e);
      if to.None? { return false; }
      Append(to.value, e, input);
      return true;
    }

    method Append(to: Phase, e: Event, input: Option<Digest>)
      modifies this`doc
      ensures doc == Record(old(doc), to, e, input)
    {
      var from := doc.phase;
      doc := doc.(revision := doc.revision + 1);
      doc := doc.(phase := to);
      doc := doc.(history := doc.history + [Entry(Some(from), to, e, input, doc.revision)]);
      if |doc.history| > MAX_HISTORY {
        doc := doc.(history := doc.history[|doc.history| - MAX_HISTORY..]);
      }
    }

    method CommitDoc()
      modifies this`disk
      ensures disk == Some(doc)
    {
      disk := Some(doc);
    }

    method CommitAfterGateLoss(lost: seq<Gate>, input: Option<Digest>)
      modifies this`doc, this`disk
      ensures disk == Some(doc) && doc == AfterGateLoss(old(doc), Activation in lost, input)
      ensures doc == old(doc).(revision := old(doc).revision + 1, history := doc.history)
      ensures Activation !in lost ==> doc.history == old(doc).history
      ensures Activation in lost ==>
        doc.history != [] && doc.history[|doc.history| - 1] == Entry(Some(doc.phase), doc.phase, ActivationRevoked, input, doc.revision)
    {
      if Activation in lost {
        Append(doc.phase, ActivationRevoked, input);
      } else {
        doc := doc.(revision := doc.revision + 1);
      }
      CommitDoc();
    }

    method RunInit()
      modifies this
      ensures Contents() == Step(old(Contents()), CmdInit)
    {
      if disk.None? {
        doc := DefaultState();
        CommitDoc();
      }
    }

    method RunStatus()
      modifies this
      ensures Contents() == Step(old(Contents()), CmdStatus)
    {
      if disk.None? { return; }
      doc := disk.value;
      var dropped := InvalidateStale();
      if dropped != [] {
        assert dropped[0] in dropped;
        CommitAfterGateLoss(dropped, OfContractOpt(doc.contract));
      } else {
        NothingDropped(disk.value);
      }
    }

    method RunConfirmDiscovery(scope: nat)
      modifies this
      ensures Contents() == Step(old(Contents()), CmdConfirmDiscovery(scope))
    {
      if disk.None? { return; }
      doc := disk.value;
      var dropped := InvalidateStale();
      doc := doc.(scope := Some(scope));
      dropped := InvalidateStale();
      doc := doc.(discoveryGate := CurrentBinding(doc, Discovery));
      var ok := ApplyTransition(DiscoveryConfirmed, doc.discoveryGate);
      if ok { CommitDoc(); }
    }

    method RunRecordDiscovery(scope: nat, evidence: nat)
      modifies this
      ensures Contents() == Step(old(Contents()), CmdRecordDiscovery(scope, evidence))
    {
      if disk.None? { return; }
      doc := disk.value;
      var dropped := InvalidateStale();
      if !GrantIsValid(doc, Discovery) || doc.scope != Some(scope) { return; }
      reportFile := Some(Report(scope, evidence));
      doc := doc.(report := reportFile);
      dropped := InvalidateStale();
      var ok := ApplyTransition(DiscoveryRecorded, Some(OfReport(Report(scope, evidence))));
      if ok { CommitDoc(); }
    }

    method RunProposeProfile(profile: nat)
      modifies this
      ensures Contents() == Step(old(Contents()), CmdProposeProfile(profile))
    {
      if disk.None? { return; }
      doc := disk.value;
      var dropped := InvalidateStale();
      if doc.report.None? { return; }
      doc := doc.(profile := Some(profile));
      dropped := InvalidateStale();
      var ok := ApplyTransition(ProfileOffered, Some(OfProfile(profile)));
      if ok { CommitDoc(); }
    }

    method RunConfirm(g: Gate, e: Event)
      modifies this
      ensures Contents() == Commit(old(Contents()), if old(disk).None? then None else ConfirmGate(old(disk).value, g, e))
    {
      if disk.None? { return; }
      doc := disk.value;
      var dropped := InvalidateStale();
      var binding := CurrentBinding(doc, g);
      if binding.None? { return; }
      doc := SetGate(doc, g, binding);
      var ok := ApplyTransition(e, binding);
      if ok { CommitDoc(); }
    }

    method RunRecordPilot(settings: nat, passed: bool, evidence: nat)
      modifies this
      ensures Contents() == Step(old(Contents()), CmdRecordPilot(settings, passed, evidence))
    {
      if disk.None? { return; }
      doc := disk.value;
      var dropped := InvalidateStale();
      if !GrantIsValid(doc, Profile) { return; }
      var contract := Contract(settings, doc.profile.value);
      var pilot := Pilot(contract, passed, evidence);
      contractFile, renderedFile := Some(contract), Some(contract);
      receiptFile := Some(pilot);
      doc := doc.(contract := Some(contract));
      doc := doc.(pilot := Some(pilot));
      dropped := InvalidateStale();
      var ok;
      if passed {
        doc := doc.(reason := None);
        ok := ApplyTransition(PilotPass, Some(OfPilot(pilot)));
      } else {
        doc := doc.(reason := Some(PilotFailed));
        ok := ApplyTransition(PilotFail, Some(OfPilot(pilot)));
      }
      if ok { CommitDoc(); }
    }

    method RunScheduleHandoff(settings: nat, schedulable: bool, locator: nat)
      modifies this
      ensures Contents() == Step(old(Contents()), CmdScheduleHandoff(settings, schedulable, locator))
    {
      if disk.None? { return; }
      doc := disk.value;
      var dropped := InvalidateStale();
      if !GrantIsValid(doc, Activation) || doc.phase != PilotPassed { return; }
      if contractFile != doc.contract { return; }
      if Contract(settings, doc.profile.value) != doc.contract.value { return; }
      if !schedulable { return; }
      handoffFile := Some(Handoff(doc.contract.value, doc.profile.value, doc.pilot.value, locator));
      doc := doc.(handoff := handoffFile);
      doc := doc.(revision := doc.revision + 1);
      CommitDoc();
    }

    method RunRecordSchedule(task: Option<nat>)
      modifies this
      ensures Contents() == Step(old(Contents()), CmdRecordSchedule(task))
    {
      if disk.None? { return; }
      doc := disk.value;
      var dropped := InvalidateStale();
      if !GrantIsValid(doc, Activation) || handoffFile.None? || handoffFile != doc.handoff { return; }
      if handoffFile.value.contract != doc.contract.value || task.None? { return; }
      doc := doc.(schedule := Some(Schedule(task.value, doc.contract.value, doc.handoff.value, true)));
      var ok := ApplyTransition(ScheduleRecorded, Some(OfHandoff(doc.handoff.value)));
      if ok { CommitDoc(); }
    }

    method RunSimple(e: Event)
      modifies this
      ensures Contents() == Commit(old(Contents()), if old(disk).None? then None else Simple(old(disk).value, e))
    {
      if disk.None? { return; }
      doc := disk.value;
      var dropped := InvalidateStale();
      if e == Resuming && !GrantIsValid(doc, Activation) { return; }
      if doc.schedule.Some? {
        doc := doc.(schedule := Some(doc.schedule.value.(enabled := e != Pausing)));
      }
      var ok := ApplyTransition(e, None);
      if ok { CommitDoc(); }
    }

    method RunCheckDrift(settings: nat, observed: Option<nat>)
      modifies this
      ensures Contents() == Step(old(Contents()), CmdCheckDrift(settings, observed))
    {
      if disk.None? { return; }
      doc := disk.value;
      var dropped := InvalidateStale();
      if dropped != [] { assert dropped[0] in dropped; } else { NothingDropped(disk.value); }
      if doc.profile.None? { return; }
      var current := Contract(settings, doc.profile.value);
      var contractDrifted := doc.contract.Some? && doc.contract.value != current;
      if contractDrifted || ScheduleDrifted(doc, observed) {
        var canFlag := Target(doc.phase, DriftFlagged).Some?;
        var revoked := doc.activationGate.Some?;
        doc := doc.(activationGate := None);
        if canFlag {
          doc := doc.(reason := Some(if contractDrifted then ContractDrift else ScheduleIdUnknown));
          var ok := ApplyTransition(DriftFlagged, Some(OfContract(current)));
          CommitDoc();
        } else if revoked || dropped != [] {
          CommitAfterGateLoss(if revoked then dropped + [Activation] else dropped, Some(OfContract(current)));
        }
      } else if dropped != [] {
        CommitAfterGateLoss(dropped, OfContractOpt(doc.contract));
      }
    }
  }

  lemma NothingDropped(s: State)
    requires forall g :: !(Confirmation(s, g).Some? && Confirmation(Invalidate(s), g).None?)
    ensures Invalidate(s) == s
  {
    assert Confirmation(s, Discovery) == s.discoveryGate && Confirmation(s, Profile) == s.profileGate;
    assert Confirmation(s, Activation) == s.activationGate;
    assert Confirmation(Invalidate(s), Discovery) == Invalidate(s).discoveryGate;
    assert Confirmation(Invalidate(s), Profile) == Invalidate(s).profileGate;
    assert Confirmation(Invalidate(s), Activation) == Invalidate(s).activationGate;
  }
}
