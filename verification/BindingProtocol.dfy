/** Bindings, snapshots and tenant epochs as a concurrent protocol (scripts/cwk_agent_binding.py,
    scripts/cwk_credential_broker.py:921-994, scripts/cwk_agent_context.py:161-188), while no
    secret rotation runs.

    One agent is modelled, hence one hash and one record file; tenants are any number.  Every
    process reads outside the locks; one action is one read or one atomic write, so a run is
    any interleaving with crashes between any two of them. */
module BindingProtocol {
  import opened Wrappers

  type Pid = nat
  type Tenant = nat
  type Stamp = nat

  datatype Status = Bound | Suspended | Revoked

  datatype Deed = Bind | Revoke | RebindOut | Suspend | Reactivate | RebindIn

  /** The stored bytes: `stamp` is the receipt id of the last commit, `last` the action of the
      last history entry. */
  datatype Record = Record(tenant: Tenant, status: Status, epoch: nat, last: Deed, stamp: Stamp)

  datatype Change = Change(deed: Deed, before: Option<Record>, after: Record)

  /** What follows a commit: nothing, or the rest of a rebind, whose first half has unbound the
      agent from the tenant `out`. */
  datatype Plan = Alone | ThenBind(next: Tenant) | ThenPatch(out: Tenant, outSince: nat)

  /** A commit under way.  Credential commits have no change of this record.  `since` and
      `outSince` only record a tenant's epoch when the call made its first read, and `place`
      where the commit stands in the log. */
  datatype Job = Job(tenant: Tenant, since: nat, stamp: Stamp, change: Option<Change>, plan: Plan, place: nat)

  datatype Snapshot = Snapshot(tenant: Tenant, epoch: nat, binding: Record)

  datatype PC =
    | Idle
    | RebindCheck(next: Tenant)
    | BindCheck(tenant: Tenant, plan: Plan)
    | BindRead(tenant: Tenant, since: nat, plan: Plan)
    | MutateRead(deed: Deed, plan: Plan)
    | PatchRead(job: Job)
    | PatchWrite(job: Job, found: Record)
    | Journal(job: Job)
    | WriteRecord(job: Job)
    | WriteReceipt(job: Job)
    | ReadEpoch(job: Job, retried: bool)
    | BumpEpoch(job: Job, seen: nat, retried: bool)
    | Sweep(job: Job)
    | Returned(job: Job)
    | ContextRead
    | ContextEpoch(binding: Record)
    | Holding(snapshot: Snapshot)

  /** `log` only records the commits of the record file. */
  datatype World = World(
    record: Option<Record>,
    epochs: map<Tenant, nat>,
    journals: set<Stamp>,
    receipts: set<Stamp>,
    pcs: map<Pid, PC>,
    log: seq<Change>)

  datatype Call =
    | CallBind(tenant: Tenant)
    | CallMutate(deed: Deed)
    | CallRebind(next: Tenant)
    | CallCredential(tenant: Tenant)
    | CallContext

  datatype Action =
    | Start(p: Pid, call: Call, stamp: Stamp)
    | Go(p: Pid, stamp: Stamp)
    | Crash(p: Pid)
    | Recover                   // sweeps every journal
    | OtherBump(tenant: Tenant) // a grant revocation or a tenant operation

  function Pc(w: World, p: Pid): PC { if p in w.pcs then w.pcs[p] else Idle }

  function To(w: World, p: Pid, pc: PC): World { w.(pcs := w.pcs[p := pc]) }

  function Epoch(w: World, t: Tenant): nat { if t in w.epochs then w.epochs[t] else 1 }

  function Bumped(w: World, t: Tenant): World { w.(epochs := w.epochs[t := Epoch(w, t) + 1]) }

  // ---------------------------------------------------------------------
  // Which change a call may make
  // ---------------------------------------------------------------------

  predicate From(d: Deed, s: Status) {
    match d
    case Revoke => s == Bound || s == Suspended
    case RebindOut => s == Bound || s == Suspended
    case Suspend => s == Bound
    case Reactivate => s == Suspended
    case Bind => s == Revoked
    case RebindIn => false
  }

  function After(d: Deed): Status {
    match d
    case Revoke => Revoked
    case RebindOut => Revoked
    case Suspend => Suspended
    case _ => Bound
  }

  predicate Mutates(d: Deed) { d == Revoke || d == Suspend || d == Reactivate }

  function PriorEpoch(r: Option<Record>): nat { if r.Some? then r.value.epoch else 0 }

  function BindChange(before: Option<Record>, t: Tenant, stamp: Stamp): Change {
    Change(Bind, before, Record(t, Bound, PriorEpoch(before) + 1, Bind, stamp))
  }

  function MutateChange(r: Record, d: Deed, stamp: Stamp): Change {
    Change(d, Some(r), Record(r.tenant, After(d), r.epoch + 1, d, stamp))
  }

  /** Relabels whichever history entry is last. */
  function PatchChange(r: Record): Change { Change(RebindIn, Some(r), r.(last := RebindIn)) }

  // ---------------------------------------------------------------------
  // Steps
  // ---------------------------------------------------------------------

  function Begin(w: World, p: Pid, call: Call, stamp: Stamp): World {
    if !(Pc(w, p).Idle? || Pc(w, p).Returned? || Pc(w, p).Holding?) then w else
    match call
    case CallBind(t) => To(w, p, BindCheck(t, Alone))
    case CallMutate(d) => if Mutates(d) then To(w, p, MutateRead(d, Alone)) else w
    case CallRebind(t) => To(w, p, RebindCheck(t))
    case CallCredential(t) => To(w, p, Journal(Job(t, Epoch(w, t), stamp, None, Alone, 0)))
    case CallContext => To(w, p, ContextRead)
  }

  /** The first read refuses an agent that is bound; the second read is the one whose bytes
      the commit will replace. */
  function BindCheckStep(w: World, p: Pid, t: Tenant, plan: Plan): World {
    if w.record.Some? && w.record.value.status != Revoked then To(w, p, Idle) else To(w, p, BindRead(t, Epoch(w, t), plan))
  }

  function BindReadStep(w: World, p: Pid, t: Tenant, since: nat, plan: Plan, stamp: Stamp): World {
    if w.record.Some? && w.record.value.status != Revoked then To(w, p, Idle)
    else To(w, p, Journal(Job(t, since, stamp, Some(BindChange(w.record, t, stamp)), plan, 0)))
  }

  function MutateReadStep(w: World, p: Pid, d: Deed, plan: Plan, stamp: Stamp): World {
    if w.record.None? || !From(d, w.record.value.status) then To(w, p, Idle)
    else
      var r := w.record.value;
      To(w, p, Journal(Job(r.tenant, Epoch(w, r.tenant), stamp, Some(MutateChange(r, d, stamp)), plan, 0)))
  }

  /** A rebind reads first that there is something to unbind. */
  function RebindCheckStep(w: World, p: Pid, next: Tenant): World {
    if w.record.None? || w.record.value.status == Revoked then To(w, p, Idle) else To(w, p, MutateRead(RebindOut, ThenBind(next)))
  }

  function AfterCommit(job: Job): PC {
    match job.plan
    case Alone => Returned(job)
    case ThenBind(t) => BindCheck(t, ThenPatch(job.tenant, job.since))
    case ThenPatch(_, _) => PatchRead(job)
  }

  /** The compare-and-swap under the record's lock. */
  function Cas(w: World, p: Pid, c: Change, next: PC): World {
    if w.record != c.before then To(w, p, Idle)
    else To(w.(record := Some(c.after), log := w.log + [c]), p, next)
  }

  function WriteRecordStep(w: World, p: Pid, job: Job): World {
    match job.change case None => To(w, p, WriteReceipt(job)) case Some(c) => Cas(w, p, c, WriteReceipt(job.(place := |w.log|)))
  }

  function BumpStep(w: World, p: Pid, job: Job, seen: nat, retried: bool): World {
    if Epoch(w, job.tenant) == seen then To(Bumped(w, job.tenant), p, Sweep(job))
    else if !retried then To(w, p, ReadEpoch(job, true))
    else To(w, p, Idle)
  }

  function Advance(w: World, p: Pid, stamp: Stamp): World {
    match Pc(w, p)
    case Idle => w
    case RebindCheck(t) => RebindCheckStep(w, p, t)
    case BindCheck(t, plan) => BindCheckStep(w, p, t, plan)
    case BindRead(t, since, plan) => BindReadStep(w, p, t, since, plan, stamp)
    case MutateRead(d, plan) => MutateReadStep(w, p, d, plan, stamp)
    case PatchRead(job) => To(w, p, if w.record.Some? then PatchWrite(job, w.record.value) else Idle)
    case PatchWrite(job, r) => Cas(w, p, PatchChange(r), Returned(job))
    case Journal(job) => To(w.(journals := w.journals + {job.stamp}), p, WriteRecord(job))
    case WriteRecord(job) => WriteRecordStep(w, p, job)
    case WriteReceipt(job) => To(w.(receipts := w.receipts + {job.stamp}), p, ReadEpoch(job, false))
    case ReadEpoch(job, retried) => To(w, p, BumpEpoch(job, Epoch(w, job.tenant), retried))
    case BumpEpoch(job, seen, retried) => BumpStep(w, p, job, seen, retried)
    case Sweep(job) => To(w.(journals := w.journals - {job.stamp}), p, AfterCommit(job))
    case Returned(_) => w
    case ContextRead => To(w, p, if w.record.Some? && w.record.value.status == Bound then ContextEpoch(w.record.value) else Idle)
    case ContextEpoch(r) => To(w, p, Holding(Snapshot(r.tenant, Epoch(w, r.tenant), r)))
    case Holding(_) => w
  }

  function Next(w: World, a: Action): World {
    match a
    case Start(p, call, stamp) => Begin(w, p, call, stamp)
    case Go(p, stamp) => Advance(w, p, stamp)
    case Crash(p) => To(w, p, Idle)
    case Recover => w.(journals := {})
    case OtherBump(t) => Bumped(w, t)
  }

  function Run(w: World, actions: seq<Action>): World
    decreases |actions|
  {
    if actions == [] then w else Run(Next(w, actions[0]), actions[1..])
  }

  /** The epoch comparison of every eligibility check. */
  predicate Accepted(w: World, s: Snapshot) { Epoch(w, s.tenant) == s.epoch }

  // ---------------------------------------------------------------------
  // Invariant
  // ---------------------------------------------------------------------

  /** Every commit of the record file is one legal step: a bind of an agent that is unbound or
      revoked, to any tenant; a revocation or rebind-out of a bound or suspended one; a suspension
      of a bound one; a reactivation of a suspended one; or the label of a rebind.  All but the
      bind keep the tenant, and all but the label count one more epoch. */
  predicate Legal(c: Change) {
    var before, after := c.before, c.after;
    match c.deed
    case RebindIn => before.Some? && after == before.value.(last := RebindIn)
    case Bind =>
      && (before.None? || before.value.status == Revoked)
      && after.status == Bound && after.last == Bind && after.epoch == (if before.None? then 1 else before.value.epoch + 1)
    case Revoke => before.Some? && before.value.status != Revoked && MovedTo(before.value, after, Revoked, Revoke)
    case RebindOut => before.Some? && before.value.status != Revoked && MovedTo(before.value, after, Revoked, RebindOut)
    case Suspend => before.Some? && before.value.status == Bound && MovedTo(before.value, after, Suspended, Suspend)
    case Reactivate => before.Some? && before.value.status == Suspended && MovedTo(before.value, after, Bound, Reactivate)
  }

  predicate MovedTo(r: Record, r': Record, status: Status, deed: Deed) {
    r' == Record(r.tenant, status, r.epoch + 1, deed, r'.stamp)
  }

  ghost predicate Chained(log: seq<Change>) {
    && (forall i :: 0 <= i < |log| ==> Legal(log[i]))
    && (|log| > 0 ==> log[0].before.None?)
    && (forall i :: 0 < i < |log| ==> log[i].before.Some? && log[i].before.value == log[i - 1].after)
  }

  predicate RecordOk(w: World) {
    if w.log == [] then w.record.None? else w.record.Some? && w.record.value == w.log[|w.log| - 1].after
  }

  function JobOf(pc: PC): Option<Job> {
    match pc
    case Journal(job) => Some(job)
    case WriteRecord(job) => Some(job)
    case WriteReceipt(job) => Some(job)
    case ReadEpoch(job, _) => Some(job)
    case BumpEpoch(job, _, _) => Some(job)
    case Sweep(job) => Some(job)
    case PatchRead(job) => Some(job)
    case PatchWrite(job, _) => Some(job)
    case Returned(job) => Some(job)
    case _ => None
  }

  function PlanOf(pc: PC): Plan {
    match pc
    case BindCheck(_, plan) => plan
    case BindRead(_, _, plan) => plan
    case MutateRead(_, plan) => plan
    case _ => if JobOf(pc).Some? then JobOf(pc).value.plan else Alone
  }

  /** The record has been written. */
  predicate Past(pc: PC) {
    pc.WriteReceipt? || pc.ReadEpoch? || pc.BumpEpoch? || pc.Sweep? || pc.PatchRead? || pc.PatchWrite? || pc.Returned?
  }

  predicate PcOk(w: World, pc: PC) {
    && (JobOf(pc).Some? ==> JobOf(pc).value.since <= Epoch(w, JobOf(pc).value.tenant)
                            && (JobOf(pc).value.change.Some? ==> Legal(JobOf(pc).value.change.value) && JobOf(pc).value.change.value.deed != RebindIn))
    && (JobOf(pc).Some? && JobOf(pc).value.change.Some? ==>
          JobOf(pc).value.change.value.after.tenant == JobOf(pc).value.tenant && JobOf(pc).value.change.value.after.stamp == JobOf(pc).value.stamp)
    && (PlanOf(pc).ThenPatch? ==> PlanOf(pc).outSince < Epoch(w, PlanOf(pc).out))
    && (pc.BindRead? ==> pc.since <= Epoch(w, pc.tenant))
    && (pc.BumpEpoch? ==> pc.job.since <= pc.seen <= Epoch(w, pc.job.tenant))
    && (pc.Sweep? || pc.PatchRead? || pc.PatchWrite? || pc.Returned? ==> pc.job.since < Epoch(w, pc.job.tenant))
    && (pc.Holding? ==> pc.snapshot.epoch <= Epoch(w, pc.snapshot.tenant))
    && (Past(pc) && JobOf(pc).value.change.Some? ==>
          JobOf(pc).value.place < |w.log| && w.log[JobOf(pc).value.place] == JobOf(pc).value.change.value)
    && (pc.PatchRead? || pc.PatchWrite? ==> pc.job.change.Some? && pc.job.change.value.deed == Bind)
    && (PlanOf(pc).ThenPatch? && JobOf(pc).Some? ==> JobOf(pc).value.change.Some? && JobOf(pc).value.change.value.deed == Bind)
    && (pc.MutateRead? ==> !pc.plan.ThenPatch? && (Mutates(pc.deed) || (pc.deed == RebindOut && pc.plan.ThenBind?)))
  }

  ghost predicate Inv(w: World) {
    Chained(w.log) && RecordOk(w) && forall p :: p in w.pcs ==> PcOk(w, w.pcs[p])
  }

  ghost predicate EpochsGrow(w: World, w': World) { forall t: Tenant :: Epoch(w, t) <= Epoch(w', t) }

  lemma OthersKeep(w: World, w': World, pc: PC)
    requires PcOk(w, pc) && EpochsGrow(w, w') && w.log <= w'.log
    ensures PcOk(w', pc)
  {
  }

  lemma AdvanceGrows(w: World, p: Pid, stamp: Stamp)
    ensures EpochsGrow(w, Advance(w, p, stamp)) && w.log <= Advance(w, p, stamp).log
  {
  }

  lemma CasChains(w: World, p: Pid, c: Change, next: PC)
    requires Chained(w.log) && RecordOk(w) && Legal(c)
    ensures Chained(Cas(w, p, c, next).log) && RecordOk(Cas(w, p, c, next))
  {
    if w.record == c.before {
      var log' := w.log + [c];
      forall i | 0 < i < |log'| ensures log'[i].before.Some? && log'[i].before.value == log'[i - 1].after {
        assert log'[i - 1] == w.log[i - 1];
      }
    }
  }

  lemma OwnPc(w: World, p: Pid, stamp: Stamp)
    requires PcOk(w, Pc(w, p))
    ensures PcOk(Advance(w, p, stamp), Pc(Advance(w, p, stamp), p))
  {
    hide RecordOk, PcOk, Advance;
    if Past(Pc(w, p)) { PastPc(w, p, stamp); } else { EarlyPc(w, p, stamp); }
  }

  lemma PastPc(w: World, p: Pid, stamp: Stamp)
    requires PcOk(w, Pc(w, p)) && Past(Pc(w, p))
    ensures PcOk(Advance(w, p, stamp), Pc(Advance(w, p, stamp), p))
  {
    hide RecordOk, BindCheckStep, BindReadStep, MutateReadStep, RebindCheckStep, WriteRecordStep;
  }

  lemma EarlyPc(w: World, p: Pid, stamp: Stamp)
    requires PcOk(w, Pc(w, p)) && !Past(Pc(w, p))
    ensures PcOk(Advance(w, p, stamp), Pc(Advance(w, p, stamp), p))
  {
    hide RecordOk, BumpStep, AfterCommit;
  }

  lemma OwnLog(w: World, p: Pid, stamp: Stamp)
    requires Chained(w.log) && RecordOk(w) && PcOk(w, Pc(w, p))
    ensures Chained(Advance(w, p, stamp).log) && RecordOk(Advance(w, p, stamp))
  {
    hide Chained, Epoch;
    match Pc(w, p) {
      case WriteRecord(job) => if job.change.Some? { CasChains(w, p, job.change.value, WriteReceipt(job.(place := |w.log|))); }
      case PatchWrite(job, r) => CasChains(w, p, PatchChange(r), Returned(job));
      case _ =>
    }
  }

  lemma AdvanceFrame(w: World, p: Pid, stamp: Stamp)
    ensures var w' := Advance(w, p, stamp); forall q :: q in w'.pcs && q != p ==> q in w.pcs && w'.pcs[q] == w.pcs[q]
  {
  }

  lemma KnownPc(w: World, p: Pid)
    requires Inv(w)
    ensures PcOk(w, Pc(w, p))
  {
  }

  lemma AdvanceKeeps(w: World, p: Pid, stamp: Stamp)
    requires Inv(w)
    ensures Inv(Advance(w, p, stamp))
  {
    hide Chained, Advance, PcOk, EpochsGrow, RecordOk;
    var w' := Advance(w, p, stamp);
    KnownPc(w, p);
    OwnPc(w, p, stamp);
    OwnLog(w, p, stamp);
    AdvanceGrows(w, p, stamp);
    AdvanceFrame(w, p, stamp);
    forall q | q in w'.pcs ensures PcOk(w', w'.pcs[q]) {
      if q != p { OthersKeep(w, w', w.pcs[q]); }
    }
  }

  lemma BeginPc(w: World, p: Pid, call: Call, stamp: Stamp)
    requires PcOk(w, Pc(w, p))
    ensures PcOk(Begin(w, p, call, stamp), Pc(Begin(w, p, call, stamp), p))
  {
  }

  lemma BeginFrame(w: World, p: Pid, call: Call, stamp: Stamp)
    ensures var w' := Begin(w, p, call, stamp);
            && w'.epochs == w.epochs && w'.log == w.log && w'.record == w.record
            && forall q :: q in w'.pcs && q != p ==> q in w.pcs && w'.pcs[q] == w.pcs[q]
  {
  }

  lemma StartKeeps(w: World, p: Pid, call: Call, stamp: Stamp)
    requires Inv(w)
    ensures Inv(Begin(w, p, call, stamp)) && Begin(w, p, call, stamp).epochs == w.epochs && Begin(w, p, call, stamp).log == w.log
  {
    hide Chained, Begin, PcOk;
    var w' := Begin(w, p, call, stamp);
    KnownPc(w, p);
    BeginPc(w, p, call, stamp);
    BeginFrame(w, p, call, stamp);
    forall q | q in w'.pcs ensures PcOk(w', w'.pcs[q]) {
      if q != p { OthersKeep(w, w', w.pcs[q]); }
    }
  }

  lemma OtherBumpKeeps(w: World, t: Tenant)
    requires Inv(w)
    ensures Inv(Bumped(w, t))
  {
    hide Chained;
    forall q | q in w.pcs ensures PcOk(Bumped(w, t), w.pcs[q]) { OthersKeep(w, Bumped(w, t), w.pcs[q]); }
  }

  lemma NextKeeps(w: World, a: Action)
    requires Inv(w)
    ensures Inv(Next(w, a)) && EpochsGrow(w, Next(w, a)) && w.log <= Next(w, a).log
  {
    hide Chained, Advance, Begin;
    match a {
      case Go(p, stamp) => AdvanceKeeps(w, p, stamp); AdvanceGrows(w, p, stamp);
      case Start(p, call, stamp) => StartKeeps(w, p, call, stamp);
      case OtherBump(t) => OtherBumpKeeps(w, t);
      case _ =>
    }
  }

  lemma {:induction false} RunKeeps(w: World, actions: seq<Action>)
    requires Inv(w)
    ensures Inv(Run(w, actions)) && EpochsGrow(w, Run(w, actions)) && w.log <= Run(w, actions).log
    decreases |actions|
  {
    if actions != [] {
      NextKeeps(w, actions[0]);
      RunKeeps(Next(w, actions[0]), actions[1..]);
    }
  }

  const START: World := World(None, map[], {}, {}, map[], [])

  // ---------------------------------------------------------------------
  // One agent, one tenant
  // ---------------------------------------------------------------------

  predicate Unbinds(d: Deed) { d == Revoke || d == RebindOut }

  /** A record that was bound and is revoked was unbound in between. */
  lemma {:induction false} SomeoneUnbound(log: seq<Change>, i: nat, m: nat)
    requires Chained(log) && i <= m < |log| && log[i].deed == Bind && log[m].after.status == Revoked
    ensures exists k :: i < k <= m && Unbinds(log[k].deed)
    decreases m
  {
    assert Legal(log[m]) && Legal(log[i]);
    if !Unbinds(log[m].deed) { SomeoneUnbound(log, i, m - 1); }
  }

  /** Between two successful binds of the same agent there is a committed revocation or
      rebind-out, however many binders run concurrently. */
  lemma BindsAlternate(actions: seq<Action>, i: nat, j: nat)
    requires i < j < |Run(START, actions).log|
    requires Run(START, actions).log[i].deed == Bind && Run(START, actions).log[j].deed == Bind
    ensures exists k :: i < k < j && Unbinds(Run(START, actions).log[k].deed)
  {
    RunKeeps(START, actions);
    var log := Run(START, actions).log;
    assert Legal(log[j]) && log[j].before.value == log[j - 1].after;
    SomeoneUnbound(log, i, j - 1);
  }

  function Mutations(log: seq<Change>): nat
    decreases |log|
  {
    if log == [] then 0
    else Mutations(log[..|log| - 1]) + (if log[|log| - 1].deed == RebindIn then 0 else 1)
  }

  lemma {:induction false} EpochCounts(log: seq<Change>)
    requires Chained(log) && log != []
    ensures log[|log| - 1].after.epoch == Mutations(log)
    decreases |log|
  {
    assert Legal(log[|log| - 1]);
    if |log| > 1 {
      var rest := log[..|log| - 1];
      assert forall k :: 0 <= k < |rest| ==> rest[k] == log[k];
      EpochCounts(rest);
    }
  }

  /** The binding epoch is the number of committed mutations: it grows by exactly one for
      each, and relabelling a history entry does not count. */
  lemma BindingEpochIsACount(actions: seq<Action>)
    ensures var w := Run(START, actions); PriorEpoch(w.record) == Mutations(w.log)
  {
    RunKeeps(START, actions);
    if Run(START, actions).log != [] { EpochCounts(Run(START, actions).log); }
  }

  // ---------------------------------------------------------------------
  // Snapshots go stale
  // ---------------------------------------------------------------------

  /** What a running call remembers of when it began. */
  predicate BeganAt(pc: PC, t: Tenant, e: nat) {
    && (JobOf(pc).Some? && JobOf(pc).value.tenant == t ==> JobOf(pc).value.since >= e)
    && (pc.BindRead? && pc.tenant == t ==> pc.since >= e)
    && (PlanOf(pc).ThenPatch? && PlanOf(pc).out == t ==> PlanOf(pc).outSince >= e)
  }

  /** The tenants whose bindings or credentials a returned call changed. */
  predicate Touched(job: Job, t: Tenant) { job.tenant == t || (job.plan.ThenPatch? && job.plan.out == t) }

  lemma BeganStays(w: World, a: Action, p: Pid, t: Tenant, e: nat)
    requires BeganAt(Pc(w, p), t, e) && Epoch(w, t) >= e
    ensures BeganAt(Pc(Next(w, a), p), t, e)
  {
    hide Advance, Begin, BeganAt, Epoch;
    match a {
      case Go(q, stamp) => if q == p { BeganAdvances(w, p, stamp, t, e); } else { AwayOnce(w, a, p); }
      case Start(q, call, stamp) => if q == p { BeginsAt(w, p, call, stamp, t, e); } else { AwayOnce(w, a, p); }
      case Crash(q) => if q == p { NothingBegan(t, e); } else { AwayOnce(w, a, p); }
      case _ => AwayOnce(w, a, p);
    }
  }

  lemma NothingBegan(t: Tenant, e: nat)
    ensures BeganAt(Idle, t, e)
  {
  }

  lemma BeginsAt(w: World, p: Pid, call: Call, stamp: Stamp, t: Tenant, e: nat)
    requires BeganAt(Pc(w, p), t, e) && Epoch(w, t) >= e
    ensures BeganAt(Pc(Begin(w, p, call, stamp), p), t, e)
  {
  }

  lemma BeganAdvances(w: World, p: Pid, stamp: Stamp, t: Tenant, e: nat)
    requires BeganAt(Pc(w, p), t, e) && Epoch(w, t) >= e
    ensures BeganAt(Pc(Advance(w, p, stamp), p), t, e)
  {
  }

  lemma AwayOnce(w: World, a: Action, p: Pid)
    requires match a case Start(q, _, _) => q != p case Go(q, _) => q != p case Crash(q) => q != p case _ => true
    ensures Pc(Next(w, a), p) == Pc(w, p)
  {
  }

  lemma {:induction false} RunBeganStays(w: World, actions: seq<Action>, p: Pid, t: Tenant, e: nat)
    requires Inv(w) && BeganAt(Pc(w, p), t, e) && Epoch(w, t) >= e
    ensures BeganAt(Pc(Run(w, actions), p), t, e)
    decreases |actions|
  {
    if actions != [] {
      BeganStays(w, actions[0], p, t, e);
      NextKeeps(w, actions[0]);
      RunBeganStays(Next(w, actions[0]), actions[1..], p, t, e);
    }
  }

  /** A snapshot that was complete before a binding or credential mutation of its tenant began is
      refused by every check from that mutation's return on, whatever else runs and through
      however many retries.  A rebind changes two tenants. */
  lemma SnapshotsGoStale(w: World, s: Snapshot, p: Pid, call: Call, stamp: Stamp, running: seq<Action>, later: seq<Action>)
    requires Inv(w) && s.epoch <= Epoch(w, s.tenant)
    requires Pc(w, p).Idle?
    requires var w1 := Run(Next(w, Start(p, call, stamp)), running); Pc(w1, p).Returned? && Touched(Pc(w1, p).job, s.tenant)
    ensures !Accepted(Run(Run(Next(w, Start(p, call, stamp)), running), later), s)
  {
    var w0 := Next(w, Start(p, call, stamp));
    var w1 := Run(w0, running);
    NextKeeps(w, Start(p, call, stamp));
    RunBeganStays(w0, running, p, s.tenant, s.epoch);
    RunKeeps(w0, running);
    assert PcOk(w1, w1.pcs[p]);
    RunKeeps(w1, later);
  }

  /** Every snapshot that a process holds was taken no later than now. */
  lemma HeldSnapshots(actions: seq<Action>, p: Pid)
    ensures Pc(Run(START, actions), p).Holding? ==>
              Pc(Run(START, actions), p).snapshot.epoch <= Epoch(Run(START, actions), Pc(Run(START, actions), p).snapshot.tenant)
  {
    RunKeeps(START, actions);
  }

  // ---------------------------------------------------------------------
  // Exactly when a held snapshot is accepted, and when it is right
  // ---------------------------------------------------------------------

  /** This action raises the tenant's epoch. */
  predicate Bumps(w: World, a: Action, t: Tenant) {
    match a
    case OtherBump(u) => u == t
    case Go(p, _) => Pc(w, p).BumpEpoch? && Pc(w, p).job.tenant == t && Pc(w, p).seen == Epoch(w, t)
    case _ => false
  }

  predicate Unbumped(w: World, actions: seq<Action>, t: Tenant)
    decreases |actions|
  {
    actions == [] || (!Bumps(w, actions[0], t) && Unbumped(Next(w, actions[0]), actions[1..], t))
  }

  /** This action writes the record file, with other contents than it had. */
  predicate Commits(w: World, a: Action) {
    a.Go? && match Pc(w, a.p)
             case WriteRecord(job) => job.change.Some? && w.record == job.change.value.before
             case PatchWrite(_, found) => w.record == Some(found) && found.last != RebindIn
             case _ => false
  }

  predicate Uncommitted(w: World, actions: seq<Action>)
    decreases |actions|
  {
    actions == [] || (!Commits(w, actions[0]) && Uncommitted(Next(w, actions[0]), actions[1..]))
  }

  lemma BumpsMeaning(w: World, a: Action, t: Tenant)
    ensures Epoch(Next(w, a), t) == Epoch(w, t) + (if Bumps(w, a, t) then 1 else 0)
  {
  }

  lemma {:induction false} UnbumpedMeaning(w: World, actions: seq<Action>, t: Tenant)
    ensures Epoch(w, t) <= Epoch(Run(w, actions), t)
    ensures Epoch(Run(w, actions), t) == Epoch(w, t) <==> Unbumped(w, actions, t)
    decreases |actions|
  {
    hide Next, Bumps, Epoch;
    if actions != [] {
      BumpsMeaning(w, actions[0], t);
      UnbumpedMeaning(Next(w, actions[0]), actions[1..], t);
    }
  }

  /** Records never come back: a later one has a larger epoch, or the rebind label. */
  predicate Later(r: Record, r': Record) { r'.epoch > r.epoch || (r'.epoch == r.epoch && r.last != RebindIn && r'.last == RebindIn) }

  lemma CommitsMeaning(w: World, a: Action)
    requires Inv(w) && w.record.Some?
    ensures Next(w, a).record.Some?
    ensures if Commits(w, a) then Later(w.record.value, Next(w, a).record.value) else Next(w, a).record == w.record
  {
    hide Chained, RecordOk;
    if a.Go? { KnownPc(w, a.p); }
  }

  lemma {:induction false} UncommittedMeaning(w: World, actions: seq<Action>)
    requires Inv(w) && w.record.Some?
    ensures Run(w, actions).record.Some?
    ensures Run(w, actions).record == w.record || Later(w.record.value, Run(w, actions).record.value)
    ensures Run(w, actions).record == w.record <==> Uncommitted(w, actions)
    decreases |actions|
  {
    hide Inv, Next, Commits;
    if actions != [] {
      CommitsMeaning(w, actions[0]);
      NextKeeps(w, actions[0]);
      UncommittedMeaning(Next(w, actions[0]), actions[1..]);
    }
  }

  /** None of the actions is one of `p`'s. */
  predicate Away(actions: seq<Action>, p: Pid) {
    forall i :: 0 <= i < |actions| ==>
      match actions[i] case Start(q, _, _) => q != p case Go(q, _) => q != p case Crash(q) => q != p case _ => true
  }

  lemma {:induction false} AwayStays(w: World, actions: seq<Action>, p: Pid)
    requires Away(actions, p)
    ensures Pc(Run(w, actions), p) == Pc(w, p)
    decreases |actions|
  {
    if actions != [] {
      AwayOnce(w, actions[0], p);
      AwayStays(Next(w, actions[0]), actions[1..], p);
    }
  }

  /** A snapshot is built from two reads.  It is accepted exactly when nothing raised its
      tenant's epoch since the second, and its binding is the current record exactly when
      nothing was committed since the first.  So a stale binding is accepted exactly when a
      commit came after the first read and no bump after the second: the commit and its bump
      fell between the two reads, or the commit is not followed by its bump. */
  lemma WhenSnapshotsAreRight(w: World, p: Pid, between: seq<Action>, after: seq<Action>)
    requires Inv(w) && Pc(w, p) == ContextRead && w.record.Some? && w.record.value.status == Bound && Away(between, p)
    ensures var r := w.record.value;
            var w1 := Advance(w, p, 0);
            var w2 := Run(w1, between);
            var w3 := Advance(w2, p, 0);
            var w4 := Run(w3, after);
            var s := Snapshot(r.tenant, Epoch(w2, r.tenant), r);
            && Pc(w3, p) == Holding(s)
            && (Accepted(w4, s) <==> Unbumped(w3, after, r.tenant))
            && (w4.record == Some(r) <==> Uncommitted(w1, between) && Uncommitted(w3, after))
  {
    var r := w.record.value;
    var w1 := Advance(w, p, 0);
    var w2 := Run(w1, between);
    var w3 := Advance(w2, p, 0);
    FirstRead(w, p);
    hide Inv, Run, Advance;
    RunKeeps(w1, between);
    AwayStays(w1, between, p);
    UncommittedMeaning(w1, between);
    SecondRead(w2, p, r);
    UnbumpedMeaning(w3, after, r.tenant);
    UncommittedMeaning(w3, after);
  }

  lemma FirstRead(w: World, p: Pid)
    requires Inv(w) && Pc(w, p) == ContextRead && w.record.Some? && w.record.value.status == Bound
    ensures var w1 := Advance(w, p, 0); Inv(w1) && w1.record == w.record && Pc(w1, p) == ContextEpoch(w.record.value)
  {
    AdvanceKeeps(w, p, 0);
  }

  lemma SecondRead(w: World, p: Pid, r: Record)
    requires Inv(w) && Pc(w, p) == ContextEpoch(r)
    ensures var w' := Advance(w, p, 0);
            Inv(w') && w'.record == w.record && w'.epochs == w.epochs && Pc(w', p) == Holding(Snapshot(r.tenant, Epoch(w, r.tenant), r))
  {
    AdvanceKeeps(w, p, 0);
  }

  /** A commit at or after position `n` of the log has raised the epoch of `t` past `e`, or is
      still to do so. */
  predicate BumpDue(w: World, pc: PC, n: nat, t: Tenant, e: nat) {
    Past(pc) && JobOf(pc).value.change.Some? && JobOf(pc).value.place >= n && JobOf(pc).value.tenant == t ==>
      match pc
      case BumpEpoch(_, seen, _) => seen >= e
      case WriteReceipt(_) => true
      case ReadEpoch(_, _) => true
      case _ => Epoch(w, t) > e
  }

  lemma BumpStaysDue(w: World, a: Action, p: Pid, n: nat, t: Tenant, e: nat)
    requires BumpDue(w, Pc(w, p), n, t, e) && Epoch(w, t) >= e
    ensures BumpDue(Next(w, a), Pc(Next(w, a), p), n, t, e)
  {
    hide Advance, Begin, BumpDue, Epoch;
    BumpsMeaning(w, a, t);
    match a {
      case Go(q, stamp) => if q == p { BumpDueAdvances(w, p, stamp, n, t, e); } else { BumpStaysDueForOthers(w, a, p, n, t, e); }
      case Start(q, call, stamp) => if q == p { BumpDueAtStart(w, p, call, stamp, n, t, e); } else { BumpStaysDueForOthers(w, a, p, n, t, e); }
      case Crash(q) => if q == p { NothingDue(Next(w, a), n, t, e); } else { BumpStaysDueForOthers(w, a, p, n, t, e); }
      case _ => BumpStaysDueForOthers(w, a, p, n, t, e);
    }
  }

  lemma NothingDue(w: World, n: nat, t: Tenant, e: nat)
    ensures BumpDue(w, Idle, n, t, e)
  {
  }

  lemma BumpStaysDueForOthers(w: World, a: Action, p: Pid, n: nat, t: Tenant, e: nat)
    requires BumpDue(w, Pc(w, p), n, t, e)
    requires match a case Start(q, _, _) => q != p case Go(q, _) => q != p case Crash(q) => q != p case _ => true
    ensures BumpDue(Next(w, a), Pc(Next(w, a), p), n, t, e)
  {
    hide Next, Epoch;
    AwayOnce(w, a, p);
    BumpsMeaning(w, a, t);
  }

  lemma BumpDueAtStart(w: World, p: Pid, call: Call, stamp: Stamp, n: nat, t: Tenant, e: nat)
    requires BumpDue(w, Pc(w, p), n, t, e)
    ensures BumpDue(Begin(w, p, call, stamp), Pc(Begin(w, p, call, stamp), p), n, t, e)
  {
  }

  lemma BumpDueAdvances(w: World, p: Pid, stamp: Stamp, n: nat, t: Tenant, e: nat)
    requires BumpDue(w, Pc(w, p), n, t, e) && Epoch(w, t) >= e
    ensures BumpDue(Advance(w, p, stamp), Pc(Advance(w, p, stamp), p), n, t, e)
  {
    hide RecordOk;
  }

  lemma {:induction false} RunBumpStaysDue(w: World, actions: seq<Action>, p: Pid, n: nat, t: Tenant, e: nat)
    requires BumpDue(w, Pc(w, p), n, t, e) && Epoch(w, t) >= e
    ensures BumpDue(Run(w, actions), Pc(Run(w, actions), p), n, t, e)
    decreases |actions|
  {
    hide Next, BumpDue, Epoch;
    if actions != [] {
      BumpStaysDue(w, actions[0], p, n, t, e);
      BumpsMeaning(w, actions[0], t);
      RunBumpStaysDue(Next(w, actions[0]), actions[1..], p, n, t, e);
    }
  }

  /** While a snapshot is accepted, no call that changed the record of its tenant after the
      second read has got past its bump: it is still on its way there, or it died. */
  lemma AcceptedMeansNoBumpYet(w: World, s: Snapshot, after: seq<Action>, q: Pid)
    requires Inv(w) && s.epoch == Epoch(w, s.tenant) && Accepted(Run(w, after), s)
    requires var pc := Pc(Run(w, after), q);
             Past(pc) && JobOf(pc).value.change.Some? && JobOf(pc).value.tenant == s.tenant && JobOf(pc).value.place >= |w.log|
    ensures var pc := Pc(Run(w, after), q); pc.WriteReceipt? || pc.ReadEpoch? || pc.BumpEpoch?
  {
    KnownPc(w, q);
    RunBumpStaysDue(w, after, q, |w.log|, s.tenant, s.epoch);
  }

  // ---------------------------------------------------------------------
  // Both windows are real
  // ---------------------------------------------------------------------

  /** A whole revocation between the two reads: the snapshot carries the old binding with the new
      epoch, and every check accepts it until something else moves the epoch. */
  lemma TornSnapshot(w: World, p: Pid, q: Pid, stamp: Stamp)
    requires p != q && Pc(w, p) == ContextRead && Pc(w, q).Idle?
    requires w.record.Some? && w.record.value.status == Bound
    ensures var w1 := Advance(w, p, 0);
            var w2 := Next(w1, Start(q, CallMutate(Revoke), stamp));
            var w3 := Advance(Advance(Advance(Advance(w2, q, stamp), q, 0), q, 0), q, 0);
            var w4 := Advance(Advance(Advance(w3, q, 0), q, 0), q, 0);
            var w5 := Advance(w4, p, 0);
            && Pc(w4, q).Returned? && w5.record.Some? && w5.record.value.status == Revoked
            && Pc(w5, p).Holding? && Pc(w5, p).snapshot.binding == w.record.value && Accepted(w5, Pc(w5, p).snapshot)
  {
    var r := w.record.value;
    var w1 := Advance(w, p, 0);
    ReadsBinding(w, p);
    StartsRevoke(w1, p, q, stamp);
    var w2 := Next(w1, Start(q, CallMutate(Revoke), stamp));
    RevokeWrites(w2, p, q, r, stamp);
    var w3 := Advance(Advance(Advance(Advance(w2, q, stamp), q, 0), q, 0), q, 0);
    RevokeBumps(w3, p, q, Pc(w3, q).job);
    var w4 := Advance(Advance(Advance(w3, q, 0), q, 0), q, 0);
    FinishesSnapshot(w4, p, r);
    hide Advance, Next, Epoch;
  }

  lemma ReadsBinding(w: World, p: Pid)
    requires Pc(w, p) == ContextRead && w.record.Some? && w.record.value.status == Bound
    ensures var w1 := Advance(w, p, 0);
            w1 == To(w, p, ContextEpoch(w.record.value)) && Pc(w1, p) == ContextEpoch(w.record.value) && forall q :: q != p ==> Pc(w1, q) == Pc(w, q)
  {
  }

  lemma StartsRevoke(w: World, p: Pid, q: Pid, stamp: Stamp)
    requires p != q && Pc(w, q).Idle?
    ensures var w' := Next(w, Start(q, CallMutate(Revoke), stamp));
            Pc(w', q) == MutateRead(Revoke, Alone) && Pc(w', p) == Pc(w, p) && w'.record == w.record && w'.epochs == w.epochs
  {
  }

  lemma FinishesSnapshot(w: World, p: Pid, r: Record)
    requires Pc(w, p) == ContextEpoch(r)
    ensures var w' := Advance(w, p, 0);
            && w'.record == w.record && Pc(w', p) == Holding(Snapshot(r.tenant, Epoch(w, r.tenant), r))
            && Accepted(w', Snapshot(r.tenant, Epoch(w, r.tenant), r))
            && forall q :: q != p ==> Pc(w', q) == Pc(w, q)
  {
  }

  lemma RevokeWrites(w: World, p: Pid, q: Pid, r: Record, stamp: Stamp)
    requires p != q && Pc(w, q) == MutateRead(Revoke, Alone) && w.record.Some? && w.record.value == r && r.status == Bound
    ensures var w' := Advance(Advance(Advance(Advance(w, q, stamp), q, 0), q, 0), q, 0);
            && Pc(w', q) == ReadEpoch(Job(r.tenant, Epoch(w, r.tenant), stamp, Some(MutateChange(r, Revoke, stamp)), Alone, |w.log|), false)
            && Pc(w', p) == Pc(w, p) && w'.epochs == w.epochs && stamp in w'.journals
            && w'.record.Some? && w'.record.value == MutateChange(r, Revoke, stamp).after
  {
  }

  lemma RevokeBumps(w: World, p: Pid, q: Pid, job: Job)
    requires p != q && Pc(w, q) == ReadEpoch(job, false) && job.plan == Alone
    ensures var w' := Advance(Advance(Advance(w, q, 0), q, 0), q, 0);
            && Pc(w', q) == Returned(job) && Pc(w', p) == Pc(w, p) && w'.record == w.record
            && Epoch(w', job.tenant) == Epoch(w, job.tenant) + 1
  {
  }

  /** A revocation that dies between its record and its bump leaves every snapshot of the
      tenant accepted; recovery then removes the journal that was the last trace of it. */
  lemma CrashLeavesSnapshotsAccepted(w: World, s: Snapshot, q: Pid, stamp: Stamp)
    requires Pc(w, q) == MutateRead(Revoke, Alone) && w.record.Some? && w.record.value.status == Bound
    requires s.tenant == w.record.value.tenant && Accepted(w, s)
    ensures var w1 := Advance(Advance(Advance(Advance(w, q, stamp), q, 0), q, 0), q, 0);
            var w2 := Next(Next(w1, Crash(q)), Recover);
            w2.record.Some? && w2.record.value.status == Revoked && Accepted(w2, s) && w2.journals == {} && Pc(w2, q).Idle?
  {
    RevokeWrites(w, q + 1, q, w.record.value, stamp);
  }

  // ---------------------------------------------------------------------
  // The label of a rebind
  // ---------------------------------------------------------------------

  /** Only relabellings since position `i`. */
  predicate OnlyLabels(log: seq<Change>, i: nat) { forall k :: i < k < |log| ==> log[k].deed == RebindIn }

  lemma {:induction false} EpochsRise(log: seq<Change>, i: nat, m: nat)
    requires Chained(log) && i <= m < |log|
    ensures log[i].after.epoch <= log[m].after.epoch
    ensures log[i].after.epoch == log[m].after.epoch <==> forall k :: i < k <= m ==> log[k].deed == RebindIn
    decreases m
  {
    if i < m {
      EpochsRise(log, i, m - 1);
      assert Legal(log[m]) && log[m].before.value == log[m - 1].after;
    }
  }

  /** A rebind ends by relabelling whichever entry is last in the record.  In every run, when the
      call commits the label, the entry it marks is that of its own bind exactly when no
      mutation was committed since that bind; otherwise it is the entry of a later mutation,
      with a larger epoch. */
  lemma LabelMarksItsOwnBind(actions: seq<Action>, p: Pid)
    requires var w := Run(START, actions); Pc(w, p).PatchWrite? && w.record == Some(Pc(w, p).found)
    ensures var w := Run(START, actions);
            var job := Pc(w, p).job;
            var w' := Advance(w, p, 0);
            && job.change.Some? && job.change.value.deed == Bind && job.place < |w.log| && w.log[job.place] == job.change.value
            && w'.record == Some(Pc(w, p).found.(last := RebindIn)) && Pc(w', p) == Returned(job)
            && job.change.value.after.epoch <= w'.record.value.epoch
            && (w'.record.value.epoch == job.change.value.after.epoch <==> OnlyLabels(w.log, job.place))
  {
    var w := Run(START, actions);
    RunKeeps(START, actions);
    hide Run;
    KnownPc(w, p);
    EpochsRise(w.log, Pc(w, p).job.place, |w.log| - 1);
  }

  /** So the label can land on a revocation: the run in which another caller revokes the agent
      between a rebind's bind and its label ends with a revoked record labelled as rebound. */
  lemma LabelOnARevocation(w: World, p: Pid, q: Pid, job: Job, stamp: Stamp)
    requires p != q && Pc(w, p) == PatchRead(job) && Pc(w, q).Idle?
    requires w.record.Some? && w.record.value.status == Bound
    ensures var w2 := Next(w, Start(q, CallMutate(Revoke), stamp));
            var w3 := Advance(Advance(Advance(Advance(w2, q, stamp), q, 0), q, 0), q, 0);
            var w4 := Advance(Advance(w3, p, 0), p, 0);
            && w4.record.Some? && w4.record.value.status == Revoked && w4.record.value.last == RebindIn
            && w4.record.value.epoch == w.record.value.epoch + 1 && Pc(w4, p) == Returned(job)
  {
    var w2 := Next(w, Start(q, CallMutate(Revoke), stamp));
    RevokeWrites(w2, p, q, w.record.value, stamp);
  }

  // ---------------------------------------------------------------------
  // What a call commits
  // ---------------------------------------------------------------------

  /** The process is carrying out this call, and nothing else. */
  predicate Serves(pc: PC, call: Call) {
    match call
    case CallBind(t) =>
      || pc.Idle? || pc == BindCheck(t, Alone) || (pc.BindRead? && pc.tenant == t && pc.plan == Alone)
      || (JobOf(pc).Some? && JobOf(pc).value.plan == Alone && Does(JobOf(pc).value, Bind) && JobOf(pc).value.tenant == t)
    case CallMutate(d) =>
      || pc.Idle? || pc == MutateRead(d, Alone)
      || (JobOf(pc).Some? && JobOf(pc).value.plan == Alone && Does(JobOf(pc).value, d))
    case CallRebind(t) =>
      || pc.Idle? || pc == RebindCheck(t) || pc == MutateRead(RebindOut, ThenBind(t))
      || (pc.BindCheck? && pc.tenant == t && pc.plan.ThenPatch?) || (pc.BindRead? && pc.tenant == t && pc.plan.ThenPatch?)
      || (JobOf(pc).Some? && JobOf(pc).value.plan == ThenBind(t) && Does(JobOf(pc).value, RebindOut) && !pc.Returned? && !pc.PatchRead? && !pc.PatchWrite?)
      || (JobOf(pc).Some? && JobOf(pc).value.plan.ThenPatch? && Does(JobOf(pc).value, Bind) && JobOf(pc).value.tenant == t)
    case CallCredential(t) => pc.Idle? || (JobOf(pc).Some? && JobOf(pc).value.plan == Alone && JobOf(pc).value.change == None && JobOf(pc).value.tenant == t)
    case CallContext => pc.Idle? || pc.ContextRead? || pc.ContextEpoch? || pc.Holding?
  }

  predicate Does(job: Job, d: Deed) { job.change.Some? && job.change.value.deed == d }

  predicate Startless(actions: seq<Action>, p: Pid) { forall i :: 0 <= i < |actions| ==> !(actions[i].Start? && actions[i].p == p) }

  lemma StepServes(w: World, p: Pid, stamp: Stamp, call: Call)
    requires Serves(Pc(w, p), call)
    ensures Serves(Pc(Advance(w, p, stamp), p), call)
  {
  }

  lemma NextServes(w: World, a: Action, p: Pid, call: Call)
    requires Serves(Pc(w, p), call) && !(a.Start? && a.p == p)
    ensures Serves(Pc(Next(w, a), p), call)
  {
    hide Advance, Begin, Serves;
    match a {
      case Go(q, stamp) => if q == p { StepServes(w, p, stamp, call); } else { AwayOnce(w, a, p); }
      case Crash(q) => if q == p { IdleServes(call); } else { AwayOnce(w, a, p); }
      case _ => AwayOnce(w, a, p);
    }
  }

  lemma IdleServes(call: Call)
    ensures Serves(Idle, call)
  {
  }

  lemma {:induction false} RunServes(w: World, actions: seq<Action>, p: Pid, call: Call)
    requires Serves(Pc(w, p), call) && Startless(actions, p)
    ensures Serves(Pc(Run(w, actions), p), call)
    decreases |actions|
  {
    hide Next, Serves;
    if actions != [] {
      NextServes(w, actions[0], p, call);
      RunServes(Next(w, actions[0]), actions[1..], p, call);
    }
  }

  lemma StartServes(w: World, p: Pid, call: Call, stamp: Stamp)
    requires Pc(w, p).Idle?
    ensures Serves(Pc(Begin(w, p, call, stamp), p), call)
  {
  }

  /** In every run, what a call has committed is what it was asked for: a bind or rebind call for a
      tenant leaves a record of that tenant, bound, one epoch after the revoked record it replaced;
      a revocation, suspension or reactivation keeps the tenant and leaves that status; and the
      bump that follows is of the tenant of that record. */
  lemma WhatACallCommits(w: World, p: Pid, call: Call, stamp: Stamp, actions: seq<Action>)
    requires Inv(w) && Pc(w, p).Idle? && Startless(actions, p)
    requires var pc := Pc(Run(Next(w, Start(p, call, stamp)), actions), p); Past(pc) && JobOf(pc).value.change.Some?
    ensures var w' := Run(Next(w, Start(p, call, stamp)), actions);
            var job := JobOf(Pc(w', p)).value;
            && job.place < |w'.log| && w'.log[job.place] == job.change.value
            && var before, after := job.change.value.before, job.change.value.after;
               && after.tenant == job.tenant
               && (match call
                   case CallBind(t) => job.change.value.deed == Bind && after.tenant == t
                   case CallRebind(t) => if job.plan.ThenPatch? then job.change.value.deed == Bind && after.tenant == t else job.change.value.deed == RebindOut
                   case CallMutate(d) => job.change.value.deed == d
                   case _ => false)
               && (match job.change.value.deed
                   case Bind => (before.None? || before.value.status == Revoked) && after.status == Bound && after.epoch == (if before.None? then 1 else before.value.epoch + 1)
                   case Suspend => before.Some? && before.value.status == Bound && after.status == Suspended && after.epoch == before.value.epoch + 1 && after.tenant == before.value.tenant
                   case Reactivate => before.Some? && before.value.status == Suspended && after.status == Bound && after.epoch == before.value.epoch + 1 && after.tenant == before.value.tenant
                   case RebindIn => false
                   case _ => before.Some? && before.value.status != Revoked && after.status == Revoked && after.epoch == before.value.epoch + 1 && after.tenant == before.value.tenant)
  {
    var w0 := Next(w, Start(p, call, stamp));
    NextKeeps(w, Start(p, call, stamp));
    StartServes(w, p, call, stamp);
    RunServes(w0, actions, p, call);
    RunKeeps(w0, actions);
    hide Run, Next, Chained, RecordOk;
    KnownPc(Run(w0, actions), p);
  }
}
