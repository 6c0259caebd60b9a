/** What a call does that nobody disturbs, from whatever the others have left behind
    (scripts/cwk_agent_binding.py:805-1060, scripts/cwk_agent_context.py:161-188). */
module BindingProgress {
  import opened Wrappers
  import opened BindingProtocol

  /** Steps of this process alone, each with some receipt id at hand. */
  predicate Solo(actions: seq<Action>, p: Pid) { forall i :: 0 <= i < |actions| ==> actions[i].Go? && actions[i].p == p }

  lemma OneStep(w: World, p: Pid, actions: seq<Action>)
    requires Solo(actions, p) && actions != []
    ensures Run(w, actions) == Run(Advance(w, p, actions[0].stamp), actions[1..]) && Solo(actions[1..], p)
  {
    assert actions[0] == Go(p, actions[0].stamp);
  }

  lemma {:induction false} NothingMore(w: World, p: Pid, actions: seq<Action>)
    requires Solo(actions, p) && (Pc(w, p).Idle? || Pc(w, p).Returned? || Pc(w, p).Holding?)
    ensures Run(w, actions) == w
    decreases |actions|
  {
    if actions != [] {
      OneStep(w, p, actions);
      NothingMore(w, p, actions[1..]);
    }
  }

  // ---------------------------------------------------------------------
  // A commit
  // ---------------------------------------------------------------------

  /** The record, the receipt and the bumped epoch; the journal is swept. */
  function Committed(w: World, p: Pid, job: Job, c: Change): World {
    World(Some(c.after), w.epochs[job.tenant := Epoch(w, job.tenant) + 1], w.journals - {job.stamp}, w.receipts + {job.stamp},
          w.pcs[p := AfterCommit(job.(place := |w.log|))], w.log + [c])
  }

  lemma CommitRuns(w: World, p: Pid, job: Job, c: Change, actions: seq<Action>)
    requires Pc(w, p) == Journal(job) && job.change == Some(c) && w.record == c.before
    requires Solo(actions, p) && |actions| >= 6
    ensures Run(w, actions) == Run(Committed(w, p, job, c), actions[6..]) && Solo(actions[6..], p)
  {
    hide Run, Advance;
    RecordRuns(w, p, job, c, actions);
    var placed := job.(place := |w.log|);
    var w3 := World(Some(c.after), w.epochs, w.journals + {job.stamp}, w.receipts + {job.stamp}, w.pcs[p := ReadEpoch(placed, false)], w.log + [c]);
    EpochRuns(w3, p, placed, actions[3..]);
    assert actions[3..][3..] == actions[6..];
    assert w.journals + {job.stamp} - {job.stamp} == w.journals - {job.stamp};
    assert w3.pcs[p := AfterCommit(placed)] == w.pcs[p := AfterCommit(placed)];
  }

  lemma RecordRuns(w: World, p: Pid, job: Job, c: Change, actions: seq<Action>)
    requires Pc(w, p) == Journal(job) && job.change == Some(c) && w.record == c.before
    requires Solo(actions, p) && |actions| >= 3
    ensures Run(w, actions)
              == Run(World(Some(c.after), w.epochs, w.journals + {job.stamp}, w.receipts + {job.stamp},
                           w.pcs[p := ReadEpoch(job.(place := |w.log|), false)], w.log + [c]), actions[3..])
  {
    var w1 := Advance(w, p, actions[0].stamp);
    var w2 := Advance(w1, p, actions[1].stamp);
    var w3 := Advance(w2, p, actions[2].stamp);
    OneStep(w, p, actions);
    OneStep(w1, p, actions[1..]);
    OneStep(w2, p, actions[2..]);
    assert actions[1..][1..] == actions[2..] && actions[2..][1..] == actions[3..];
    assert w3.pcs == w.pcs[p := ReadEpoch(job.(place := |w.log|), false)];
  }

  lemma EpochRuns(w: World, p: Pid, job: Job, actions: seq<Action>)
    requires Pc(w, p) == ReadEpoch(job, false) && Solo(actions, p) && |actions| >= 3
    ensures Run(w, actions)
              == Run(World(w.record, w.epochs[job.tenant := Epoch(w, job.tenant) + 1], w.journals - {job.stamp}, w.receipts,
                           w.pcs[p := AfterCommit(job)], w.log), actions[3..])
  {
    var w1 := Advance(w, p, actions[0].stamp);
    var w2 := Advance(w1, p, actions[1].stamp);
    var w3 := Advance(w2, p, actions[2].stamp);
    OneStep(w, p, actions);
    OneStep(w1, p, actions[1..]);
    OneStep(w2, p, actions[2..]);
    assert actions[1..][1..] == actions[2..] && actions[2..][1..] == actions[3..];
    assert w3.pcs == w.pcs[p := AfterCommit(job)];
  }

  // ---------------------------------------------------------------------
  // The calls
  // ---------------------------------------------------------------------

  /** A call is started by a process that has nothing to do. */
  function Called(w: World, p: Pid, call: Call, stamp: Stamp, actions: seq<Action>): World { Run(w, [Start(p, call, stamp)] + actions) }

  lemma CallStarts(w: World, p: Pid, call: Call, stamp: Stamp, actions: seq<Action>)
    ensures Called(w, p, call, stamp, actions) == Run(Begin(w, p, call, stamp), actions)
  {
    assert ([Start(p, call, stamp)] + actions)[1..] == actions;
  }

  /** What a commit leaves for others to see. */
  predicate Left(w: World, w': World, r: Record, bumped: Tenant) {
    && w'.record == Some(r) && w'.epochs == w.epochs[bumped := Epoch(w, bumped) + 1]
    && w'.journals == w.journals - {r.stamp} && w'.receipts == w.receipts + {r.stamp}
    && |w'.log| == |w.log| + 1
  }

  /** Left alone, a revocation succeeds exactly on a bound or suspended agent, a suspension on a
      bound one and a reactivation on a suspended one: the tenant stays, the status is the one asked
      for, the binding's epoch and the tenant's epoch count one more.  Otherwise nothing changes. */
  lemma UndisturbedMutation(w: World, p: Pid, d: Deed, stamp: Stamp, actions: seq<Action>)
    requires Pc(w, p).Idle? && d in {Revoke, Suspend, Reactivate}
    requires Solo(actions, p) && |actions| >= 7
    ensures var w' := Called(w, p, CallMutate(d), stamp, actions);
            if w.record.Some? && w.record.value.status in (match d case Revoke => {Bound, Suspended} case Suspend => {Bound} case _ => {Suspended})
            then
              var r := w.record.value;
              && Left(w, w', Record(r.tenant, match d case Revoke => Revoked case Suspend => Suspended case _ => Bound, r.epoch + 1, d, actions[0].stamp), r.tenant)
              && Pc(w', p).Returned?
            else w' == w.(pcs := w.pcs[p := Idle])
  {
    CallStarts(w, p, CallMutate(d), stamp, actions);
    var w1 := To(w, p, MutateRead(d, Alone));
    var w2 := Advance(w1, p, actions[0].stamp);
    OneStep(w1, p, actions);
    if Pc(w2, p).Journal? {
      var job := Pc(w2, p).job;
      CommitRuns(w2, p, job, job.change.value, actions[1..]);
      NothingMore(Committed(w2, p, job, job.change.value), p, actions[1..][6..]);
    } else {
      assert w2.pcs == w.pcs[p := Idle];
      NothingMore(w2, p, actions[1..]);
    }
  }

  /** Left alone, a bind succeeds exactly on an agent that was never bound or is revoked, and
      binds it to the tenant that it was asked for, whatever the tenant before. */
  lemma UndisturbedBind(w: World, p: Pid, t: Tenant, stamp: Stamp, actions: seq<Action>)
    requires Pc(w, p).Idle? && Solo(actions, p) && |actions| >= 8
    ensures var w' := Called(w, p, CallBind(t), stamp, actions);
            if w.record.None? || w.record.value.status == Revoked
            then Left(w, w', Record(t, Bound, if w.record.Some? then w.record.value.epoch + 1 else 1, Bind, actions[1].stamp), t) && Pc(w', p).Returned?
            else w' == w.(pcs := w.pcs[p := Idle])
  {
    CallStarts(w, p, CallBind(t), stamp, actions);
    var w1 := To(w, p, BindCheck(t, Alone));
    OneStep(w1, p, actions);
    if w.record.None? || w.record.value.status == Revoked {
      var job := BindRuns(w1, p, t, Alone, actions);
      NothingMore(Committed(w1, p, job, job.change.value), p, actions[8..]);
    } else {
      assert Advance(w1, p, actions[0].stamp).pcs == w.pcs[p := Idle];
      NothingMore(Advance(w1, p, actions[0].stamp), p, actions[1..]);
    }
  }

  lemma BindRuns(w: World, p: Pid, t: Tenant, plan: Plan, actions: seq<Action>) returns (job: Job)
    requires Pc(w, p) == BindCheck(t, plan) && (w.record.None? || w.record.value.status == Revoked)
    requires Solo(actions, p) && |actions| >= 8
    ensures var after := Record(t, Bound, if w.record.Some? then w.record.value.epoch + 1 else 1, Bind, actions[1].stamp);
            && job == Job(t, Epoch(w, t), actions[1].stamp, Some(Change(Bind, w.record, after)), plan, 0)
            && Run(w, actions) == Run(Committed(w, p, job, job.change.value), actions[8..]) && Solo(actions[8..], p)
  {
    var w1 := Advance(w, p, actions[0].stamp);
    var w2 := Advance(w1, p, actions[1].stamp);
    OneStep(w, p, actions);
    OneStep(w1, p, actions[1..]);
    assert actions[1..][1..] == actions[2..];
    job := Pc(w2, p).job;
    CommitRuns(w2, p, job, job.change.value, actions[2..]);
    assert actions[2..][6..] == actions[8..];
    hide Run;
    assert Committed(w2, p, job, job.change.value).pcs == Committed(w, p, job, job.change.value).pcs;
    assert Committed(w2, p, job, job.change.value) == Committed(w, p, job, job.change.value);
  }

  /** Left alone, a rebind succeeds exactly on a bound or suspended agent.  It leaves the agent
      bound to the new tenant, two epochs on and labelled as a rebind, and both tenants' epochs
      bumped: twice where they are the same one. */
  lemma UndisturbedRebind(w: World, p: Pid, t: Tenant, stamp: Stamp, actions: seq<Action>)
    requires Pc(w, p).Idle? && Solo(actions, p) && |actions| >= 18
    ensures var w' := Called(w, p, CallRebind(t), stamp, actions);
            if w.record.Some? && w.record.value.status in {Bound, Suspended}
            then
              var r := w.record.value;
              && w'.record == Some(Record(t, Bound, r.epoch + 2, RebindIn, actions[9].stamp))
              && (t != r.tenant ==> Epoch(w', r.tenant) == Epoch(w, r.tenant) + 1 && Epoch(w', t) == Epoch(w, t) + 1)
              && (t == r.tenant ==> Epoch(w', t) == Epoch(w, t) + 2)
              && (forall u :: u != t && u != r.tenant ==> Epoch(w', u) == Epoch(w, u))
              && w'.receipts == w.receipts + {actions[1].stamp, actions[9].stamp} && w'.journals == w.journals - {actions[1].stamp, actions[9].stamp}
              && Pc(w', p).Returned?
            else w' == w.(pcs := w.pcs[p := Idle])
  {
    CallStarts(w, p, CallRebind(t), stamp, actions);
    var w1 := To(w, p, RebindCheck(t));
    var w2 := Advance(w1, p, actions[0].stamp);
    OneStep(w1, p, actions);
    if w.record.Some? && w.record.value.status in {Bound, Suspended} {
      RebindRuns(w2, p, t, actions[1..]);
      assert actions[1..][0] == actions[1] && actions[1..][8] == actions[9];
    } else {
      assert w2.pcs == w.pcs[p := Idle];
      NothingMore(w2, p, actions[1..]);
    }
  }

  lemma OutRuns(w: World, p: Pid, t: Tenant, actions: seq<Action>) returns (job: Job)
    requires Pc(w, p) == MutateRead(RebindOut, ThenBind(t)) && w.record.Some? && w.record.value.status in {Bound, Suspended}
    requires Solo(actions, p) && |actions| >= 7
    ensures var r := w.record.value;
            && job == Job(r.tenant, Epoch(w, r.tenant), actions[0].stamp,
                          Some(Change(RebindOut, w.record, Record(r.tenant, Revoked, r.epoch + 1, RebindOut, actions[0].stamp))), ThenBind(t), 0)
            && Run(w, actions) == Run(Committed(w, p, job, job.change.value), actions[7..]) && Solo(actions[7..], p)
  {
    var w1 := Advance(w, p, actions[0].stamp);
    OneStep(w, p, actions);
    job := Pc(w1, p).job;
    CommitRuns(w1, p, job, job.change.value, actions[1..]);
    assert actions[1..][6..] == actions[7..];
    hide Run;
    assert Committed(w1, p, job, job.change.value).pcs == Committed(w, p, job, job.change.value).pcs;
    assert Committed(w1, p, job, job.change.value) == Committed(w, p, job, job.change.value);
  }

  lemma RebindRuns(w: World, p: Pid, t: Tenant, actions: seq<Action>)
    requires Pc(w, p) == MutateRead(RebindOut, ThenBind(t)) && w.record.Some? && w.record.value.status in {Bound, Suspended}
    requires Solo(actions, p) && |actions| >= 17
    ensures var w', r := Run(w, actions), w.record.value;
            && w'.record == Some(Record(t, Bound, r.epoch + 2, RebindIn, actions[8].stamp))
            && (t != r.tenant ==> Epoch(w', r.tenant) == Epoch(w, r.tenant) + 1 && Epoch(w', t) == Epoch(w, t) + 1)
            && (t == r.tenant ==> Epoch(w', t) == Epoch(w, t) + 2)
            && (forall u :: u != t && u != r.tenant ==> Epoch(w', u) == Epoch(w, u))
            && w'.receipts == w.receipts + {actions[0].stamp, actions[8].stamp} && w'.journals == w.journals - {actions[0].stamp, actions[8].stamp}
            && Pc(w', p).Returned?
  {
    hide Run;
    var out := OutRuns(w, p, t, actions);
    var w1 := Committed(w, p, out, out.change.value);
    var job := BindRuns(w1, p, t, ThenPatch(out.tenant, out.since), actions[7..]);
    assert actions[7..][8..] == actions[15..] && actions[7..][1] == actions[8];
    LabelRuns(Committed(w1, p, job, job.change.value), p, job.(place := |w1.log|), actions[15..]);
  }

  lemma LabelRuns(w: World, p: Pid, job: Job, actions: seq<Action>)
    requires Pc(w, p) == PatchRead(job) && w.record.Some? && Solo(actions, p) && |actions| >= 2
    ensures var w' := Run(w, actions);
            && w'.record == Some(w.record.value.(last := RebindIn)) && w'.epochs == w.epochs && w'.journals == w.journals && w'.receipts == w.receipts
            && Pc(w', p).Returned?
  {
    var w1 := Advance(w, p, actions[0].stamp);
    var w2 := Advance(w1, p, actions[1].stamp);
    OneStep(w, p, actions);
    OneStep(w1, p, actions[1..]);
    NothingMore(w2, p, actions[1..][1..]);
  }

  /** Left alone, a context is granted exactly to a bound agent, with its tenant, that tenant's epoch
      and its record; building it changes nothing. */
  lemma UndisturbedContext(w: World, p: Pid, stamp: Stamp, actions: seq<Action>)
    requires Pc(w, p).Idle? && Solo(actions, p) && |actions| >= 2
    ensures var w' := Called(w, p, CallContext, stamp, actions);
            && w' == w.(pcs := w.pcs[p := Pc(w', p)])
            && (if w.record.Some? && w.record.value.status == Bound
                then Pc(w', p) == Holding(Snapshot(w.record.value.tenant, Epoch(w, w.record.value.tenant), w.record.value))
                else Pc(w', p) == Idle)
  {
    CallStarts(w, p, CallContext, stamp, actions);
    var w1 := To(w, p, ContextRead);
    var w2 := Advance(w1, p, actions[0].stamp);
    var w3 := Advance(w2, p, actions[1].stamp);
    OneStep(w1, p, actions);
    OneStep(w2, p, actions[1..]);
    assert w3.pcs == w.pcs[p := Pc(w3, p)];
    NothingMore(w3, p, actions[1..][1..]);
  }

  /** A bump that another one overtakes is tried once more: then it counts on top of the other, and
      where it is overtaken again the call dies with its record and receipt written, its journal
      left for a recovery and no bump of its own. */
  lemma OneRetry(w: World, p: Pid, job: Job, retry: seq<Action>, stamp: Stamp)
    requires Pc(w, p) == ReadEpoch(job, false) && retry == [Go(p, stamp), OtherBump(job.tenant), Go(p, stamp), Go(p, stamp)]
    ensures Run(w, retry + [Go(p, stamp)])
              == w.(epochs := w.epochs[job.tenant := Epoch(w, job.tenant) + 2], pcs := w.pcs[p := Sweep(job)])
    ensures Run(w, retry + [OtherBump(job.tenant), Go(p, stamp)])
              == w.(epochs := w.epochs[job.tenant := Epoch(w, job.tenant) + 2], pcs := w.pcs[p := Idle])
  {
    hide Run, Next;
    ReadsAgain(w, p, job, retry, stamp);
    var seen := Epoch(w, job.tenant) + 1;
    var w4 := w.(epochs := w.epochs[job.tenant := seen], pcs := w.pcs[p := BumpEpoch(job, seen, true)]);
    FourMore(w, retry, [Go(p, stamp)]);
    FourMore(w, retry, [OtherBump(job.tenant), Go(p, stamp)]);
    LastTry(w4, p, job, stamp);
    assert w4.epochs[job.tenant := seen + 1] == w.epochs[job.tenant := seen + 1];
    assert w4.pcs[p := Sweep(job)] == w.pcs[p := Sweep(job)] && w4.pcs[p := Idle] == w.pcs[p := Idle];
  }

  lemma ReadsAgain(w: World, p: Pid, job: Job, retry: seq<Action>, stamp: Stamp)
    requires Pc(w, p) == ReadEpoch(job, false) && retry == [Go(p, stamp), OtherBump(job.tenant), Go(p, stamp), Go(p, stamp)]
    ensures var seen := Epoch(w, job.tenant) + 1;
            Next(Next(Next(Next(w, retry[0]), retry[1]), retry[2]), retry[3])
              == w.(epochs := w.epochs[job.tenant := seen], pcs := w.pcs[p := BumpEpoch(job, seen, true)])
  {
  }

  lemma LastTry(w: World, p: Pid, job: Job, stamp: Stamp)
    requires Pc(w, p) == BumpEpoch(job, Epoch(w, job.tenant), true)
    ensures var next := w.epochs[job.tenant := Epoch(w, job.tenant) + 1];
            && Run(w, [Go(p, stamp)]) == w.(epochs := next, pcs := w.pcs[p := Sweep(job)])
            && Run(w, [OtherBump(job.tenant), Go(p, stamp)]) == w.(epochs := next, pcs := w.pcs[p := Idle])
  {
    RunOne(w, Go(p, stamp));
    RunOne(Next(w, OtherBump(job.tenant)), Go(p, stamp));
    assert [OtherBump(job.tenant), Go(p, stamp)][1..] == [Go(p, stamp)];
  }

  lemma RunOne(w: World, a: Action)
    ensures Run(w, [a]) == Next(w, a)
  {
    assert [a][1..] == [];
  }

  lemma FourMore(w: World, first: seq<Action>, rest: seq<Action>)
    requires |first| == 4
    ensures Run(w, first + rest) == Run(Next(Next(Next(Next(w, first[0]), first[1]), first[2]), first[3]), rest)
  {
    hide Next;
    var all := first + rest;
    assert all[1..][1..] == all[2..] && all[2..][1..] == all[3..] && all[3..][1..] == rest;
    var w1 := Next(w, first[0]);
    var w2 := Next(w1, first[1]);
    var w3 := Next(w2, first[2]);
    assert Run(w, all) == Run(w1, all[1..]);
    assert Run(w1, all[1..]) == Run(w2, all[2..]);
    assert Run(w2, all[2..]) == Run(w3, all[3..]);
  }
}
