/** What an operation does when nobody disturbs it, from every state that any run reaches
    (scripts/cwk_access_ledger.py:1065-1103, 1310-1335, 1508-1557 and 1912-1957): the protocol
    then agrees with the ledger as one caller sees it. */
module LedgerProgress {
  import opened Wrappers
  import opened LedgerTypes
  import opened LedgerProtocol
  import opened LedgerSafety
  import A = AccessLedger
  import LedgerRefinement

  /** Only process `p` moved, to `pc`. */
  ghost predicate OnlyMoved(w: World, w': World, p: Pid, pc: PC) {
    && w'.store == w.store && w'.locks == w.locks && w'.now == w.now && w'.used == w.used && w'.accepted == w.accepted
    && Pc(w', p) == pc
  }

  lemma {:induction false} RunConcat(w: World, xs: seq<Action>, ys: seq<Action>)
    ensures Run(w, xs + ys) == Run(Run(w, xs), ys)
    decreases |xs|
  {
    hide Next;
    if xs == [] {
      assert xs + ys == ys;
    } else {
      assert (xs + ys)[0] == xs[0] && (xs + ys)[1..] == xs[1..] + ys;
      RunConcat(Next(w, xs[0]), xs[1..], ys);
    }
  }

  lemma RunOne(w: World, a: Action)
    ensures Run(w, [a]) == Next(w, a)
  {
    hide Next;
    assert [a][1..] == [];
  }

  // ---------------------------------------------------------------------
  // The directory scan
  // ---------------------------------------------------------------------

  /** Where a scan that meets no journal of the grant leads. */
  function AfterScan(why: Reason, k: GrantKey): PC { if why.ForRevoke? then ReadGrant(why, k) else CheckTombstone(why, k) }

  lemma {:induction false} ScanPasses(w: World, p: Pid, why: Reason, k: GrantKey, todo: set<TxnId>) returns (xs: seq<Action>)
    requires Pc(w, p) == Scanning(why, k, todo) && todo != {} && NoIntent(w.store, k)
    ensures OnlyMoved(w, Run(w, xs), p, AfterScan(why, k))
    decreases |todo|
  {
    var t :| t in todo;
    var w1 := Next(w, Go(p, t, 0));
    RunOne(w, Go(p, t, 0));
    if todo - {t} == {} {
      xs := [Go(p, t, 0)];
    } else {
      assert |todo - {t}| < |todo|;
      var rest := ScanPasses(w1, p, why, k, todo - {t});
      RunConcat(w, [Go(p, t, 0)], rest);
      xs := [Go(p, t, 0)] + rest;
    }
  }

  lemma ScanFindsNothing(w: World, p: Pid, why: Reason, k: GrantKey) returns (xs: seq<Action>)
    requires Pc(w, p) == ScanStart(why, k) && NoIntent(w.store, k)
    ensures OnlyMoved(w, Run(w, xs), p, AfterScan(why, k))
  {
    var w1 := Next(w, Go(p, 0, 0));
    RunOne(w, Go(p, 0, 0));
    if w.store.intents.Keys == {} {
      xs := [Go(p, 0, 0)];
    } else {
      var rest := ScanPasses(w1, p, why, k, w.store.intents.Keys);
      RunConcat(w, [Go(p, 0, 0)], rest);
      xs := [Go(p, 0, 0)] + rest;
    }
  }

  lemma ScanMeetsTheJournal(w: World, p: Pid, why: Reason, k: GrantKey) returns (xs: seq<Action>)
    requires Pc(w, p) == ScanStart(why, k) && !NoIntent(w.store, k)
    ensures var w' := Run(w, xs); w'.store == w.store && Pc(w', p) == Idle
  {
    var t :| t in w.store.intents && w.store.intents[t].key == k;
    assert t in w.store.intents.Keys;
    var w1 := Next(w, Go(p, 0, 0));
    RunOne(w, Go(p, 0, 0));
    RunOne(w1, Go(p, t, 0));
    RunConcat(w, [Go(p, 0, 0)], [Go(p, t, 0)]);
    xs := [Go(p, 0, 0)] + [Go(p, t, 0)];
  }

  // ---------------------------------------------------------------------
  // Queries
  // ---------------------------------------------------------------------

  /** A query that nobody disturbs is answered exactly when the tenant is still at the caller's
      epoch, nothing of a revocation is on disk, and the grant is active, of that epoch, and its
      lease runs beyond the time of the reading; the answer is the grant on disk. */
  lemma UndisturbedQuery(w: World, p: Pid, k: GrantKey, epoch: nat, now: Time) returns (xs: seq<Action>)
    requires Pc(w, p) == Idle
    ensures var w' := Run(w, xs);
            && w'.store == w.store
            && (Pc(w', p).Eligible? <==>
                  && w.store.tenantEpoch == epoch && NoIntent(w.store, k) && k !in w.store.tombstones
                  && k in w.store.grants && w.store.grants[k].status == Active && w.store.grants[k].epoch == epoch
                  && w.store.grants[k].lease.Some? && now < w.store.grants[k].lease.value)
            && (Pc(w', p).Eligible? ==> Pc(w', p).key == k && Pc(w', p).at == now && Some(Pc(w', p).grant) == Lookup(w.store, k))
            && (!Pc(w', p).Eligible? ==> Pc(w', p) == Idle)
  {
    var start := Start(p, CallQuery(k, epoch));
    var w1 := Next(w, start);
    RunOne(w, start);
    if w.store.tenantEpoch != epoch {
      xs := [start];
    } else if !NoIntent(w.store, k) {
      var rest := ScanMeetsTheJournal(w1, p, ForQuery(epoch), k);
      RunConcat(w, [start], rest);
      xs := [start] + rest;
    } else {
      var scan := ScanFindsNothing(w1, p, ForQuery(epoch), k);
      var w2 := Run(w1, scan);
      RunConcat(w, [start], scan);
      var w3 := QueryReads(w2, p, k, epoch, now);
      RunConcat(w, [start] + scan, [Go(p, 0, now), Go(p, 0, now)]);
      xs := [start] + scan + [Go(p, 0, now), Go(p, 0, now)];
    }
  }

  lemma QueryReads(w: World, p: Pid, k: GrantKey, epoch: nat, now: Time) returns (w': World)
    requires Pc(w, p) == CheckTombstone(ForQuery(epoch), k)
    ensures w' == Run(w, [Go(p, 0, now), Go(p, 0, now)]) && w'.store == w.store
    ensures Pc(w', p).Eligible? <==>
              && k !in w.store.tombstones
              && k in w.store.grants && w.store.grants[k].status == Active && w.store.grants[k].epoch == epoch
              && w.store.grants[k].lease.Some? && now < w.store.grants[k].lease.value
    ensures Pc(w', p).Eligible? ==> Pc(w', p).key == k && Pc(w', p).at == now && Some(Pc(w', p).grant) == Lookup(w.store, k)
    ensures !Pc(w', p).Eligible? ==> Pc(w', p) == Idle
  {
    var x := Go(p, 0, now);
    var w1 := Next(w, x);
    w' := Next(w1, x);
    RunOne(w, x);
    RunOne(w1, x);
    RunConcat(w, [x], [x]);
    assert [x] + [x] == [x, x];
  }

  // ---------------------------------------------------------------------
  // Observation, promotion and downgrade
  // ---------------------------------------------------------------------

  /** The call is admitted: a promotion with a signed, unexpired receipt for this grant and this
      purpose, an observation as discovered or granted. */
  predicate Admitted(w: World, op: Op, k: GrantKey, authority: Authority) {
    && (op.PromoteOp? ==>
          && authority == Signing && op.receipt.signatureOk && op.receipt.key == k && op.receipt.expiry > w.now
          && op.receipt.kind == (match op.purpose case PromoteToActive => GrantPromote case RefreshLease => LeaseRefresh))
    && (op.ObserveOp? ==> op.obs.initial in {Discovered, Granted})
  }

  /** An operation that finds its lock free and is not disturbed writes what the operation makes
      of the grant on disk, when nothing of a revocation is there and the operation allows it;
      otherwise it writes nothing. */
  lemma UndisturbedOperation(w: World, p: Pid, op: Op, k: GrantKey, authority: Authority) returns (xs: seq<Action>)
    requires Pc(w, p) == Idle && k !in w.locks
    ensures var w' := Run(w, xs);
            && Pc(w', p) == Idle
            && w'.store ==
                 if Admitted(w, op, k, authority) && NoIntent(w.store, k) && k !in w.store.tombstones
                 then (match Apply1(op, Lookup(w.store, k), w.store.tenantEpoch, w.now)
                       case Ok(Some(h)) => PutGrant(w.store, k, h)
                       case _ => w.store)
                 else w.store
  {
    var why := ForOp(op, w.store.tenantEpoch);
    var start := Start(p, CallOp(op, k, authority));
    RunOne(w, start);
    if !Admitted(w, op, k, authority) {
      xs := [start];
    } else {
      var w1 := Next(w, start);
      var w2 := Next(w1, Go(p, 0, 0));
      RunOne(w1, Go(p, 0, 0));
      RunConcat(w, [start], [Go(p, 0, 0)]);
      assert Pc(w2, p) == ScanStart(why, k) && w2.store == w.store && w2.now == w.now;
      var rest := LockedOperation(w2, p, op, k, w.store.tenantEpoch);
      RunConcat(w, [start] + [Go(p, 0, 0)], rest);
      xs := [start] + [Go(p, 0, 0)] + rest;
    }
  }

  lemma LockedOperation(w: World, p: Pid, op: Op, k: GrantKey, epoch: nat) returns (xs: seq<Action>)
    requires Pc(w, p) == ScanStart(ForOp(op, epoch), k)
    ensures var w' := Run(w, xs);
            && Pc(w', p) == Idle
            && w'.store ==
                 if NoIntent(w.store, k) && k !in w.store.tombstones
                 then (match Apply1(op, Lookup(w.store, k), epoch, w.now) case Ok(Some(h)) => PutGrant(w.store, k, h) case _ => w.store)
                 else w.store
  {
    hide Apply1;
    var why := ForOp(op, epoch);
    if !NoIntent(w.store, k) {
      xs := ScanMeetsTheJournal(w, p, why, k);
    } else {
      var scan := ScanFindsNothing(w, p, why, k);
      var rest := CheckedOperation(Run(w, scan), p, op, k, epoch);
      RunConcat(w, scan, rest);
      xs := scan + rest;
    }
  }

  lemma CheckedOperation(w: World, p: Pid, op: Op, k: GrantKey, epoch: nat) returns (xs: seq<Action>)
    requires Pc(w, p) == CheckTombstone(ForOp(op, epoch), k)
    ensures var w' := Run(w, xs);
            && Pc(w', p) == Idle
            && w'.store ==
                 if k !in w.store.tombstones
                 then (match Apply1(op, Lookup(w.store, k), epoch, w.now) case Ok(Some(h)) => PutGrant(w.store, k, h) case _ => w.store)
                 else w.store
  {
    hide Apply1;
    var x := Go(p, 0, 0);
    var w1 := Next(w, x);
    RunOne(w, x);
    if k in w.store.tombstones {
      xs := [x];
    } else {
      var w2 := Next(w1, x);
      assert Pc(w2, p) == WriteGrant(op, k, epoch, Lookup(w.store, k)) && w2.store == w.store && w2.now == w.now;
      RunOne(w1, x);
      RunOne(w2, x);
      RunConcat(w, [x], [x]);
      RunConcat(w, [x] + [x], [x]);
      xs := [x] + [x] + [x];
    }
  }

  // ---------------------------------------------------------------------
  // Revocation
  // ---------------------------------------------------------------------

  lemma {:induction false} StepsAreARun(w: World, p: Pid, n: nat) returns (xs: seq<Action>)
    ensures Run(w, xs) == LedgerRefinement.Steps(w, p, n)
    decreases n
  {
    if n == 0 {
      xs := [];
    } else {
      var x := Go(p, 0, 0);
      var rest := StepsAreARun(Advance(w, p, 0, 0), p, n - 1);
      RunOne(w, x);
      RunConcat(w, [x], rest);
      xs := [x] + rest;
    }
  }

  /** From the call to the journal. */
  lemma JournalWritten(w: World, p: Pid, k: GrantKey, t: TxnId) returns (xs: seq<Action>)
    requires Pc(w, p) == Idle && k !in w.locks && t !in w.used
    requires k in w.store.grants && Allowed(w.store.grants[k].status, Revoked) && NoIntent(w.store, k) && k !in w.store.tombstones
    ensures var g := w.store.grants[k];
            var i := Intent(t, k, g.status, g.revision, g.epoch);
            var w' := Run(w, xs);
            w'.store == PutIntent(w.store, i) && w'.now == w.now && Pc(w', p) == ReadForMark(i)
  {
    hide Next;
    var before := LockTaken(w, p, k);
    var w3, x := Run(w, before), Go(p, 0, 0);
    var scan := ScanFindsNothing(w3, p, ForRevoke, k);
    var w4 := Run(w3, scan);
    var w5 := Next(w4, x);
    RunConcat(w, before, scan);
    RunOne(w4, x);
    RunOne(w5, Go(p, t, 0));
    RunConcat(w, before + scan, [x]);
    RunConcat(w, before + scan + [x], [Go(p, t, 0)]);
    FreeGrantRead(w4, p, k, t);
    xs := before + scan + [x] + [Go(p, t, 0)];
  }

  lemma LockTaken(w: World, p: Pid, k: GrantKey) returns (xs: seq<Action>)
    requires Pc(w, p) == Idle && k !in w.locks && k !in w.store.tombstones
    ensures var w' := Run(w, xs); Pc(w', p) == ScanStart(ForRevoke, k) && w'.store == w.store && w'.now == w.now && w'.used == w.used
  {
    var start, x := Start(p, CallRevoke(k)), Go(p, 0, 0);
    var w1 := Next(w, start);
    var w2 := Next(w1, x);
    RunOne(w, start);
    RunOne(w1, x);
    RunOne(w2, x);
    RunConcat(w, [start], [x]);
    RunConcat(w, [start] + [x], [x]);
    xs := [start] + [x] + [x];
  }

  lemma FreeGrantRead(w: World, p: Pid, k: GrantKey, t: TxnId)
    requires Pc(w, p) == AfterScan(ForRevoke, k) && t !in w.used
    requires k in w.store.grants && Allowed(w.store.grants[k].status, Revoked) && k !in w.store.tombstones
    ensures var g := w.store.grants[k];
            var i := Intent(t, k, g.status, g.revision, g.epoch);
            var w' := Next(Next(w, Go(p, 0, 0)), Go(p, t, 0));
            w'.store == PutIntent(w.store, i) && w'.now == w.now && Pc(w', p) == ReadForMark(i)
  {
  }

  lemma FreshTransaction(w: World, k: GrantKey, t: TxnId)
    requires Inv(w) && LedgerRefinement.TasksOk(w) && t !in w.used
    ensures t !in w.store.intents && t !in w.store.receipts && t !in w.store.outbox
    ensures k in w.store.tombstones ==> k in w.store.grants && w.store.grants[k].status == Revoked
  {
    if k in w.store.tombstones { assert TombstoneOk(w.store, k); }
  }

  /** A safety-reducing operation is always possible.  Whatever any run did before: a caller who
      finds the lock of a grant free, the grant in any of the four live statuses and no journal
      for it, revokes it.  The grant is then revoked and otherwise as it was, tombstone, task and
      receipt are there and agree, no journal is left, and nothing else changed. */
  lemma RevocationAlwaysPossible(w: World, before: seq<Action>, p: Pid, k: GrantKey, t: TxnId) returns (xs: seq<Action>)
    requires Inv(w) && LedgerRefinement.TasksOk(w)
    requires var s := Run(w, before).store;
             k in s.grants && s.grants[k].status in {Discovered, Granted, Active, RevalidationDue} && NoIntent(s, k)
    requires Pc(Run(w, before), p) == Idle && k !in Run(w, before).locks && t !in Run(w, before).used
    ensures var w1, w2 := Run(w, before), Run(Run(w, before), xs);
            && Pc(w2, p) == Idle
            && w2.store == A.Settled(w1.store, k, t, w1.now, w1.now)
            && k in w2.store.grants && w2.store.grants[k].status == Revoked && k in w2.store.tombstones && t in w2.store.receipts && NoIntent(w2.store, k)
  {
    LedgerRefinement.RunKeepsTasks(w, before);
    var w1 := Run(w, before);
    FreshTransaction(w1, k, t);
    var g := w1.store.grants[k];
    RevocationIsAlwaysLegal(g.status, Revoked);
    var i := Intent(t, k, g.status, g.revision, g.epoch);
    var first := JournalWritten(w1, p, k, t);
    var w2 := Run(w1, first);
    var d := A.Disk(w2.store, map[]);
    var n := LedgerRefinement.RevocationIsARun(w2, d, p, i);
    var rest := StepsAreARun(w2, p, n);
    RunConcat(w1, first, rest);
    A.RevocationSettles(A.Disk(w1.store, map[]), k, t, w1.now, w1.now, 7);
    xs := first + rest;
  }

  // ---------------------------------------------------------------------
  // Cleanup
  // ---------------------------------------------------------------------

  function Acks(t: TxnId, order: seq<Consumer>): (r: seq<Action>)
    ensures |r| == |order| && forall i :: 0 <= i < |r| ==> r[i] == Ack(t, order[i])
  {
    seq(|order|, i requires 0 <= i < |order| => Ack(t, order[i]))
  }

  lemma OneAck(w: World, t: TxnId, c: Consumer)
    requires t in w.store.outbox
    ensures var w', waiting := Next(w, Ack(t, c)), w.store.outbox[t].consumers;
            && w'.store.outbox == (if c !in waiting then w.store.outbox
                                   else if waiting - {c} == {} then w.store.outbox - {t}
                                   else w.store.outbox[t := w.store.outbox[t].(consumers := waiting - {c})])
            && w' == w.(store := w.store.(outbox := w'.store.outbox))
  {
  }

  /** Who has not acknowledged. */
  function Waiting(consumers: set<Consumer>, order: seq<Consumer>): set<Consumer> { set c | c in consumers && c !in order }

  lemma FirstAcked(consumers: set<Consumer>, order: seq<Consumer>)
    ensures Waiting(consumers, []) == consumers
    ensures order != [] ==> Waiting(consumers, order) == Waiting(consumers - {order[0]}, order[1..])
  {
    assert order != [] ==> forall c :: c in order <==> c == order[0] || c in order[1..];
  }

  /** A cleanup task is gone as soon as each of its consumers has acknowledged it, in any order and
      however often, and not before; until then it waits for exactly the others.  Nothing else
      changes. */
  lemma {:induction false} CleanupFinishes(w: World, t: TxnId, order: seq<Consumer>)
    requires t in w.store.outbox && w.store.outbox[t].consumers != {}
    ensures var w' := Run(w, Acks(t, order));
            var waiting := Waiting(w.store.outbox[t].consumers, order);
            && w'.store.outbox == (if waiting == {} then w.store.outbox - {t}
                                   else w.store.outbox[t := w.store.outbox[t].(consumers := waiting)])
            && w' == w.(store := w.store.(outbox := w'.store.outbox))
    decreases |order|
  {
    hide Next, Waiting;
    var consumers := w.store.outbox[t].consumers;
    FirstAcked(consumers, order);
    if order != [] {
      var w1 := Next(w, Ack(t, order[0]));
      OneAck(w, t, order[0]);
      assert Acks(t, order)[1..] == Acks(t, order[1..]);
      assert Run(w, Acks(t, order)) == Run(w1, Acks(t, order[1..]));
      if consumers - {order[0]} == {} {
        NobodyWaits(order[1..]);
        AcksOfNothing(w1, t, order[1..]);
      } else {
        assert w1.store.outbox[t].consumers == consumers - {order[0]};
        CleanupFinishes(w1, t, order[1..]);
      }
    }
  }

  lemma NobodyWaits(order: seq<Consumer>)
    ensures Waiting({}, order) == {}
  {
  }

  lemma {:induction false} AcksOfNothing(w: World, t: TxnId, order: seq<Consumer>)
    requires t !in w.store.outbox
    ensures Run(w, Acks(t, order)) == w
    decreases |order|
  {
    if order != [] {
      assert Acks(t, order)[1..] == Acks(t, order[1..]);
      AcksOfNothing(w, t, order[1..]);
    }
  }
}
