/** The two models of the ledger agree: one caller's revocation is a run of the protocol in
    which nobody else moves, and every state that the protocol can reach is one from which
    recovery behaves as LedgerRecovery says. */
module LedgerRefinement {
  import opened LedgerTypes
  import opened LedgerProtocol
  import LedgerSafety
  import A = AccessLedger
  import R = LedgerRecovery

  /** `n` actions of one process in a row, at one instant. */
  function Steps(w: World, p: Pid, n: nat): World
    decreases n
  {
    if n == 0 then w else Steps(Advance(w, p, 0, 0), p, n - 1)
  }

  lemma OneStep(w: World, p: Pid, n: nat)
    ensures Steps(w, p, n + 1) == Steps(Advance(w, p, 0, 0), p, n)
  {
  }

  lemma UnlinkRuns(w: World, d: A.Disk, p: Pid, i: Intent, receipt: Receipt, left: nat) returns (n: nat)
    requires d.store == w.store && Pc(w, p) == UnlinkIntent(i) && left >= 1
    ensures Steps(w, p, n).store == A.Unlink(d, i, receipt, left).disk.store && Pc(Steps(w, p, n), p) == Idle
  {
    n := 1;
    OneStep(w, p, 0);
  }

  lemma ReceiptRuns(w: World, d: A.Disk, p: Pid, i: Intent, at: Time, rev: nat, e: nat, ob: Outbox, left: nat) returns (n: nat)
    requires d.store == w.store && Pc(w, p) == WriteReceipt(i, at, rev, e, ob) && left >= 2
    ensures Steps(w, p, n).store == A.Settle(d, i, ReceiptOf(i, at, rev, e, ob), left).disk.store && Pc(Steps(w, p, n), p) == Idle
  {
    hide A.Unlink;
    var w1 := Advance(w, p, 0, 0);
    if i.txn in w.store.receipts && w.store.receipts[i.txn] != ReceiptOf(i, at, rev, e, ob) {
      n := 1;
      OneStep(w, p, 0);
    } else {
      var wrote := i.txn !in w.store.receipts;
      var m := UnlinkRuns(w1, A.OnStore(d, w1.store), p, i, ReceiptOf(i, at, rev, e, ob), if wrote then left - 1 else left);
      n := m + 1;
      OneStep(w, p, m);
    }
  }

  lemma OutboxRuns(w: World, d: A.Disk, p: Pid, i: Intent, at: Time, rev: nat, left: nat) returns (n: nat)
    requires d.store == w.store && Pc(w, p) == WriteOutbox(i, at, rev, w.store.tenantEpoch) && left >= 3
    ensures Steps(w, p, n).store == A.Enqueue(d, i, at, rev, w.now, left).disk.store && Pc(Steps(w, p, n), p) == Idle
  {
    hide A.Settle;
    var w1 := Advance(w, p, 0, 0);
    if i.txn in w.store.outbox && (w.store.outbox[i.txn].key != i.key || w.store.outbox[i.txn].txn != i.txn) {
      n := 1;
      OneStep(w, p, 0);
    } else {
      var e := w.store.tenantEpoch;
      var wrote := i.txn !in w.store.outbox;
      var m := ReceiptRuns(w1, A.OnStore(d, w1.store), p, i, at, rev, e, OutboxOf(i, e, w.now), if wrote then left - 1 else left);
      n := m + 1;
      OneStep(w, p, m);
    }
  }

  lemma TombstoneRuns(w: World, d: A.Disk, p: Pid, i: Intent, at: Time, rev: nat, left: nat) returns (n: nat)
    requires d.store == w.store && Pc(w, p) == WriteTombstone(i, at, rev, w.store.tenantEpoch) && left >= 4
    ensures Steps(w, p, n).store == A.Entomb(d, i, at, rev, w.now, left).disk.store && Pc(Steps(w, p, n), p) == Idle
  {
    hide A.Enqueue;
    var w1 := Advance(w, p, 0, 0);
    if i.key in w.store.tombstones && w.store.tombstones[i.key] != TombstoneOf(i, at, w.store.tenantEpoch) {
      n := 1;
      OneStep(w, p, 0);
    } else {
      var wrote := i.key !in w.store.tombstones;
      var m := OutboxRuns(w1, A.OnStore(d, w1.store), p, i, at, rev, if wrote then left - 1 else left);
      n := m + 1;
      OneStep(w, p, m);
    }
  }

  lemma EpochAgainRuns(w: World, d: A.Disk, p: Pid, i: Intent, at: Time, rev: nat, left: nat) returns (n: nat)
    requires d.store == w.store && Pc(w, p) == ReadEpochAgain(i, at, rev) && left >= 4
    ensures Steps(w, p, n).store == A.Entomb(d, i, at, rev, w.now, left).disk.store && Pc(Steps(w, p, n), p) == Idle
  {
    hide A.Entomb;
    var m := TombstoneRuns(Advance(w, p, 0, 0), d, p, i, at, rev, left);
    n := m + 1;
    OneStep(w, p, m);
  }

  lemma BumpRuns(w: World, d: A.Disk, p: Pid, i: Intent, at: Time, rev: nat, left: nat) returns (n: nat)
    requires d.store == w.store && Pc(w, p) == ReadEpoch(i, at, rev) && left >= 5
    ensures Steps(w, p, n).store == A.Bump(d, i, at, rev, w.now, left).disk.store && Pc(Steps(w, p, n), p) == Idle
  {
    hide A.Entomb;
    var w1 := Advance(w, p, 0, 0);
    if w.store.tenantEpoch == i.before {
      var w2 := Advance(w1, p, 0, 0);
      var m := EpochAgainRuns(w2, A.OnStore(d, w2.store), p, i, at, rev, left - 1);
      n := m + 2;
      OneStep(w, p, m + 1);
      OneStep(w1, p, m);
    } else {
      var m := EpochAgainRuns(w1, A.OnStore(d, w1.store), p, i, at, rev, left);
      n := m + 1;
      OneStep(w, p, m);
    }
  }

  /** What the single-caller ledger does to the files in steps 2 to 7, the protocol does in a
      run of that one process, failures included. */
  lemma RevocationIsARun(w: World, d: A.Disk, p: Pid, i: Intent) returns (n: nat)
    requires d.store == w.store && Pc(w, p) == ReadForMark(i)
    ensures Steps(w, p, n).store == A.Complete(d, i, w.now, w.now, 7).disk.store && Pc(Steps(w, p, n), p) == Idle
  {
    hide A.Bump;
    var w1 := Advance(w, p, 0, 0);
    if i.key !in w.store.grants || (w.store.grants[i.key].status != Revoked && !Allowed(w.store.grants[i.key].status, Revoked)) {
      n := 1;
      OneStep(w, p, 0);
    } else if w.store.grants[i.key].status == Revoked {
      var g := w.store.grants[i.key];
      var m := BumpRuns(w1, d, p, i, RevocationTime(g, w.now), g.revision, 7);
      n := m + 1;
      OneStep(w, p, m);
    } else {
      n := MarkRuns(w, d, p, i);
    }
  }

  lemma MarkRuns(w: World, d: A.Disk, p: Pid, i: Intent) returns (n: nat)
    requires d.store == w.store && Pc(w, p) == ReadForMark(i)
    requires i.key in w.store.grants && w.store.grants[i.key].status != Revoked && Allowed(w.store.grants[i.key].status, Revoked)
    ensures Steps(w, p, n).store == A.Complete(d, i, w.now, w.now, 7).disk.store && Pc(Steps(w, p, n), p) == Idle
  {
    hide A.Bump;
    var g := w.store.grants[i.key];
    var w1 := Advance(w, p, 0, 0);
    var w2 := Advance(w1, p, 0, 0);
    var marked := A.Append(A.OnStore(d, PutGrant(w.store, i.key, RevokedCopy(g, w.now))), i.key, A.RevokeEvent(i, g.revision + 1));
    var m := BumpRuns(w2, marked, p, i, w.now, g.revision + 1, 5);
    n := m + 2;
    OneStep(w, p, m + 1);
    OneStep(w1, p, m);
  }

  // ---------------------------------------------------------------------
  // Reachable states are sound
  // ---------------------------------------------------------------------

  /** Queued cleanup tasks belong to the transaction they are filed under. */
  ghost predicate TasksOk(w: World) {
    forall t :: t in w.store.outbox ==> w.store.outbox[t].txn == t && t in w.used && w.used[t] == w.store.outbox[t].key
  }

  lemma AdvanceKeepsTasks(w: World, p: Pid, t: TxnId, q: Time)
    requires LedgerSafety.Inv(w) && TasksOk(w)
    ensures TasksOk(Advance(w, p, t, q))
  {
    hide LedgerSafety.Inv;
    match Pc(w, p) {
      case WriteOutbox(i, at, rev, e) => QueueKeepsTasks(w, p, i, at, rev, e);
      case WriteIntent(k, g) => IntentKeepsTasks(w, p, k, g, t);
      case _ => OthersKeepTasks(w, p, t, q);
    }
  }

  lemma QueueKeepsTasks(w: World, p: Pid, i: Intent, at: Time, rev: nat, e: nat)
    requires LedgerSafety.Inv(w) && TasksOk(w) && Pc(w, p) == WriteOutbox(i, at, rev, e)
    ensures TasksOk(OutboxStep(w, p, i, at, rev, e))
  {
    KnownTxn(w, p, i, at, rev, e);
  }

  lemma IntentKeepsTasks(w: World, p: Pid, k: GrantKey, g: Grant, t: TxnId)
    requires TasksOk(w)
    ensures TasksOk(IntentStep(w, p, k, g, t))
  {
  }

  predicate InFirstHalf(pc: PC) { pc.ReadForMark? || pc.MarkRevoked? || pc.ReadEpoch? || pc.BumpEpoch? }

  predicate InSecondHalf(pc: PC) { pc.ReadEpochAgain? || pc.WriteTombstone? || pc.WriteReceipt? || pc.UnlinkIntent? }

  lemma FirstHalfLeavesTasks(w: World, p: Pid, t: TxnId, q: Time)
    requires InFirstHalf(Pc(w, p))
    ensures Advance(w, p, t, q).store.outbox == w.store.outbox && Advance(w, p, t, q).used == w.used
  {
    hide To, End;
  }

  lemma SecondHalfLeavesTasks(w: World, p: Pid, t: TxnId, q: Time)
    requires InSecondHalf(Pc(w, p))
    ensures Advance(w, p, t, q).store.outbox == w.store.outbox && Advance(w, p, t, q).used == w.used
  {
    hide To, End;
  }

  lemma CallersLeaveTasks(w: World, p: Pid, t: TxnId, q: Time)
    requires !InFirstHalf(Pc(w, p)) && !InSecondHalf(Pc(w, p)) && !Pc(w, p).WriteOutbox? && !Pc(w, p).WriteIntent?
    ensures Advance(w, p, t, q).store.outbox == w.store.outbox && Advance(w, p, t, q).used == w.used
  {
    hide To, End, Acquire;
  }

  lemma OthersKeepTasks(w: World, p: Pid, t: TxnId, q: Time)
    requires TasksOk(w) && !Pc(w, p).WriteOutbox? && !Pc(w, p).WriteIntent?
    ensures TasksOk(Advance(w, p, t, q))
  {
    hide Advance;
    if InFirstHalf(Pc(w, p)) { FirstHalfLeavesTasks(w, p, t, q); }
    else if InSecondHalf(Pc(w, p)) { SecondHalfLeavesTasks(w, p, t, q); }
    else { CallersLeaveTasks(w, p, t, q); }
  }

  lemma KnownTxn(w: World, p: Pid, i: Intent, at: Time, rev: nat, e: nat)
    requires LedgerSafety.Inv(w) && Pc(w, p) == WriteOutbox(i, at, rev, e)
    ensures i.txn in w.used && w.used[i.txn] == i.key
  {
    assert LedgerSafety.PcOk(w.store, w.used, w.pcs[p]);
  }

  lemma CallKeepsTasks(w: World, p: Pid, call: Call)
    requires TasksOk(w)
    ensures TasksOk(Begin(w, p, call))
  {
  }

  lemma NextKeepsTasks(w: World, a: Action)
    requires LedgerSafety.Inv(w) && TasksOk(w)
    ensures TasksOk(Next(w, a))
  {
    hide Advance, Begin, LedgerSafety.Inv;
    match a {
      case Go(p, t, q) => AdvanceKeepsTasks(w, p, t, q);
      case Start(p, call) => CallKeepsTasks(w, p, call);
      case _ =>
    }
  }

  lemma {:induction false} RunKeepsTasks(w: World, actions: seq<Action>)
    requires LedgerSafety.Inv(w) && TasksOk(w)
    ensures TasksOk(Run(w, actions)) && LedgerSafety.Inv(Run(w, actions))
    decreases |actions|
  {
    hide LedgerSafety.Inv, TasksOk, Next;
    if actions != [] {
      LedgerSafety.NextKeeps(w, actions[0]);
      NextKeepsTasks(w, actions[0]);
      RunKeepsTasks(Next(w, actions[0]), actions[1..]);
    }
  }

  /** Every state that any run reaches, whatever died on the way, meets what the recovery
      theorems ask for. */
  lemma ReachableIsSound(w: World, actions: seq<Action>)
    requires LedgerSafety.Inv(w) && TasksOk(w)
    ensures R.AllSound(Run(w, actions).store)
  {
    RunKeepsTasks(w, actions);
    SoundJournals(Run(w, actions));
  }

  lemma SoundJournals(w: World)
    requires LedgerSafety.Inv(w) && TasksOk(w)
    ensures R.AllSound(w.store)
  {
    var s := w.store;
    forall t | t in s.intents ensures s.intents[t].txn == t && R.Sound(s, s.intents[t]) {
      var i := s.intents[t];
      assert LedgerSafety.Frozen(s, i);
      if i.key in s.tombstones { assert LedgerSafety.TombstoneOk(s, i.key); }
    }
  }
}
