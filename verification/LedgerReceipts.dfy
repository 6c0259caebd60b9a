/** When the receipt of a revocation names the bytes of the queued task, over every run
    (scripts/cwk_access_ledger.py:1640-1727). */
module LedgerReceipts {
  import opened Wrappers
  import opened LedgerTypes
  import opened LedgerProtocol
  import opened LedgerSafety
  import opened LedgerSettlement
  import A = AccessLedger
  import R = LedgerRecovery
  import LedgerRefinement

  /** The clock when each task was last queued, the clock when each process last built its copy
      of a task, and the clock of the copy that each receipt vouches for. */
  datatype Clocks = Clocks(queued: map<TxnId, Time>, built: map<Pid, Time>, vouched: map<TxnId, Time>)

  function ClocksNext(w: World, c: Clocks, a: Action): Clocks {
    if !a.Go? then c else
    match Pc(w, a.p)
    case WriteOutbox(i, _, _, _) =>
      c.(built := c.built[a.p := w.now], queued := if i.txn in w.store.outbox then c.queued else c.queued[i.txn := w.now])
    case WriteReceipt(i, _, _, _, _) =>
      if i.txn in w.store.receipts || a.p !in c.built then c else c.(vouched := c.vouched[i.txn := c.built[a.p]])
    case _ => c
  }

  function ClocksRun(w: World, c: Clocks, actions: seq<Action>): Clocks
    decreases |actions|
  {
    if actions == [] then c else ClocksRun(Next(w, actions[0]), ClocksNext(w, c, actions[0]), actions[1..])
  }

  ghost predicate TasksTell(s: Store, c: Clocks) { forall t :: t in s.outbox ==> t in c.queued && s.outbox[t].createdAt == c.queued[t] }

  ghost predicate ReceiptsTell(s: Store, c: Clocks) {
    forall t :: t in s.receipts ==> t in c.vouched && s.receipts[t].outbox.createdAt == c.vouched[t]
  }

  ghost predicate CopiesTell(w: World, c: Clocks) {
    forall p :: Pc(w, p).WriteReceipt? ==> p in c.built && Pc(w, p).ob.createdAt == c.built[p]
  }

  /** The clocks are those that the files and the processes carry. */
  ghost predicate ClocksOk(w: World, c: Clocks) { TasksTell(w.store, c) && ReceiptsTell(w.store, c) && CopiesTell(w, c) }

  // ---------------------------------------------------------------------
  // Every action keeps them
  // ---------------------------------------------------------------------

  /** The step leaves tasks and receipts, and the process is not about to write a receipt. */
  predicate Quiet(w: World, w': World, p: Pid) {
    w'.store.outbox == w.store.outbox && w'.store.receipts == w.store.receipts && !Pc(w', p).WriteReceipt?
  }

  predicate Marks(pc: PC) { pc.ReadForMark? || pc.MarkRevoked? || pc.ReadEpoch? || pc.BumpEpoch? }

  predicate Entombs(pc: PC) { pc.ReadEpochAgain? || pc.WriteTombstone? || pc.UnlinkIntent? || pc.RecoverCheck? || pc.RecoverUnlink? || pc.RecoverWantLock? }

  predicate Calls(pc: PC) {
    pc.Idle? || pc.Eligible? || pc.WantLock? || pc.ScanStart? || pc.Scanning? || pc.CheckTombstone? || pc.ReadGrant? || pc.WriteGrant? || pc.WriteIntent?
  }

  lemma MarkingIsQuiet(w: World, p: Pid, t: TxnId, q: Time)
    requires Marks(Pc(w, p))
    ensures Quiet(w, Advance(w, p, t, q), p)
  {
    hide Held, RevokedCopy;
  }

  lemma EntombingIsQuiet(w: World, p: Pid, t: TxnId, q: Time)
    requires Entombs(Pc(w, p))
    ensures Quiet(w, Advance(w, p, t, q), p)
  {
    hide Held, TombstoneOf;
  }

  lemma CallingIsQuiet(w: World, p: Pid, t: TxnId, q: Time)
    requires Calls(Pc(w, p))
    ensures Quiet(w, Advance(w, p, t, q), p)
  {
    hide Held, WriteStep;
    match Pc(w, p) {
      case WriteGrant(op, k, e, seen) => WriteLeavesFacts(w, p, op, k, e, seen);
      case _ =>
    }
  }

  /** The step that queues the task or finds it queued. */
  lemma OutboxStepIs(w: World, p: Pid, i: Intent, at: Time, rev: nat, e: nat)
    ensures var w' := OutboxStep(w, p, i, at, rev, e);
            && w'.store.receipts == w.store.receipts
            && w'.store.outbox == (if i.txn in w.store.outbox then w.store.outbox else w.store.outbox[i.txn := OutboxOf(i, e, w.now)])
            && (Pc(w', p).WriteReceipt? ==> Pc(w', p).ob == OutboxOf(i, e, w.now))
  {
    hide Held;
  }

  lemma OutboxTells(w: World, c: Clocks, p: Pid, t: TxnId, q: Time)
    requires ClocksOk(w, c) && Pc(w, p).WriteOutbox?
    ensures ClocksOk(Advance(w, p, t, q), ClocksNext(w, c, Go(p, t, q)))
  {
    var pc := Pc(w, p);
    var w', c' := OutboxStep(w, p, pc.i, pc.at, pc.revision, pc.after), ClocksNext(w, c, Go(p, t, q));
    assert w' == Advance(w, p, t, q);
    OutboxStepIs(w, p, pc.i, pc.at, pc.revision, pc.after);
    hide Advance, OutboxStep, Held;
    forall r | Pc(w', r).WriteReceipt? ensures r in c'.built && Pc(w', r).ob.createdAt == c'.built[r] { if r != p { assert Pc(w', r) == Pc(w, r); } }
  }

  lemma ReceiptTells(w: World, c: Clocks, p: Pid, t: TxnId, q: Time)
    requires ClocksOk(w, c) && Pc(w, p).WriteReceipt?
    ensures ClocksOk(Advance(w, p, t, q), ClocksNext(w, c, Go(p, t, q)))
  {
    hide Held;
    var pc := Pc(w, p);
    var w', c' := ReceiptStep(w, p, pc.i, pc.at, pc.revision, pc.after, pc.ob), ClocksNext(w, c, Go(p, t, q));
    assert w'.store.outbox == w.store.outbox && !Pc(w', p).WriteReceipt?;
    forall r | Pc(w', r).WriteReceipt? ensures r in c'.built && Pc(w', r).ob.createdAt == c'.built[r] { assert Pc(w', r) == Pc(w, r); }
  }

  lemma QuietStepTells(w: World, w': World, p: Pid, c: Clocks)
    requires ClocksOk(w, c) && Quiet(w, w', p)
    requires forall q :: q != p ==> Pc(w', q) == Pc(w, q)
    ensures ClocksOk(w', c)
  {
    forall r | Pc(w', r).WriteReceipt? ensures r in c.built && Pc(w', r).ob.createdAt == c.built[r] { assert Pc(w', r) == Pc(w, r); }
  }

  lemma GoTells(w: World, c: Clocks, p: Pid, t: TxnId, q: Time)
    requires ClocksOk(w, c)
    ensures ClocksOk(Advance(w, p, t, q), ClocksNext(w, c, Go(p, t, q)))
  {
    hide Advance, ClocksOk;
    var pc := Pc(w, p);
    if pc.WriteOutbox? {
      OutboxTells(w, c, p, t, q);
    } else if pc.WriteReceipt? {
      ReceiptTells(w, c, p, t, q);
    } else {
      if Marks(pc) { MarkingIsQuiet(w, p, t, q); } else if Entombs(pc) { EntombingIsQuiet(w, p, t, q); } else { CallingIsQuiet(w, p, t, q); }
      QuietStepTells(w, Advance(w, p, t, q), p, c);
    }
  }

  lemma AckTells(s: Store, t: TxnId, x: Consumer, c: Clocks)
    requires TasksTell(s, c)
    ensures TasksTell(AckStep(s, t, x), c) && AckStep(s, t, x).receipts == s.receipts
  {
  }

  lemma StartTells(w: World, p: Pid, call: Call)
    ensures Begin(w, p, call).store == w.store && (Pc(Begin(w, p, call), p) == Pc(w, p) || !Pc(Begin(w, p, call), p).WriteReceipt?)
  {
  }

  lemma NextTells(w: World, c: Clocks, a: Action)
    requires ClocksOk(w, c)
    ensures ClocksOk(Next(w, a), ClocksNext(w, c, a))
  {
    hide Advance, Begin, AckStep, Held;
    match a {
      case Go(p, t, q) => GoTells(w, c, p, t, q);
      case Start(p, call) =>
        StartTells(w, p, call);
        forall r | Pc(Begin(w, p, call), r).WriteReceipt? ensures r in c.built && Pc(Begin(w, p, call), r).ob.createdAt == c.built[r] {
          assert Pc(Begin(w, p, call), r) == Pc(w, r);
        }
      case Ack(t, x) =>
        AckTells(w.store, t, x, c);
        forall r ensures Pc(Next(w, a), r) == Pc(w, r) {}
      case Crash(p) => QuietStepTells(w, End(w, p, Idle), p, c);
      case _ => forall r ensures Pc(Next(w, a), r) == Pc(w, r) {}
    }
  }

  lemma {:induction false} RunTells(w: World, c: Clocks, actions: seq<Action>)
    requires ClocksOk(w, c)
    ensures ClocksOk(Run(w, actions), ClocksRun(w, c, actions))
    decreases |actions|
  {
    hide ClocksOk, Next, ClocksNext;
    if actions != [] {
      NextTells(w, c, actions[0]);
      RunTells(Next(w, actions[0]), ClocksNext(w, c, actions[0]), actions[1..]);
    }
  }

  /** The fresh ledger directory. */
  lemma EmptyLedgerTells(w: World)
    requires w.store.grants == map[] && w.store.intents == map[] && w.store.tombstones == map[] && w.store.receipts == map[]
    requires w.store.outbox == map[] && w.locks == map[] && w.pcs == map[] && w.used == map[] && w.accepted == map[]
    ensures Exact(w) && ClocksOk(w, Clocks(map[], map[], map[]))
  {
    EmptyLedgerIsExact(w);
  }

  // ---------------------------------------------------------------------
  // When the receipt names the task
  // ---------------------------------------------------------------------

  /** Over every interleaving of callers, recoveries, foreign bumps, acknowledgements and
      crashes: the copy that a receipt vouches for is the task on disk, acknowledged consumers
      aside, exactly when the process that wrote the receipt built its copy at the clock reading
      at which the task was last queued. */
  lemma ReceiptNamesTheTask(w: World, c: Clocks, actions: seq<Action>, t: TxnId)
    requires Exact(w) && ClocksOk(w, c)
    requires t in Run(w, actions).store.receipts && t in Run(w, actions).store.outbox
    ensures var s', c' := Run(w, actions).store, ClocksRun(w, c, actions);
            && t in c'.queued && t in c'.vouched
            && (s'.outbox[t].(consumers := s'.receipts[t].outbox.consumers) == s'.receipts[t].outbox <==> c'.queued[t] == c'.vouched[t])
  {
    var s' := Run(w, actions).store;
    hide Run, ClocksRun, Exact, StoreInv;
    RunTells(w, c, actions);
    RunKeepsExact(w, actions);
    InvOf(Run(w, actions));
    KnownPair(s', Run(w, actions).used, t);
  }

  lemma KnownPair(s: Store, used: map<TxnId, GrantKey>, t: TxnId)
    requires StoreInv(s, used) && FilesExact(s) && t in s.receipts && t in s.outbox
    ensures s.outbox[t].(consumers := s.receipts[t].outbox.consumers, createdAt := s.receipts[t].outbox.createdAt) == s.receipts[t].outbox
  {
    assert ReceiptExact(s, t) && TaskExact(s, t);
    assert TombstoneOk(s, s.receipts[t].key) && TombstoneOk(s, s.outbox[t].key);
    assert used[t] == s.receipts[t].key && used[t] == s.outbox[t].key;
  }

  /** From the moment the process queues the task until a recovery of its journal looks for the
      grant: it dies, time passes. */
  function DiesAfterQueueing(w: World, p: Pid, q: Pid, t: TxnId, later: Time): World {
    Run(w, [Go(p, 0, 0), Crash(p), Tick(later), Start(q, CallRecover(t)), Go(q, 0, 0), Go(q, 0, 0)])
  }

  /** A revoker that dies between queueing the task and writing its receipt, and a recovery at
      any later time: the receipt vouches for bytes that are not on disk. */
  lemma ReceiptOfALaterTime(w: World, p: Pid, q: Pid, i: Intent, at: Time, rev: nat, later: Time) returns (n: nat)
    requires Exact(w) && Pc(w, p) == WriteOutbox(i, at, rev, w.store.tenantEpoch) && Pc(w, q).Idle? && p != q
    requires i.txn in w.store.intents && w.store.intents[i.txn] == i && i.txn !in w.store.outbox && i.txn !in w.store.receipts
    requires later > w.now
    ensures var s' := LedgerRefinement.Steps(DiesAfterQueueing(w, p, q, i.txn, later), q, n).store;
            && i.txn !in s'.intents && i.txn in s'.receipts && i.txn in s'.outbox
            && s'.receipts[i.txn].outbox == s'.outbox[i.txn].(createdAt := later) && s'.outbox[i.txn].createdAt == w.now
  {
    KnownPc(w, p);
    BehindItsTombstone(w, p, i, at, rev);
    DeathLeaves(w, p, q, i, at, rev, later);
    hide Exact, DiesAfterQueueing;
    var w1 := DiesAfterQueueing(w, p, q, i.txn, later);
    var d := A.Disk(w1.store, map[]);
    n := LedgerRefinement.RevocationIsARun(w1, d, q, i);
    CompletesTheQueued(d, i, at, rev, w.now, later);
  }

  lemma BehindItsTombstone(w: World, p: Pid, i: Intent, at: Time, rev: nat)
    requires Exact(w) && Pc(w, p) == WriteOutbox(i, at, rev, w.store.tenantEpoch)
    ensures i.before < w.store.tenantEpoch && Held(Pc(w, p)) == Some(i.key) && i.key in w.locks
  {
    KnownPc(w, p);
    assert TombstoneOk(w.store, i.key);
  }

  lemma DeathLeaves(w: World, p: Pid, q: Pid, i: Intent, at: Time, rev: nat, later: Time)
    requires Pc(w, p) == WriteOutbox(i, at, rev, w.store.tenantEpoch) && Pc(w, q).Idle? && p != q && i.key in w.locks
    requires i.txn in w.store.intents && w.store.intents[i.txn] == i && i.txn !in w.store.outbox && i.txn !in w.store.receipts
    requires later > w.now
    ensures var w' := DiesAfterQueueing(w, p, q, i.txn, later);
            && w'.store == PutOutbox(w.store, OutboxOf(i, w.store.tenantEpoch, w.now)) && w'.now == later && Pc(w', q) == ReadForMark(i)
  {
    var xs := [Go(p, 0, 0), Crash(p), Tick(later), Start(q, CallRecover(i.txn)), Go(q, 0, 0), Go(q, 0, 0)];
    QueuesThenDies(w, p, q, i, at, rev, later);
    var w3 := Next(Next(Next(w, Go(p, 0, 0)), Crash(p)), Tick(later));
    ComesForTheLock(w3, q, i);
    hide Next;
    SixActions(w, xs);
  }

  lemma QueuesThenDies(w: World, p: Pid, q: Pid, i: Intent, at: Time, rev: nat, later: Time)
    requires Pc(w, p) == WriteOutbox(i, at, rev, w.store.tenantEpoch) && p != q
    requires i.txn !in w.store.outbox && later > w.now
    ensures var w3 := Next(Next(Next(w, Go(p, 0, 0)), Crash(p)), Tick(later));
            && w3.store == PutOutbox(w.store, OutboxOf(i, w.store.tenantEpoch, w.now)) && w3.now == later
            && i.key !in w3.locks && Pc(w3, q) == Pc(w, q)
  {
    var w1 := OutboxStep(w, p, i, at, rev, w.store.tenantEpoch);
    assert Advance(w, p, 0, 0) == w1 && Held(Pc(w1, p)) == Some(i.key);
    hide Advance, Held;
    var w2 := End(w1, p, Idle);
    assert i.key !in w2.locks && Pc(w2, q) == Pc(w1, q);
  }

  lemma ComesForTheLock(w: World, q: Pid, i: Intent)
    requires Pc(w, q).Idle? && i.key !in w.locks
    requires i.txn in w.store.intents && w.store.intents[i.txn] == i && i.txn !in w.store.receipts
    ensures var w6 := Next(Next(Next(w, Start(q, CallRecover(i.txn))), Go(q, 0, 0)), Go(q, 0, 0));
            w6.store == w.store && w6.now == w.now && Pc(w6, q) == ReadForMark(i)
  {
    var w4 := Next(w, Start(q, CallRecover(i.txn)));
    assert Pc(w4, q) == RecoverCheck(i) && w4.store == w.store;
    assert Pc(Next(w4, Go(q, 0, 0)), q) == RecoverWantLock(i);
  }

  lemma SixActions(w: World, xs: seq<Action>)
    requires |xs| == 6
    ensures Run(w, xs) == Next(Next(Next(Next(Next(Next(w, xs[0]), xs[1]), xs[2]), xs[3]), xs[4]), xs[5])
  {
    hide Next;
    var w3 := Next(Next(Next(w, xs[0]), xs[1]), xs[2]);
    assert Run(w, xs) == Run(w3, xs[3..]) by {
      assert xs[1..][1..] == xs[2..] && xs[2..][1..] == xs[3..];
      assert Run(Next(w, xs[0]), xs[1..]) == Run(Next(Next(w, xs[0]), xs[1]), xs[2..]);
    }
    assert xs[3..][1..] == xs[4..] && xs[4..][1..] == xs[5..] && xs[5..][1..] == [];
    assert Run(w3, xs[3..]) == Run(Next(w3, xs[3]), xs[4..]);
    assert Run(Next(w3, xs[3]), xs[4..]) == Run(Next(Next(w3, xs[3]), xs[4]), xs[5..]);
    assert Run(Next(Next(Next(w3, xs[3]), xs[4]), xs[5]), []) == Next(Next(Next(w3, xs[3]), xs[4]), xs[5]);
  }

  lemma CompletesTheQueued(d: A.Disk, i: Intent, at: Time, rev: nat, queued: Time, later: Time)
    requires Marked(d.store, i, at, rev) && Tombed(d.store, i, at, d.store.tenantEpoch) && i.before != d.store.tenantEpoch
    requires i.txn in d.store.outbox && d.store.outbox[i.txn] == OutboxOf(i, d.store.tenantEpoch, queued) && i.txn !in d.store.receipts
    ensures var s' := A.Complete(d, i, later, later, 7).disk.store;
            && i.txn !in s'.intents && i.txn in s'.receipts && i.txn in s'.outbox
            && s'.receipts[i.txn].outbox == s'.outbox[i.txn].(createdAt := later) && s'.outbox[i.txn].createdAt == queued
  {
    var receipt := ReceiptOf(i, at, rev, d.store.tenantEpoch, OutboxOf(i, d.store.tenantEpoch, later));
    assert A.Complete(d, i, later, later, 7) == A.Enqueue(d, i, at, rev, later, 7);
    assert A.Enqueue(d, i, at, rev, later, 7) == A.Settle(d, i, receipt, 7);
    assert A.Settle(d, i, receipt, 7) == A.Unlink(A.OnStore(d, PutReceipt(d.store, receipt)), i, receipt, 6);
  }
}
