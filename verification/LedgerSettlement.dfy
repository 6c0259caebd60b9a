/** What a settled revocation leaves on disk, over every run of the protocol: the files of a
    revocation that nothing interrupted (scripts/cwk_access_ledger.py:1571-1727 and 2074-2150). */
module LedgerSettlement {
  import opened Wrappers
  import opened LedgerTypes
  import opened LedgerProtocol
  import opened LedgerSafety
  import opened LedgerTheorems
  import A = AccessLedger
  import R = LedgerRecovery
  import LedgerRefinement

  // ---------------------------------------------------------------------
  // Exact facts
  // ---------------------------------------------------------------------

  /** A receipt says what its grant and its tombstone say. */
  ghost predicate ReceiptExact(s: Store, t: TxnId)
    requires t in s.receipts
  {
    var r := s.receipts[t];
    && r.key in s.tombstones && r.key in s.grants && s.tombstones[r.key].txn == t
    && r == Receipt(t, r.key, s.grants[r.key].epoch, s.tombstones[r.key].epochAtRevoke, s.grants[r.key].revision, s.tombstones[r.key],
                    Outbox(r.key, s.tombstones[r.key].epochAtRevoke, t, {TenantView, SpaceIndex, Cache}, r.outbox.createdAt),
                    s.tombstones[r.key].revokedAt)
  }

  /** A queued task names its tombstone, and the consumers that still have to clean up. */
  ghost predicate TaskExact(s: Store, t: TxnId)
    requires t in s.outbox
  {
    var ob := s.outbox[t];
    && ob.key in s.tombstones && s.tombstones[ob.key].txn == t
    && ob == Outbox(ob.key, s.tombstones[ob.key].epochAtRevoke, t, ob.consumers, ob.createdAt)
    && ob.consumers <= {TenantView, SpaceIndex, Cache}
  }

  /** A tombstone has its receipt, or its journal is still there. */
  ghost predicate Accounted(s: Store) {
    forall k :: k in s.tombstones ==> s.tombstones[k].txn in s.receipts || s.tombstones[k].txn in s.intents
  }

  ghost predicate FilesExact(s: Store) {
    && (forall t :: t in s.receipts ==> ReceiptExact(s, t))
    && (forall t :: t in s.outbox ==> TaskExact(s, t))
    && Accounted(s)
  }

  ghost predicate PcExact(s: Store, pc: PC) {
    match pc
    case WriteOutbox(i, at, rev, e) => Marked(s, i, at, rev)
    case WriteReceipt(i, at, rev, e, ob) => Marked(s, i, at, rev) && ob == OutboxOf(i, e, ob.createdAt)
    case UnlinkIntent(i) => i.txn in s.receipts
    case RecoverUnlink(i) => i.txn in s.receipts
    case _ => true
  }

  ghost predicate Exact(w: World) {
    Inv(w) && FilesExact(w.store) && forall p :: p in w.pcs ==> PcExact(w.store, w.pcs[p])
  }

  // ---------------------------------------------------------------------
  // Every action keeps them
  // ---------------------------------------------------------------------

  lemma TombstonedIsFrozen(s: Store, s': Store, used: map<TxnId, GrantKey>, k: GrantKey)
    requires StoreInv(s, used) && Evolves(s, s') && k in s.tombstones
    ensures k in s.grants && k in s'.grants && s'.grants[k] == s.grants[k] && s'.tombstones[k] == s.tombstones[k]
  {
    assert TombstoneOk(s, k);
  }

  lemma OldReceiptStays(s: Store, s': Store, used: map<TxnId, GrantKey>, t: TxnId)
    requires StoreInv(s, used) && Evolves(s, s') && t in s.receipts && ReceiptExact(s, t)
    ensures t in s'.receipts && ReceiptExact(s', t)
  {
    TombstonedIsFrozen(s, s', used, s.receipts[t].key);
  }

  lemma OldTaskStays(s: Store, s': Store, t: TxnId)
    requires Evolves(s, s') && t in s.outbox && TaskExact(s, t) && t in s'.outbox
    requires s'.outbox[t] == s.outbox[t].(consumers := s'.outbox[t].consumers) && s'.outbox[t].consumers <= s.outbox[t].consumers
    ensures TaskExact(s', t)
  {
  }

  lemma MarkedStays(s: Store, s': Store, used: map<TxnId, GrantKey>, i: Intent, at: Time, rev: nat)
    requires Evolves(s, s') && TxnOk(s, used, i) && Marked(s, i, at, rev)
    ensures Marked(s', i, at, rev)
  {
    DurableIsPending(s, i);
  }

  lemma OtherPcStays(s: Store, s': Store, used: map<TxnId, GrantKey>, pc: PC)
    requires Evolves(s, s') && PcOk(s, used, pc) && PcExact(s, pc)
    ensures PcExact(s', pc)
  {
    match pc {
      case WriteOutbox(i, at, rev, e) => MarkedStays(s, s', used, i, at, rev);
      case WriteReceipt(i, at, rev, e, ob) => MarkedStays(s, s', used, i, at, rev);
      case _ =>
    }
  }

  /** A change of the files that adds only exact facts. */
  ghost predicate AddsExact(s: Store, s': Store) {
    && (forall t :: t in s'.receipts && t !in s.receipts ==> ReceiptExact(s', t))
    && (forall t :: t in s'.outbox ==>
          if t in s.outbox then s'.outbox[t] == s.outbox[t].(consumers := s'.outbox[t].consumers) && s'.outbox[t].consumers <= s.outbox[t].consumers
          else TaskExact(s', t))
    && (forall k :: k in s'.tombstones && k !in s.tombstones ==> s'.tombstones[k].txn in s'.intents)
    && (forall t :: t in s.intents && t !in s'.intents ==> t in s.receipts)
  }

  lemma FilesStayExact(s: Store, s': Store, used: map<TxnId, GrantKey>)
    requires StoreInv(s, used) && Evolves(s, s') && FilesExact(s) && AddsExact(s, s')
    ensures FilesExact(s')
  {
    hide StoreInv, Evolves, ReceiptExact, TaskExact;
    forall t | t in s'.receipts ensures ReceiptExact(s', t) { if t in s.receipts { OldReceiptStays(s, s', used, t); } }
    forall t | t in s'.outbox ensures TaskExact(s', t) { if t in s.outbox { OldTaskStays(s, s', t); } }
    AccountedStays(s, s');
  }

  lemma AccountedStays(s: Store, s': Store)
    requires Evolves(s, s') && Accounted(s) && AddsExact(s, s')
    ensures Accounted(s')
  {
    hide ReceiptExact, TaskExact;
    forall k | k in s'.tombstones ensures s'.tombstones[k].txn in s'.receipts || s'.tombstones[k].txn in s'.intents {
      if k in s.tombstones { assert s'.tombstones[k] == s.tombstones[k]; }
    }
  }

  // The steps that add a fact or take a journal away.

  lemma SameFilesAdd(s: Store, s': Store)
    requires s'.receipts == s.receipts && s'.outbox == s.outbox && s'.tombstones == s.tombstones && s'.intents.Keys >= s.intents.Keys
    ensures AddsExact(s, s')
  {
  }

  lemma TombstoneAdds(w: World, p: Pid, i: Intent, at: Time, rev: nat, e: nat)
    requires Exact(w) && Pc(w, p) == WriteTombstone(i, at, rev, e)
    ensures var w' := TombstoneStep(w, p, i, at, rev, e); AddsExact(w.store, w'.store) && PcExact(w'.store, Pc(w', p))
  {
    KnownPc(w, p);
    hide Exact, Inv;
  }

  lemma OutboxAdds(w: World, p: Pid, i: Intent, at: Time, rev: nat, e: nat)
    requires Exact(w) && Pc(w, p) == WriteOutbox(i, at, rev, e)
    ensures var w' := OutboxStep(w, p, i, at, rev, e); AddsExact(w.store, w'.store) && PcExact(w'.store, Pc(w', p))
  {
    KnownPc(w, p);
    hide Exact, Inv;
  }

  lemma FreshReceipt(s: Store, used: map<TxnId, GrantKey>, i: Intent, at: Time, rev: nat, e: nat, ob: Outbox)
    requires TxnOk(s, used, i) && Tombed(s, i, at, e) && Marked(s, i, at, rev) && ob == OutboxOf(i, e, ob.createdAt)
    ensures ReceiptOf(i, at, rev, e, ob).txn == i.txn
    ensures ReceiptExact(PutReceipt(s, ReceiptOf(i, at, rev, e, ob)), i.txn)
  {
  }

  lemma KnownReceiptFacts(s: Store, used: map<TxnId, GrantKey>, i: Intent, at: Time, rev: nat, e: nat, ob: Outbox)
    requires PcOk(s, used, WriteReceipt(i, at, rev, e, ob)) && PcExact(s, WriteReceipt(i, at, rev, e, ob))
    ensures ReceiptExact(PutReceipt(s, ReceiptOf(i, at, rev, e, ob)), i.txn)
  {
    FreshReceipt(s, used, i, at, rev, e, ob);
  }

  lemma ReceiptStepAdds(w: World, p: Pid, i: Intent, at: Time, rev: nat, e: nat, ob: Outbox)
    requires ReceiptExact(PutReceipt(w.store, ReceiptOf(i, at, rev, e, ob)), i.txn)
    ensures var w' := ReceiptStep(w, p, i, at, rev, e, ob); AddsExact(w.store, w'.store) && PcExact(w'.store, Pc(w', p))
  {
    hide ReceiptExact, TaskExact, Held, Marked;
  }

  lemma ReceiptAdds(w: World, p: Pid, i: Intent, at: Time, rev: nat, e: nat, ob: Outbox)
    requires Exact(w) && Pc(w, p) == WriteReceipt(i, at, rev, e, ob)
    ensures var w' := ReceiptStep(w, p, i, at, rev, e, ob); AddsExact(w.store, w'.store) && PcExact(w'.store, Pc(w', p))
  {
    KnownPc(w, p);
    hide Exact, Inv;
    KnownReceiptFacts(w.store, w.used, i, at, rev, e, ob);
    hide PcOk, PcExact, ReceiptExact, TaskExact;
    ReceiptStepAdds(w, p, i, at, rev, e, ob);
  }

  lemma UnlinkAdds(w: World, p: Pid, i: Intent)
    requires Exact(w) && (Pc(w, p) == UnlinkIntent(i) || Pc(w, p) == RecoverUnlink(i))
    ensures var w' := UnlinkStep(w, p, i); AddsExact(w.store, w'.store) && PcExact(w'.store, Pc(w', p))
  {
    KnownPc(w, p);
    hide Exact, Inv;
  }

  lemma KnownPc(w: World, p: Pid)
    requires Exact(w)
    ensures PcOk(w.store, w.used, Pc(w, p)) && PcExact(w.store, Pc(w, p))
  {
  }

  predicate AddsFacts(pc: PC) { pc.WriteTombstone? || pc.WriteOutbox? || pc.WriteReceipt? || pc.UnlinkIntent? || pc.RecoverUnlink? }

  lemma WriteLeavesFacts(w: World, p: Pid, op: Op, k: GrantKey, e: nat, seen: Option<Grant>)
    ensures var w' := WriteStep(w, p, op, k, e, seen);
            w'.store == w.store.(grants := w'.store.grants) && Pc(w', p) == Idle
  {
    hide Apply1, Held;
  }

  lemma GrantWritesAdd(w: World, p: Pid, t: TxnId, q: Time)
    requires Pc(w, p).WriteGrant? || Pc(w, p).WriteIntent? || Pc(w, p).MarkRevoked? || Pc(w, p).BumpEpoch?
    ensures var w' := Advance(w, p, t, q); AddsExact(w.store, w'.store) && PcExact(w'.store, Pc(w', p))
  {
    hide ReceiptExact, TaskExact, Apply1, AddsExact, WriteStep, Held;
    match Pc(w, p) {
      case WriteGrant(op, k, e, seen) => WriteLeavesFacts(w, p, op, k, e, seen);
      case _ =>
    }
    SameFilesAdd(w.store, Advance(w, p, t, q).store);
  }

  lemma QuietStepsAdd(w: World, p: Pid, t: TxnId, q: Time)
    requires !Writes(Pc(w, p)) && PcOk(w.store, w.used, Pc(w, p))
    ensures var w' := Advance(w, p, t, q); w'.store == w.store && PcExact(w'.store, Pc(w', p))
  {
    OthersWriteNothing(w, p, t, q);
  }

  lemma AdvanceAdds(w: World, p: Pid, t: TxnId, q: Time)
    requires Exact(w)
    ensures var w' := Advance(w, p, t, q); AddsExact(w.store, w'.store) && PcExact(w'.store, Pc(w', p))
  {
    hide Exact, AddsExact, PcExact, TombstoneStep, OutboxStep, ReceiptStep, UnlinkStep, PcOk;
    KnownPc(w, p);
    match Pc(w, p) {
      case WriteTombstone(i, at, rev, e) => TombstoneAdds(w, p, i, at, rev, e);
      case WriteOutbox(i, at, rev, e) => OutboxAdds(w, p, i, at, rev, e);
      case WriteReceipt(i, at, rev, e, ob) => ReceiptAdds(w, p, i, at, rev, e, ob);
      case UnlinkIntent(i) => UnlinkAdds(w, p, i);
      case RecoverUnlink(i) => UnlinkAdds(w, p, i);
      case _ => OtherStepsAdd(w, p, t, q);
    }
  }

  lemma OtherStepsAdd(w: World, p: Pid, t: TxnId, q: Time)
    requires !AddsFacts(Pc(w, p)) && PcOk(w.store, w.used, Pc(w, p))
    ensures var w' := Advance(w, p, t, q); AddsExact(w.store, w'.store) && PcExact(w'.store, Pc(w', p))
  {
    hide Advance, AddsExact, PcExact, PcOk;
    if Writes(Pc(w, p)) { GrantWritesAdd(w, p, t, q); } else { QuietStepsAdd(w, p, t, q); SameFilesAdd(w.store, w.store); }
  }

  lemma AckAdds(s: Store, t: TxnId, c: Consumer)
    ensures AddsExact(s, AckStep(s, t, c))
  {
    hide ReceiptExact, TaskExact;
  }

  lemma BeginAdds(w: World, p: Pid, call: Call)
    ensures Begin(w, p, call).store == w.store
    ensures PcExact(w.store, Pc(Begin(w, p, call), p)) || Begin(w, p, call) == w
  {
  }

  lemma NextAdds(w: World, a: Action)
    requires Exact(w)
    ensures AddsExact(w.store, Next(w, a).store)
    ensures forall p :: p in Next(w, a).pcs ==> Pc(Next(w, a), p) == Pc(w, p) || PcExact(Next(w, a).store, Pc(Next(w, a), p))
  {
    hide Exact, AddsExact, PcExact, Advance, Begin, AckStep;
    match a {
      case Go(p, t, q) => AdvanceAdds(w, p, t, q);
      case Start(p, call) => BeginAdds(w, p, call); SameFilesAdd(w.store, w.store);
      case Ack(t, c) => AckAdds(w.store, t, c);
      case Crash(p) => SameFilesAdd(w.store, w.store); IdleExact(w.store);
      case _ => SameFilesAdd(w.store, Next(w, a).store);
    }
  }

  lemma IdleExact(s: Store)
    ensures PcExact(s, Idle)
  {
  }

  lemma NextKeepsExact(w: World, a: Action)
    requires Exact(w)
    ensures Exact(Next(w, a))
  {
    hide Next, Evolves, PcExact, AddsExact, FilesExact;
    var w' := Next(w, a);
    NextKeeps(w, a);
    NextEvolves(w, a);
    NextAdds(w, a);
    assert StoreInv(w.store, w.used) && FilesExact(w.store);
    FilesStayExact(w.store, w'.store, w.used);
    forall p | p in w'.pcs ensures PcExact(w'.store, w'.pcs[p]) {
      assert w'.pcs[p] == Pc(w', p);
      KnownPc(w, p);
      if Pc(w', p) == Pc(w, p) { OtherPcStays(w.store, w'.store, w.used, Pc(w, p)); }
    }
  }

  lemma {:induction false} RunKeepsExact(w: World, actions: seq<Action>)
    requires Exact(w)
    ensures Exact(Run(w, actions))
    decreases |actions|
  {
    hide Exact, Next;
    if actions != [] {
      NextKeepsExact(w, actions[0]);
      RunKeepsExact(Next(w, actions[0]), actions[1..]);
    }
  }

  lemma EmptyLedgerIsExact(w: World)
    requires w.store.grants == map[] && w.store.intents == map[] && w.store.tombstones == map[] && w.store.receipts == map[]
    requires w.store.outbox == map[] && w.locks == map[] && w.pcs == map[] && w.used == map[] && w.accepted == map[]
    ensures Exact(w)
  {
    EmptyLedgerIsOk(w);
  }

  // ---------------------------------------------------------------------
  // Crash refinement over every interleaving
  // ---------------------------------------------------------------------

  /** The transaction is on disk: its journal, or the tombstone that it wrote. */
  ghost predicate OnDisk(s: Store, i: Intent) {
    || (i.txn in s.intents && s.intents[i.txn] == i)
    || (i.key in s.tombstones && s.tombstones[i.key].txn == i.txn)
  }

  lemma JournalsOnlyUnlinked(w: World, p: Pid, t: TxnId, q: Time)
    requires !Pc(w, p).UnlinkIntent? && !Pc(w, p).RecoverUnlink? && !Pc(w, p).WriteIntent?
    ensures Advance(w, p, t, q).store.intents == w.store.intents
  {
    hide Advance;
    if !Writes(Pc(w, p)) { OthersWriteNothing(w, p, t, q); } else { FactWritesLeaveJournals(w, p, t, q); }
  }

  lemma FactWritesLeaveJournals(w: World, p: Pid, t: TxnId, q: Time)
    requires Writes(Pc(w, p)) && !Pc(w, p).UnlinkIntent? && !Pc(w, p).RecoverUnlink? && !Pc(w, p).WriteIntent?
    ensures Advance(w, p, t, q).store.intents == w.store.intents
  {
    hide WriteStep, To, End, Held, OutboxOf, ReceiptOf, TombstoneOf, RevokedCopy;
    match Pc(w, p) {
      case WriteGrant(op, k, e, seen) => WriteLeavesFacts(w, p, op, k, e, seen);
      case _ =>
    }
  }

  lemma TombstonedTxnStays(s: Store, s': Store, i: Intent)
    requires Evolves(s, s') && i.key in s.tombstones && s.tombstones[i.key].txn == i.txn
    ensures OnDisk(s', i)
  {
  }

  lemma NextKeepsTxn(w: World, a: Action, i: Intent)
    requires Inv(w) && OnDisk(w.store, i)
    ensures OnDisk(Next(w, a).store, i)
  {
    hide Advance, Begin, Inv, Evolves;
    if i.txn in w.store.intents && w.store.intents[i.txn] == i {
      match a {
        case Go(p, t, q) => AdvanceKeepsTxn(w, p, t, q, i);
        case Start(p, call) => BeginAdds(w, p, call);
        case _ =>
      }
    } else {
      NextEvolves(w, a);
      hide Next;
      TombstonedTxnStays(w.store, Next(w, a).store, i);
    }
  }

  lemma AdvanceKeepsTxn(w: World, p: Pid, t: TxnId, q: Time, i: Intent)
    requires Inv(w) && i.txn in w.store.intents && w.store.intents[i.txn] == i
    ensures OnDisk(Advance(w, p, t, q).store, i)
  {
    hide Inv;
    match Pc(w, p) {
      case UnlinkIntent(j) => UnlinkKeepsTxn(w, p, j, i);
      case RecoverUnlink(j) => UnlinkKeepsTxn(w, p, j, i);
      case WriteIntent(k, g) => FreshIntentKeepsTxn(w, p, k, g, t, i);
      case _ => JournalsOnlyUnlinked(w, p, t, q);
    }
  }

  lemma KnownUnlink(w: World, p: Pid, j: Intent, i: Intent)
    requires Inv(w) && (Pc(w, p) == UnlinkIntent(j) || Pc(w, p) == RecoverUnlink(j))
    requires i.txn in w.store.intents && w.store.intents[i.txn] == i
    ensures i.txn == j.txn ==> i.key in w.store.tombstones && w.store.tombstones[i.key].txn == i.txn
  {
    assert PcOk(w.store, w.used, w.pcs[p]);
  }

  lemma UnlinkKeepsTxn(w: World, p: Pid, j: Intent, i: Intent)
    requires Inv(w) && (Pc(w, p) == UnlinkIntent(j) || Pc(w, p) == RecoverUnlink(j))
    requires i.txn in w.store.intents && w.store.intents[i.txn] == i
    ensures OnDisk(UnlinkStep(w, p, j).store, i)
  {
    KnownUnlink(w, p, j, i);
    hide Inv, Held;
  }

  lemma FreshIntentKeepsTxn(w: World, p: Pid, k: GrantKey, g: Grant, t: TxnId, i: Intent)
    requires Inv(w) && Pc(w, p) == WriteIntent(k, g) && i.txn in w.store.intents && w.store.intents[i.txn] == i
    ensures OnDisk(IntentStep(w, p, k, g, t).store, i)
  {
    assert i.txn in w.used;
  }

  lemma {:induction false} RunKeepsTxn(w: World, actions: seq<Action>, i: Intent)
    requires Inv(w) && OnDisk(w.store, i)
    ensures OnDisk(Run(w, actions).store, i)
    decreases |actions|
  {
    hide Inv, Next, OnDisk;
    if actions != [] {
      NextKeepsTxn(w, actions[0], i);
      NextKeeps(w, actions[0]);
      RunKeepsTxn(Next(w, actions[0]), actions[1..], i);
    }
  }

  /** What one revocation leaves on disk, apart from the queued task. */
  datatype Settlement = Settlement(grant: Option<Grant>, tombstone: Option<Tombstone>, receipt: Option<Receipt>)

  function SettlementOf(s: Store, i: Intent): Settlement {
    Settlement(Lookup(s, i.key),
               if i.key in s.tombstones then Some(s.tombstones[i.key]) else None,
               if i.txn in s.receipts then Some(s.receipts[i.txn]) else None)
  }

  /** An uninterrupted revocation of a grant that is behind its tenant. */
  lemma UninterruptedSettlement(d: A.Disk, i: Intent, g: Grant, at: Time, later: Time)
    requires Lookup(d.store, i.key) == Some(g) && Allowed(g.status, Revoked) && d.store.tenantEpoch != i.before
    requires i.key !in d.store.tombstones && i.txn !in d.store.outbox && i.txn !in d.store.receipts
    ensures var e := d.store.tenantEpoch;
            var p := A.Complete(d, i, at, later, 7);
            p.outcome.Done? && SettlementOf(p.disk.store, i)
              == Settlement(Some(RevokedCopy(g, at)), Some(TombstoneOf(i, at, e)), Some(ReceiptOf(i, at, g.revision + 1, e, OutboxOf(i, e, later))))
  {
    var e := d.store.tenantEpoch;
    var d1 := A.Append(A.OnStore(d, PutGrant(d.store, i.key, RevokedCopy(g, at))), i.key, A.RevokeEvent(i, g.revision + 1));
    var d2 := A.OnStore(d1, PutTombstone(d1.store, TombstoneOf(i, at, e)));
    var d3 := A.OnStore(d2, PutOutbox(d2.store, OutboxOf(i, e, later)));
    var d4 := A.OnStore(d3, PutReceipt(d3.store, ReceiptOf(i, at, g.revision + 1, e, OutboxOf(i, e, later))));
    assert A.Unlink(d4, i, ReceiptOf(i, at, g.revision + 1, e, OutboxOf(i, e, later)), 2).outcome.Done?;
    assert A.Enqueue(d2, i, at, g.revision + 1, later, 4) == A.Unlink(d4, i, ReceiptOf(i, at, g.revision + 1, e, OutboxOf(i, e, later)), 2);
  }

  /** What is known of a tombstoned transaction whose journal is gone. */
  lemma SettledFacts(s: Store, used: map<TxnId, GrantKey>, i: Intent)
    requires StoreInv(s, used) && FilesExact(s) && OnDisk(s, i) && i.txn !in s.intents
    ensures i.key in s.tombstones && s.tombstones[i.key].txn == i.txn && s.tombstones[i.key].key == i.key
    ensures i.key in s.grants && s.grants[i.key].status == Revoked && s.grants[i.key].revokedAt == Some(s.tombstones[i.key].revokedAt)
    ensures s.grants[i.key].epoch < s.tombstones[i.key].epochAtRevoke <= s.tenantEpoch
    ensures i.txn in s.receipts && s.receipts[i.txn].key == i.key && ReceiptExact(s, i.txn)
    ensures i.txn in s.outbox ==> TaskExact(s, i.txn) && s.outbox[i.txn].key == i.key
  {
    assert TombstoneOk(s, i.key);
    assert ReceiptExact(s, i.txn);
    if i.txn in s.outbox { assert TaskExact(s, i.txn); }
  }

  /** Nothing but the journal of an unmarked transaction is on disk. */
  lemma UnsettledFacts(w: World, i: Intent)
    requires Exact(w) && i.txn in w.store.intents && w.store.intents[i.txn] == i
    requires i.key in w.store.grants && w.store.grants[i.key].status != Revoked
    ensures i.key !in w.store.tombstones && i.txn !in w.store.receipts && i.txn !in w.store.outbox
    ensures Allowed(w.store.grants[i.key].status, Revoked) && w.store.grants[i.key].epoch == i.before && Pending(w.store, i.key)
  {
    var s := w.store;
    assert Frozen(s, i);
    TombstoneMeansRevoked(s, w.used, i.key);
    FactsMeanRevoked(s, w.used, i.txn);
  }

  lemma TombstoneMeansRevoked(s: Store, used: map<TxnId, GrantKey>, k: GrantKey)
    requires StoreInv(s, used)
    ensures k in s.tombstones ==> k in s.grants && s.grants[k].status == Revoked
  {
    if k in s.tombstones { assert TombstoneOk(s, k); }
  }

  lemma FactsMeanRevoked(s: Store, used: map<TxnId, GrantKey>, t: TxnId)
    requires StoreInv(s, used) && FilesExact(s) && t in used
    ensures t in s.receipts || t in s.outbox ==> used[t] in s.grants && s.grants[used[t]].status == Revoked
  {
    if t in s.receipts { FactAt(s, used, s.receipts[t].key, t); }
    if t in s.outbox { FactAt(s, used, s.outbox[t].key, t); }
  }

  lemma FactAt(s: Store, used: map<TxnId, GrantKey>, k: GrantKey, t: TxnId)
    requires StoreInv(s, used) && k in s.tombstones && s.tombstones[k].txn == t
    ensures t in used && used[t] == k && k in s.grants && s.grants[k].status == Revoked
  {
    assert TombstoneOk(s, k);
  }

  /** Crash refinement.  Take any moment at which a journal is on disk and its grant is not yet
      marked.  However the callers, recoveries, foreign bumps, acknowledgements and crashes
      interleave from there, once the journal is gone the grant, the tombstone and the receipt
      are exactly those of an uninterrupted revocation that found the tenant at the epoch the
      tombstone names, and whatever is left of the queued task bears its header. */
  lemma SettledAsUninterrupted(w: World, actions: seq<Action>, i: Intent)
    requires Exact(w) && i.txn in w.store.intents && w.store.intents[i.txn] == i
    requires i.key in w.store.grants && w.store.grants[i.key].status != Revoked
    requires i.txn !in Run(w, actions).store.intents
    ensures var s, s' := w.store, Run(w, actions).store;
            && i.key in s'.tombstones && i.txn in s'.receipts
            && var tomb, receipt := s'.tombstones[i.key], s'.receipts[i.txn];
               var alone := A.Complete(A.Disk(s.(tenantEpoch := tomb.epochAtRevoke), map[]), i, tomb.revokedAt, receipt.outbox.createdAt, 7);
               && i.before < tomb.epochAtRevoke <= s'.tenantEpoch
               && alone.outcome == A.Done(receipt)
               && SettlementOf(s', i) == SettlementOf(alone.disk.store, i)
               && (i.txn in s'.outbox ==>
                     && s'.outbox[i.txn] == OutboxOf(i, tomb.epochAtRevoke, s'.outbox[i.txn].createdAt).(consumers := s'.outbox[i.txn].consumers)
                     && s'.outbox[i.txn].consumers <= {TenantView, SpaceIndex, Cache})
  {
    hide Run, Exact, Evolves;
    var s, s' := w.store, Run(w, actions).store;
    SettledRun(w, actions, i);
    hide Pending, ReceiptExact, TaskExact;
    var tomb, receipt := s'.tombstones[i.key], s'.receipts[i.txn];
    UninterruptedSettlement(A.Disk(s.(tenantEpoch := tomb.epochAtRevoke), map[]), i, s.grants[i.key], tomb.revokedAt, receipt.outbox.createdAt);
  }

  /** The facts of `SettledAsUninterrupted`, one by one. */
  lemma SettledRun(w: World, actions: seq<Action>, i: Intent)
    requires Exact(w) && i.txn in w.store.intents && w.store.intents[i.txn] == i
    requires i.key in w.store.grants && w.store.grants[i.key].status != Revoked
    requires i.txn !in Run(w, actions).store.intents
    ensures var s := w.store;
            && Allowed(s.grants[i.key].status, Revoked) && i.key !in s.tombstones && i.txn !in s.outbox && i.txn !in s.receipts
    ensures var s, s' := w.store, Run(w, actions).store;
            && i.key in s'.tombstones && i.key in s'.grants && i.txn in s'.receipts
            && var tomb, receipt := s'.tombstones[i.key], s'.receipts[i.txn];
               && i.before < tomb.epochAtRevoke <= s'.tenantEpoch
               && tomb == TombstoneOf(i, tomb.revokedAt, tomb.epochAtRevoke)
               && s'.grants[i.key] == RevokedCopy(s.grants[i.key], tomb.revokedAt)
               && receipt == ReceiptOf(i, tomb.revokedAt, s.grants[i.key].revision + 1, tomb.epochAtRevoke, OutboxOf(i, tomb.epochAtRevoke, receipt.outbox.createdAt))
               && (i.txn in s'.outbox ==>
                     && s'.outbox[i.txn] == OutboxOf(i, tomb.epochAtRevoke, s'.outbox[i.txn].createdAt).(consumers := s'.outbox[i.txn].consumers)
                     && s'.outbox[i.txn].consumers <= {TenantView, SpaceIndex, Cache})
  {
    hide Run, Exact, Evolves;
    var s, s' := w.store, Run(w, actions).store;
    InvOf(w);
    UnsettledFacts(w, i);
    RunKeepsExact(w, actions);
    RunKeepsTxn(w, actions, i);
    RunEvolves(w, actions);
    InvOf(Run(w, actions));
    hide Inv, FilesExact, Pending, StoreInv, OnDisk;
    SettledFacts(s', Run(w, actions).used, i);
    MarkedOnce(s, s', i.key);
  }

  lemma InvOf(w: World)
    requires Exact(w)
    ensures Inv(w) && FilesExact(w.store) && StoreInv(w.store, w.used)
  {
  }

  lemma MarkedOnce(s: Store, s': Store, k: GrantKey)
    requires Evolves(s, s') && k in s.grants && Pending(s, k) && s.grants[k].status != Revoked
    ensures k in s'.grants && (s'.grants[k].status == Revoked ==> s'.grants[k].revokedAt.Some? && s'.grants[k] == RevokedCopy(s.grants[k], s'.grants[k].revokedAt.value))
  {
  }

  /** And the journal does go: a recovery that runs undisturbed from any state of any run settles
      an unreceipted journal exactly when the tenant's epoch has not moved since its tombstone. */
  lemma RecoverySettlesUnlessDrifted(w: World, p: Pid, i: Intent) returns (n: nat)
    requires Inv(w) && LedgerRefinement.TasksOk(w) && Pc(w, p) == ReadForMark(i)
    requires i.txn in w.store.intents && w.store.intents[i.txn] == i && i.txn !in w.store.receipts
    ensures Pc(LedgerRefinement.Steps(w, p, n), p) == Idle
    ensures i.txn in LedgerRefinement.Steps(w, p, n).store.intents <==> R.Drifted(w.store, i)
  {
    hide Inv, A.Complete;
    var d := A.Disk(w.store, map[]);
    LedgerRefinement.SoundJournals(w);
    n := LedgerRefinement.RevocationIsARun(w, d, p, i);
    R.DriftIsTheOnlyFailure(d, i, w.now, w.now);
  }
}
