/** What every run of the ledger protocol keeps. */
module LedgerSafety {
  import opened Wrappers
  import opened LedgerTypes
  import opened LedgerProtocol

  // ---------------------------------------------------------------------
  // Invariants of the durable files
  // ---------------------------------------------------------------------

  /** The grant an intent was written for, before or after it was marked revoked. */
  ghost predicate Frozen(s: Store, i: Intent) {
    && i.key in s.grants
    && s.grants[i.key].epoch == i.before
    && Allowed(i.prior, Revoked)
    && (|| (s.grants[i.key].status == i.prior && s.grants[i.key].revision == i.priorRevision && i.key !in s.tombstones)
        || (s.grants[i.key].status == Revoked && s.grants[i.key].revision == i.priorRevision + 1))
  }

  /** A transaction that reached the disk: its journal is there, or its tombstone is. */
  ghost predicate Durable(s: Store, i: Intent) {
    && Frozen(s, i)
    && (|| (i.txn in s.intents && s.intents[i.txn] == i)
        || (i.key in s.tombstones && s.tombstones[i.key].txn == i.txn))
  }

  ghost predicate Pending(s: Store, k: GrantKey) {
    (exists t :: t in s.intents && s.intents[t].key == k) || k in s.tombstones
  }

  ghost predicate NoIntent(s: Store, k: GrantKey) { forall t :: t in s.intents ==> s.intents[t].key != k }

  ghost predicate TombstoneOk(s: Store, k: GrantKey)
    requires k in s.tombstones
  {
    && s.tombstones[k].key == k
    && k in s.grants
    && s.grants[k].status == Revoked
    && s.grants[k].revokedAt == Some(s.tombstones[k].revokedAt)
    && s.grants[k].epoch < s.tombstones[k].epochAtRevoke <= s.tenantEpoch
  }

  ghost predicate GrantsOk(s: Store) {
    forall k :: k in s.grants ==>
      && s.grants[k].epoch <= s.tenantEpoch
      && (s.grants[k].status == Revoked ==> s.grants[k].revokedAt.Some?)
  }

  ghost predicate IntentsOk(s: Store, used: map<TxnId, GrantKey>) {
    && (forall t :: t in s.intents ==>
         && s.intents[t].txn == t && t in used && used[t] == s.intents[t].key
         && Frozen(s, s.intents[t])
         && (s.intents[t].key in s.tombstones ==> s.tombstones[s.intents[t].key].txn == t))
    && (forall t, u :: t in s.intents && u in s.intents && s.intents[t].key == s.intents[u].key ==> t == u)
  }

  ghost predicate TombstonesOk(s: Store, used: map<TxnId, GrantKey>) {
    forall k :: k in s.tombstones ==>
      TombstoneOk(s, k) && s.tombstones[k].txn in used && used[s.tombstones[k].txn] == k
  }

  ghost predicate ReceiptsOk(s: Store, used: map<TxnId, GrantKey>) {
    forall t :: t in s.receipts ==>
      && s.receipts[t].txn == t && t in used && used[t] == s.receipts[t].key
      && s.receipts[t].key in s.tombstones && s.tombstones[s.receipts[t].key] == s.receipts[t].tombstone
      && s.receipts[t].tombstone.txn == t
  }

  ghost predicate StoreInv(s: Store, used: map<TxnId, GrantKey>) {
    GrantsOk(s) && IntentsOk(s, used) && TombstonesOk(s, used) && ReceiptsOk(s, used)
  }

  /** A signed receipt for this very grant that allows a lease. */
  predicate Backs(r: AuthorityReceipt, k: GrantKey) {
    r.key == k && r.signatureOk && (r.kind == GrantPromote || r.kind == LeaseRefresh)
  }

  /** Every lease on disk is covered by an accepted receipt. */
  ghost predicate Covered(lease: Option<Time>, a: Acceptance, k: GrantKey) {
    lease.Some? ==> lease.value <= a.receipt.expiry && lease.value <= a.at + LEASE_CAP && Backs(a.receipt, k)
  }

  ghost predicate AuthorityInv(w: World) {
    forall k :: k in w.store.grants ==>
      && (w.store.grants[k].status == Active ==> k in w.accepted && w.store.grants[k].lease.Some?)
      && (w.store.grants[k].lease.Some? ==> k in w.accepted && Covered(w.store.grants[k].lease, w.accepted[k], k))
  }

  // ---------------------------------------------------------------------
  // Invariants of the processes
  // ---------------------------------------------------------------------

  /** What is known at each point of a process's code. */
  ghost predicate PcOk(s: Store, used: map<TxnId, GrantKey>, pc: PC) {
    match pc
    case Idle => true
    case WantLock(why, k) => WhyOk(s, why, k) && !why.ForQuery?
    case ScanStart(why, k) => WhyOk(s, why, k) && (why.ForRevoke? ==> k !in s.tombstones)
    case Scanning(why, k, todo) =>
      && WhyOk(s, why, k) && (why.ForRevoke? ==> k !in s.tombstones)
      && (!why.ForQuery? ==> forall t :: t in s.intents && s.intents[t].key == k ==> t in todo)
    case CheckTombstone(why, k) => WhyOk(s, why, k) && (why.ForOp? ==> NoIntent(s, k))
    case ReadGrant(why, k) => WhyOk(s, why, k) && (!why.ForQuery? ==> NoIntent(s, k) && k !in s.tombstones)
    case WriteGrant(op, k, e, seen) =>
      && WhyOk(s, ForOp(op, e), k) && NoIntent(s, k) && k !in s.tombstones && seen == Lookup(s, k)
    case WriteIntent(k, g) =>
      NoIntent(s, k) && k !in s.tombstones && Some(g) == Lookup(s, k) && Allowed(g.status, Revoked)
    case ReadForMark(i) => TxnOk(s, used, i)
    case MarkRevoked(i, g) => TxnOk(s, used, i) && Lookup(s, i.key) == Some(g) && g.status != Revoked
    case ReadEpoch(i, at, rev) => TxnOk(s, used, i) && Marked(s, i, at, rev)
    case BumpEpoch(i, at, rev) => TxnOk(s, used, i) && Marked(s, i, at, rev)
    case ReadEpochAgain(i, at, rev) => TxnOk(s, used, i) && Marked(s, i, at, rev) && i.before < s.tenantEpoch
    case WriteTombstone(i, at, rev, e) => TxnOk(s, used, i) && Marked(s, i, at, rev) && i.before < e <= s.tenantEpoch
    case WriteOutbox(i, at, rev, e) => TxnOk(s, used, i) && Tombed(s, i, at, e)
    case WriteReceipt(i, at, rev, e, ob) => TxnOk(s, used, i) && Tombed(s, i, at, e)
    case UnlinkIntent(i) => TxnOk(s, used, i) && i.key in s.tombstones && s.tombstones[i.key].txn == i.txn
    case RecoverCheck(i) => TxnOk(s, used, i)
    case RecoverUnlink(i) => TxnOk(s, used, i) && i.key in s.tombstones && s.tombstones[i.key].txn == i.txn
    case RecoverWantLock(i) => TxnOk(s, used, i)
    case Eligible(k, g, at, basis) => g.status == Active && g.lease.Some? && at < g.lease.value && Covered(g.lease, basis, k)
  }

  ghost predicate WhyOk(s: Store, why: Reason, k: GrantKey) {
    match why
    case ForOp(op, e) => e <= s.tenantEpoch && (op.ObserveOp? ==> op.obs.Valid()) && (op.PromoteOp? ==> Backs(op.receipt, k))
    case ForRevoke => true
    case ForQuery(e) => e <= s.tenantEpoch
  }

  ghost predicate TxnOk(s: Store, used: map<TxnId, GrantKey>, i: Intent) {
    Durable(s, i) && i.txn in used && used[i.txn] == i.key
  }

  ghost predicate Marked(s: Store, i: Intent, at: Time, rev: nat) {
    && i.key in s.grants && s.grants[i.key].status == Revoked
    && s.grants[i.key].revokedAt == Some(at) && s.grants[i.key].revision == rev
  }

  ghost predicate Tombed(s: Store, i: Intent, at: Time, e: nat) {
    i.key in s.tombstones && s.tombstones[i.key] == TombstoneOf(i, at, e)
  }

  ghost predicate LocksOk(w: World) {
    forall p :: p in w.pcs && Held(w.pcs[p]).Some? ==> Held(w.pcs[p]).value in w.locks && w.locks[Held(w.pcs[p]).value] == p
  }

  ghost predicate ProcsOk(w: World) { forall p :: p in w.pcs ==> PcOk(w.store, w.used, w.pcs[p]) }

  ghost predicate Inv(w: World) {
    StoreInv(w.store, w.used) && AuthorityInv(w) && LocksOk(w) && ProcsOk(w)
  }

  // ---------------------------------------------------------------------
  // How one action may change the files
  // ---------------------------------------------------------------------

  /** What the rest of the world may rely on while one process, owning at most the lock of
      `owned`, takes a step. */
  ghost predicate Rely(s: Store, s': Store, owned: Option<GrantKey>) {
    && s.tenantEpoch <= s'.tenantEpoch
    && (forall k :: k in s.tombstones ==> k in s'.tombstones && s'.tombstones[k] == s.tombstones[k])
    && (forall k :: k in s'.tombstones && k !in s.tombstones ==> Some(k) == owned)
    && (forall k: GrantKey :: Lookup(s, k) != Lookup(s', k) ==> Some(k) == owned)
    && (forall t :: t in s'.intents && !(t in s.intents && s.intents[t] == s'.intents[t]) ==> Some(s'.intents[t].key) == owned)
    && (forall i: Intent :: Durable(s, i) ==> Durable(s', i))
  }

  lemma OthersKeep(s: Store, s': Store, used: map<TxnId, GrantKey>, used': map<TxnId, GrantKey>, owned: Option<GrantKey>, pc: PC)
    requires Rely(s, s', owned) && PcOk(s, used, pc)
    requires Held(pc).Some? ==> Held(pc) != owned
    requires forall t :: t in used ==> t in used' && used'[t] == used[t]
    ensures PcOk(s', used', pc)
  {
    match pc {
      case Scanning(why, k, todo) =>
      case CheckTombstone(why, k) =>
      case ReadGrant(why, k) =>
      case WriteGrant(op, k, e, seen) => assert Lookup(s, k) == Lookup(s', k);
      case WriteIntent(k, g) => assert Lookup(s, k) == Lookup(s', k);
      case MarkRevoked(i, g) => assert Lookup(s, i.key) == Lookup(s', i.key);
      case ReadEpoch(i, at, rev) => assert Lookup(s, i.key) == Lookup(s', i.key);
      case BumpEpoch(i, at, rev) => assert Lookup(s, i.key) == Lookup(s', i.key);
      case ReadEpochAgain(i, at, rev) => assert Lookup(s, i.key) == Lookup(s', i.key);
      case WriteTombstone(i, at, rev, e) => assert Lookup(s, i.key) == Lookup(s', i.key);
      case _ =>
    }
  }

  /** Other processes keep what they know, because the lock they rely on is theirs. */
  lemma Assemble(w: World, w': World, p: Pid, owned: Option<GrantKey>)
    requires Inv(w) && Rely(w.store, w'.store, owned)
    requires owned.Some? ==> Held(Pc(w, p)) == owned
    requires p in w'.pcs && w'.pcs == w.pcs[p := w'.pcs[p]]
    requires forall t :: t in w.used ==> t in w'.used && w'.used[t] == w.used[t]
    requires StoreInv(w'.store, w'.used) && AuthorityInv(w') && LocksOk(w')
    requires PcOk(w'.store, w'.used, w'.pcs[p])
    ensures Inv(w')
  {
    forall q | q in w'.pcs ensures PcOk(w'.store, w'.used, w'.pcs[q]) {
      if q != p {
        OthersKeep(w.store, w'.store, w.used, w'.used, owned, w.pcs[q]);
      }
    }
  }

  lemma LocksTo(w: World, w': World, p: Pid, pc: PC)
    requires LocksOk(w) && w'.locks == w.locks && w'.pcs == w.pcs[p := pc]
    requires Held(pc) == None || Held(pc) == Held(Pc(w, p))
    ensures LocksOk(w')
  {
  }

  lemma LocksEnd(w: World, w1: World, p: Pid, pc: PC)
    requires LocksOk(w) && w1.locks == w.locks && w1.pcs == w.pcs && Held(pc) == None
    ensures LocksOk(End(w1, p, pc))
  {
    assert Held(Idle) == None;
    hide Held;
  }

  /** A step that only moves the process, keeping or dropping its lock. */
  lemma MoveKeeps(w: World, p: Pid, pc: PC)
    requires Inv(w) && PcOk(w.store, w.used, pc)
    requires Held(pc) == None || Held(pc) == Held(Pc(w, p))
    ensures Inv(To(w, p, pc))
    ensures Held(pc) == None ==> Inv(End(w, p, pc))
  {
    LocksTo(w, To(w, p, pc), p, pc);
    Assemble(w, To(w, p, pc), p, None);
    if Held(pc) == None {
      LocksEnd(w, w, p, pc);
      Assemble(w, End(w, p, pc), p, None);
    }
  }

  lemma AcquireKeeps(w: World, p: Pid, k: GrantKey, pc: PC)
    requires Inv(w) && PcOk(w.store, w.used, pc) && Held(pc) == Some(k) && Held(Pc(w, p)) == None
    ensures Inv(Acquire(w, p, k, pc))
  {
    if k !in w.locks { Assemble(w, Acquire(w, p, k, pc), p, None); }
  }

  lemma BeginKeeps(w: World, p: Pid, call: Call)
    requires Inv(w)
    ensures Inv(Begin(w, p, call))
  {
    if Pc(w, p).Idle? || Pc(w, p).Eligible? {
      match call {
        case CallOp(op, k, authority) => MoveKeeps(w, p, Idle); 
          if (op.ObserveOp? ==> op.obs.Valid()) && (op.PromoteOp? ==> Verified(authority, op.receipt, op.purpose, k, w.now)) {
            MoveKeeps(w, p, WantLock(ForOp(op, w.store.tenantEpoch), k));
          }
        case CallRevoke(k) => MoveKeeps(w, p, WantLock(ForRevoke, k));
        case CallRecover(t) => if t in w.store.intents { MoveKeeps(w, p, RecoverCheck(w.store.intents[t])); }
        case CallQuery(k, snap) => if w.store.tenantEpoch == snap { MoveKeeps(w, p, ScanStart(ForQuery(snap), k)); }
      }
    }
  }

  lemma ScanKeeps(w: World, p: Pid, why: Reason, k: GrantKey, todo: set<TxnId>, t: TxnId)
    requires Inv(w) && Pc(w, p) == Scanning(why, k, todo)
    ensures Inv(ScanStep(w, p, why, k, todo, t))
  {
    MoveKeeps(w, p, Idle);
    if !(t in w.store.intents && w.store.intents[t].key == k) {
      if todo - {t} != {} { MoveKeeps(w, p, Scanning(why, k, todo - {t})); }
      else {
        assert todo <= {t};
        assert !why.ForQuery? ==> NoIntent(w.store, k);
        MoveKeeps(w, p, if why.ForRevoke? then ReadGrant(why, k) else CheckTombstone(why, k));
      }
    }
  }

  lemma ReadKeeps(w: World, p: Pid, why: Reason, k: GrantKey, q: Time)
    requires Inv(w) && Pc(w, p) == ReadGrant(why, k)
    ensures Inv(ReadStep(w, p, why, k, q))
  {
    MoveKeeps(w, p, Idle);
    var w' := ReadStep(w, p, why, k, q);
    if w'.pcs[p] != Idle { MoveKeeps(w, p, w'.pcs[p]); }
  }

  /** With the lock, the compare-and-swap of a grant file never meets a foreign write. */
  lemma GrantWriteNeverConflicts(w: World, p: Pid)
    requires Inv(w) && p in w.pcs
    ensures w.pcs[p].WriteGrant? ==> Lookup(w.store, w.pcs[p].key) == w.pcs[p].seen
    ensures w.pcs[p].MarkRevoked? ==> Lookup(w.store, w.pcs[p].i.key) == Some(w.pcs[p].grant)
  {
    assert PcOk(w.store, w.used, w.pcs[p]);
  }

  // ---------------------------------------------------------------------
  // The writes, one file at a time
  // ---------------------------------------------------------------------

  lemma DurableIsPending(s: Store, i: Intent)
    requires Durable(s, i)
    ensures Pending(s, i.key)
  {
  }

  /** A grant with no journal and no tombstone may be replaced. */
  lemma FreeGrantWrite(s: Store, used: map<TxnId, GrantKey>, k: GrantKey, h: Grant)
    requires StoreInv(s, used) && NoIntent(s, k) && k !in s.tombstones
    requires h.status != Revoked && h.epoch <= s.tenantEpoch
    ensures StoreInv(PutGrant(s, k, h), used)
    ensures Rely(s, PutGrant(s, k, h), Some(k))
  {
    var s' := PutGrant(s, k, h);
    forall t | t in s.intents ensures Frozen(s', s.intents[t]) { assert s.intents[t].key != k; }
    forall j: GrantKey | j in s.tombstones ensures TombstoneOk(s', j) { assert TombstoneOk(s, j); }
    forall i: Intent | Durable(s, i) ensures Durable(s', i) { DurableIsPending(s, i); assert i.key != k; }
  }

  /** Marking the grant of a journalled transaction. */
  lemma MarkWrite(s: Store, used: map<TxnId, GrantKey>, i: Intent, now: Time)
    requires StoreInv(s, used) && TxnOk(s, used, i) && s.grants[i.key].status != Revoked
    ensures StoreInv(PutGrant(s, i.key, RevokedCopy(s.grants[i.key], now)), used)
    ensures Rely(s, PutGrant(s, i.key, RevokedCopy(s.grants[i.key], now)), Some(i.key))
  {
    var s' := PutGrant(s, i.key, RevokedCopy(s.grants[i.key], now));
    assert forall j: GrantKey :: j in s.tombstones ==> TombstoneOk(s, j);
    forall t | t in s.intents ensures Frozen(s', s.intents[t]) { assert Frozen(s, s.intents[t]); }
    forall j: GrantKey | j in s.tombstones ensures TombstoneOk(s', j) { assert TombstoneOk(s, j); }
    forall j: Intent | Durable(s, j) ensures Durable(s', j) { assert Frozen(s, j); }
  }

  /** A fresh journal for a grant that has none. */
  lemma IntentWrite(s: Store, used: map<TxnId, GrantKey>, k: GrantKey, t: TxnId)
    requires StoreInv(s, used) && NoIntent(s, k) && k !in s.tombstones && t !in used
    requires k in s.grants && Allowed(s.grants[k].status, Revoked)
    ensures var i := Intent(t, k, s.grants[k].status, s.grants[k].revision, s.grants[k].epoch);
            && StoreInv(PutIntent(s, i), used[t := k])
            && Rely(s, PutIntent(s, i), Some(k))
            && TxnOk(PutIntent(s, i), used[t := k], i)
  {
    var i := Intent(t, k, s.grants[k].status, s.grants[k].revision, s.grants[k].epoch);
    var s' := PutIntent(s, i);
    assert t !in s.intents;
    IntentRely(s, i);
    hide Rely;
    forall u | u in s'.intents ensures Frozen(s', s'.intents[u]) { if u != t { assert Frozen(s, s.intents[u]); } }
    forall j: GrantKey | j in s.tombstones ensures TombstoneOk(s', j) { assert TombstoneOk(s, j); }
    assert Frozen(s', i);
  }

  lemma IntentRely(s: Store, i: Intent)
    requires i.txn !in s.intents
    ensures Rely(s, PutIntent(s, i), Some(i.key))
  {
    forall j: Intent | Durable(s, j) ensures Durable(PutIntent(s, i), j) { assert Frozen(s, j); }
  }

  lemma TombstoneRely(s: Store, used: map<TxnId, GrantKey>, i: Intent, at: Time, e: nat)
    requires StoreInv(s, used) && TxnOk(s, used, i) && i.key in s.grants && s.grants[i.key].status == Revoked && i.key !in s.tombstones
    ensures Rely(s, PutTombstone(s, TombstoneOf(i, at, e)), Some(i.key))
  {
    hide GrantsOk, TombstonesOk, ReceiptsOk;
    var s' := PutTombstone(s, TombstoneOf(i, at, e));
    forall j: Intent | Durable(s, j) ensures Durable(s', j) { assert Frozen(s, j); }
  }

  lemma TombstoneWrite(s: Store, used: map<TxnId, GrantKey>, i: Intent, at: Time, rev: nat, e: nat)
    requires StoreInv(s, used) && TxnOk(s, used, i) && Marked(s, i, at, rev) && i.before < e <= s.tenantEpoch
    requires i.key !in s.tombstones
    ensures StoreInv(PutTombstone(s, TombstoneOf(i, at, e)), used)
    ensures Rely(s, PutTombstone(s, TombstoneOf(i, at, e)), Some(i.key))
  {
    hide Rely;
    TombstoneRely(s, used, i, at, e);
    var s' := PutTombstone(s, TombstoneOf(i, at, e));
    assert i.txn in s.intents && s.intents[i.txn] == i;
    forall t | t in s.intents ensures Frozen(s', s.intents[t]) { assert Frozen(s, s.intents[t]); }
    forall j: GrantKey | j in s'.tombstones ensures TombstoneOk(s', j) { if j != i.key { assert TombstoneOk(s, j); } }
  }

  /** A write that touches no grant, journal or tombstone. */
  lemma QuietWrite(s: Store, s': Store, used: map<TxnId, GrantKey>)
    requires GrantsOk(s) && IntentsOk(s, used) && TombstonesOk(s, used)
    requires s'.grants == s.grants && s'.intents == s.intents && s'.tombstones == s.tombstones && s.tenantEpoch <= s'.tenantEpoch
    ensures GrantsOk(s') && IntentsOk(s', used) && TombstonesOk(s', used)
    ensures Rely(s, s', None)
  {
    forall t | t in s.intents ensures Frozen(s', s.intents[t]) { assert Frozen(s, s.intents[t]); }
    forall j: GrantKey | j in s.tombstones ensures TombstoneOk(s', j) { assert TombstoneOk(s, j); }
    forall j: Intent | Durable(s, j) ensures Durable(s', j) { assert Frozen(s, j); }
  }

  lemma ReceiptWrite(s: Store, used: map<TxnId, GrantKey>, i: Intent, at: Time, rev: nat, e: nat, ob: Outbox)
    requires StoreInv(s, used) && TxnOk(s, used, i) && Tombed(s, i, at, e)
    ensures StoreInv(PutReceipt(s, ReceiptOf(i, at, rev, e, ob)), used)
    ensures Rely(s, PutReceipt(s, ReceiptOf(i, at, rev, e, ob)), None)
  {
    hide Rely, GrantsOk, IntentsOk, TombstonesOk, Durable;
    QuietWrite(s, PutReceipt(s, ReceiptOf(i, at, rev, e, ob)), used);
  }

  lemma JournalUnlink(s: Store, used: map<TxnId, GrantKey>, i: Intent)
    requires StoreInv(s, used) && TxnOk(s, used, i) && i.key in s.tombstones && s.tombstones[i.key].txn == i.txn
    ensures StoreInv(DropIntent(s, i.txn), used)
    ensures Rely(s, DropIntent(s, i.txn), None)
  {
    var s' := DropIntent(s, i.txn);
    forall t | t in s'.intents ensures Frozen(s', s'.intents[t]) { assert Frozen(s, s.intents[t]); }
    forall j: GrantKey | j in s.tombstones ensures TombstoneOk(s', j) { assert TombstoneOk(s, j); }
    forall j: Intent | Durable(s, j) ensures Durable(s', j) { assert Frozen(s, j); }
  }

  /** The tenant's epoch only moves up; nothing on disk minds. */
  lemma EpochWrite(s: Store, used: map<TxnId, GrantKey>)
    requires StoreInv(s, used)
    ensures StoreInv(Bumped(s), used)
    ensures Rely(s, Bumped(s), None)
  {
    hide Rely, GrantsOk, IntentsOk, TombstonesOk;
    QuietWrite(s, Bumped(s), used);
  }

  /** The cleanup outbox carries no authority: any change of it is harmless. */
  lemma OutboxWrite(s: Store, used: map<TxnId, GrantKey>, outbox: map<TxnId, Outbox>)
    requires StoreInv(s, used)
    ensures StoreInv(s.(outbox := outbox), used)
    ensures Rely(s, s.(outbox := outbox), None)
  {
    hide Rely, GrantsOk, IntentsOk, TombstonesOk;
    QuietWrite(s, s.(outbox := outbox), used);
  }

  // ---------------------------------------------------------------------
  // Every action keeps the invariant
  // ---------------------------------------------------------------------

  /** What an operation may write over the grant it read. */
  lemma EndKeeps(w: World, p: Pid)
    requires Inv(w)
    ensures Inv(End(w, p, Idle))
  {
    MoveKeeps(w, p, Idle);
  }

  lemma WrittenGrant(s: Store, op: Op, k: GrantKey, seen: Option<Grant>, e: nat, now: Time)
    requires WhyOk(s, ForOp(op, e), k) && (seen.Some? ==> seen.value.epoch <= s.tenantEpoch)
    ensures match Apply1(op, seen, e, now)
            case Ok(Some(h)) =>
              && h.status != Revoked && h.epoch <= s.tenantEpoch
              && (op.PromoteOp? ==> h.lease.Some? && Covered(h.lease, Acceptance(op.receipt, now), k))
              && (!op.PromoteOp? && h.status == Active ==> seen.Some? && seen.value.status == Active)
              && (!op.PromoteOp? ==> h.lease == if seen.Some? then seen.value.lease else None)
            case _ => true
  {
    if op.PromoteOp? && seen.Some? { PromotionIsLegal(seen.value, op.purpose, op.receipt, op.ttl, e, now); }
  }

  lemma KnownToWrite(w: World, p: Pid, op: Op, k: GrantKey, e: nat, seen: Option<Grant>)
    requires Inv(w) && Pc(w, p) == WriteGrant(op, k, e, seen)
    ensures StoreInv(w.store, w.used) && WhyOk(w.store, ForOp(op, e), k) && NoIntent(w.store, k) && k !in w.store.tombstones && seen == Lookup(w.store, k)
    ensures seen.Some? ==> seen.value.epoch <= w.store.tenantEpoch
  {
    assert PcOk(w.store, w.used, w.pcs[p]);
  }

  lemma WrittenAuthority(w: World, w': World, op: Op, k: GrantKey, h: Grant)
    requires AuthorityInv(w) && w'.store.grants == w.store.grants[k := h]
    requires if op.PromoteOp? then w'.accepted == w.accepted[k := Acceptance(op.receipt, w.now)] && h.lease.Some? && Covered(h.lease, w'.accepted[k], k)
             else w'.accepted == w.accepted && (h.status == Active ==> k in w.store.grants && w.store.grants[k].status == Active)
                  && h.lease == (if k in w.store.grants then w.store.grants[k].lease else None)
    ensures AuthorityInv(w')
  {
  }

  lemma GrantLands(w: World, p: Pid, op: Op, k: GrantKey, e: nat, seen: Option<Grant>, h: Grant)
    requires Inv(w) && Pc(w, p) == WriteGrant(op, k, e, seen)
    requires Apply1(op, seen, e, w.now) == Ok(Some(h)) && Lookup(w.store, k) == seen
    ensures Inv(WriteStep(w, p, op, k, e, seen))
  {
    KnownToWrite(w, p, op, k, e, seen);
    WrittenGrant(w.store, op, k, seen, e, w.now);
    FreeGrantWrite(w.store, w.used, k, h);
    hide Rely, StoreInv, AuthorityInv, Apply1, WhyOk, NoIntent, LocksOk, Covered;
    var w' := WriteStep(w, p, op, k, e, seen);
    WrittenAuthority(w, w', op, k, h);
    LocksEnd(w, w.(store := w'.store, accepted := w'.accepted), p, Idle);
    Assemble(w, w', p, Some(k));
  }

  lemma WriteKeeps(w: World, p: Pid, op: Op, k: GrantKey, e: nat, seen: Option<Grant>)
    requires Inv(w) && Pc(w, p) == WriteGrant(op, k, e, seen)
    ensures Inv(WriteStep(w, p, op, k, e, seen))
  {
    hide Inv, Apply1;
    var r := Apply1(op, seen, e, w.now);
    if r.Ok? && r.value.Some? && Lookup(w.store, k) == seen {
      GrantLands(w, p, op, k, e, seen, r.value.value);
    } else {
      EndKeeps(w, p);
    }
  }

  lemma IntentKeeps(w: World, p: Pid, k: GrantKey, g: Grant, t: TxnId)
    requires Inv(w) && Pc(w, p) == WriteIntent(k, g)
    ensures Inv(IntentStep(w, p, k, g, t))
  {
    if t !in w.used {
      IntentWrite(w.store, w.used, k, t);
      var w' := IntentStep(w, p, k, g, t);
      LocksTo(w, w', p, w'.pcs[p]);
      Assemble(w, w', p, Some(k));
    }
  }

  lemma KnownToMark(w: World, p: Pid, i: Intent, g: Grant)
    requires Inv(w) && Pc(w, p) == MarkRevoked(i, g)
    ensures StoreInv(w.store, w.used) && TxnOk(w.store, w.used, i) && Lookup(w.store, i.key) == Some(g) && g.status != Revoked
  {
    assert PcOk(w.store, w.used, w.pcs[p]);
  }

  lemma MarkAuthority(w: World, i: Intent, g: Grant, s': Store, pcs: map<Pid, PC>)
    requires AuthorityInv(w) && Lookup(w.store, i.key) == Some(g) && s' == PutGrant(w.store, i.key, RevokedCopy(g, w.now))
    ensures AuthorityInv(w.(store := s', pcs := pcs))
  {
  }

  lemma MarkedPc(s: Store, s': Store, used: map<TxnId, GrantKey>, i: Intent, g: Grant, now: Time)
    requires TxnOk(s, used, i) && s' == PutGrant(s, i.key, RevokedCopy(g, now)) && Rely(s, s', Some(i.key))
    ensures PcOk(s', used, ReadEpoch(i, now, g.revision + 1))
  {
  }

  lemma MarkKeeps(w: World, p: Pid, i: Intent, g: Grant)
    requires Inv(w) && Pc(w, p) == MarkRevoked(i, g)
    ensures Inv(MarkStep(w, p, i, g))
  {
    KnownToMark(w, p, i, g);
    var s' := PutGrant(w.store, i.key, RevokedCopy(g, w.now));
    MarkWrite(w.store, w.used, i, w.now);
    MarkedPc(w.store, s', w.used, i, g, w.now);
    hide Rely, StoreInv, PcOk, LocksOk, AuthorityInv, TxnOk, RevokedCopy;
    var w' := MarkStep(w, p, i, g);
    MarkAuthority(w, i, g, s', w'.pcs);
    LocksTo(w, w', p, w'.pcs[p]);
    Assemble(w, w', p, Some(i.key));
  }

  /** A step that writes one file other than a grant and keeps its lock. */
  lemma Lands(w: World, w': World, p: Pid, pc: PC, owned: Option<GrantKey>)
    requires Inv(w) && w' == w.(store := w'.store, pcs := w.pcs[p := pc])
    requires StoreInv(w'.store, w.used) && Rely(w.store, w'.store, owned) && w'.store.grants == w.store.grants
    requires Held(pc) == Held(Pc(w, p)) && (owned.Some? ==> Held(Pc(w, p)) == owned)
    requires PcOk(w'.store, w.used, pc)
    ensures Inv(w')
  {
    hide Rely, StoreInv, PcOk, LocksOk, AuthorityInv, Held;
    SameAuthority(w, w');
    LocksTo(w, w', p, pc);
    Assemble(w, w', p, owned);
  }

  lemma KnownMarked(w: World, p: Pid, i: Intent, at: Time, rev: nat, e: nat)
    requires Inv(w) && Pc(w, p) == WriteTombstone(i, at, rev, e)
    ensures TxnOk(w.store, w.used, i) && Marked(w.store, i, at, rev) && i.before < e <= w.store.tenantEpoch
  {
    assert PcOk(w.store, w.used, w.pcs[p]);
  }

  lemma TombstoneLands(w: World, p: Pid, i: Intent, at: Time, rev: nat, e: nat)
    requires Inv(w) && Pc(w, p) == WriteTombstone(i, at, rev, e) && i.key !in w.store.tombstones
    ensures Inv(TombstoneStep(w, p, i, at, rev, e))
  {
    KnownMarked(w, p, i, at, rev, e);
    var s' := PutTombstone(w.store, TombstoneOf(i, at, e));
    InvParts(w);
    TombstoneWrite(w.store, w.used, i, at, rev, e);
    TombstonePc(w.store, s', w.used, i, at, rev, e);
    hide Inv, Rely, StoreInv, PcOk, Marked, TxnOk;
    Lands(w, TombstoneStep(w, p, i, at, rev, e), p, WriteOutbox(i, at, rev, e), Some(i.key));
  }

  lemma InvParts(w: World)
    requires Inv(w)
    ensures StoreInv(w.store, w.used)
  {
  }

  lemma TaskPc(s: Store, s': Store, used: map<TxnId, GrantKey>, i: Intent, at: Time, rev: nat, e: nat, ob: Outbox)
    requires TxnOk(s, used, i) && Tombed(s, i, at, e) && s' == PutOutbox(s, ob)
    ensures PcOk(s', used, WriteReceipt(i, at, rev, e, ob))
  {
  }

  lemma ReceiptPc(s: Store, s': Store, used: map<TxnId, GrantKey>, i: Intent, at: Time, e: nat)
    requires TxnOk(s, used, i) && Tombed(s, i, at, e) && s' == s.(receipts := s'.receipts)
    ensures PcOk(s', used, UnlinkIntent(i))
  {
  }

  lemma TombstonePc(s: Store, s': Store, used: map<TxnId, GrantKey>, i: Intent, at: Time, rev: nat, e: nat)
    requires TxnOk(s, used, i) && s' == PutTombstone(s, TombstoneOf(i, at, e)) && Rely(s, s', Some(i.key))
    ensures PcOk(s', used, WriteOutbox(i, at, rev, e))
  {
  }

  lemma TombstoneMatches(w: World, p: Pid, i: Intent, at: Time, rev: nat, e: nat)
    requires Inv(w) && Pc(w, p) == WriteTombstone(i, at, rev, e)
    requires i.key in w.store.tombstones && w.store.tombstones[i.key] == TombstoneOf(i, at, e)
    ensures Inv(To(w, p, WriteOutbox(i, at, rev, e)))
  {
    KnownMarked(w, p, i, at, rev, e);
    assert PcOk(w.store, w.used, WriteOutbox(i, at, rev, e));
    hide PcOk, StoreInv, TxnOk;
    MoveKeeps(w, p, WriteOutbox(i, at, rev, e));
  }

  lemma TombstoneKeeps(w: World, p: Pid, i: Intent, at: Time, rev: nat, e: nat)
    requires Inv(w) && Pc(w, p) == WriteTombstone(i, at, rev, e)
    ensures Inv(TombstoneStep(w, p, i, at, rev, e))
  {
    hide Inv;
    if i.key !in w.store.tombstones {
      TombstoneLands(w, p, i, at, rev, e);
    } else {
      EndKeeps(w, p);
      if w.store.tombstones[i.key] == TombstoneOf(i, at, e) { TombstoneMatches(w, p, i, at, rev, e); }
    }
  }

  lemma KnownTombed(w: World, p: Pid, i: Intent, at: Time, rev: nat, e: nat)
    requires Inv(w) && Pc(w, p) == WriteOutbox(i, at, rev, e)
    ensures TxnOk(w.store, w.used, i) && Tombed(w.store, i, at, e)
  {
    assert PcOk(w.store, w.used, w.pcs[p]);
  }

  lemma OutboxLands(w: World, p: Pid, i: Intent, at: Time, rev: nat, e: nat)
    requires Inv(w) && Pc(w, p) == WriteOutbox(i, at, rev, e) && i.txn !in w.store.outbox
    ensures Inv(OutboxStep(w, p, i, at, rev, e))
  {
    KnownTombed(w, p, i, at, rev, e);
    var ob := OutboxOf(i, e, w.now);
    InvParts(w);
    OutboxWrite(w.store, w.used, w.store.outbox[i.txn := ob]);
    TaskPc(w.store, PutOutbox(w.store, ob), w.used, i, at, rev, e, ob);
    hide Inv, Rely, StoreInv, PcOk, Tombed, TxnOk;
    Lands(w, OutboxStep(w, p, i, at, rev, e), p, WriteReceipt(i, at, rev, e, ob), None);
  }

  lemma OutboxMatches(w: World, p: Pid, i: Intent, at: Time, rev: nat, e: nat, ob: Outbox)
    requires Inv(w) && Pc(w, p) == WriteOutbox(i, at, rev, e)
    ensures Inv(To(w, p, WriteReceipt(i, at, rev, e, ob)))
  {
    KnownTombed(w, p, i, at, rev, e);
    assert PcOk(w.store, w.used, WriteReceipt(i, at, rev, e, ob));
    hide PcOk, StoreInv, TxnOk;
    MoveKeeps(w, p, WriteReceipt(i, at, rev, e, ob));
  }

  lemma OutboxKeeps(w: World, p: Pid, i: Intent, at: Time, rev: nat, e: nat)
    requires Inv(w) && Pc(w, p) == WriteOutbox(i, at, rev, e)
    ensures Inv(OutboxStep(w, p, i, at, rev, e))
  {
    hide Inv;
    if i.txn !in w.store.outbox {
      OutboxLands(w, p, i, at, rev, e);
    } else {
      EndKeeps(w, p);
      OutboxMatches(w, p, i, at, rev, e, OutboxOf(i, e, w.now));
    }
  }

  lemma ReceiptLands(w: World, p: Pid, i: Intent, at: Time, rev: nat, e: nat, ob: Outbox)
    requires Inv(w) && Pc(w, p) == WriteReceipt(i, at, rev, e, ob) && i.txn !in w.store.receipts
    ensures Inv(ReceiptStep(w, p, i, at, rev, e, ob))
  {
    KnownReceipt(w, p, i, at, rev, e, ob);
    var s' := PutReceipt(w.store, ReceiptOf(i, at, rev, e, ob));
    InvParts(w);
    ReceiptWrite(w.store, w.used, i, at, rev, e, ob);
    ReceiptPc(w.store, s', w.used, i, at, e);
    hide Inv, Rely, StoreInv, PcOk, Tombed, TxnOk;
    Lands(w, ReceiptStep(w, p, i, at, rev, e, ob), p, UnlinkIntent(i), None);
  }

  lemma SameAuthority(w: World, w': World)
    requires AuthorityInv(w) && w'.store.grants == w.store.grants && w'.accepted == w.accepted
    ensures AuthorityInv(w')
  {
  }

  lemma KnownReceipt(w: World, p: Pid, i: Intent, at: Time, rev: nat, e: nat, ob: Outbox)
    requires Inv(w) && Pc(w, p) == WriteReceipt(i, at, rev, e, ob)
    ensures TxnOk(w.store, w.used, i) && Tombed(w.store, i, at, e)
  {
    assert PcOk(w.store, w.used, w.pcs[p]);
  }

  lemma ReceiptMatches(w: World, p: Pid, i: Intent, at: Time, rev: nat, e: nat, ob: Outbox)
    requires Inv(w) && Pc(w, p) == WriteReceipt(i, at, rev, e, ob) && i.txn in w.store.receipts
    ensures Inv(To(w, p, UnlinkIntent(i)))
  {
    MoveKeeps(w, p, UnlinkIntent(i));
  }

  lemma ReceiptKeeps(w: World, p: Pid, i: Intent, at: Time, rev: nat, e: nat, ob: Outbox)
    requires Inv(w) && Pc(w, p) == WriteReceipt(i, at, rev, e, ob)
    ensures Inv(ReceiptStep(w, p, i, at, rev, e, ob))
  {
    hide Inv;
    if i.txn !in w.store.receipts {
      ReceiptLands(w, p, i, at, rev, e, ob);
    } else {
      EndKeeps(w, p);
      ReceiptMatches(w, p, i, at, rev, e, ob);
    }
  }

  /** Files may change under everyone's feet without any process moving. */
  lemma EnvironmentKeeps(w: World, s': Store)
    requires Inv(w) && StoreInv(s', w.used) && Rely(w.store, s', None) && s'.grants == w.store.grants
    ensures Inv(w.(store := s'))
  {
    forall q | q in w.pcs ensures PcOk(s', w.used, w.pcs[q]) {
      OthersKeep(w.store, s', w.used, w.used, None, w.pcs[q]);
    }
  }

  lemma ForeignBumpKeeps(w: World)
    requires Inv(w)
    ensures Inv(w.(store := Bumped(w.store)))
  {
    EpochWrite(w.store, w.used);
    EnvironmentKeeps(w, Bumped(w.store));
  }

  lemma AfterBump(w: World, p: Pid, i: Intent, at: Time, rev: nat)
    requires Inv(w) && Pc(w, p) == BumpEpoch(i, at, rev) && i.before < w.store.tenantEpoch
    ensures Inv(To(w, p, ReadEpochAgain(i, at, rev)))
  {
    MoveKeeps(w, p, ReadEpochAgain(i, at, rev));
  }

  lemma BumpKeeps(w: World, p: Pid, i: Intent, at: Time, rev: nat)
    requires Inv(w) && Pc(w, p) == BumpEpoch(i, at, rev)
    ensures Inv(BumpStep(w, p, i, at, rev))
  {
    if w.store.tenantEpoch != i.before {
      MoveKeeps(w, p, Idle);
    } else {
      ForeignBumpKeeps(w);
      AfterBump(Next(w, ForeignBump), p, i, at, rev);
    }
  }

  lemma ReadEpochKeeps(w: World, p: Pid, i: Intent, at: Time, rev: nat)
    requires Inv(w) && Pc(w, p) == ReadEpoch(i, at, rev)
    ensures Inv(ReadEpochStep(w, p, i, at, rev))
  {
    assert i.before <= w.store.tenantEpoch;
    if w.store.tenantEpoch == i.before { MoveKeeps(w, p, BumpEpoch(i, at, rev)); } else { MoveKeeps(w, p, ReadEpochAgain(i, at, rev)); }
  }

  lemma ReadForMarkKeeps(w: World, p: Pid, i: Intent)
    requires Inv(w) && Pc(w, p) == ReadForMark(i)
    ensures Inv(ReadForMarkStep(w, p, i))
  {
    hide IntentsOk, ReceiptsOk, TombstonesOk;
    MoveKeeps(w, p, Idle);
    var w' := ReadForMarkStep(w, p, i);
    if w'.pcs[p] != Idle { MoveKeeps(w, p, w'.pcs[p]); }
  }

  lemma UnlinkKeeps(w: World, p: Pid, i: Intent)
    requires Inv(w) && (Pc(w, p) == UnlinkIntent(i) || Pc(w, p) == RecoverUnlink(i))
    ensures Inv(UnlinkStep(w, p, i))
  {
    hide Rely, Frozen;
    var w1 := w.(store := DropIntent(w.store, i.txn));
    JournalUnlink(w.store, w.used, i);
    LocksEnd(w, w1, p, Idle);
    Assemble(w, End(w1, p, Idle), p, None);
  }

  /** Steps 2 and 3 of the recipe. */
  lemma FirstHalfKeeps(w: World, p: Pid, t: TxnId, q: Time)
    requires Inv(w)
    requires Pc(w, p).ReadForMark? || Pc(w, p).MarkRevoked? || Pc(w, p).ReadEpoch? || Pc(w, p).BumpEpoch?
    ensures Inv(Advance(w, p, t, q))
  {
    hide Inv, ReadForMarkStep, MarkStep, ReadEpochStep, BumpStep;
    match Pc(w, p) {
      case ReadForMark(i) => ReadForMarkKeeps(w, p, i);
      case MarkRevoked(i, g) => MarkKeeps(w, p, i, g);
      case ReadEpoch(i, at, rev) => ReadEpochKeeps(w, p, i, at, rev);
      case BumpEpoch(i, at, rev) => BumpKeeps(w, p, i, at, rev);
      case _ =>
    }
  }

  lemma ReadEpochAgainKeeps(w: World, p: Pid, i: Intent, at: Time, rev: nat)
    requires Inv(w) && Pc(w, p) == ReadEpochAgain(i, at, rev)
    ensures Inv(To(w, p, WriteTombstone(i, at, rev, w.store.tenantEpoch)))
  {
    MoveKeeps(w, p, WriteTombstone(i, at, rev, w.store.tenantEpoch));
  }

  /** Steps 4 to 7 of the recipe. */
  lemma SecondHalfKeeps(w: World, p: Pid, t: TxnId, q: Time)
    requires Inv(w)
    requires Pc(w, p).ReadEpochAgain? || Pc(w, p).WriteTombstone? || Pc(w, p).WriteOutbox? || Pc(w, p).WriteReceipt? || Pc(w, p).UnlinkIntent?
    ensures Inv(Advance(w, p, t, q))
  {
    hide Inv, TombstoneStep, OutboxStep, ReceiptStep, UnlinkStep;
    match Pc(w, p) {
      case ReadEpochAgain(i, at, rev) => ReadEpochAgainKeeps(w, p, i, at, rev);
      case WriteTombstone(i, at, rev, e) => TombstoneKeeps(w, p, i, at, rev, e);
      case WriteOutbox(i, at, rev, e) => OutboxKeeps(w, p, i, at, rev, e);
      case WriteReceipt(i, at, rev, e, ob) => ReceiptKeeps(w, p, i, at, rev, e, ob);
      case UnlinkIntent(i) => UnlinkKeeps(w, p, i);
      case _ =>
    }
  }

  lemma ScanStartKeeps(w: World, p: Pid, why: Reason, k: GrantKey, t: TxnId, q: Time)
    requires Inv(w) && Pc(w, p) == ScanStart(why, k)
    ensures Inv(Advance(w, p, t, q))
  {
    if w.store.intents.Keys != {} { MoveKeeps(w, p, Scanning(why, k, w.store.intents.Keys)); }
    else if why.ForRevoke? { MoveKeeps(w, p, ReadGrant(why, k)); }
    else { MoveKeeps(w, p, CheckTombstone(why, k)); }
  }

  lemma CheckTombstoneKeeps(w: World, p: Pid, why: Reason, k: GrantKey, t: TxnId, q: Time)
    requires Inv(w) && Pc(w, p) == CheckTombstone(why, k)
    ensures Inv(Advance(w, p, t, q))
  {
    if k in w.store.tombstones { MoveKeeps(w, p, Idle); }
    else if why.ForRevoke? { MoveKeeps(w, p, ScanStart(why, k)); }
    else { MoveKeeps(w, p, ReadGrant(why, k)); }
  }

  lemma WantLockKeeps(w: World, p: Pid, why: Reason, k: GrantKey, t: TxnId, q: Time)
    requires Inv(w) && Pc(w, p) == WantLock(why, k)
    ensures Inv(Advance(w, p, t, q))
  {
    if why.ForRevoke? { AcquireKeeps(w, p, k, CheckTombstone(why, k)); } else { AcquireKeeps(w, p, k, ScanStart(why, k)); }
  }

  lemma RecoverCheckKeeps(w: World, p: Pid, i: Intent)
    requires Inv(w) && Pc(w, p) == RecoverCheck(i)
    ensures Inv(To(w, p, if i.txn in w.store.receipts then RecoverUnlink(i) else RecoverWantLock(i)))
  {
    hide Inv, PcOk;
    KnownJournal(w, p, i);
    if i.txn in w.store.receipts { MoveKeeps(w, p, RecoverUnlink(i)); } else { MoveKeeps(w, p, RecoverWantLock(i)); }
  }

  lemma KnownJournal(w: World, p: Pid, i: Intent)
    requires Inv(w) && Pc(w, p) == RecoverCheck(i)
    ensures PcOk(w.store, w.used, RecoverWantLock(i))
    ensures i.txn in w.store.receipts ==> PcOk(w.store, w.used, RecoverUnlink(i))
  {
    assert PcOk(w.store, w.used, w.pcs[p]);
  }

  lemma RecoverLockKeeps(w: World, p: Pid, i: Intent)
    requires Inv(w) && Pc(w, p) == RecoverWantLock(i)
    ensures Inv(Acquire(w, p, i.key, ReadForMark(i)))
  {
    AcquireKeeps(w, p, i.key, ReadForMark(i));
  }

  /** The steps of a caller up to its first write. */
  lemma PreludeKeeps(w: World, p: Pid, t: TxnId, q: Time)
    requires Inv(w)
    requires Pc(w, p).WantLock? || Pc(w, p).ScanStart? || Pc(w, p).Scanning? || Pc(w, p).CheckTombstone? || Pc(w, p).ReadGrant?
    ensures Inv(Advance(w, p, t, q))
  {
    hide Inv, ScanStep, ReadStep, Acquire;
    match Pc(w, p) {
      case WantLock(why, k) => WantLockKeeps(w, p, why, k, t, q);
      case ScanStart(why, k) => ScanStartKeeps(w, p, why, k, t, q);
      case Scanning(why, k, todo) => ScanKeeps(w, p, why, k, todo, t);
      case CheckTombstone(why, k) => CheckTombstoneKeeps(w, p, why, k, t, q);
      case ReadGrant(why, k) => ReadKeeps(w, p, why, k, q);
      case _ =>
    }
  }

  lemma RecoverKeeps(w: World, p: Pid, t: TxnId, q: Time)
    requires Inv(w)
    requires Pc(w, p).RecoverCheck? || Pc(w, p).RecoverUnlink? || Pc(w, p).RecoverWantLock?
    ensures Inv(Advance(w, p, t, q))
  {
    hide Inv, UnlinkStep, Acquire;
    match Pc(w, p) {
      case RecoverCheck(i) => RecoverCheckKeeps(w, p, i);
      case RecoverUnlink(i) => UnlinkKeeps(w, p, i);
      case RecoverWantLock(i) => RecoverLockKeeps(w, p, i);
      case _ =>
    }
  }

  lemma AdvanceKeeps(w: World, p: Pid, t: TxnId, q: Time)
    requires Inv(w)
    ensures Inv(Advance(w, p, t, q))
  {
    hide Inv, WriteStep, IntentStep;
    var pc := Pc(w, p);
    if pc.WantLock? || pc.ScanStart? || pc.Scanning? || pc.CheckTombstone? || pc.ReadGrant? { PreludeKeeps(w, p, t, q); }
    else if pc.RecoverCheck? || pc.RecoverUnlink? || pc.RecoverWantLock? { RecoverKeeps(w, p, t, q); }
    else if pc.WriteGrant? { WriteKeeps(w, p, pc.op, pc.key, pc.epoch, pc.seen); }
    else if pc.WriteIntent? { IntentKeeps(w, p, pc.key, pc.grant, t); }
    else if pc.ReadForMark? || pc.MarkRevoked? || pc.ReadEpoch? || pc.BumpEpoch? { FirstHalfKeeps(w, p, t, q); }
    else if !pc.Idle? && !pc.Eligible? { SecondHalfKeeps(w, p, t, q); }
  }

  lemma AckKeeps(w: World, t: TxnId, c: Consumer)
    requires Inv(w)
    ensures Inv(Next(w, Ack(t, c)))
  {
    var s' := AckStep(w.store, t, c);
    assert s' == w.store.(outbox := s'.outbox);
    OutboxWrite(w.store, w.used, s'.outbox);
    EnvironmentKeeps(w, s');
  }

  lemma NextKeeps(w: World, a: Action)
    requires Inv(w)
    ensures Inv(Next(w, a))
  {
    hide Advance, Begin, AckStep;
    match a {
      case Start(p, call) => BeginKeeps(w, p, call);
      case Go(p, t, q) => AdvanceKeeps(w, p, t, q);
      case Crash(p) => MoveKeeps(w, p, Idle);
      case ForeignBump => ForeignBumpKeeps(w);
      case Ack(t, c) => AckKeeps(w, t, c);
      case Tick(_) =>
    }
  }

  /** The invariant holds after every run, whatever the interleaving and the crashes. */
  lemma {:induction false} RunKeeps(w: World, actions: seq<Action>)
    requires Inv(w)
    ensures Inv(Run(w, actions))
    decreases |actions|
  {
    hide Inv, Next;
    if actions != [] {
      NextKeeps(w, actions[0]);
      RunKeeps(Next(w, actions[0]), actions[1..]);
    }
  }

  /** A fresh ledger is a start. */
  lemma EmptyLedgerIsOk(w: World)
    requires w.store.grants == map[] && w.store.intents == map[] && w.store.tombstones == map[] && w.store.receipts == map[]
    requires w.locks == map[] && w.pcs == map[] && w.used == map[] && w.accepted == map[]
    ensures Inv(w)
  {
  }
}
