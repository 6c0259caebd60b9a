/** The promises of the access ledger, over every run of the protocol. */
module LedgerTheorems {
  import opened Wrappers
  import opened LedgerTypes
  import opened LedgerProtocol
  import opened LedgerSafety

  // ---------------------------------------------------------------------
  // Durable facts only accumulate
  // ---------------------------------------------------------------------

  /** How the files of a later moment relate to those of an earlier one. */
  ghost predicate Evolves(s: Store, s': Store) {
    && s.tenantEpoch <= s'.tenantEpoch
    && (forall k :: k in s.tombstones ==> k in s'.tombstones && s'.tombstones[k] == s.tombstones[k])
    && (forall t :: t in s.receipts ==> t in s'.receipts && s'.receipts[t] == s.receipts[t])
    && (forall t :: t in s.intents ==> (t in s'.intents && s'.intents[t] == s.intents[t]) || s.intents[t].key in s'.tombstones)
    && (forall k :: k in s.grants && Pending(s, k) ==> k in s'.grants && GrantEvolves(s.grants[k], s'.grants[k]))
  }

  /** A grant under revocation changes only by being marked, and once marked never again. */
  ghost predicate GrantEvolves(g: Grant, g': Grant) {
    g' == g || (g.status != Revoked && g'.revokedAt.Some? && g' == RevokedCopy(g, g'.revokedAt.value))
  }

  lemma PendingEvolves(s: Store, s': Store, k: GrantKey)
    requires Evolves(s, s') && Pending(s, k)
    ensures Pending(s', k)
  {
    if k !in s.tombstones {
      var t :| t in s.intents && s.intents[t].key == k;
      assert t in s'.intents || k in s'.tombstones;
    }
  }

  lemma EvolvesTransitive(s: Store, s1: Store, s2: Store)
    requires Evolves(s, s1) && Evolves(s1, s2)
    ensures Evolves(s, s2)
  {
    forall k | k in s.grants && Pending(s, k) ensures k in s2.grants && GrantEvolves(s.grants[k], s2.grants[k]) {
      PendingEvolves(s, s1, k);
    }
  }

  predicate Writes(pc: PC) {
    || pc.WriteGrant? || pc.WriteIntent? || pc.MarkRevoked? || pc.BumpEpoch? || pc.WriteTombstone?
    || pc.WriteOutbox? || pc.WriteReceipt? || pc.UnlinkIntent? || pc.RecoverUnlink?
  }

  lemma OthersWriteNothing(w: World, p: Pid, t: TxnId, q: Time)
    requires !Writes(Pc(w, p))
    ensures Advance(w, p, t, q).store == w.store
  {
    hide To, End, Acquire, Held;
  }

  lemma GrantWriteEvolves(s: Store, s': Store, k: GrantKey)
    requires s' == s.(grants := s'.grants) && s'.grants.Keys >= s.grants.Keys
    requires forall j :: j in s.grants && j != k ==> s'.grants[j] == s.grants[j]
    requires k in s.grants && Pending(s, k) ==> GrantEvolves(s.grants[k], s'.grants[k])
    ensures Evolves(s, s')
  {
  }

  lemma FactWriteEvolves(s: Store, s': Store)
    requires s'.grants == s.grants && s.tenantEpoch <= s'.tenantEpoch
    requires forall k :: k in s.tombstones ==> k in s'.tombstones && s'.tombstones[k] == s.tombstones[k]
    requires forall t :: t in s.receipts ==> t in s'.receipts && s'.receipts[t] == s.receipts[t]
    requires forall t :: t in s.intents ==> (t in s'.intents && s'.intents[t] == s.intents[t]) || s.intents[t].key in s'.tombstones
    ensures Evolves(s, s')
  {
  }

  lemma OperationEvolves(w: World, p: Pid, op: Op, k: GrantKey, e: nat, seen: Option<Grant>)
    requires Inv(w) && Pc(w, p) == WriteGrant(op, k, e, seen)
    ensures Evolves(w.store, WriteStep(w, p, op, k, e, seen).store)
  {
    assert !Pending(w.store, k);
    GrantWriteEvolves(w.store, WriteStep(w, p, op, k, e, seen).store, k);
  }

  lemma JournalEvolves(w: World, p: Pid, k: GrantKey, g: Grant, t: TxnId)
    requires Inv(w) && Pc(w, p) == WriteIntent(k, g)
    ensures Evolves(w.store, IntentStep(w, p, k, g, t).store)
  {
    assert t in w.store.intents ==> t in w.used;
    FactWriteEvolves(w.store, IntentStep(w, p, k, g, t).store);
  }

  lemma UnlinkEvolves(w: World, p: Pid, i: Intent)
    requires Inv(w) && (Pc(w, p) == UnlinkIntent(i) || Pc(w, p) == RecoverUnlink(i))
    ensures Evolves(w.store, UnlinkStep(w, p, i).store)
  {
    hide Evolves;
    assert w.used[i.txn] == i.key && i.key in w.store.tombstones;
    FactWriteEvolves(w.store, UnlinkStep(w, p, i).store);
  }

  lemma MarkEvolves(w: World, p: Pid, i: Intent, g: Grant)
    requires Inv(w) && Pc(w, p) == MarkRevoked(i, g)
    ensures Evolves(w.store, MarkStep(w, p, i, g).store)
  {
    hide Evolves;
    GrantWriteEvolves(w.store, MarkStep(w, p, i, g).store, i.key);
  }

  lemma BumpEvolves(w: World, p: Pid, i: Intent, at: Time, rev: nat)
    ensures Evolves(w.store, BumpStep(w, p, i, at, rev).store)
  {
    hide Evolves;
    assert BumpStep(w, p, i, at, rev).store in {w.store, Bumped(w.store)};
    FactWriteEvolves(w.store, BumpStep(w, p, i, at, rev).store);
  }

  lemma TombstoneEvolves(w: World, p: Pid, i: Intent, at: Time, rev: nat, e: nat)
    ensures Evolves(w.store, TombstoneStep(w, p, i, at, rev, e).store)
  {
    hide Evolves;
    FactWriteEvolves(w.store, TombstoneStep(w, p, i, at, rev, e).store);
  }

  lemma OutboxEvolves(w: World, p: Pid, i: Intent, at: Time, rev: nat, e: nat)
    ensures Evolves(w.store, OutboxStep(w, p, i, at, rev, e).store)
  {
    hide Evolves;
    FactWriteEvolves(w.store, OutboxStep(w, p, i, at, rev, e).store);
  }

  lemma ReceiptEvolves(w: World, p: Pid, i: Intent, at: Time, rev: nat, e: nat, ob: Outbox)
    ensures Evolves(w.store, ReceiptStep(w, p, i, at, rev, e, ob).store)
  {
    hide Evolves;
    FactWriteEvolves(w.store, ReceiptStep(w, p, i, at, rev, e, ob).store);
  }

  lemma AdvanceEvolves(w: World, p: Pid, t: TxnId, q: Time)
    requires Inv(w)
    ensures Evolves(w.store, Advance(w, p, t, q).store)
  {
    hide Inv, Evolves, WriteStep, IntentStep, MarkStep, UnlinkStep, BumpStep, TombstoneStep, OutboxStep, ReceiptStep;
    if !Writes(Pc(w, p)) {
      OthersWriteNothing(w, p, t, q);
      FactWriteEvolves(w.store, w.store);
    } else {
      match Pc(w, p) {
        case WriteGrant(op, k, e, seen) => OperationEvolves(w, p, op, k, e, seen);
        case WriteIntent(k, g) => JournalEvolves(w, p, k, g, t);
        case MarkRevoked(i, g) => MarkEvolves(w, p, i, g);
        case UnlinkIntent(i) => UnlinkEvolves(w, p, i);
        case RecoverUnlink(i) => UnlinkEvolves(w, p, i);
        case BumpEpoch(i, at, rev) => BumpEvolves(w, p, i, at, rev);
        case WriteTombstone(i, at, rev, e) => TombstoneEvolves(w, p, i, at, rev, e);
        case WriteOutbox(i, at, rev, e) => OutboxEvolves(w, p, i, at, rev, e);
        case WriteReceipt(i, at, rev, e, ob) => ReceiptEvolves(w, p, i, at, rev, e, ob);
      }
    }
  }

  lemma NextEvolves(w: World, a: Action)
    requires Inv(w)
    ensures Evolves(w.store, Next(w, a).store)
  {
    hide Inv, Evolves, Advance, To, End, Held;
    match a {
      case Go(p, t, q) => AdvanceEvolves(w, p, t, q);
      case Start(p, call) => FactWriteEvolves(w.store, Begin(w, p, call).store);
      case Crash(p) => FactWriteEvolves(w.store, End(w, p, Idle).store);
      case Ack(t, c) => FactWriteEvolves(w.store, AckStep(w.store, t, c));
      case _ => FactWriteEvolves(w.store, Next(w, a).store);
    }
  }

  lemma EvolvesReflexive(s: Store)
    ensures Evolves(s, s)
  {
  }

  lemma {:induction false} RunEvolves(w: World, actions: seq<Action>)
    requires Inv(w)
    ensures Evolves(w.store, Run(w, actions).store)
    decreases |actions|
  {
    hide Inv, Evolves, Next;
    if actions == [] {
      EvolvesReflexive(w.store);
    } else {
      NextEvolves(w, actions[0]);
      NextKeeps(w, actions[0]);
      RunEvolves(Next(w, actions[0]), actions[1..]);
      EvolvesTransitive(w.store, Next(w, actions[0]).store, Run(w, actions).store);
    }
  }

  // ---------------------------------------------------------------------
  // Revocation cannot be undone
  // ---------------------------------------------------------------------

  /** Once a revocation is on disk, its grant has a journal or a tombstone for ever. */
  lemma RevocationIsForever(w: World, actions: seq<Action>, k: GrantKey)
    requires Inv(w) && Pending(w.store, k)
    ensures Pending(Run(w, actions).store, k)
  {
    hide Inv, Evolves, Pending, Run;
    RunEvolves(w, actions);
    PendingEvolves(w.store, Run(w, actions).store, k);
  }

  /** Process `p` is not in the middle of a query of `k` that has already passed the entry of
      the journal. */
  ghost predicate NotPast(w: World, p: Pid, k: GrantKey) {
    match Pc(w, p)
    case Eligible(k', _, _, _) => k' != k
    case Scanning(why, k', todo) =>
      why.ForQuery? && k' == k ==>
        k in w.store.tombstones || exists t :: t in todo && t in w.store.intents && w.store.intents[t].key == k
    case CheckTombstone(why, k') => why.ForQuery? && k' == k ==> k in w.store.tombstones
    case ReadGrant(why, k') => !(why.ForQuery? && k' == k)
    case _ => true
  }

  /** What others do cannot carry a scan past a journal that was there when it began. */
  lemma NotPastStable(w: World, w': World, p: Pid, k: GrantKey)
    requires NotPast(w, p, k) && Evolves(w.store, w'.store) && Pc(w', p) == Pc(w, p)
    ensures NotPast(w', p, k)
  {
    match Pc(w, p) {
      case Scanning(why, k', todo) =>
        if why.ForQuery? && k' == k && k !in w.store.tombstones {
          var t :| t in todo && t in w.store.intents && w.store.intents[t].key == k;
          assert t in w'.store.intents || k in w'.store.tombstones;
        }
      case _ =>
    }
  }

  lemma ScanNotPast(w: World, p: Pid, why: Reason, k': GrantKey, todo: set<TxnId>, u: TxnId, k: GrantKey)
    requires Pc(w, p) == Scanning(why, k', todo) && NotPast(w, p, k)
    ensures NotPast(ScanStep(w, p, why, k', todo, u), p, k)
  {
    if why.ForQuery? && k' == k && k !in w.store.tombstones {
      var t :| t in todo && t in w.store.intents && w.store.intents[t].key == k;
      if !(u in w.store.intents && w.store.intents[u].key == k) {
        assert t in todo - {u};
      }
    }
  }

  lemma ScanStartNotPast(w: World, p: Pid, t: TxnId, q: Time, why: Reason, k': GrantKey, k: GrantKey)
    requires Pc(w, p) == ScanStart(why, k') && Pending(w.store, k)
    ensures NotPast(Advance(w, p, t, q), p, k)
  {
    if k !in w.store.tombstones {
      var j :| j in w.store.intents && w.store.intents[j].key == k;
      assert j in w.store.intents.Keys;
    }
  }

  predicate IsQuery(pc: PC) {
    match pc
    case Eligible(_, _, _, _) => true
    case Scanning(why, _, _) => why.ForQuery?
    case CheckTombstone(why, _) => why.ForQuery?
    case ReadGrant(why, _) => why.ForQuery?
    case _ => false
  }

  lemma QueryStepNotPast(w: World, p: Pid, t: TxnId, q: Time, k: GrantKey)
    requires NotPast(w, p, k) && (Pc(w, p).CheckTombstone? || Pc(w, p).ReadGrant? || Pc(w, p).Eligible?)
    ensures NotPast(Advance(w, p, t, q), p, k)
  {
  }

  lemma CallerIsNoQuery(w: World, p: Pid, t: TxnId, q: Time)
    requires match Pc(w, p)
             case WantLock(why, _) => !why.ForQuery?
             case Idle => true
             case WriteGrant(_, _, _, _) => true
             case WriteIntent(_, _) => true
             case RecoverCheck(_) => true
             case RecoverUnlink(_) => true
             case RecoverWantLock(_) => true
             case _ => false
    ensures !IsQuery(Pc(Advance(w, p, t, q), p))
  {
  }

  lemma RecipeIsNoQuery(w: World, p: Pid, t: TxnId, q: Time)
    requires match Pc(w, p)
             case ReadForMark(_) => true
             case MarkRevoked(_, _) => true
             case ReadEpoch(_, _, _) => true
             case BumpEpoch(_, _, _) => true
             case ReadEpochAgain(_, _, _) => true
             case WriteTombstone(_, _, _, _) => true
             case WriteOutbox(_, _, _, _) => true
             case WriteReceipt(_, _, _, _, _) => true
             case UnlinkIntent(_) => true
             case _ => false
    ensures !IsQuery(Pc(Advance(w, p, t, q), p))
  {
  }

  lemma OtherStepNotPast(w: World, p: Pid, t: TxnId, q: Time, k: GrantKey)
    requires Inv(w) && NotPast(w, p, k) && !Pc(w, p).ScanStart? && !Pc(w, p).Scanning?
    ensures NotPast(Advance(w, p, t, q), p, k)
  {
    match Pc(w, p) {
      case CheckTombstone(_, _) => QueryStepNotPast(w, p, t, q, k);
      case ReadGrant(_, _) => QueryStepNotPast(w, p, t, q, k);
      case Eligible(_, _, _, _) => QueryStepNotPast(w, p, t, q, k);
      case Idle => CallerIsNoQuery(w, p, t, q);
      case WantLock(_, _) => CallerIsNoQuery(w, p, t, q);
      case WriteGrant(_, _, _, _) => CallerIsNoQuery(w, p, t, q);
      case WriteIntent(_, _) => CallerIsNoQuery(w, p, t, q);
      case RecoverCheck(_) => CallerIsNoQuery(w, p, t, q);
      case RecoverUnlink(_) => CallerIsNoQuery(w, p, t, q);
      case RecoverWantLock(_) => CallerIsNoQuery(w, p, t, q);
      case _ => RecipeIsNoQuery(w, p, t, q);
    }
  }

  lemma OwnStepNotPast(w: World, p: Pid, t: TxnId, q: Time, k: GrantKey)
    requires Inv(w) && Pending(w.store, k) && NotPast(w, p, k)
    ensures NotPast(Advance(w, p, t, q), p, k)
  {
    match Pc(w, p) {
      case ScanStart(why, k') => ScanStartNotPast(w, p, t, q, why, k', k);
      case Scanning(why, k', todo) => ScanNotPast(w, p, why, k', todo, t, k);
      case _ => OtherStepNotPast(w, p, t, q, k);
    }
  }

  lemma CallNotPast(w: World, p: Pid, call: Call, k: GrantKey)
    requires NotPast(w, p, k)
    ensures NotPast(Begin(w, p, call), p, k)
  {
  }

  lemma CrashedNotPast(w: World, p: Pid, k: GrantKey)
    ensures NotPast(End(w, p, Idle), p, k)
  {
  }

  lemma NextNotPast(w: World, a: Action, p: Pid, k: GrantKey)
    requires Inv(w) && Pending(w.store, k) && NotPast(w, p, k)
    ensures NotPast(Next(w, a), p, k)
  {
    hide Inv, NotPast, Pending, Evolves, Advance, Begin;
    match a {
      case Go(q, t, at) => if q == p { OwnStepNotPast(w, p, t, at, k); } else { NextEvolves(w, a); NotPastStable(w, Next(w, a), p, k); }
      case Start(q, call) => if q == p { CallNotPast(w, p, call, k); } else { NextEvolves(w, a); NotPastStable(w, Next(w, a), p, k); }
      case Crash(q) => if q == p { CrashedNotPast(w, p, k); } else { NextEvolves(w, a); NotPastStable(w, Next(w, a), p, k); }
      case _ => NextEvolves(w, a); NotPastStable(w, Next(w, a), p, k);
    }
  }

  /** No query whose scan starts after a revocation became durable returns that grant, in any
      interleaving and with any crashes, although queries take no lock. */
  lemma {:induction false} RevokedIsNeverEligible(w: World, actions: seq<Action>, p: Pid, k: GrantKey)
    requires Inv(w) && Pending(w.store, k) && NotPast(w, p, k)
    ensures NotPast(Run(w, actions), p, k)
    ensures Pc(Run(w, actions), p).Eligible? ==> Pc(Run(w, actions), p).key != k
    decreases |actions|
  {
    if actions != [] {
      var w1 := Next(w, actions[0]);
      NextKeeps(w, actions[0]);
      NextEvolves(w, actions[0]);
      PendingEvolves(w.store, w1.store, k);
      NextNotPast(w, actions[0], p, k);
      RevokedIsNeverEligible(w1, actions[1..], p, k);
    }
  }

  // ---------------------------------------------------------------------
  // One transaction per grant, and its facts are immutable
  // ---------------------------------------------------------------------

  /** Tombstones and receipts survive every run byte for byte, and a revoked grant is never
      written again. */
  lemma FactsAreImmutable(w: World, actions: seq<Action>, k: GrantKey, t: TxnId)
    requires Inv(w)
    ensures var s, s' := w.store, Run(w, actions).store;
            && (k in s.tombstones ==> k in s'.tombstones && s'.tombstones[k] == s.tombstones[k])
            && (t in s.receipts ==> t in s'.receipts && s'.receipts[t] == s.receipts[t])
            && (k in s.tombstones ==> k in s.grants && k in s'.grants && s'.grants[k] == s.grants[k] && s.grants[k].status == Revoked)
  {
    RunEvolves(w, actions);
    if k in w.store.tombstones { assert TombstoneOk(w.store, k); }
  }

  /** Of all the transactions that ever revoke a grant, one commits: its receipt is unique,
      and it is the one its tombstone names. */
  lemma OneCommitPerGrant(w: World, actions: seq<Action>, t: TxnId, u: TxnId)
    requires Inv(w)
    requires t in w.store.receipts && u in Run(w, actions).store.receipts
    requires Run(w, actions).store.receipts[u].key == w.store.receipts[t].key
    ensures t == u && w.store.receipts[t].key in Run(w, actions).store.tombstones
    ensures Run(w, actions).store.tombstones[w.store.receipts[t].key].txn == t
  {
    RunKeeps(w, actions);
    RunEvolves(w, actions);
  }

  // ---------------------------------------------------------------------
  // Epochs
  // ---------------------------------------------------------------------

  /** Step 3 of a revocation of `k` is done: some process is past it, or the tombstone is
      there. */
  ghost predicate PastStep3(w: World, k: GrantKey) {
    || k in w.store.tombstones
    || (exists p :: p in w.pcs && AfterEpoch(w.pcs[p], k))
  }

  predicate AfterEpoch(pc: PC, k: GrantKey) {
    match pc
    case ReadEpochAgain(i, _, _) => i.key == k
    case WriteTombstone(i, _, _, _) => i.key == k
    case WriteOutbox(i, _, _, _) => i.key == k
    case WriteReceipt(i, _, _, _, _) => i.key == k
    case UnlinkIntent(i) => i.key == k
    case _ => false
  }

  /** A grant is never ahead of its tenant. */
  lemma GrantNeverAhead(w: World, actions: seq<Action>, k: GrantKey)
    requires Inv(w)
    ensures var s := Run(w, actions).store; k in s.grants ==> s.grants[k].epoch <= s.tenantEpoch
  {
    RunKeeps(w, actions);
  }

  /** After step 3 the grant is strictly behind its tenant in every later state, whether or
      not this revocation did the bump, and even if it crashes before the tombstone. */
  lemma RevokedIsBehindForever(w: World, actions: seq<Action>, k: GrantKey)
    requires Inv(w) && PastStep3(w, k)
    ensures var s := Run(w, actions).store; k in s.grants && s.grants[k].epoch < s.tenantEpoch
  {
    if k in w.store.tombstones {
      assert TombstoneOk(w.store, k);
    } else {
      var p :| p in w.pcs && AfterEpoch(w.pcs[p], k);
      assert PcOk(w.store, w.used, w.pcs[p]);
    }
    assert Pending(w.store, k) && k in w.store.grants && w.store.grants[k].epoch < w.store.tenantEpoch;
    RunEvolves(w, actions);
  }

  // ---------------------------------------------------------------------
  // Authority is bounded
  // ---------------------------------------------------------------------

  /** A grant returned at time `at` rests on a signed receipt for that very grant that expires
      after `at` and was accepted less than fifteen minutes before it, whatever clock value the
      caller chose. */
  lemma EligibilityRestsOnAuthority(w: World, actions: seq<Action>, p: Pid)
    requires Inv(w)
    ensures match Pc(Run(w, actions), p)
            case Eligible(k, g, at, basis) =>
              && g.status == Active && at < basis.receipt.expiry && at < basis.at + 900_000_000
              && basis.receipt.key == k && basis.receipt.signatureOk && (basis.receipt.kind == GrantPromote || basis.receipt.kind == LeaseRefresh)
            case _ => true
  {
    RunKeeps(w, actions);
  }

  lemma FactStepsKeepGrants(w: World, p: Pid, t: TxnId, q: Time)
    requires Writes(Pc(w, p)) && !Pc(w, p).WriteGrant? && !Pc(w, p).MarkRevoked?
    ensures Advance(w, p, t, q).store.grants == w.store.grants
  {
    hide To, End, Acquire, Held, ScanStep, ReadStep, ReadForMarkStep, MarkStep, WriteStep, ReadEpochStep, IntentStep, BumpStep, TombstoneStep, OutboxStep, ReceiptStep, UnlinkStep;
  }

  lemma OtherStepsKeepGrants(w: World, p: Pid, t: TxnId, q: Time)
    requires !Pc(w, p).WriteGrant? && !Pc(w, p).MarkRevoked?
    ensures Advance(w, p, t, q).store.grants == w.store.grants
  {
    hide Advance;
    if Writes(Pc(w, p)) { FactStepsKeepGrants(w, p, t, q); } else { OthersWriteNothing(w, p, t, q); }
  }

  /** A grant record's authority is no wider than that of the record it replaced. */
  predicate NoWider(before: Option<Grant>, g: Grant) {
    match before
    case None => g.lease == None && g.status != Active
    case Some(o) => g.lease == o.lease && (g.status == Active ==> o.status == Active)
  }

  lemma OperationNoWider(w: World, p: Pid, op: Op, k: GrantKey, e: nat, seen: Option<Grant>)
    requires Inv(w) && Pc(w, p) == WriteGrant(op, k, e, seen) && !op.PromoteOp?
    requires k in WriteStep(w, p, op, k, e, seen).store.grants
    ensures NoWider(Lookup(w.store, k), WriteStep(w, p, op, k, e, seen).store.grants[k])
  {
    WrittenGrant(w.store, op, k, seen, e, w.now);
    GrantWriteNeverConflicts(w, p);
  }

  lemma MarkNoWider(w: World, p: Pid, i: Intent, g: Grant)
    requires Inv(w) && Pc(w, p) == MarkRevoked(i, g)
    ensures MarkStep(w, p, i, g).store.grants == w.store.grants[i.key := RevokedCopy(g, w.now)]
    ensures NoWider(Lookup(w.store, i.key), RevokedCopy(g, w.now))
  {
    GrantWriteNeverConflicts(w, p);
    MarkingInShort(g, w.now);
  }

  lemma WriteLeavesOthers(w: World, p: Pid, op: Op, k: GrantKey, e: nat, seen: Option<Grant>, j: GrantKey)
    requires j != k
    ensures Lookup(WriteStep(w, p, op, k, e, seen).store, j) == Lookup(w.store, j)
  {
  }

  lemma StepNoWider(w: World, p: Pid, t: TxnId, q: Time, k: GrantKey)
    requires Inv(w) && k in Advance(w, p, t, q).store.grants
    requires !(Pc(w, p).WriteGrant? && Pc(w, p).op.PromoteOp? && Pc(w, p).key == k)
    ensures NoWider(Lookup(w.store, k), Advance(w, p, t, q).store.grants[k])
  {
    match Pc(w, p) {
      case WriteGrant(op, k', e, seen) =>
        if k' == k { OperationNoWider(w, p, op, k, e, seen); } else { WriteLeavesOthers(w, p, op, k', e, seen, k); }
      case MarkRevoked(i, g) => MarkNoWider(w, p, i, g);
      case _ => OtherStepsKeepGrants(w, p, t, q);
    }
  }

  /** Only a promotion that holds the lock extends a lease or makes a grant active: every
      other action keeps the lease of each grant, or creates a grant without one. */
  lemma OnlyPromotionExtends(w: World, a: Action, k: GrantKey)
    requires Inv(w) && k in Next(w, a).store.grants
    requires !(a.Go? && Pc(w, a.p).WriteGrant? && Pc(w, a.p).op.PromoteOp? && Pc(w, a.p).key == k)
    ensures NoWider(Lookup(w.store, k), Next(w, a).store.grants[k])
  {
    hide Inv, Advance, Pending;
    match a {
      case Go(p, t, q) => StepNoWider(w, p, t, q, k);
      case Start(p, call) =>
      case Crash(p) =>
      case _ =>
    }
  }

  // ---------------------------------------------------------------------
  // A grant that is due stays out of reach
  // ---------------------------------------------------------------------

  /** What marking a grant due commits: it was active and is due, and keeps everything else. */
  lemma MarkDueCommits(w: World, p: Pid, k: GrantKey, e: nat, seen: Option<Grant>)
    requires Inv(w) && Pc(w, p) == WriteGrant(MarkDueOp, k, e, seen)
    ensures var s' := WriteStep(w, p, MarkDueOp, k, e, seen).store;
            s' != w.store <==> k in w.store.grants && w.store.grants[k].status == Active
    ensures var s' := WriteStep(w, p, MarkDueOp, k, e, seen).store;
            s' != w.store ==>
              var g := w.store.grants[k];
              s'.grants == w.store.grants[k := g.(status := RevalidationDue, lastVerifiedAt := w.now, revision := g.revision + 1, updatedAt := w.now)]
  {
    GrantWriteNeverConflicts(w, p);
    if k in w.store.grants && w.store.grants[k].status == Active {
      assert WriteStep(w, p, MarkDueOp, k, e, seen).store.grants[k].status == RevalidationDue;
    }
  }

  /** The action commits a promotion or a refresh of the grant. */
  predicate Promotes(w: World, a: Action, k: GrantKey) {
    a.Go? && Pc(w, a.p).WriteGrant? && Pc(w, a.p).op.PromoteOp? && Pc(w, a.p).key == k
  }

  ghost predicate NoPromotion(w: World, actions: seq<Action>, k: GrantKey)
    decreases |actions|
  {
    actions == [] || (!Promotes(w, actions[0], k) && NoPromotion(Next(w, actions[0]), actions[1..], k))
  }

  predicate NotActive(s: Store, k: GrantKey) { k in s.grants ==> s.grants[k].status != Active }

  /** No process has the grant in its hand as a query's answer. */
  predicate NotAnswered(w: World, p: Pid, k: GrantKey) { Pc(w, p).Eligible? ==> Pc(w, p).key != k }

  lemma StaysUnanswered(w: World, a: Action, p: Pid, k: GrantKey)
    requires NotActive(w.store, k) && NotAnswered(w, p, k)
    ensures NotAnswered(Next(w, a), p, k)
  {
    hide Acquire, WriteStep, IntentStep, MarkStep, UnlinkStep, BumpStep, TombstoneStep, OutboxStep, ReceiptStep, ScanStep, ReadForMarkStep, ReadEpochStep;
    match a {
      case Go(q, t, at) => if q == p { OwnAnswer(w, p, t, at, k); }
      case _ =>
    }
  }

  lemma OwnAnswer(w: World, p: Pid, t: TxnId, q: Time, k: GrantKey)
    requires NotActive(w.store, k) && NotAnswered(w, p, k)
    ensures NotAnswered(Advance(w, p, t, q), p, k)
  {
    var pc := Pc(w, p);
    if pc.ReadGrant? {
    } else if pc.CheckTombstone? || pc.ScanStart? || pc.Scanning? || pc.Eligible? || pc.WantLock? {
    } else if pc.Idle? || pc.WriteGrant? || pc.WriteIntent? || pc.RecoverCheck? || pc.RecoverUnlink? || pc.RecoverWantLock? {
      CallerIsNoQuery(w, p, t, q);
    } else {
      RecipeIsNoQuery(w, p, t, q);
    }
  }

  lemma StaysInactive(w: World, a: Action, k: GrantKey)
    requires Inv(w) && NotActive(w.store, k) && !Promotes(w, a, k)
    ensures NotActive(Next(w, a).store, k)
  {
    hide Inv, Next;
    if k in Next(w, a).store.grants { OnlyPromotionExtends(w, a, k); }
  }

  /** Once a grant is due, revoked or not there yet, no query that has not read it by then
      returns it, in any interleaving, until a promotion of it commits. */
  lemma {:induction false} DueIsNotEligible(w: World, actions: seq<Action>, p: Pid, k: GrantKey)
    requires Inv(w) && NotActive(w.store, k) && NotAnswered(w, p, k) && NoPromotion(w, actions, k)
    ensures NotActive(Run(w, actions).store, k) && NotAnswered(Run(w, actions), p, k)
    decreases |actions|
  {
    hide Inv, Next, Promotes, NotActive, NotAnswered;
    if actions != [] {
      StaysInactive(w, actions[0], k);
      StaysUnanswered(w, actions[0], p, k);
      NextKeeps(w, actions[0]);
      DueIsNotEligible(Next(w, actions[0]), actions[1..], p, k);
    }
  }
}
