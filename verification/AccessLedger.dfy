/** The ledger as one caller sees it (scripts/cwk_access_ledger.py): operations that run to
    their end, fail, or die after any number of their durable writes. */
module AccessLedger {
  import opened Wrappers
  import opened LedgerTypes

  datatype TenantStatus = Draft | ProfilePending | Pilot | Live | Suspended | Offboarded

  datatype Disk = Disk(store: Store, events: map<GrantKey, seq<Event>>)

  datatype Outcome = Done(receipt: Receipt) | Failed(error: LedgerError) | Died

  datatype Progress = Progress(disk: Disk, outcome: Outcome)

  function Append(d: Disk, k: GrantKey, e: Event): Disk {
    d.(events := d.events[k := (if k in d.events then d.events[k] else []) + [e]])
  }

  function OnStore(d: Disk, s: Store): Disk { d.(store := s) }

  function RevokeEvent(i: Intent, revision: nat): Event {
    Event(Some(i.prior), Revoked, i.priorRevision, revision)
  }

  ghost predicate HasIntent(s: Store, k: GrantKey) { exists t :: t in s.intents && s.intents[t].key == k }

  // ---------------------------------------------------------------------
  // Steps 2 to 7 with `left` durable writes to live
  // ---------------------------------------------------------------------

  function Complete(d: Disk, i: Intent, now: Time, later: Time, left: nat): Progress {
    if i.key !in d.store.grants then Progress(d, Failed(GrantNotFound)) else
    var g := d.store.grants[i.key];
    if g.status == Revoked then Bump(d, i, RevocationTime(g, now), g.revision, later, left)
    else if !Allowed(g.status, Revoked) then Progress(d, Failed(ContractError))
    else if left == 0 then Progress(d, Died) else
    var marked := OnStore(d, PutGrant(d.store, i.key, RevokedCopy(g, now)));
    if left == 1 then Progress(marked, Died) else
    Bump(Append(marked, i.key, RevokeEvent(i, g.revision + 1)), i, now, g.revision + 1, later, left - 2)
  }

  function Bump(d: Disk, i: Intent, at: Time, revision: nat, later: Time, left: nat): (p: Progress)
    ensures p.disk.events == d.events && p.disk.store.grants == d.store.grants
  {
    if d.store.tenantEpoch != i.before then Entomb(d, i, at, revision, later, left)
    else if left == 0 then Progress(d, Died)
    else Entomb(OnStore(d, Bumped(d.store)), i, at, revision, later, left - 1)
  }

  function Entomb(d: Disk, i: Intent, at: Time, revision: nat, later: Time, left: nat): (p: Progress)
    ensures p.disk.events == d.events && p.disk.store.grants == d.store.grants
  {
    var tomb := TombstoneOf(i, at, d.store.tenantEpoch);
    if i.key in d.store.tombstones then
      if d.store.tombstones[i.key] != tomb then Progress(d, Failed(ContractError))
      else Enqueue(d, i, at, revision, later, left)
    else if left == 0 then Progress(d, Died)
    else Enqueue(OnStore(d, PutTombstone(d.store, tomb)), i, at, revision, later, left - 1)
  }

  function Enqueue(d: Disk, i: Intent, at: Time, revision: nat, later: Time, left: nat): (p: Progress)
    ensures p.disk.events == d.events && p.disk.store.grants == d.store.grants
  {
    var ob := OutboxOf(i, d.store.tenantEpoch, later);
    if i.txn in d.store.outbox then
      if d.store.outbox[i.txn].key != i.key || d.store.outbox[i.txn].txn != i.txn then Progress(d, Failed(ContractError))
      else Settle(d, i, ReceiptOf(i, at, revision, d.store.tenantEpoch, ob), left)
    else if left == 0 then Progress(d, Died)
    else Settle(OnStore(d, PutOutbox(d.store, ob)), i, ReceiptOf(i, at, revision, d.store.tenantEpoch, ob), left - 1)
  }

  function Settle(d: Disk, i: Intent, receipt: Receipt, left: nat): (p: Progress)
    ensures p.disk.events == d.events && p.disk.store.grants == d.store.grants
  {
    if i.txn in d.store.receipts then
      if d.store.receipts[i.txn] != receipt then Progress(d, Failed(ContractError))
      else Unlink(d, i, receipt, left)
    else if left == 0 then Progress(d, Died)
    else Unlink(OnStore(d, PutReceipt(d.store, receipt)), i, receipt, left - 1)
  }

  function Unlink(d: Disk, i: Intent, receipt: Receipt, left: nat): (p: Progress)
    ensures p.disk.events == d.events && p.disk.store.grants == d.store.grants
  {
    if left == 0 then Progress(d, Died)
    else Progress(OnStore(d, DropIntent(d.store, i.txn)), Done(receipt))
  }

  /** Recovery of one journal: a receipt means that only the unlink is missing. */
  function RecoverOne(d: Disk, t: TxnId, now: Time, later: Time, left: nat): Disk {
    if t !in d.store.intents then d
    else if t in d.store.receipts then
      if left == 0 then d else OnStore(d, DropIntent(d.store, t))
    else Complete(d, d.store.intents[t], now, later, left).disk
  }

  /** The files after a revocation of a free live grant that nothing disturbed: the grant is
      revoked and otherwise as it was, its tenant is at an epoch that the grant never had, tombstone,
      task and receipt all name that epoch and this transaction, and no journal is left. */
  function Settled(s: Store, k: GrantKey, txn: TxnId, now: Time, later: Time): (r: Store)
    requires k in s.grants
    ensures txn in r.receipts
  {
    var g := s.grants[k];
    var e := if s.tenantEpoch == g.epoch then s.tenantEpoch + 1 else s.tenantEpoch;
    var tomb := Tombstone(k, now, e, txn);
    var task := Outbox(k, e, txn, {TenantView, SpaceIndex, Cache}, later);
    Store(e,
          s.grants[k := g.(status := Revoked, revokedAt := Some(now), lastVerifiedAt := now, revision := g.revision + 1, updatedAt := now)],
          s.intents,
          s.tombstones[k := tomb],
          s.outbox[txn := task],
          s.receipts[txn := Receipt(txn, k, g.epoch, e, g.revision + 1, tomb, task, now)])
  }

  /** Every free grant in one of the four live statuses can be revoked, and seven writes after its
      journal settle it. */
  lemma RevocationSettles(d: Disk, k: GrantKey, txn: TxnId, now: Time, later: Time, left: nat)
    requires k in d.store.grants && d.store.grants[k].status in {Discovered, Granted, Active, RevalidationDue}
    requires k !in d.store.tombstones && txn !in d.store.intents && txn !in d.store.receipts && txn !in d.store.outbox
    ensures var g := d.store.grants[k];
            var i := Intent(txn, k, g.status, g.revision, g.epoch);
            left >= 7 ==>
              Complete(OnStore(d, PutIntent(d.store, i)), i, now, later, left)
                == Progress(Disk(Settled(d.store, k, txn, now, later),
                                 Append(d, k, Event(Some(g.status), Revoked, g.revision, g.revision + 1)).events),
                            Done(Settled(d.store, k, txn, now, later).receipts[txn]))
  {
    if left >= 7 {
      var g := d.store.grants[k];
      var i := Intent(txn, k, g.status, g.revision, g.epoch);
      var marked := Append(OnStore(d, PutGrant(PutIntent(d.store, i), k, RevokedCopy(g, now))), k, RevokeEvent(i, g.revision + 1));
      SettlesFromMark(marked, d.store, i, now, later, left - 2);
    }
  }

  lemma SettlesFromMark(d: Disk, s: Store, i: Intent, now: Time, later: Time, left: nat)
    requires i.key in s.grants && i.key !in s.tombstones && i.txn !in s.intents && i.txn !in s.receipts && i.txn !in s.outbox
    requires i.before == s.grants[i.key].epoch && left >= 5
    requires d.store == PutGrant(PutIntent(s, i), i.key, RevokedCopy(s.grants[i.key], now))
    ensures var final := Settled(s, i.key, i.txn, now, later);
            Bump(d, i, now, s.grants[i.key].revision + 1, later, left) == Progress(Disk(final, d.events), Done(final.receipts[i.txn]))
  {
    var final := Settled(s, i.key, i.txn, now, later);
    assert s.intents[i.txn := i] - {i.txn} == s.intents;
  }

  // ---------------------------------------------------------------------
  // The operations
  // ---------------------------------------------------------------------

  class Ledger {
    var tenant: TenantStatus
    var store: Store
    var events: map<GrantKey, seq<Event>>

    function Contents(): Disk
      reads this
    {
      Disk(store, events)
    }

    constructor (status: TenantStatus, epoch: nat)
      ensures tenant == status
      ensures Contents() == Disk(Store(epoch, map[], map[], map[], map[], map[]), map[])
    {
      tenant := status;
      store := Store(epoch, map[], map[], map[], map[], map[]);
      events := map[];
    }

    /** The directory scan for a journal of `k`. */
    method IntentExistsFor(k: GrantKey) returns (found: bool)
      ensures found <==> HasIntent(store, k)
    {
      var todo := store.intents.Keys;
      while todo != {}
        invariant todo <= store.intents.Keys
        invariant forall t :: t in store.intents && store.intents[t].key == k ==> t in todo
        decreases |todo|
      {
        var t :| t in todo;
        if store.intents[t].key == k { return true; }
        todo := todo - {t};
      }
      return false;
    }

    method FindCompletedReceipt(k: GrantKey) returns (found: Option<Receipt>)
      ensures found.Some? ==> exists t :: t in store.receipts && store.receipts[t] == found.value && store.receipts[t].key == k
      ensures found.None? ==> forall t :: t in store.receipts ==> store.receipts[t].key != k
    {
      var todo := store.receipts.Keys;
      while todo != {}
        invariant todo <= store.receipts.Keys
        invariant forall t :: t in store.receipts && store.receipts[t].key == k ==> t in todo
        decreases |todo|
      {
        var t :| t in todo;
        if store.receipts[t].key == k { return Some(store.receipts[t]); }
        todo := todo - {t};
      }
      return None;
    }

    method AppendEvent(k: GrantKey, e: Event)
      modifies this`events
      ensures Contents() == Append(old(Contents()), k, e)
    {
      events := events[k := (if k in events then events[k] else []) + [e]];
    }

    /** The three operations that rewrite a grant share this frame: an unrevoked grant is
        replaced and the change is logged, or nothing happens. */
    method Observe(k: GrantKey, obs: Observation, now: Time) returns (r: Result<Grant>)
      modifies this`store, this`events
      ensures r.Err? <==>
        || obs.initial !in {Discovered, Granted} || tenant == Draft || tenant == Offboarded
        || HasIntent(old(store), k) || k in old(store).tombstones
        || (k in old(store).grants && old(store).grants[k].status in {Revoked, PurgePending, Purged})
      ensures r.Err? ==> Contents() == old(Contents())
      ensures r.Ok? ==> Lookup(store, k) == Some(r.value)
      ensures r.Ok? && k !in old(store).grants ==>
        && r.value == Grant(obs.initial, obs.access, obs.source, old(store).tenantEpoch,
                            if obs.initial == Granted then Some(now) else None, now, None, None, 1, now, now)
        && Contents() == Append(OnStore(old(Contents()), PutGrant(old(store), k, r.value)), k, Event(None, obs.initial, 0, 1))
      ensures r.Ok? && k in old(store).grants ==>
        var g := old(store).grants[k];
        var status := if g.status == Active || g.status == RevalidationDue then g.status else Granted;
        if g.access == obs.access && (g.status != Discovered || obs.initial == Discovered) then Contents() == old(Contents())
        else
          && r.value == g.(status := status, access := obs.access, source := obs.source, epoch := old(store).tenantEpoch,
                           grantedAt := if g.grantedAt.None? && status == Granted then Some(now) else g.grantedAt,
                           lastVerifiedAt := now, revokedAt := None, revision := g.revision + 1, updatedAt := now)
          && Contents() == Append(OnStore(old(Contents()), PutGrant(old(store), k, r.value)), k,
                                  Event(Some(g.status), status, g.revision, g.revision + 1))
    {
      if !obs.Valid() { return Err(ContractError); }
      if tenant == Draft || tenant == Offboarded { return Err(GrantStateError); }
      var pending := IntentExistsFor(k);
      if pending { return Err(RevocationInProgress); }
      if k in store.tombstones { return Err(GrantStateError); }
      var epoch := store.tenantEpoch;
      match ObserveGrant(Lookup(store, k), obs, epoch, now) {
        case Err(e) => return Err(e);
        case Ok(None) => return Ok(store.grants[k]);
        case Ok(Some(h)) =>
          var e := if k in store.grants
                   then Event(Some(store.grants[k].status), h.status, store.grants[k].revision, h.revision)
                   else Event(None, h.status, 0, 1);
          store := PutGrant(store, k, h);
          AppendEvent(k, e);
          return Ok(h);
      }
    }

    method Promote(k: GrantKey, purpose: Purpose, receipt: AuthorityReceipt, authority: Authority, ttl: int, now: Time)
      returns (r: Result<Grant>)
      modifies this`store, this`events
      ensures r.Ok? <==>
        && authority == Signing && receipt.signatureOk && receipt.key == k && receipt.expiry > now
        && receipt.kind == (match purpose case PromoteToActive => GrantPromote case RefreshLease => LeaseRefresh)
        && tenant !in {Draft, Suspended, Offboarded}
        && !HasIntent(old(store), k) && k !in old(store).tombstones
        && k in old(store).grants
        && (old(store).grants[k].status == RevalidationDue
            || old(store).grants[k].status == (if purpose == PromoteToActive then Granted else Active))
        && 30 <= ttl <= 900
      ensures r.Err? ==> Contents() == old(Contents())
      ensures r.Ok? ==>
        var g := old(store).grants[k];
        && r.value == g.(status := Active, access := receipt.access, source := receipt.source, epoch := old(store).tenantEpoch,
                         grantedAt := if g.grantedAt.None? then Some(now) else g.grantedAt,
                         lastVerifiedAt := now, lease := r.value.lease, revokedAt := None, revision := g.revision + 1, updatedAt := now)
        && r.value.lease.Some? && MayEndAt(r.value.lease.value, now, ttl, receipt.expiry)
        && (forall t :: MayEndAt(t, now, ttl, receipt.expiry) ==> t <= r.value.lease.value)
        && Contents() == Append(OnStore(old(Contents()), PutGrant(old(store), k, r.value)), k,
                                Event(Some(old(store).grants[k].status), Active, old(store).grants[k].revision, r.value.revision))
    {
      if !Verified(authority, receipt, purpose, k, now) { return Err(AuthorityRejected); }
      if tenant == Draft || tenant == Suspended || tenant == Offboarded { return Err(GrantStateError); }
      var pending := IntentExistsFor(k);
      if pending { return Err(RevocationInProgress); }
      if k in store.tombstones { return Err(GrantStateError); }
      if k !in store.grants { return Err(GrantNotFound); }
      var g := store.grants[k];
      r := PromoteGrant(g, purpose, receipt, ttl, store.tenantEpoch, now);
      forall t ensures r.Ok? && MayEndAt(t, now, ttl, receipt.expiry) ==> t <= r.value.lease.value {
        PromotionInShort(g, purpose, receipt, ttl, store.tenantEpoch, now, t);
      }
      PromotionInShort(g, purpose, receipt, ttl, store.tenantEpoch, now, 0);
      if r.Ok? {
        store := PutGrant(store, k, r.value);
        AppendEvent(k, Event(Some(g.status), Active, g.revision, r.value.revision));
      }
    }

    method MarkRevalidationDue(k: GrantKey, now: Time) returns (r: Result<Grant>)
      modifies this`store, this`events
      ensures r.Ok? <==>
        && !HasIntent(old(store), k) && k !in old(store).tombstones
        && k in old(store).grants && old(store).grants[k].status == Active
      ensures r.Err? ==> Contents() == old(Contents())
      ensures r.Ok? ==>
        var g := old(store).grants[k];
        && r.value == g.(status := RevalidationDue, lastVerifiedAt := now, revision := g.revision + 1, updatedAt := now)
        && Contents() == Append(OnStore(old(Contents()), PutGrant(old(store), k, r.value)), k,
                                Event(Some(Active), RevalidationDue, old(store).grants[k].revision, r.value.revision))
    {
      var pending := IntentExistsFor(k);
      if pending { return Err(RevocationInProgress); }
      if k in store.tombstones { return Err(GrantStateError); }
      if k !in store.grants { return Err(GrantNotFound); }
      var g := store.grants[k];
      r := MarkDue(g, now);
      if r.Ok? {
        store := PutGrant(store, k, r.value);
        AppendEvent(k, Event(Some(Active), RevalidationDue, g.revision, r.value.revision));
      }
    }

    method WriteTombstone(i: Intent, at: Time, left: nat) returns (ok: bool, died: bool, rest: nat)
      modifies this`store
      ensures i.key in old(store).tombstones ==> store == old(store) && !died && rest == left
      ensures i.key in old(store).tombstones ==> (ok <==> old(store).tombstones[i.key] == TombstoneOf(i, at, store.tenantEpoch))
      ensures i.key !in old(store).tombstones ==> (died <==> left == 0) && ok == !died
      ensures i.key !in old(store).tombstones && died ==> store == old(store)
      ensures i.key !in old(store).tombstones && !died ==>
        rest == left - 1 && store == PutTombstone(old(store), TombstoneOf(i, at, old(store).tenantEpoch))
    {
      var tomb := TombstoneOf(i, at, store.tenantEpoch);
      if i.key in store.tombstones { return store.tombstones[i.key] == tomb, false, left; }
      if left == 0 { return false, true, left; }
      store := PutTombstone(store, tomb);
      return true, false, left - 1;
    }

    /** Steps 2 to 7, dying just before the write number `budget`. */
    method CompleteRevocation(i: Intent, now: Time, later: Time, budget: nat) returns (o: Outcome)
      modifies this`store, this`events
      ensures Progress(Contents(), o) == Complete(old(Contents()), i, now, later, budget)
      ensures o.Failed? ==> o.error == if i.key in old(store).grants then ContractError else GrantNotFound
    {
      if i.key !in store.grants { return Failed(GrantNotFound); }
      var g := store.grants[i.key];
      if g.status == Revoked {
        o := FromBump(i, RevocationTime(g, now), g.revision, later, budget);
        return;
      }
      if !Allowed(g.status, Revoked) { return Failed(ContractError); }
      if budget == 0 { return Died; }
      store := PutGrant(store, i.key, RevokedCopy(g, now));
      if budget == 1 { return Died; }
      AppendEvent(i.key, RevokeEvent(i, g.revision + 1));
      o := FromBump(i, now, g.revision + 1, later, budget - 2);
    }

    method FromBump(i: Intent, at: Time, revision: nat, later: Time, budget: nat) returns (o: Outcome)
      modifies this`store
      ensures Progress(Contents(), o) == Bump(old(Contents()), i, at, revision, later, budget)
      ensures o.Failed? ==> o.error == ContractError
    {
      var left := budget;
      if store.tenantEpoch == i.before {
        if left == 0 { return Died; }
        store := Bumped(store);
        left := left - 1;
      }
      var ok, died, rest := WriteTombstone(i, at, left);
      if died { return Died; }
      if !ok { return Failed(ContractError); }
      o := FromOutbox(i, at, revision, later, rest);
    }

    method FromOutbox(i: Intent, at: Time, revision: nat, later: Time, budget: nat) returns (o: Outcome)
      modifies this`store
      ensures Progress(Contents(), o) == Enqueue(old(Contents()), i, at, revision, later, budget)
      ensures o.Failed? ==> o.error == ContractError
    {
      var left := budget;
      var ob := OutboxOf(i, store.tenantEpoch, later);
      if i.txn in store.outbox {
        if store.outbox[i.txn].key != i.key || store.outbox[i.txn].txn != i.txn { return Failed(ContractError); }
      } else {
        if left == 0 { return Died; }
        store := PutOutbox(store, ob);
        left := left - 1;
      }
      var receipt := ReceiptOf(i, at, revision, store.tenantEpoch, ob);
      if i.txn in store.receipts {
        if store.receipts[i.txn] != receipt { return Failed(ContractError); }
      } else {
        if left == 0 { return Died; }
        store := PutReceipt(store, receipt);
        left := left - 1;
      }
      if left == 0 { return Died; }
      store := DropIntent(store, i.txn);
      return Done(receipt);
    }

    /** A revocation writes its journal first; from that write on it can only be completed. */
    method Revoke(k: GrantKey, txn: TxnId, now: Time, later: Time, budget: nat) returns (o: Outcome)
      requires txn !in store.intents && txn !in store.receipts && txn !in store.outbox
      modifies this`store, this`events
      ensures
        var s := old(store);
        var refused := k in s.tombstones || HasIntent(s, k) || k !in s.grants || s.grants[k].status in {Revoked, PurgePending, Purged};
        && (refused ==> Contents() == old(Contents()) && !o.Died?)
        && (!refused && budget == 0 ==> Contents() == old(Contents()) && o == Died)
        && (!refused && budget > 0 ==>
              var i := Intent(txn, k, s.grants[k].status, s.grants[k].revision, s.grants[k].epoch);
              Progress(Contents(), o) == Complete(OnStore(old(Contents()), PutIntent(s, i)), i, now, later, budget - 1))
        && (!refused && budget >= 8 ==>
              && o == Done(Settled(s, k, txn, now, later).receipts[txn])
              && Contents() == Disk(Settled(s, k, txn, now, later), Append(old(Contents()), k, Event(Some(s.grants[k].status), Revoked, s.grants[k].revision, s.grants[k].revision + 1)).events))
        && (refused && o.Done? ==> k in s.tombstones && o.receipt.key == k && o.receipt in s.receipts.Values)
    {
      hide Settled, Complete, Append;
      if k in store.tombstones {
        var found := FindCompletedReceipt(k);
        if found.Some? { return Done(found.value); }
        return Failed(RevocationInProgress);
      }
      var pending := IntentExistsFor(k);
      if pending { return Failed(RevocationInProgress); }
      if k !in store.grants { return Failed(GrantNotFound); }
      var g := store.grants[k];
      if g.status == Revoked || g.status == PurgePending || g.status == Purged { return Failed(GrantStateError); }
      if budget == 0 { return Died; }
      var i := Intent(txn, k, g.status, g.revision, g.epoch);
      RevocationSettles(Contents(), k, txn, now, later, budget - 1);
      store := PutIntent(store, i);
      o := CompleteRevocation(i, now, later, budget - 1);
    }

    /** One journal of a recovery; a failure is reported and the walk goes on. */
    method RecoverJournal(t: TxnId, now: Time, later: Time, budget: nat)
      modifies this`store, this`events
      ensures Contents() == RecoverOne(old(Contents()), t, now, later, budget)
      ensures t !in old(store).intents ==> Contents() == old(Contents())
      ensures t in old(store).intents && t in old(store).receipts ==>
        Contents() == old(Contents()).(store := old(store).(intents := if budget == 0 then old(store).intents else old(store).intents - {t}))
    {
      if t !in store.intents { return; }
      if t in store.receipts {
        if budget > 0 { store := DropIntent(store, t); }
        return;
      }
      var o := CompleteRevocation(store.intents[t], now, later, budget);
    }

    /** Answers a query; `None` is a denial whose cause is not told. */
    method CheckQueryEligibility(k: GrantKey, snapshotEpoch: nat, snapshotStatus: TenantStatus, now: Time) returns (r: Option<Grant>)
      ensures r.Some? <==>
        && store.tenantEpoch == snapshotEpoch && snapshotStatus in {Pilot, Live} && tenant == snapshotStatus
        && !HasIntent(store, k) && k !in store.tombstones
        && k in store.grants && store.grants[k].status == Active && store.grants[k].epoch == store.tenantEpoch
        && store.grants[k].lease.Some? && now < store.grants[k].lease.value
      ensures r.Some? ==> r.value == store.grants[k]
    {
      if store.tenantEpoch != snapshotEpoch { return None; }
      if snapshotStatus != Pilot && snapshotStatus != Live { return None; }
      if tenant != snapshotStatus { return None; }
      var pending := IntentExistsFor(k);
      if pending || k in store.tombstones || k !in store.grants { return None; }
      var g := store.grants[k];
      if g.status != Active || g.epoch != store.tenantEpoch || g.lease.None? || g.lease.value <= now { return None; }
      return Some(g);
    }

    /** A consumer reports that it cleaned up; the last one removes the task. */
    method AckCleanupTask(t: TxnId, c: Consumer) returns (removed: bool)
      modifies this`store
      ensures removed <==> t in old(store).outbox && old(store).outbox[t].consumers == {c}
      ensures store == old(store).(outbox := store.outbox)
      ensures forall u :: u in store.outbox <==> u in old(store).outbox && !(u == t && removed)
      ensures forall u :: u in store.outbox ==>
        store.outbox[u] == if u == t then old(store).outbox[u].(consumers := old(store).outbox[u].consumers - {c}) else old(store).outbox[u]
    {
      if t !in store.outbox { return false; }
      var task := store.outbox[t];
      if c !in task.consumers {
        assert task.consumers - {c} == task.consumers;
        return false;
      }
      if task.consumers == {c} {
        store := store.(outbox := store.outbox - {t});
        return true;
      }
      store := store.(outbox := store.outbox[t := task.(consumers := task.consumers - {c})]);
      return false;
    }
  }
}
