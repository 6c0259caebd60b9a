/** Grants, leases, revocation facts and the pure part of every ledger operation
    (scripts/cwk_access_ledger.py).

    One tenant's directory is modelled: tenants share no file of the ledger.  Hashes are
    taken as injective, so a hashed document is represented by the document itself and a
    grant key by the opaque identity it stands for.  Times are microseconds. */
module LedgerTypes {
  import opened Wrappers

  type GrantKey = nat
  type TxnId = nat
  type Time = int

  const LEASE_TTL_MIN_SECONDS: int := 30
  const LEASE_TTL_MAX_SECONDS: int := 900

  /** The longest lease, in microseconds. */
  const LEASE_CAP: int := 900_000_000

  datatype Result<+T> = Ok(value: T) | Err(error: LedgerError)

  datatype LedgerError =
    | GrantStateError
    | GrantNotFound
    | RevocationInProgress
    | AuthorityRejected
    | ContractError

  datatype Status = Discovered | Granted | Active | RevalidationDue | Revoked | PurgePending | Purged

  /** The frozen transition table of an access grant. */
  predicate Allowed(from: Status, to: Status) {
    match from
    case Discovered => to == Granted || to == Revoked
    case Granted => to == Active || to == Revoked
    case Active => to == RevalidationDue || to == Revoked
    case RevalidationDue => to == Active || to == Revoked
    case Revoked => to == PurgePending
    case PurgePending => to == Purged
    case Purged => false
  }

  /** What a grant lets its holder see. */
  datatype Access = Access(roles: set<nat>, visibility: nat)

  datatype Grant = Grant(
    status: Status,
    access: Access,
    source: nat,
    epoch: nat,
    grantedAt: Option<Time>,
    lastVerifiedAt: Time,
    lease: Option<Time>,
    revokedAt: Option<Time>,
    revision: nat,
    createdAt: Time,
    updatedAt: Time)

  // ---------------------------------------------------------------------
  // Observation, promotion, downgrade
  // ---------------------------------------------------------------------

  datatype Observation = Observation(initial: Status, access: Access, source: nat) {
    /** The observation schema admits only these two initial statuses. */
    predicate Valid() { initial == Discovered || initial == Granted }
  }

  /** The record an observation asks for: `Ok(None)` leaves the file alone. */
  function ObserveGrant(existing: Option<Grant>, obs: Observation, epoch: nat, now: Time): Result<Option<Grant>>
  {
    match existing
    case None =>
      Ok(Some(Grant(obs.initial, obs.access, obs.source, epoch,
                    if obs.initial == Granted then Some(now) else None,
                    now, None, None, 1, now, now)))
    case Some(g) =>
      if g.status == Discovered && obs.initial == Granted then
        Ok(Some(Reobserved(g, Granted, obs, epoch, now)))
      else if g.status == Active || g.status == RevalidationDue then
        Ok(if g.access != obs.access then Some(Reobserved(g, g.status, obs, epoch, now)) else None)
      else if g.status == Revoked || g.status == PurgePending || g.status == Purged then
        Err(GrantStateError)
      else
        // Reached by `Granted`, and by `Discovered` observed as `Discovered` again.
        Ok(if g.access != obs.access then Some(Reobserved(g, Granted, obs, epoch, now)) else None)
  }

  function Reobserved(g: Grant, status: Status, obs: Observation, epoch: nat, now: Time): Grant {
    Grant(status, obs.access, obs.source, epoch,
          match g.grantedAt { case Some(_) => g.grantedAt case None => if status == Granted then Some(now) else None },
          now, g.lease, None, g.revision + 1, g.createdAt, now)
  }

  datatype Purpose = PromoteToActive | RefreshLease

  datatype ReceiptKind = GrantPromote | LeaseRefresh | RevokeConfirm

  datatype AuthorityReceipt = AuthorityReceipt(
    key: GrantKey, kind: ReceiptKind, access: Access, source: nat, expiry: Time, signatureOk: bool)

  /** The adapter that ships refuses every receipt; the signing one checks it. */
  datatype Authority = FailClosed | Signing

  predicate Verified(authority: Authority, r: AuthorityReceipt, purpose: Purpose, key: GrantKey, now: Time) {
    && r.key == key
    && authority == Signing
    && r.signatureOk
    && r.kind == (if purpose == PromoteToActive then GrantPromote else LeaseRefresh)
    && r.expiry > now
  }

  function FloorSecond(t: Time): Time { t - t % 1_000_000 }

  predicate TtlOk(ttl: int) { LEASE_TTL_MIN_SECONDS <= ttl <= LEASE_TTL_MAX_SECONDS }

  /** The lease granted at `now`: whole seconds, never past the authority's own expiry. */
  function LeaseExpiry(now: Time, ttl: int, receiptExpiry: Time): Time {
    var computed := FloorSecond(now) + ttl * 1_000_000;
    if receiptExpiry < computed then FloorSecond(receiptExpiry) else computed
  }

  function PromoteGrant(g: Grant, purpose: Purpose, r: AuthorityReceipt, ttl: int, epoch: nat, now: Time): Result<Grant>
  {
    var startOk := match purpose
      case PromoteToActive => g.status == Granted || g.status == RevalidationDue
      case RefreshLease => g.status == Active || g.status == RevalidationDue;
    if !startOk then Err(GrantStateError)
    else if !TtlOk(ttl) then Err(ContractError)
    else Ok(Grant(Active, r.access, r.source, epoch,
                  match g.grantedAt { case Some(_) => g.grantedAt case None => Some(now) },
                  now, Some(LeaseExpiry(now, ttl, r.expiry)), None, g.revision + 1, g.createdAt, now))
  }

  function MarkDue(g: Grant, now: Time): Result<Grant> {
    if g.status != Active then Err(GrantStateError)
    else Ok(g.(status := RevalidationDue, lastVerifiedAt := now, revision := g.revision + 1, updatedAt := now))
  }

  // ---------------------------------------------------------------------
  // Revocation facts
  // ---------------------------------------------------------------------

  datatype Intent = Intent(txn: TxnId, key: GrantKey, prior: Status, priorRevision: nat, before: nat)

  datatype Tombstone = Tombstone(key: GrantKey, revokedAt: Time, epochAtRevoke: nat, txn: TxnId)

  datatype Consumer = TenantView | SpaceIndex | Cache | ReviewQueue | ArchiveMetadata

  datatype Outbox = Outbox(key: GrantKey, epochAfter: nat, txn: TxnId, consumers: set<Consumer>, createdAt: Time)

  datatype Receipt = Receipt(
    txn: TxnId, key: GrantKey, before: nat, after: nat, revision: nat,
    tombstone: Tombstone, outbox: Outbox, revokedAt: Time)

  datatype Event = Event(from: Option<Status>, to: Status, revisionBefore: nat, revisionAfter: nat)

  /** The durable files of one tenant, plus the tenant record's authorization epoch. */
  datatype Store = Store(
    tenantEpoch: nat,
    grants: map<GrantKey, Grant>,
    intents: map<TxnId, Intent>,
    tombstones: map<GrantKey, Tombstone>,
    outbox: map<TxnId, Outbox>,
    receipts: map<TxnId, Receipt>)

  function Lookup(s: Store, k: GrantKey): Option<Grant> {
    if k in s.grants then Some(s.grants[k]) else None
  }

  // One durable write each.
  function Bumped(s: Store): Store { s.(tenantEpoch := s.tenantEpoch + 1) }
  function PutGrant(s: Store, k: GrantKey, g: Grant): Store { s.(grants := s.grants[k := g]) }
  function PutIntent(s: Store, i: Intent): Store { s.(intents := s.intents[i.txn := i]) }
  function DropIntent(s: Store, t: TxnId): Store { s.(intents := s.intents - {t}) }
  function PutTombstone(s: Store, tomb: Tombstone): Store { s.(tombstones := s.tombstones[tomb.key := tomb]) }
  function PutOutbox(s: Store, ob: Outbox): Store { s.(outbox := s.outbox[ob.txn := ob]) }
  function PutReceipt(s: Store, r: Receipt): Store { s.(receipts := s.receipts[r.txn := r]) }

  function RevokedCopy(g: Grant, now: Time): Grant {
    g.(status := Revoked, revokedAt := Some(now), lastVerifiedAt := now, revision := g.revision + 1, updatedAt := now)
  }

  function RevocationTime(g: Grant, now: Time): Time {
    match g.revokedAt case Some(t) => t case None => now
  }

  function TombstoneOf(i: Intent, at: Time, epoch: nat): Tombstone { Tombstone(i.key, at, epoch, i.txn) }

  function OutboxOf(i: Intent, epoch: nat, now: Time): Outbox {
    Outbox(i.key, epoch, i.txn, {TenantView, SpaceIndex, Cache}, now)
  }

  function ReceiptOf(i: Intent, at: Time, revision: nat, epoch: nat, ob: Outbox): Receipt {
    Receipt(i.txn, i.key, i.before, epoch, revision, TombstoneOf(i, at, epoch), ob, at)
  }

  // ---------------------------------------------------------------------
  // What the pure operations may and may not do
  // ---------------------------------------------------------------------

  /** Observation never lengthens a lease, never makes a grant queryable, and moves a
      status only from `Discovered` to `Granted`. */
  lemma ObserveNeverEscalates(g: Grant, obs: Observation, epoch: nat, now: Time)
    requires obs.Valid()
    ensures match ObserveGrant(Some(g), obs, epoch, now)
            case Err(_) => g.status in {Revoked, PurgePending, Purged}
            case Ok(None) => g.access == obs.access
            case Ok(Some(h)) =>
              && h.lease == g.lease && h.revision == g.revision + 1 && h.epoch == epoch && h.access == obs.access
              && (h.status == g.status || (g.status == Discovered && h.status == Granted))
              && (g.status != Active ==> h.status != Active)
    ensures match ObserveGrant(None, obs, epoch, now)
            case Ok(Some(h)) => h.status == obs.initial && h.status != Active && h.lease == None && h.revision == 1
            case _ => false
  {
  }

  /** A rewritten `Discovered` grant always becomes `Granted`, even when the observation
      itself only claims `Discovered`: it is then rewritten exactly when the access changed. */
  lemma DiscoveredReobservation(g: Grant, obs: Observation, epoch: nat, now: Time)
    requires g.status == Discovered && obs.initial == Discovered
    ensures match ObserveGrant(Some(g), obs, epoch, now)
            case Ok(Some(h)) => g.access != obs.access && h.status == Granted
            case Ok(None) => g.access == obs.access
            case Err(_) => false
  {
  }

  /** An active grant left behind by a bump of the tenant's epoch comes back to the current
      epoch with no authority receipt, and it does so exactly when its access changed. */
  lemma ObservationRevivesStaleGrant(g: Grant, obs: Observation, epoch: nat, now: Time)
    requires g.status == Active && g.epoch < epoch
    ensures match ObserveGrant(Some(g), obs, epoch, now)
            case Ok(Some(h)) => g.access != obs.access && h.status == Active && h.epoch == epoch && h.lease == g.lease
            case Ok(None) => g.access == obs.access
            case Err(_) => false
  {
  }

  /** A lease is in whole seconds; it ends no later than the authority said and within the
      fifteen-minute cap, and less than a second before the earlier of the two. */
  lemma LeaseIsBounded(now: Time, ttl: int, receiptExpiry: Time)
    requires TtlOk(ttl)
    ensures LeaseExpiry(now, ttl, receiptExpiry) <= receiptExpiry
    ensures LeaseExpiry(now, ttl, receiptExpiry) <= now + LEASE_CAP
    ensures LeaseExpiry(now, ttl, receiptExpiry) > now + ttl * 1_000_000 - 1_000_000 || LeaseExpiry(now, ttl, receiptExpiry) > receiptExpiry - 1_000_000
    ensures LeaseExpiry(now, ttl, receiptExpiry) % 1_000_000 == 0
  {
  }

  /** The lease ends at the last whole second that is neither after the requested time nor after
      the receipt's own expiry. */
  predicate MayEndAt(t: Time, now: Time, ttl: int, receiptExpiry: Time) {
    t % 1_000_000 == 0 && t <= now + ttl * 1_000_000 && t <= receiptExpiry
  }

  lemma LeaseIsTheLatest(now: Time, ttl: int, receiptExpiry: Time, t: Time)
    ensures MayEndAt(LeaseExpiry(now, ttl, receiptExpiry), now, ttl, receiptExpiry)
    ensures MayEndAt(t, now, ttl, receiptExpiry) ==> t <= LeaseExpiry(now, ttl, receiptExpiry)
  {
    var asked := FloorSecond(now) + ttl * 1_000_000;
    assert asked % 1_000_000 == 0 && FloorSecond(receiptExpiry) % 1_000_000 == 0;
    if MayEndAt(t, now, ttl, receiptExpiry) {
      LatestBelow(t, now + ttl * 1_000_000);
      LatestBelow(t, receiptExpiry);
    }
  }

  lemma LatestBelow(t: Time, bound: Time)
    requires t % 1_000_000 == 0 && t <= bound
    ensures t <= FloorSecond(bound)
  {
  }

  // ---------------------------------------------------------------------
  // Each operation told by what it changes
  // ---------------------------------------------------------------------

  /** An observation rewrites a live grant exactly when it moves it from discovered to granted
      or its access changed; a rewrite leaves an active or due grant in its status and makes any
      other one granted, and it never touches lease, creation or an earlier grant time.  A first observation
      creates the grant as it claims, without a lease. */
  lemma ObservationInShort(g: Grant, obs: Observation, epoch: nat, now: Time)
    requires obs.initial in {Discovered, Granted}
    ensures var r := ObserveGrant(Some(g), obs, epoch, now);
            var status := if g.status == Active || g.status == RevalidationDue then g.status else Granted;
            if g.status in {Revoked, PurgePending, Purged} then r == Err(GrantStateError)
            else if g.access == obs.access && (g.status != Discovered || obs.initial == Discovered) then r == Ok(None)
            else r == Ok(Some(g.(status := status, access := obs.access, source := obs.source, epoch := epoch,
                                 grantedAt := if g.grantedAt.None? && status == Granted then Some(now) else g.grantedAt,
                                 lastVerifiedAt := now, revokedAt := None, revision := g.revision + 1, updatedAt := now)))
    ensures match ObserveGrant(None, obs, epoch, now)
            case Ok(Some(h)) =>
              && h.status == obs.initial && h.access == obs.access && h.source == obs.source && h.epoch == epoch
              && (h.grantedAt == if obs.initial == Granted then Some(now) else None)
              && h.lease == None && h.revokedAt == None && h.revision == 1
              && h.lastVerifiedAt == h.createdAt == h.updatedAt == now
            case _ => false
  {
  }

  /** Promotion starts from granted or due, and a refresh from active or due; the lease is the
      longest that was asked for and authorized, and only creation and an earlier grant time
      stay. */
  lemma PromotionInShort(g: Grant, purpose: Purpose, r: AuthorityReceipt, ttl: int, epoch: nat, now: Time, t: Time)
    ensures var p := PromoteGrant(g, purpose, r, ttl, epoch, now);
            var mayStart := g.status == RevalidationDue || g.status == (match purpose case PromoteToActive => Granted case RefreshLease => Active);
            && (p.Ok? <==> mayStart && 30 <= ttl <= 900) && (p.Err? ==> p.error == if mayStart then ContractError else GrantStateError)
            && (p.Ok? ==>
                  && p.value == g.(status := Active, access := r.access, source := r.source, epoch := epoch,
                                   grantedAt := if g.grantedAt.None? then Some(now) else g.grantedAt,
                                   lastVerifiedAt := now, lease := p.value.lease, revokedAt := None, revision := g.revision + 1, updatedAt := now)
                  && p.value.lease.Some? && MayEndAt(p.value.lease.value, now, ttl, r.expiry)
                  && (MayEndAt(t, now, ttl, r.expiry) ==> t <= p.value.lease.value))
  {
    LeaseIsTheLatest(now, ttl, r.expiry, t);
  }

  /** Only an active grant is marked due: it stops being active, and keeps its lease, its epoch
      and everything that it says of access. */
  lemma MarkDueInShort(g: Grant, now: Time)
    ensures match MarkDue(g, now)
            case Err(e) => g.status != Active && e == GrantStateError
            case Ok(h) => g.status == Active && h == g.(status := RevalidationDue, lastVerifiedAt := now, revision := g.revision + 1, updatedAt := now)
  {
  }

  /** Revocation is legal from exactly the four live statuses, and from nowhere does anything
      lead back from it. */
  lemma RevocationIsAlwaysLegal(from: Status, to: Status)
    ensures Allowed(from, Revoked) <==> from in {Discovered, Granted, Active, RevalidationDue}
    ensures Allowed(from, Active) <==> from in {Granted, RevalidationDue}
    ensures (Allowed(from, RevalidationDue) <==> from == Active) && (Allowed(from, Granted) <==> from == Discovered) && !Allowed(from, Discovered)
    ensures Allowed(Revoked, to) <==> to == PurgePending
    ensures Allowed(PurgePending, to) <==> to == Purged
    ensures !Allowed(Purged, to)
  {
  }

  /** A marked grant says when it was revoked and is otherwise the grant it was. */
  lemma MarkingInShort(g: Grant, now: Time)
    ensures var h := RevokedCopy(g, now);
            && h.status == Revoked && h.revokedAt == Some(now) && h.revision == g.revision + 1
            && h.access == g.access && h.source == g.source && h.epoch == g.epoch && h.lease == g.lease
            && h.grantedAt == g.grantedAt && h.createdAt == g.createdAt && h.lastVerifiedAt == h.updatedAt == now
  {
  }

  /** Promotion is the only operation that grants a lease, and it starts only from a status
      that the transition table lets reach `Active` (or from `Active` itself). */
  lemma PromotionIsLegal(g: Grant, purpose: Purpose, r: AuthorityReceipt, ttl: int, epoch: nat, now: Time)
    ensures match PromoteGrant(g, purpose, r, ttl, epoch, now)
            case Err(_) => true
            case Ok(h) =>
              && (Allowed(g.status, Active) || g.status == Active)
              && h.status == Active && h.epoch == epoch && h.revision == g.revision + 1
              && h.access == r.access && h.source == r.source && h.createdAt == g.createdAt && h.revokedAt == None
              && h.grantedAt.Some? && (g.grantedAt.Some? ==> h.grantedAt == g.grantedAt)
              && h.lease.Some? && h.lease.value <= r.expiry
              && h.lease.value <= now + LEASE_CAP
  {
    if TtlOk(ttl) { LeaseIsBounded(now, ttl, r.expiry); }
  }
}
