/** The ledger as a concurrent protocol (scripts/cwk_access_ledger.py).

    Any number of processes observe, promote, refresh, downgrade, revoke, recover and query
    at the same time.  One action of the model is one read or one atomic write of a file, so
    a run is any sequence of actions: every interleaving, with a crash of any process between
    any two of them.  Queries take no lock. */
module LedgerProtocol {
  import opened Wrappers
  import opened LedgerTypes

  type Pid = nat

  datatype Op =
    | ObserveOp(obs: Observation)
    | PromoteOp(purpose: Purpose, receipt: AuthorityReceipt, ttl: int)
    | MarkDueOp

  /** Why a process looks for journals and tombstones of a grant key.  `epoch` is the
      tenant's epoch that the process read before it took the lock (or, for a query, before
      it scanned). */
  datatype Reason = ForOp(op: Op, epoch: nat) | ForRevoke | ForQuery(epoch: nat)

  /** What justified a lease: the receipt that was accepted, and when. */
  datatype Acceptance = Acceptance(receipt: AuthorityReceipt, at: Time)

  const NO_RECEIPT: AuthorityReceipt := AuthorityReceipt(0, RevokeConfirm, Access({}, 0), 0, 0, false)

  /** A process between two of its actions. */
  datatype PC =
    | Idle
    | WantLock(why: Reason, key: GrantKey)
    | ScanStart(why: Reason, key: GrantKey)
    | Scanning(why: Reason, key: GrantKey, todo: set<TxnId>)
    | CheckTombstone(why: Reason, key: GrantKey)
    | ReadGrant(why: Reason, key: GrantKey)
    | WriteGrant(op: Op, key: GrantKey, epoch: nat, seen: Option<Grant>)
    | WriteIntent(key: GrantKey, grant: Grant)
    // Steps 2 to 7 of a revocation, run by the revoker or by recovery.
    | ReadForMark(i: Intent)
    | MarkRevoked(i: Intent, grant: Grant)
    | ReadEpoch(i: Intent, at: Time, revision: nat)
    | BumpEpoch(i: Intent, at: Time, revision: nat)
    | ReadEpochAgain(i: Intent, at: Time, revision: nat)
    | WriteTombstone(i: Intent, at: Time, revision: nat, after: nat)
    | WriteOutbox(i: Intent, at: Time, revision: nat, after: nat)
    | WriteReceipt(i: Intent, at: Time, revision: nat, after: nat, ob: Outbox)
    | UnlinkIntent(i: Intent)
    // Recovery of one journal.
    | RecoverCheck(i: Intent)
    | RecoverUnlink(i: Intent)
    | RecoverWantLock(i: Intent)
    // A query that was answered with this grant at this time.
    | Eligible(key: GrantKey, grant: Grant, at: Time, basis: Acceptance)

  /** `used` and `accepted` only record what happened; no process reads them. */
  datatype World = World(
    store: Store,
    locks: map<GrantKey, Pid>,
    pcs: map<Pid, PC>,
    now: Time,
    used: map<TxnId, GrantKey>,
    accepted: map<GrantKey, Acceptance>)

  datatype Call =
    | CallOp(op: Op, key: GrantKey, authority: Authority)
    | CallRevoke(key: GrantKey)
    | CallRecover(txn: TxnId)
    | CallQuery(key: GrantKey, snapshotEpoch: nat)

  datatype Action =
    | Start(p: Pid, call: Call)
    | Go(p: Pid, txn: TxnId, queryTime: Time)
    | Crash(p: Pid)
    | ForeignBump                 // a binding, a credential or another tenant operation
    | Ack(txn: TxnId, consumer: Consumer)
    | Tick(to: Time)

  function Pc(w: World, p: Pid): PC { if p in w.pcs then w.pcs[p] else Idle }

  function To(w: World, p: Pid, pc: PC): (r: World)
    ensures r.store == w.store && r.used == w.used
    ensures forall q :: q != p ==> Pc(r, q) == Pc(w, q)
  { w.(pcs := w.pcs[p := pc]) }

  /** The lock a process holds, if any. */
  function Held(pc: PC): Option<GrantKey> {
    match pc
    case ScanStart(why, k) => if why.ForQuery? then None else Some(k)
    case Scanning(why, k, _) => if why.ForQuery? then None else Some(k)
    case CheckTombstone(why, k) => if why.ForQuery? then None else Some(k)
    case ReadGrant(why, k) => if why.ForQuery? then None else Some(k)
    case WriteGrant(_, k, _, _) => Some(k)
    case WriteIntent(k, _) => Some(k)
    case ReadForMark(i) => Some(i.key)
    case MarkRevoked(i, _) => Some(i.key)
    case ReadEpoch(i, _, _) => Some(i.key)
    case BumpEpoch(i, _, _) => Some(i.key)
    case ReadEpochAgain(i, _, _) => Some(i.key)
    case WriteTombstone(i, _, _, _) => Some(i.key)
    case WriteOutbox(i, _, _, _) => Some(i.key)
    case WriteReceipt(i, _, _, _, _) => Some(i.key)
    case UnlinkIntent(i) => Some(i.key)
    case _ => None
  }

  /** Ends a call, normally, by an exception or by the death of the process: the operating
      system drops whatever lock it held. */
  function End(w: World, p: Pid, pc: PC): (r: World)
    ensures r.store == w.store && r.used == w.used
    ensures forall q :: q != p ==> Pc(r, q) == Pc(w, q)
  {
    match Held(Pc(w, p))
    case None => To(w, p, pc)
    case Some(k) => To(w.(locks := w.locks - {k}), p, pc)
  }

  function Acquire(w: World, p: Pid, k: GrantKey, pc: PC): (r: World)
    ensures r.store == w.store && r.used == w.used
    ensures forall q :: q != p ==> Pc(r, q) == Pc(w, q)
  {
    if k in w.locks then w else To(w.(locks := w.locks[k := p]), p, pc)
  }

  // ---------------------------------------------------------------------
  // Steps
  // ---------------------------------------------------------------------

  function Begin(w: World, p: Pid, call: Call): (r: World)
    ensures forall q :: q != p ==> Pc(r, q) == Pc(w, q)
  {
    if !(Pc(w, p).Idle? || Pc(w, p).Eligible?) then w else
    match call
    case CallOp(op, k, authority) =>
      if op.PromoteOp? && !Verified(authority, op.receipt, op.purpose, k, w.now) then w
      else if op.ObserveOp? && !op.obs.Valid() then w
      else To(w, p, WantLock(ForOp(op, w.store.tenantEpoch), k))
    case CallRevoke(k) => To(w, p, WantLock(ForRevoke, k))
    case CallRecover(t) => if t in w.store.intents then To(w, p, RecoverCheck(w.store.intents[t])) else w
    case CallQuery(k, snap) =>
      if w.store.tenantEpoch != snap then w else To(w, p, ScanStart(ForQuery(snap), k))
  }

  /** One entry of the directory scan: a journal that vanished is skipped. */
  function ScanStep(w: World, p: Pid, why: Reason, k: GrantKey, todo: set<TxnId>, t: TxnId): (r: World)
    ensures forall q :: q != p ==> Pc(r, q) == Pc(w, q)
  {
    if t in w.store.intents && w.store.intents[t].key == k then End(w, p, Idle)
    else if todo - {t} != {} then To(w, p, Scanning(why, k, todo - {t}))
    else if why.ForRevoke? then To(w, p, ReadGrant(why, k))
    else To(w, p, CheckTombstone(why, k))
  }

  function Apply1(op: Op, existing: Option<Grant>, epoch: nat, now: Time): Result<Option<Grant>> {
    match op
    case ObserveOp(obs) => ObserveGrant(existing, obs, epoch, now)
    case PromoteOp(purpose, r, ttl) =>
      (match existing
       case None => Err(GrantNotFound)
       case Some(g) => match PromoteGrant(g, purpose, r, ttl, epoch, now) case Ok(h) => Ok(Some(h)) case Err(e) => Err(e))
    case MarkDueOp =>
      match existing
      case None => Err(GrantNotFound)
      case Some(g) => match MarkDue(g, now) case Ok(h) => Ok(Some(h)) case Err(e) => Err(e)
  }

  /** The compare-and-swap of a grant file by an operation that holds the lock. */
  function WriteStep(w: World, p: Pid, op: Op, k: GrantKey, epoch: nat, seen: Option<Grant>): (r: World)
    ensures forall q :: q != p ==> Pc(r, q) == Pc(w, q)
  {
    match Apply1(op, seen, epoch, w.now)
    case Err(_) => End(w, p, Idle)
    case Ok(None) => End(w, p, Idle)
    case Ok(Some(h)) =>
      if Lookup(w.store, k) != seen then End(w, p, Idle) else
      var w1 := w.(store := PutGrant(w.store, k, h),
                   accepted := if op.PromoteOp? then w.accepted[k := Acceptance(op.receipt, w.now)] else w.accepted);
      End(w1, p, Idle)
  }

  function ReadStep(w: World, p: Pid, why: Reason, k: GrantKey, queryTime: Time): (r: World)
    ensures forall q :: q != p ==> Pc(r, q) == Pc(w, q)
  {
    var g := Lookup(w.store, k);
    match why
    case ForOp(op, e) => To(w, p, WriteGrant(op, k, e, g))
    case ForRevoke =>
      if g.Some? && Allowed(g.value.status, Revoked) then To(w, p, WriteIntent(k, g.value)) else End(w, p, Idle)
    case ForQuery(e) =>
      if g.Some? && g.value.status == Active && g.value.epoch == e && g.value.lease.Some? && g.value.lease.value > queryTime
      then To(w, p, Eligible(k, g.value, queryTime, if k in w.accepted then w.accepted[k] else Acceptance(NO_RECEIPT, 0)))
      else To(w, p, Idle)
  }

  function IntentStep(w: World, p: Pid, k: GrantKey, g: Grant, t: TxnId): (r: World)
    ensures r.store.grants == w.store.grants
    ensures forall q :: q != p ==> Pc(r, q) == Pc(w, q)
  {
    if t in w.used then w else
    var i := Intent(t, k, g.status, g.revision, g.epoch);
    To(w.(store := PutIntent(w.store, i), used := w.used[t := k]), p, ReadForMark(i))
  }

  // Steps 2 to 7 of the revocation recipe.

  function ReadForMarkStep(w: World, p: Pid, i: Intent): (r: World)
    ensures forall q :: q != p ==> Pc(r, q) == Pc(w, q)
  {
    var s := w.store;
    if i.key !in s.grants then End(w, p, Idle)
    else if s.grants[i.key].status == Revoked then
      To(w, p, ReadEpoch(i, RevocationTime(s.grants[i.key], w.now), s.grants[i.key].revision))
    else if Allowed(s.grants[i.key].status, Revoked) then To(w, p, MarkRevoked(i, s.grants[i.key]))
    else End(w, p, Idle)
  }

  function MarkStep(w: World, p: Pid, i: Intent, g: Grant): (r: World)
    ensures forall q :: q != p ==> Pc(r, q) == Pc(w, q)
  {
    if Lookup(w.store, i.key) != Some(g) then End(w, p, Idle)
    else To(w.(store := PutGrant(w.store, i.key, RevokedCopy(g, w.now))), p, ReadEpoch(i, w.now, g.revision + 1))
  }

  function ReadEpochStep(w: World, p: Pid, i: Intent, at: Time, rev: nat): (r: World)
    ensures forall q :: q != p ==> Pc(r, q) == Pc(w, q)
  {
    To(w, p, if w.store.tenantEpoch == i.before then BumpEpoch(i, at, rev) else ReadEpochAgain(i, at, rev))
  }

  function BumpStep(w: World, p: Pid, i: Intent, at: Time, rev: nat): (r: World)
    ensures r.store.grants == w.store.grants
    ensures forall q :: q != p ==> Pc(r, q) == Pc(w, q)
  {
    if w.store.tenantEpoch != i.before then End(w, p, Idle)
    else To(w.(store := Bumped(w.store)), p, ReadEpochAgain(i, at, rev))
  }

  function TombstoneStep(w: World, p: Pid, i: Intent, at: Time, rev: nat, e: nat): (r: World)
    ensures r.store.grants == w.store.grants
    ensures forall q :: q != p ==> Pc(r, q) == Pc(w, q)
  {
    if i.key in w.store.tombstones then
      if w.store.tombstones[i.key] == TombstoneOf(i, at, e) then To(w, p, WriteOutbox(i, at, rev, e)) else End(w, p, Idle)
    else To(w.(store := PutTombstone(w.store, TombstoneOf(i, at, e))), p, WriteOutbox(i, at, rev, e))
  }

  function OutboxStep(w: World, p: Pid, i: Intent, at: Time, rev: nat, e: nat): (r: World)
    ensures r.store.grants == w.store.grants
    ensures forall q :: q != p ==> Pc(r, q) == Pc(w, q)
  {
    var ob := OutboxOf(i, e, w.now);
    if i.txn in w.store.outbox then
      if w.store.outbox[i.txn].key == i.key && w.store.outbox[i.txn].txn == i.txn
      then To(w, p, WriteReceipt(i, at, rev, e, ob)) else End(w, p, Idle)
    else To(w.(store := PutOutbox(w.store, ob)), p, WriteReceipt(i, at, rev, e, ob))
  }

  function ReceiptStep(w: World, p: Pid, i: Intent, at: Time, rev: nat, e: nat, ob: Outbox): (r: World)
    ensures r.store.grants == w.store.grants
    ensures forall q :: q != p ==> Pc(r, q) == Pc(w, q)
  {
    var receipt := ReceiptOf(i, at, rev, e, ob);
    if i.txn in w.store.receipts then
      if w.store.receipts[i.txn] == receipt then To(w, p, UnlinkIntent(i)) else End(w, p, Idle)
    else To(w.(store := PutReceipt(w.store, receipt)), p, UnlinkIntent(i))
  }

  function UnlinkStep(w: World, p: Pid, i: Intent): (r: World)
    ensures r.store.grants == w.store.grants
    ensures forall q :: q != p ==> Pc(r, q) == Pc(w, q)
  {
    End(w.(store := DropIntent(w.store, i.txn)), p, Idle)
  }

  function Advance(w: World, p: Pid, t: TxnId, queryTime: Time): (r: World)
    ensures forall q :: q != p ==> Pc(r, q) == Pc(w, q)
  {
    match Pc(w, p)
    case Idle => w
    case Eligible(_, _, _, _) => w
    case WantLock(why, k) => Acquire(w, p, k, if why.ForRevoke? then CheckTombstone(why, k) else ScanStart(why, k))
    case ScanStart(why, k) =>
      To(w, p, if w.store.intents.Keys == {} then (if why.ForRevoke? then ReadGrant(why, k) else CheckTombstone(why, k))
               else Scanning(why, k, w.store.intents.Keys))
    case Scanning(why, k, todo) => ScanStep(w, p, why, k, todo, t)
    case CheckTombstone(why, k) =>
      if k in w.store.tombstones then End(w, p, Idle)
      else To(w, p, if why.ForRevoke? then ScanStart(why, k) else ReadGrant(why, k))
    case ReadGrant(why, k) => ReadStep(w, p, why, k, queryTime)
    case WriteGrant(op, k, e, seen) => WriteStep(w, p, op, k, e, seen)
    case WriteIntent(k, g) => IntentStep(w, p, k, g, t)
    case RecoverCheck(i) => To(w, p, if i.txn in w.store.receipts then RecoverUnlink(i) else RecoverWantLock(i))
    case RecoverUnlink(i) => UnlinkStep(w, p, i)
    case RecoverWantLock(i) => Acquire(w, p, i.key, ReadForMark(i))
    case ReadForMark(i) => ReadForMarkStep(w, p, i)
    case MarkRevoked(i, g) => MarkStep(w, p, i, g)
    case ReadEpoch(i, at, rev) => ReadEpochStep(w, p, i, at, rev)
    case BumpEpoch(i, at, rev) => BumpStep(w, p, i, at, rev)
    case ReadEpochAgain(i, at, rev) => To(w, p, WriteTombstone(i, at, rev, w.store.tenantEpoch))
    case WriteTombstone(i, at, rev, e) => TombstoneStep(w, p, i, at, rev, e)
    case WriteOutbox(i, at, rev, e) => OutboxStep(w, p, i, at, rev, e)
    case WriteReceipt(i, at, rev, e, ob) => ReceiptStep(w, p, i, at, rev, e, ob)
    case UnlinkIntent(i) => UnlinkStep(w, p, i)
  }

  function AckStep(s: Store, t: TxnId, c: Consumer): Store {
    if t !in s.outbox || c !in s.outbox[t].consumers then s
    else if s.outbox[t].consumers == {c} then s.(outbox := s.outbox - {t})
    else s.(outbox := s.outbox[t := s.outbox[t].(consumers := s.outbox[t].consumers - {c})])
  }

  function Next(w: World, a: Action): World {
    match a
    case Start(p, call) => Begin(w, p, call)
    case Go(p, t, q) => Advance(w, p, t, q)
    case Crash(p) => End(w, p, Idle)
    case ForeignBump => w.(store := Bumped(w.store))
    case Ack(t, c) => w.(store := AckStep(w.store, t, c))
    case Tick(to) => if to < w.now then w else w.(now := to)
  }

  function Run(w: World, actions: seq<Action>): World
    decreases |actions|
  {
    if actions == [] then w else Run(Next(w, actions[0]), actions[1..])
  }
}
