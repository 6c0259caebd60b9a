/** What crashes and recovery do to a revocation (scripts/cwk_access_ledger.py:1571-1727
    and 2074-2150): which states they can leave, and exactly when recovery finishes. */
module LedgerRecovery {
  import opened Wrappers
  import opened LedgerTypes
  import opened AccessLedger

  // ---------------------------------------------------------------------
  // What a crash does lose
  // ---------------------------------------------------------------------

  /** The journal of `i` was just written, and nothing else. */
  predicate JustIntended(s: Store, i: Intent) {
    && i.txn in s.intents && s.intents[i.txn] == i
    && i.key in s.grants && Allowed(s.grants[i.key].status, Revoked)
    && s.grants[i.key].epoch == i.before
    && i.key !in s.tombstones && i.txn !in s.outbox && i.txn !in s.receipts
  }

  /** One attempt of a revoker or of a recovery: its clocks and how many writes it lives. */
  datatype Round = Round(now: Time, later: Time, writes: nat)

  function Rounds(d: Disk, t: TxnId, rounds: seq<Round>): Disk
    decreases |rounds|
  {
    if rounds == [] then d
    else Rounds(RecoverOne(d, t, rounds[0].now, rounds[0].later, rounds[0].writes), t, rounds[1..])
  }

  /** The event of a revocation is written by the attempt that marks the grant or by none:
      a crash right after the mark loses it for ever. */
  lemma {:induction false} LostEvent(d: Disk, i: Intent, first: Round, rounds: seq<Round>)
    requires JustIntended(d.store, i) && first.writes > 0
    ensures var d1 := RecoverOne(d, i.txn, first.now, first.later, first.writes);
            Rounds(d1, i.txn, rounds).events ==
              if first.writes == 1 then d.events
              else Append(d, i.key, RevokeEvent(i, d.store.grants[i.key].revision + 1)).events
  {
    var d1 := RecoverOne(d, i.txn, first.now, first.later, first.writes);
    FirstAttempt(d, i, first.now, first.later, first.writes);
    MarkedWritesNoEvent(d1, i, rounds);
  }

  lemma FirstAttempt(d: Disk, i: Intent, now: Time, later: Time, left: nat)
    requires JustIntended(d.store, i) && left > 0
    ensures var d1 := RecoverOne(d, i.txn, now, later, left);
            && i.key in d1.store.grants && d1.store.grants[i.key].status == Revoked
            && (i.txn in d1.store.intents ==> d1.store.intents[i.txn] == i)
            && d1.events == if left == 1 then d.events else Append(d, i.key, RevokeEvent(i, d.store.grants[i.key].revision + 1)).events
  {
    hide Bump;
    if left > 1 {
      var g := d.store.grants[i.key];
      var marked := Append(OnStore(d, PutGrant(d.store, i.key, RevokedCopy(g, now))), i.key, RevokeEvent(i, g.revision + 1));
      BumpKeepsFacts(marked, i, now, g.revision + 1, later, left - 2);
    }
  }

  lemma {:induction false} MarkedWritesNoEvent(d: Disk, i: Intent, rounds: seq<Round>)
    requires i.key in d.store.grants && d.store.grants[i.key].status == Revoked
    requires i.txn in d.store.intents ==> d.store.intents[i.txn] == i
    ensures Rounds(d, i.txn, rounds).events == d.events
    decreases |rounds|
  {
    if rounds != [] {
      var r := rounds[0];
      MarkedKeeps(d, i, r.now, r.later, r.writes);
      MarkedWritesNoEvent(RecoverOne(d, i.txn, r.now, r.later, r.writes), i, rounds[1..]);
    }
  }

  lemma MarkedKeeps(d: Disk, i: Intent, now: Time, later: Time, left: nat)
    requires i.key in d.store.grants && d.store.grants[i.key].status == Revoked
    requires i.txn in d.store.intents ==> d.store.intents[i.txn] == i
    ensures var d1 := RecoverOne(d, i.txn, now, later, left);
            d1.events == d.events && d1.store.grants == d.store.grants
            && (i.txn in d1.store.intents ==> d1.store.intents[i.txn] == i)
  {
    hide Bump;
    var g := d.store.grants[i.key];
    BumpKeepsFacts(d, i, RevocationTime(g, now), g.revision, later, left);
  }

  // ---------------------------------------------------------------------
  // Drift: exactly when recovery stops
  // ---------------------------------------------------------------------

  /** A journal as every run leaves it (LedgerSafety.StoreInv): the grant is unmarked and not
      tombstoned, or it is revoked and a tombstone, if there, is this transaction's. */
  predicate Sound(s: Store, i: Intent) {
    && i.key in s.grants && s.grants[i.key].epoch == i.before && i.before <= s.tenantEpoch
    && i.txn in s.intents && s.intents[i.txn] == i
    && (|| (Allowed(s.grants[i.key].status, Revoked) && i.key !in s.tombstones)
        || (s.grants[i.key].status == Revoked && s.grants[i.key].revokedAt.Some?))
    && (i.key in s.tombstones ==>
          s.tombstones[i.key] == TombstoneOf(i, s.grants[i.key].revokedAt.value, s.tombstones[i.key].epochAtRevoke)
          && i.before < s.tombstones[i.key].epochAtRevoke <= s.tenantEpoch)
    && (i.txn in s.outbox ==> s.outbox[i.txn].key == i.key && s.outbox[i.txn].txn == i.txn)
  }

  /** The tenant's epoch moved after the tombstone was written. */
  predicate Drifted(s: Store, i: Intent) {
    i.key in s.tombstones && s.tombstones[i.key].epochAtRevoke != s.tenantEpoch
  }

  /** Enough writes settle a queued or unqueued task of this transaction. */
  lemma EnqueueSettles(d: Disk, i: Intent, at: Time, revision: nat, later: Time, left: nat)
    requires i.txn !in d.store.receipts && left >= 3
    requires i.txn in d.store.outbox ==> d.store.outbox[i.txn].key == i.key && d.store.outbox[i.txn].txn == i.txn
    ensures var p := Enqueue(d, i, at, revision, later, left);
            p.outcome.Done? && p.disk.store.tenantEpoch == d.store.tenantEpoch && p.disk.store.tombstones == d.store.tombstones
  {
  }

  lemma BumpSettles(d: Disk, i: Intent, at: Time, revision: nat, later: Time, left: nat)
    requires i.txn !in d.store.receipts && left >= 5
    requires i.txn in d.store.outbox ==> d.store.outbox[i.txn].key == i.key && d.store.outbox[i.txn].txn == i.txn
    requires i.key in d.store.tombstones ==>
               d.store.tombstones[i.key] == TombstoneOf(i, at, d.store.tombstones[i.key].epochAtRevoke) && d.store.tenantEpoch != i.before
    ensures var p := Bump(d, i, at, revision, later, left);
            && (Drifted(d.store, i) ==> p == Progress(d, Failed(ContractError)))
            && (!Drifted(d.store, i) ==>
                  && p.outcome.Done? && i.key in p.disk.store.tombstones
                  && p.disk.store.tenantEpoch == (if d.store.tenantEpoch == i.before then i.before + 1 else d.store.tenantEpoch))
  {
    hide Enqueue;
    var d1 := if d.store.tenantEpoch == i.before then OnStore(d, Bumped(d.store)) else d;
    var left1 := if d.store.tenantEpoch == i.before then left - 1 else left;
    if i.key in d.store.tombstones {
      if !Drifted(d.store, i) { EnqueueSettles(d, i, at, revision, later, left); }
    } else {
      EnqueueSettles(OnStore(d1, PutTombstone(d1.store, TombstoneOf(i, at, d1.store.tenantEpoch))), i, at, revision, later, left1 - 1);
    }
  }

  /** Every fact of another transaction is as it was. */
  ghost predicate KeepsFacts(s: Store, i: Intent, s': Store) {
    && (forall k :: k in s.tombstones ==> k in s'.tombstones && s'.tombstones[k] == s.tombstones[k])
    && (forall k :: k in s'.tombstones ==> k in s.tombstones || k == i.key)
    && (forall t :: t != i.txn ==> (t in s'.receipts <==> t in s.receipts))
    && (forall t :: t != i.txn && t in s'.outbox ==> t in s.outbox && s'.outbox[t] == s.outbox[t])
  }

  predicate DropsAtMost(s: Store, i: Intent, p: Progress) {
    p.disk.store.intents == if p.outcome.Done? then s.intents - {i.txn} else s.intents
  }

  lemma UnlinkKeepsFacts(d: Disk, i: Intent, receipt: Receipt, left: nat)
    ensures var p := Unlink(d, i, receipt, left); KeepsFacts(d.store, i, p.disk.store) && DropsAtMost(d.store, i, p)
  {
  }

  lemma SettleKeepsFacts(d: Disk, i: Intent, receipt: Receipt, left: nat)
    requires receipt.txn == i.txn
    ensures var p := Settle(d, i, receipt, left); KeepsFacts(d.store, i, p.disk.store) && DropsAtMost(d.store, i, p)
  {
    hide Unlink;
    UnlinkKeepsFacts(d, i, receipt, left);
    if left > 0 { UnlinkKeepsFacts(OnStore(d, PutReceipt(d.store, receipt)), i, receipt, left - 1); }
  }

  lemma EnqueueKeepsFacts(d: Disk, i: Intent, at: Time, revision: nat, later: Time, left: nat)
    ensures var p := Enqueue(d, i, at, revision, later, left); KeepsFacts(d.store, i, p.disk.store) && DropsAtMost(d.store, i, p)
  {
    hide Settle, KeepsFacts;
    var e := d.store.tenantEpoch;
    var ob := OutboxOf(i, e, later);
    var receipt := ReceiptOf(i, at, revision, e, ob);
    SameFacts(d.store, i);
    SettleKeepsFacts(d, i, receipt, left);
    if left > 0 {
      SettleKeepsFacts(OnStore(d, PutOutbox(d.store, ob)), i, receipt, left - 1);
      FactsAcrossPut(d.store, i, ob, Settle(OnStore(d, PutOutbox(d.store, ob)), i, receipt, left - 1).disk.store);
    }
  }

  lemma SameFacts(s: Store, i: Intent)
    ensures KeepsFacts(s, i, s)
  {
  }

  lemma FactsAcrossPut(s: Store, i: Intent, ob: Outbox, s': Store)
    requires ob.txn == i.txn && KeepsFacts(PutOutbox(s, ob), i, s')
    ensures KeepsFacts(s, i, s')
  {
  }

  lemma EntombKeepsFacts(d: Disk, i: Intent, at: Time, revision: nat, later: Time, left: nat)
    ensures var p := Entomb(d, i, at, revision, later, left); KeepsFacts(d.store, i, p.disk.store) && DropsAtMost(d.store, i, p)
  {
    hide Enqueue;
    EnqueueKeepsFacts(d, i, at, revision, later, left);
    if left > 0 {
      EnqueueKeepsFacts(OnStore(d, PutTombstone(d.store, TombstoneOf(i, at, d.store.tenantEpoch))), i, at, revision, later, left - 1);
    }
  }

  lemma BumpKeepsFacts(d: Disk, i: Intent, at: Time, revision: nat, later: Time, left: nat)
    ensures var p := Bump(d, i, at, revision, later, left); KeepsFacts(d.store, i, p.disk.store) && DropsAtMost(d.store, i, p)
  {
    hide Entomb;
    EntombKeepsFacts(d, i, at, revision, later, left);
    if left > 0 {
      EntombKeepsFacts(OnStore(d, Bumped(d.store)), i, at, revision, later, left - 1);
    }
  }

  /** Recovery of an unreceipted journal fails exactly when it drifted, and then it writes
      nothing at all; otherwise it settles the journal and moves the tenant's epoch at most
      by its own bump. */
  lemma DriftIsTheOnlyFailure(d: Disk, i: Intent, now: Time, later: Time)
    requires Sound(d.store, i) && i.txn !in d.store.receipts
    ensures var p := Complete(d, i, now, later, 7);
            && (p.outcome.Done? <==> !Drifted(d.store, i))
            && (Drifted(d.store, i) ==> p.outcome == Failed(ContractError) && p.disk == d)
            && (!Drifted(d.store, i) ==>
                  && p.disk.store.tenantEpoch == (if d.store.tenantEpoch == i.before then i.before + 1 else d.store.tenantEpoch)
                  && p.disk.store.intents == d.store.intents - {i.txn}
                  && i.key in p.disk.store.tombstones
                  && (forall k :: k != i.key ==> Lookup(p.disk.store, k) == Lookup(d.store, k))
                  && KeepsFacts(d.store, i, p.disk.store))
  {
    hide Bump;
    var g := d.store.grants[i.key];
    if g.status == Revoked {
      BumpSettles(d, i, g.revokedAt.value, g.revision, later, 7);
      BumpKeepsFacts(d, i, g.revokedAt.value, g.revision, later, 7);
    } else {
      var marked := OnStore(d, PutGrant(d.store, i.key, RevokedCopy(g, now)));
      BumpSettles(Append(marked, i.key, RevokeEvent(i, g.revision + 1)), i, now, g.revision + 1, later, 5);
      BumpKeepsFacts(Append(marked, i.key, RevokeEvent(i, g.revision + 1)), i, now, g.revision + 1, later, 5);
    }
  }

  // ---------------------------------------------------------------------
  // Recovery of a whole tenant
  // ---------------------------------------------------------------------

  /** The journals that one recovery walks, in the order it walks them. */
  function RecoverAll(d: Disk, journals: seq<TxnId>, now: Time, later: Time): Disk
    decreases |journals|
  {
    if journals == [] then d else RecoverAll(RecoverOne(d, journals[0], now, later, 7), journals[1..], now, later)
  }

  ghost predicate AllSound(s: Store) {
    && (forall t :: t in s.intents ==> s.intents[t].txn == t && Sound(s, s.intents[t]))
    && (forall t, u :: t in s.intents && u in s.intents && s.intents[t].key == s.intents[u].key ==> t == u)
  }

  /** This journal's revocation is the one that moves the tenant's epoch. */
  predicate WillBump(s: Store, t: TxnId) {
    t in s.intents && t !in s.receipts && s.intents[t].before == s.tenantEpoch
  }

  /** Some journal before position `p` moves the tenant's epoch. */
  ghost predicate BumpBefore(s: Store, journals: seq<TxnId>, p: nat)
    requires p <= |journals|
  {
    exists q :: 0 <= q < p && WillBump(s, journals[q])
  }

  /** The exact condition for the journal at position `p` to be settled: it has its receipt,
      or no tombstone yet, or a tombstone of the current epoch that no earlier journal of the
      same recovery outdates. */
  ghost predicate Settles(s: Store, journals: seq<TxnId>, p: nat)
    requires p < |journals|
  {
    var t := journals[p];
    t in s.intents ==>
      || t in s.receipts
      || s.intents[t].key !in s.tombstones
      || (s.tombstones[s.intents[t].key].epochAtRevoke == s.tenantEpoch && !BumpBefore(s, journals, p))
  }

  lemma FirstJournal(d: Disk, t: TxnId, now: Time, later: Time)
    requires AllSound(d.store)
    ensures var s, s' := d.store, RecoverOne(d, t, now, later, 7).store;
            && AllSound(s')
            && s'.tenantEpoch == (if WillBump(s, t) then s.tenantEpoch + 1 else s.tenantEpoch)
            && s'.intents == (if t in s.intents && t !in s.receipts && Drifted(s, s.intents[t]) then s.intents else s.intents - {t})
            && (forall u :: u != t ==> (u in s'.receipts <==> u in s.receipts))
            && (forall u :: u != t && u in s.intents ==> (s.intents[u].key in s'.tombstones <==> s.intents[u].key in s.tombstones))
            && (forall k :: k in s.tombstones ==> k in s'.tombstones && s'.tombstones[k] == s.tombstones[k])
            && (t in s.intents && t in s'.intents ==> s' == s)
  {
    var s, s' := d.store, RecoverOne(d, t, now, later, 7).store;
    if t in s.intents && t !in s.receipts {
      DriftIsTheOnlyFailure(d, s.intents[t], now, later);
      if !Drifted(s, s.intents[t]) {
        forall u | u in s'.intents ensures s'.intents[u].txn == u && Sound(s', s'.intents[u]) {
          var j := s.intents[u];
          assert Sound(s, j) && u != t && j.key != s.intents[t].key;
          assert Lookup(s', j.key) == Lookup(s, j.key);
        }
      }
    }
  }

  /** After a recovery, the journals left are exactly those that drifted before it or that an
      earlier journal of the same recovery made drift. */
  lemma {:induction false} RecoveryIsOrderDependent(d: Disk, journals: seq<TxnId>, now: Time, later: Time, p: nat)
    requires AllSound(d.store) && p < |journals| && journals[p] in d.store.intents
    requires forall a, b :: 0 <= a < b < |journals| ==> journals[a] != journals[b]
    ensures journals[p] in RecoverAll(d, journals, now, later).store.intents <==> !Settles(d.store, journals, p)
    decreases |journals|
  {
    hide RecoverOne;
    var s := d.store;
    var d1 := RecoverOne(d, journals[0], now, later, 7);
    var rest := journals[1..];
    FirstJournal(d, journals[0], now, later);
    assert forall q :: 0 <= q < |rest| ==> rest[q] == journals[q + 1];
    if p == 0 {
      assert !BumpBefore(s, journals, 0);
      JournalStays(d1, rest, now, later, journals[0]);
    } else {
      RecoveryIsOrderDependent(d1, rest, now, later, p - 1);
      BumpsShift(s, d1.store, journals, p);
      var i := s.intents[journals[p]];
      assert Sound(s, i);
    }
  }

  /** At most one journal of a recovery moves the epoch, so looking one journal further
      shifts the condition by that bump. */
  lemma BumpsShift(s: Store, s1: Store, journals: seq<TxnId>, p: nat)
    requires AllSound(s) && 0 < p < |journals|
    requires forall a, b :: 0 <= a < b < |journals| ==> journals[a] != journals[b]
    requires s1.tenantEpoch == if WillBump(s, journals[0]) then s.tenantEpoch + 1 else s.tenantEpoch
    requires forall u :: u != journals[0] ==> (u in s1.intents <==> u in s.intents) && (u in s1.receipts <==> u in s.receipts)
    requires forall u :: u != journals[0] && u in s.intents ==> s1.intents[u] == s.intents[u]
    ensures WillBump(s, journals[0]) ==> !BumpBefore(s1, journals[1..], p - 1) && BumpBefore(s, journals, p)
    ensures !WillBump(s, journals[0]) ==> (BumpBefore(s1, journals[1..], p - 1) <==> BumpBefore(s, journals, p))
  {
    var rest := journals[1..];
    assert forall q :: 0 <= q < |rest| ==> rest[q] == journals[q + 1];
    if WillBump(s, journals[0]) {
      forall q | 0 <= q < p - 1 ensures !WillBump(s1, rest[q]) {
        if rest[q] in s1.intents { assert Sound(s, s.intents[rest[q]]); }
      }
    } else {
      forall q | 0 <= q < p - 1 ensures WillBump(s1, rest[q]) <==> WillBump(s, journals[q + 1]) {}
      if BumpBefore(s, journals, p) {
        var q :| 0 <= q < p && WillBump(s, journals[q]);
        assert WillBump(s1, rest[q - 1]);
      }
    }
  }

  /** A journal that a recovery could not settle, or already settled, is not touched by the
      journals after it. */
  lemma {:induction false} JournalStays(d: Disk, journals: seq<TxnId>, now: Time, later: Time, t: TxnId)
    requires AllSound(d.store) && t !in journals
    ensures t in RecoverAll(d, journals, now, later).store.intents <==> t in d.store.intents
    decreases |journals|
  {
    if journals != [] {
      FirstJournal(d, journals[0], now, later);
      JournalStays(RecoverOne(d, journals[0], now, later, 7), journals[1..], now, later, t);
    }
  }

  /** Drift is permanent: epochs only grow, so no later recovery of the tenant ever settles a
      drifted journal.  The grant stays unusable, but the transaction gets no receipt. */
  lemma {:induction false} DriftIsPermanent(d: Disk, journals: seq<TxnId>, now: Time, later: Time, t: TxnId)
    requires AllSound(d.store) && t in d.store.intents && t !in d.store.receipts && Drifted(d.store, d.store.intents[t])
    ensures var s' := RecoverAll(d, journals, now, later).store;
            AllSound(s') && t in s'.intents && s'.intents[t] == d.store.intents[t] && t !in s'.receipts && Drifted(s', s'.intents[t])
    decreases |journals|
  {
    if journals != [] {
      assert Sound(d.store, d.store.intents[t]);
      FirstJournal(d, journals[0], now, later);
      DriftIsPermanent(RecoverOne(d, journals[0], now, later, 7), journals[1..], now, later, t);
    }
  }
}
