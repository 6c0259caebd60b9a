/** The credential reference of a tenant (scripts/cwk_credential_broker.py:458-994 and
    1003-1075): epochs, rotation, what a crash leaves, and the lease that carries material.

    A reference stands for its URI and backend together.  Receipts are counted, not read. */
module Credential {
  import opened Wrappers

  type Ref = nat

  datatype Status = Usable | Disabled | Revoked | Rotating

  datatype Rotation = Stable | Dual(next: Ref, previous: nat)

  datatype Deed = Set | Disable | Revoke | RotationBegin | RotationFinalize

  datatype Entry = Entry(deed: Deed, epochAfter: nat)

  datatype Record = Record(status: Status, ref: Ref, epoch: nat, rotation: Rotation, history: seq<Entry>)

  /** `tombstones` files the old reference of a rotation under its epoch. */
  datatype Store = Store(record: Option<Record>, tombstones: map<nat, Ref>, journals: nat, receipts: nat, tenantEpoch: nat)

  /** `open_` says that the tenant is not offboarded, which only setting a reference asks. */
  datatype Request = Change(deed: Deed, ref: Ref, open_: bool)

  function Stamped(r: Record, d: Deed): Record { r.(epoch := r.epoch + 1, history := r.history + [Entry(d, r.epoch + 1)]) }

  /** The record a request asks for, if the request is allowed. */
  function Asked(prior: Option<Record>, q: Request): Option<Record> {
    match q.deed
    case Set =>
      if !q.open_ then None else
      (match prior
       case None => Some(Record(Usable, q.ref, 1, Stable, [Entry(Set, 1)]))
       case Some(r) => Some(Stamped(r, Set).(status := Usable, ref := q.ref, rotation := Stable)))
    case RotationBegin =>
      if prior.None? || prior.value.rotation != Stable || prior.value.status != Usable || q.ref == prior.value.ref then None
      else Some(Stamped(prior.value, RotationBegin).(status := Rotating, rotation := Dual(q.ref, prior.value.epoch)))
    case RotationFinalize =>
      if prior.None? || prior.value.rotation == Stable then None
      else Some(Stamped(prior.value, RotationFinalize).(status := Usable, ref := prior.value.rotation.next, rotation := Stable))
    case d =>
      var status := if d == Disable then Disabled else Revoked;
      if prior.None? || prior.value.status == status || prior.value.rotation != Stable then None
      else Some(Stamped(prior.value, d).(status := status))
  }

  /** When a request is granted: setting needs a tenant that is not offboarded; a rotation needs a
      usable reference at rest and another one to go to; finalizing needs a rotation under way;
      switching off needs a reference at rest that is not off in that way already. */
  lemma WhenGranted(prior: Option<Record>, q: Request)
    ensures Asked(prior, q).Some? <==>
              match q.deed
              case Set => q.open_
              case RotationBegin => prior.Some? && prior.value.rotation == Stable && prior.value.status == Usable && q.ref != prior.value.ref
              case RotationFinalize => prior.Some? && prior.value.rotation.Dual?
              case Disable => prior.Some? && prior.value.rotation == Stable && prior.value.status != Disabled
              case Revoke => prior.Some? && prior.value.rotation == Stable && prior.value.status != Status.Revoked
  {
  }

  /** What a granted request makes of the reference: setting and finalizing replace it, beginning a
      rotation announces the next, switching off keeps it; the epoch counts one more and names
      the new history entry. */
  lemma WhatIsGranted(prior: Option<Record>, q: Request)
    requires Asked(prior, q).Some?
    ensures var r := Asked(prior, q).value;
            && r.epoch == (if prior.Some? then prior.value.epoch else 0) + 1
            && r.history == (if prior.Some? then prior.value.history else []) + [Entry(q.deed, r.epoch)]
            && match q.deed
               case Set => r.status == Usable && r.ref == q.ref && r.rotation == Stable
               case RotationBegin => r.status == Rotating && r.ref == prior.value.ref && r.rotation == Dual(q.ref, prior.value.epoch)
               case RotationFinalize => r.status == Usable && r.ref == prior.value.rotation.next && r.rotation == Stable
               case Disable => r.status == Disabled && r.ref == prior.value.ref && r.rotation == Stable
               case Revoke => r.status == Status.Revoked && r.ref == prior.value.ref && r.rotation == Stable
  {
    WhenGranted(prior, q);
  }

  /** The old reference is filed before the record moves, and only into an empty place. */
  predicate TombstoneFree(s: Store) { s.record.Some? && s.record.value.rotation.Dual? ==> s.record.value.rotation.previous !in s.tombstones }

  function Entombed(s: Store): Store {
    if s.record.Some? && s.record.value.rotation.Dual?
    then s.(tombstones := s.tombstones[s.record.value.rotation.previous := s.record.value.ref]) else s
  }

  predicate Allowed(s: Store, q: Request) {
    Asked(s.record, q).Some? && (q.deed == RotationFinalize ==> TombstoneFree(s))
  }

  /** Journal, record, receipt, bump of the tenant's epoch, sweep: dying after `writes`. */
  function Committed(s: Store, r: Record, writes: nat): Store {
    s.(record := if writes >= 2 then Some(r) else s.record,
       journals := if writes == 0 || writes >= 5 then s.journals else s.journals + 1,
       receipts := if writes >= 3 then s.receipts + 1 else s.receipts,
       tenantEpoch := if writes >= 4 then s.tenantEpoch + 1 else s.tenantEpoch)
  }

  function Outcome(s: Store, q: Request, writes: nat): Store {
    if !Allowed(s, q) then s
    else if q.deed != RotationFinalize then Committed(s, Asked(s.record, q).value, writes)
    else if writes == 0 then s
    else Committed(Entombed(s), Asked(s.record, q).value, writes - 1)
  }

  class References {
    var record: Option<Record>
    var tombstones: map<nat, Ref>
    var journals: nat
    var receipts: nat
    var tenantEpoch: nat

    function Contents(): Store
      reads this
    {
      Store(record, tombstones, journals, receipts, tenantEpoch)
    }

    constructor (epoch: nat)
      ensures Contents() == Store(None, map[], 0, 0, epoch)
    {
      record, tombstones, journals, receipts, tenantEpoch := None, map[], 0, 0, epoch;
    }

    method Commit(r: Record, writes: nat) returns (done: bool)
      modifies this
      ensures Contents() == Committed(old(Contents()), r, writes)
      ensures record == (if writes >= 2 then Some(r) else old(record)) && receipts == old(receipts) + (if writes >= 3 then 1 else 0)
      ensures tenantEpoch == old(tenantEpoch) + (if writes >= 4 then 1 else 0)
      ensures journals == old(journals) + (if 1 <= writes <= 4 then 1 else 0) && tombstones == old(tombstones)
      ensures done <==> writes >= 5
    {
      if writes == 0 { return false; }
      journals := journals + 1;
      if writes == 1 { return false; }
      record := Some(r);
      if writes == 2 { return false; }
      receipts := receipts + 1;
      if writes == 3 { return false; }
      tenantEpoch := tenantEpoch + 1;
      if writes == 4 { return false; }
      journals := journals - 1;
      return true;
    }

    method Apply(q: Request, writes: nat) returns (done: bool)
      modifies this
      ensures Contents() == Outcome(old(Contents()), q, writes)
      ensures done <==> Allowed(old(Contents()), q) && writes >= (if q.deed == RotationFinalize then 6 else 5)
      ensures done ==> record.Some? && record.value.epoch == Epoch(old(Contents())) + 1 && tenantEpoch == old(tenantEpoch) + 1 && journals == old(journals)
      ensures done ==> match q.deed
                       case Set => q.open_ && record.value.status == Usable && record.value.ref == q.ref && record.value.rotation == Stable
                       case RotationBegin => record.value.status == Rotating && record.value.rotation.Dual? && record.value.rotation.next == q.ref
                       case RotationFinalize => record.value.status == Usable && record.value.rotation == Stable
                       case Disable => record.value.status == Disabled
                       case Revoke => record.value.status == Status.Revoked
    {
      var next := Asked(record, q);
      if next.None? { return false; }
      WhatIsGranted(record, q);
      WhenGranted(record, q);
      var left := writes;
      if q.deed == RotationFinalize {
        var previous := record.value.rotation.previous;
        if previous in tombstones { return false; }
        if left == 0 { return false; }
        tombstones := tombstones[previous := record.value.ref];
        left := left - 1;
      }
      done := Commit(next.value, left);
    }

    /** A lease needs a brokered purpose that the tenant's status permits, a usable reference with
        no rotation under way, and a backend that hands out the material. */
    method Lease(permitted: bool, backend: map<Ref, seq<Byte>>) returns (lease: Option<(Ref, nat, seq<Byte>)>)
      ensures lease.Some? <==> permitted && record.Some? && record.value.status == Usable && record.value.rotation == Stable && record.value.ref in backend
      ensures lease.Some? ==> lease.value == (record.value.ref, record.value.epoch, backend[record.value.ref])
    {
      if !permitted { return None; }
      if record.None? || record.value.status != Usable || record.value.rotation != Stable { return None; }
      if record.value.ref !in backend { return None; }
      return Some((record.value.ref, record.value.epoch, backend[record.value.ref]));
    }
  }

  // ---------------------------------------------------------------------
  // What every run keeps
  // ---------------------------------------------------------------------

  /** The history numbers the commits 1, 2, 3, ...; the record's epoch is the last of them; a
      rotation is under way exactly while the record says so. */
  ghost predicate RecordOk(r: Record) {
    && r.epoch == |r.history| >= 1
    && (forall i :: 0 <= i < |r.history| ==> r.history[i].epochAfter == i + 1)
    && (r.rotation.Dual? <==> r.status == Rotating)
    && (r.rotation.Dual? ==> r.rotation.previous == r.epoch - 1 && r.rotation.next != r.ref)
  }

  ghost predicate StoreOk(s: Store) {
    && (s.record.Some? ==> RecordOk(s.record.value))
    && (forall e :: e in s.tombstones ==> s.record.Some? && e < s.record.value.epoch)
  }

  lemma AskedOk(prior: Option<Record>, q: Request)
    requires prior.Some? ==> RecordOk(prior.value)
    ensures Asked(prior, q).Some? ==>
              RecordOk(Asked(prior, q).value) && Asked(prior, q).value.epoch == (if prior.Some? then prior.value.epoch else 0) + 1
  {
    var asked := Asked(prior, q);
    if asked.Some? && prior.Some? {
      assert asked.value.history[..|prior.value.history|] == prior.value.history;
    }
  }

  lemma OutcomeOk(s: Store, q: Request, writes: nat)
    requires StoreOk(s)
    ensures StoreOk(Outcome(s, q, writes))
  {
    AskedOk(s.record, q);
    if s.record.Some? && s.record.value.rotation.Dual? { assert RecordOk(s.record.value); }
    hide Asked;
  }

  function Epoch(s: Store): nat { if s.record.Some? then s.record.value.epoch else 0 }

  /** A commit raises the credential's epoch by exactly one and appends its entry; one that
      returned raised the tenant's epoch too; anything else leaves the record alone. */
  lemma CommitsAreNumbered(s: Store, q: Request, writes: nat)
    requires StoreOk(s)
    ensures var s' := Outcome(s, q, writes);
            && (s'.record == s.record || (Epoch(s') == Epoch(s) + 1 && s'.record.Some?
                  && s'.record.value.history == (if s.record.Some? then s.record.value.history else []) + [Entry(q.deed, Epoch(s) + 1)]))
            && (Allowed(s, q) && writes >= (if q.deed == RotationFinalize then 6 else 5) ==> Epoch(s') == Epoch(s) + 1 && s'.tenantEpoch == s.tenantEpoch + 1 && s'.journals == s.journals)
            && s.tenantEpoch <= s'.tenantEpoch <= s.tenantEpoch + 1
            && (s'.tenantEpoch > s.tenantEpoch ==> Epoch(s') == Epoch(s) + 1)
  {
  }

  datatype Step = Step(q: Request, writes: nat)

  function Run(s: Store, steps: seq<Step>): Store
    decreases |steps|
  {
    if steps == [] then s else Run(Outcome(s, steps[0].q, steps[0].writes), steps[1..])
  }

  lemma {:induction false} RunOk(s: Store, steps: seq<Step>)
    requires StoreOk(s)
    ensures StoreOk(Run(s, steps)) && Epoch(s) <= Epoch(Run(s, steps)) && s.tenantEpoch <= Run(s, steps).tenantEpoch
    decreases |steps|
  {
    if steps != [] {
      OutcomeOk(s, steps[0].q, steps[0].writes);
      CommitsAreNumbered(s, steps[0].q, steps[0].writes);
      RunOk(Outcome(s, steps[0].q, steps[0].writes), steps[1..]);
    }
  }

  /** A finalize that died between filing the old reference and moving the record. */
  predicate HalfFinalized(s: Store) {
    s.record.Some? && s.record.value.rotation.Dual? && s.record.value.rotation.previous in s.tombstones
  }

  /** Such a death is the only way there, and then no finalize can ever finish: of all requests
      only setting the reference anew gets out. */
  lemma {:induction false} HalfFinalizedForever(s: Store, steps: seq<Step>)
    requires StoreOk(s) && HalfFinalized(s)
    requires forall i :: 0 <= i < |steps| ==> steps[i].q.deed != Set
    ensures Run(s, steps) == s
    ensures forall q: Request :: Allowed(s, q) <==> q.deed == Set && q.open_
    decreases |steps|
  {
    if steps != [] { HalfFinalizedForever(s, steps[1..]); }
  }

  /** What a request that is granted leaves when it dies after so many writes: journal, record,
      receipt, the tenant's epoch and the sweep, in this order, and before them, for a finalize, the
      old reference under the epoch it was in force.  A refused request writes nothing; a finalize
      is refused also where the old reference is filed already. */
  lemma WhatADeathLeaves(s: Store, q: Request, writes: nat)
    ensures Allowed(s, q) <==> Asked(s.record, q).Some? && (q.deed == RotationFinalize ==> !HalfFinalized(s))
    ensures !Allowed(s, q) ==> Outcome(s, q, writes) == s
    ensures Allowed(s, q) ==>
            var s' := Outcome(s, q, writes);
            var n: int := if q.deed == RotationFinalize then writes - 1 else writes;
            && s'.record == (if n >= 2 then Asked(s.record, q) else s.record)
            && s'.journals == s.journals + (if 1 <= n <= 4 then 1 else 0)
            && s'.receipts == s.receipts + (if n >= 3 then 1 else 0)
            && s'.tenantEpoch == s.tenantEpoch + (if n >= 4 then 1 else 0)
            && s'.tombstones == (if q.deed == RotationFinalize && writes >= 1 && s.record.Some? && s.record.value.rotation.Dual?
                                 then s.tombstones[s.record.value.rotation.previous := s.record.value.ref] else s.tombstones)
  {
  }

  lemma WhenHalfFinalized(s: Store, q: Request, writes: nat)
    requires StoreOk(s) && !HalfFinalized(s)
    ensures HalfFinalized(Outcome(s, q, writes)) <==> q.deed == RotationFinalize && Allowed(s, q) && 1 <= writes <= 2
  {
  }

  predicate SwitchedOff(s: Store) { s.record.Some? && s.record.value.status in {Disabled, Revoked} && s.record.value.rotation == Stable }

  /** A disabled or revoked reference is not leased until it is set anew, whatever else is
      asked for and wherever it dies. */
  lemma {:induction false} OffUntilSet(s: Store, steps: seq<Step>)
    requires SwitchedOff(s) && forall i :: 0 <= i < |steps| ==> steps[i].q.deed != Set
    ensures SwitchedOff(Run(s, steps)) && Run(s, steps).record.value.status != Usable && Run(s, steps).record.value.ref == s.record.value.ref
    decreases |steps|
  {
    if steps != [] {
      StaysOff(s, steps[0].q, steps[0].writes);
      OffUntilSet(Outcome(s, steps[0].q, steps[0].writes), steps[1..]);
    }
  }

  lemma StaysOff(s: Store, q: Request, writes: nat)
    requires SwitchedOff(s) && q.deed != Set
    ensures SwitchedOff(Outcome(s, q, writes)) && Outcome(s, q, writes).record.value.ref == s.record.value.ref
  {
  }

  /** A completed rotation leases the new reference and files the old one under its epoch. */
  lemma RotationRoundTrip(s: Store, next: Ref)
    requires StoreOk(s) && Allowed(s, Change(RotationBegin, next, true))
    ensures var s1 := Outcome(s, Change(RotationBegin, next, true), 5);
            var s2 := Outcome(s1, Change(RotationFinalize, 0, true), 6);
            && s1.record.value.status == Rotating && Allowed(s1, Change(RotationFinalize, 0, true))
            && s2.record.Some? && s2.record.value.status == Usable && s2.record.value.ref == next && s2.record.value.rotation == Stable
            && Epoch(s) in s2.tombstones && s2.tombstones[Epoch(s)] == s.record.value.ref
            && Epoch(s2) == Epoch(s) + 2 && s2.tenantEpoch == s.tenantEpoch + 2
  {
  }

  // ---------------------------------------------------------------------
  // The lease's material
  // ---------------------------------------------------------------------

  const MATERIAL_KEY: nat := 0
  const INHERITED_KEY: nat := 1

  newtype Byte = b: int | 0 <= b < 256

  class MaterialLease {
    var env: map<nat, seq<Byte>>
    var material: array?<Byte>

    /** Only the whitelisted variable is inherited. */
    constructor (inherited: map<nat, seq<Byte>>)
      ensures env == (if INHERITED_KEY in inherited then map[INHERITED_KEY := inherited[INHERITED_KEY]] else map[])
      ensures material == null
    {
      env := if INHERITED_KEY in inherited then map[INHERITED_KEY := inherited[INHERITED_KEY]] else map[];
      material := null;
    }

    method Install(secret: seq<Byte>)
      modifies this
      ensures material != null && fresh(material) && material[..] == secret
      ensures env == old(env)[MATERIAL_KEY := secret]
    {
      var buffer := new Byte[|secret|](i requires 0 <= i < |secret| => secret[i]);
      material := buffer;
      env := env[MATERIAL_KEY := secret];
      assert buffer[..] == secret;
    }

    /** Every byte of the buffer is overwritten, and the environment is emptied. */
    method Exit()
      modifies this, material
      ensures material == null && env == map[]
      ensures old(material) != null ==> forall i :: 0 <= i < old(material).Length ==> old(material)[i] == 0
    {
      if material != null {
        var buffer: array<Byte> := material;
        for i := 0 to buffer.Length
          invariant forall k :: 0 <= k < i ==> buffer[k] == 0
        {
          buffer[i] := 0;
        }
        material := null;
      }
      env := map[];
    }
  }
}
