/** Rotation of the secret that hashes agent ids (scripts/cwk_agent_binding.py:529-580,
    727-803, 1063-1182 and 1407-1427) by one operator, with a crash after any durable write.
    RotationProtocol has several operators and the binding calls beside them.

    HMAC is taken as injective in the material and the agent id together.  Receipts of the
    secret store are left out. */
module BindingRotation {
  import opened Wrappers

  type Agent = nat
  type Material = nat
  type Tenant = nat
  type Pid = nat

  datatype Hash = Hash(material: Material, agent: Agent)

  datatype Status = Bound | Suspended | Revoked

  datatype Record = Record(tenant: Tenant, status: Status, secretEpoch: nat, epoch: nat)

  datatype KeyState = KeyState(dual: bool, current: nat, secondary: Option<nat>, previous: Option<nat>)

  /** `epochs` are the authorization epochs of the tenants. */
  datatype Store = Store(
    keys: KeyState, materials: map<nat, Material>, records: map<Hash, Record>, tombstones: map<(nat, Hash), Record>,
    epochs: map<Tenant, nat>)

  /** A record or tombstone is filed under the material of its own epoch. */
  predicate Filed(s: Store, e: nat, h: Hash) { e in s.materials && s.materials[e] == h.material }

  /** The key state names material that is there, and only one epoch lies ahead of it. */
  ghost predicate Valid(s: Store) {
    && s.keys.current in s.materials
    && (s.keys.dual ==> s.keys.secondary == Some(s.keys.current + 1) && s.keys.current + 1 in s.materials)
    && (s.keys.previous.Some? ==> s.keys.previous.value < s.keys.current)
    && (forall e :: e in s.materials ==> e <= s.keys.current + 1)
    && (forall k :: k in s.tombstones ==> k.0 < s.keys.current && Filed(s, k.0, k.1))
    && (forall h :: h in s.records ==> s.records[h].secretEpoch <= s.keys.current && Filed(s, s.records[h].secretEpoch, h))
  }

  function At(s: Store, h: Hash): Option<Record> { if h in s.records then Some(s.records[h]) else None }

  function Epoch(s: Store, t: Tenant): nat { if t in s.epochs then s.epochs[t] else 1 }

  predicate KeysOk(s: Store) {
    s.keys.current in s.materials && (s.keys.dual ==> s.keys.secondary.Some? && s.keys.secondary.value in s.materials)
  }

  function CurrentHash(s: Store, a: Agent): Hash
    requires KeysOk(s)
  {
    Hash(s.materials[s.keys.current], a)
  }

  function NextHash(s: Store, a: Agent): Hash
    requires KeysOk(s) && s.keys.dual
  {
    Hash(s.materials[s.keys.secondary.value], a)
  }

  /** The record that an agent id leads to: under the current material, and while a rotation
      is under way also under the next. */
  function Found(s: Store, a: Agent): Option<Record>
    requires KeysOk(s)
  {
    var first := At(s, CurrentHash(s, a));
    if first.Some? || !s.keys.dual then first else At(s, NextHash(s, a))
  }

  // ---------------------------------------------------------------------
  // What a binding call asks for
  // ---------------------------------------------------------------------

  datatype Deed = Bind(tenant: Tenant) | Change(status: Status)

  predicate From(s: Status, to: Status) {
    match to case Revoked => s == Bound || s == Suspended case Suspended => s == Bound case Bound => s == Suspended
  }

  /** The record a call asks for over the one it read, if it asks for any; a new binding is
      filed under secret epoch `e`. */
  function Asked(r: Option<Record>, d: Deed, e: nat): Option<Record> {
    match d
    case Bind(t) =>
      if r.Some? && r.value.status != Revoked then None
      else Some(Record(t, Bound, e, (if r.Some? then r.value.epoch else 0) + 1))
    case Change(status) =>
      if r.None? || !From(r.value.status, status) then None
      else Some(r.value.(status := status, epoch := r.value.epoch + 1))
  }

  /** A bind takes an agent that is unbound or revoked to exactly the tenant asked for; a change
      of status needs the status before it, and keeps tenant and material; either counts one more
      epoch. */
  lemma AskedInShort(r: Option<Record>, d: Deed, e: nat)
    ensures match d
            case Bind(t) =>
              && (Asked(r, d, e).Some? <==> r.None? || r.value.status == Revoked)
              && (Asked(r, d, e).Some? ==> Asked(r, d, e).value == Record(t, Bound, e, if r.Some? then r.value.epoch + 1 else 1))
            case Change(status) =>
              && (Asked(r, d, e).Some? <==>
                    && r.Some?
                    && match status
                       case Revoked => r.value.status == Bound || r.value.status == Suspended
                       case Suspended => r.value.status == Bound
                       case Bound => r.value.status == Suspended)
              && (Asked(r, d, e).Some? ==> Asked(r, d, e).value == r.value.(status := status, epoch := r.value.epoch + 1))
  {
  }

  // ---------------------------------------------------------------------
  // The durable writes of a rotation
  // ---------------------------------------------------------------------

  function WithMaterial(s: Store, m: Material): Store { s.(materials := s.materials[s.keys.current + 1 := m]) }

  function Dual(s: Store): Store { s.(keys := KeyState(true, s.keys.current, Some(s.keys.current + 1), s.keys.previous)) }

  function Finalized(s: Store): Store
    requires s.keys.secondary.Some?
  {
    s.(keys := KeyState(false, s.keys.secondary.value, None, Some(s.keys.current)))
  }

  /** Rotation may begin. */
  predicate MayBegin(s: Store) { !s.keys.dual && s.keys.current + 1 !in s.materials }

  /** New material was written and the key state was not. */
  predicate Stuck(s: Store) { !s.keys.dual && s.keys.current + 1 in s.materials }

  function Begun(s: Store, m: Material): Store { Dual(WithMaterial(s, m)) }

  function OldHashes(records: map<Hash, Record>, gone: nat): set<Hash> { set h | h in records && records[h].secretEpoch == gone }

  /** Every tenant that owns a record. */
  function Owners(records: map<Hash, Record>): set<Tenant> { set h | h in records :: records[h].tenant }

  /** What moving the records of epoch `gone` may have done by any moment: each is where it was,
      or copied, or moved; everything else is untouched. */
  ghost predicate Moving(s: Store, gone: nat, s': Store) {
    && s'.keys == s.keys && s'.materials == s.materials
    && (forall h :: h in s'.records ==> h in s.records && s'.records[h] == s.records[h])
    && (forall h :: h in s.records && h !in s'.records ==>
          s.records[h].secretEpoch == gone && (gone, h) in s'.tombstones && s'.tombstones[(gone, h)] == s.records[h])
    && (forall k :: k in s.tombstones ==> k in s'.tombstones && s'.tombstones[k] == s.tombstones[k])
    && (forall k :: k in s'.tombstones && k !in s.tombstones ==>
          k.0 == gone && k.1 in s.records && s.records[k.1].secretEpoch == gone && s'.tombstones[k] == s.records[k.1])
  }

  /** How many of the tenants come before `t` in sorted order. */
  function Rank(owners: set<Tenant>, t: Tenant): nat { |set u | u in owners && u < t| }

  /** The first `k` of the tenants in sorted order were bumped, once each, and nobody else. */
  ghost predicate BumpedFirst(s: Store, owners: set<Tenant>, k: nat, s': Store) {
    forall t :: Epoch(s', t) == Epoch(s, t) + (if t in owners && Rank(owners, t) < k then 1 else 0)
  }

  /** How many writes a rotation makes before its first bump. */
  function WritesBeforeBumps(s: Store): nat { 3 + 2 * |OldHashes(s.records, s.keys.current)| }

  /** How many durable writes a whole rotation makes. */
  function RotationWrites(s: Store): nat { WritesBeforeBumps(s) + |Owners(s.records)| }

  /** How many bumps a rotation has got to within its first `writes` writes. */
  function BumpsWithin(s: Store, writes: nat): nat { if writes <= WritesBeforeBumps(s) then 0 else writes - WritesBeforeBumps(s) }

  /** Where a rotation to `m` may leave the store when it dies after `writes` writes. */
  ghost predicate RotatedWithin(s: Store, m: Material, writes: nat, s': Store) {
    if !MayBegin(s) || writes == 0 then s' == s
    else if writes == 1 then s' == WithMaterial(s, m)
    else if writes == 2 then s' == Begun(s, m)
    else
      && Moving(Finalized(Begun(s, m)), s.keys.current, s')
      && (writes >= WritesBeforeBumps(s) ==> forall h :: h in s'.records <==> h in s.records && s.records[h].secretEpoch != s.keys.current)
      && BumpedFirst(s, Owners(s.records), BumpsWithin(s, writes), s')
  }

  datatype Ended = Finished | Refused | Died

  class Secrets {
    var keys: KeyState
    var materials: map<nat, Material>
    var records: map<Hash, Record>
    var tombstones: map<(nat, Hash), Record>
    var epochs: map<Tenant, nat>

    function Contents(): Store
      reads this
    {
      Store(keys, materials, records, tombstones, epochs)
    }

    constructor (m: Material)
      ensures Contents() == Store(KeyState(false, 1, None, None), map[1 := m], map[], map[], map[])
      ensures Valid(Contents())
    {
      keys := KeyState(false, 1, None, None);
      materials, records, tombstones, epochs := map[1 := m], map[], map[], map[];
    }

    /** Only an active binding of a tenant whose status allows the purpose resolves. */
    method Resolve(a: Agent, allowed: set<Tenant>) returns (r: Option<Record>)
      requires Valid(Contents())
      ensures r.Some? <==> Found(Contents(), a).Some? && Found(Contents(), a).value.status == Bound && Found(Contents(), a).value.tenant in allowed
      ensures r.Some? ==> r == Found(Contents(), a)
    {
      var h := Hash(materials[keys.current], a);
      var record: Option<Record> := None;
      if h in records { record := Some(records[h]); }
      if record.None? && keys.dual {
        var second := Hash(materials[keys.secondary.value], a);
        if second in records { record := Some(records[second]); }
      }
      if record.None? || record.value.status != Bound { return None; }
      if record.value.tenant !in allowed { return None; }
      return record;
    }

    /** A bind, or a change of status, by a caller that nobody disturbs; `bindable` are the
        tenants whose status permits a new binding. */
    method Mutate(a: Agent, d: Deed, bindable: set<Tenant>) returns (e: Ended)
      requires Valid(Contents())
      modifies this`records
      ensures e != Died
      ensures var s := old(Contents());
              var prior := At(s, CurrentHash(s, a));
              e == Finished <==>
                && !s.keys.dual
                && match d
                   case Bind(t) => t in bindable && (prior.None? || prior.value.status == Revoked)
                   case Change(Revoked) => prior.Some? && prior.value.status in {Bound, Suspended}
                   case Change(Suspended) => prior.Some? && prior.value.status == Bound
                   case Change(Bound) => prior.Some? && prior.value.status == Suspended
      ensures e == Refused ==> Contents() == old(Contents())
      ensures var s := old(Contents());
              var prior := At(s, CurrentHash(s, a));
              e == Finished ==>
                && Contents() == s.(records := Contents().records)
                && Contents().records == s.records[CurrentHash(s, a) :=
                     match d
                     case Bind(t) => Record(t, Bound, s.keys.current, if prior.Some? then prior.value.epoch + 1 else 1)
                     case Change(status) => prior.value.(status := status, epoch := prior.value.epoch + 1)]
      ensures e == Finished && d.Bind? ==>
                var r := Found(Contents(), a); r.Some? && r.value.tenant == d.tenant && r.value.status == Bound
      ensures Valid(Contents())
    {
      if keys.dual { return Refused; }
      if d.Bind? && d.tenant !in bindable { return Refused; }
      var h := Hash(materials[keys.current], a);
      var prior := if h in records then Some(records[h]) else None;
      var next := Asked(prior, d, keys.current);
      AskedInShort(prior, d, keys.current);
      if next.None? { return Refused; }
      records := records[h := next.value];
      return Finished;
    }

    /** Dying after the first write is the only way to get stuck. */
    method RotateBegin(m: Material, writes: nat) returns (e: Ended)
      requires Valid(Contents())
      modifies this`materials, this`keys
      ensures e == Refused <==> !MayBegin(old(Contents()))
      ensures e == Refused ==> Contents() == old(Contents())
      ensures e == Finished <==> MayBegin(old(Contents())) && writes >= 2
      ensures e == Finished ==> Contents() == Begun(old(Contents()), m)
      ensures e == Finished ==> keys == KeyState(true, old(keys).current, Some(old(keys).current + 1), old(keys).previous)
      ensures e == Finished ==> materials == old(materials)[old(keys).current + 1 := m]
      ensures e == Refused <==> old(keys).dual || old(keys).current + 1 in old(materials)
      ensures e == Died ==> Contents() == if writes == 0 then old(Contents()) else WithMaterial(old(Contents()), m)
      ensures Stuck(Contents()) <==> Stuck(old(Contents())) || (MayBegin(old(Contents())) && writes == 1)
      ensures Valid(Contents())
    {
      if keys.dual { return Refused; }
      var next := keys.current + 1;
      if next in materials { return Refused; }
      if writes == 0 { return Died; }
      materials := materials[next := m];
      if writes == 1 { return Died; }
      keys := KeyState(true, keys.current, Some(next), keys.previous);
      return Finished;
    }

    method RotateFinalize() returns (e: Ended)
      requires Valid(Contents())
      modifies this`keys
      ensures e == Finished <==> old(keys).dual
      ensures Contents() == if e == Finished then Finalized(old(Contents())) else old(Contents())
      ensures e == Finished ==> keys == KeyState(false, old(keys).secondary.value, None, Some(old(keys).current))
      ensures Valid(Contents())
    {
      if !keys.dual { return Refused; }
      keys := KeyState(false, keys.secondary.value, None, Some(keys.current));
      return Finished;
    }

    /** Copies and unlinks each record of the old epoch; every copy and every unlink is one
        durable write. */
    method TombstoneOld(oldEpoch: nat, writes: nat) returns (e: Ended, left: nat)
      requires forall h :: (oldEpoch, h) !in tombstones
      modifies this`records, this`tombstones
      ensures Moving(old(Contents()), oldEpoch, Contents())
      ensures e == Finished <==> writes >= 2 * |OldHashes(old(records), oldEpoch)|
      ensures e == Finished ==> left == writes - 2 * |OldHashes(old(records), oldEpoch)|
      ensures e == Finished ==> forall h :: h in records <==> h in old(records) && old(records)[h].secretEpoch != oldEpoch
      ensures e != Refused
    {
      var todo := records.Keys;
      left := writes;
      ghost var due := OldHashes(records, oldEpoch);
      ghost var before := Contents();
      MovingNothing(before, oldEpoch);
      hide Moving;
      while todo != {}
        invariant todo <= old(records).Keys
        invariant forall h :: h in todo ==> h in records && records[h] == old(records)[h] && (oldEpoch, h) !in tombstones
        invariant forall h :: h in records ==> h in old(records) && records[h] == old(records)[h] && (h !in todo ==> records[h].secretEpoch != oldEpoch)
        invariant forall h :: h in old(records) && old(records)[h].secretEpoch != oldEpoch ==> h in records
        invariant Moving(old(Contents()), oldEpoch, Contents())
        invariant due == set h | h in todo && old(records)[h].secretEpoch == oldEpoch
        invariant left == writes - 2 * (|OldHashes(old(records), oldEpoch)| - |due|) && |due| <= |OldHashes(old(records), oldEpoch)|
        decreases |todo|
      {
        var h :| h in todo;
        if records[h].secretEpoch == oldEpoch {
          assert h in due && |due| >= 1;
          due := due - {h};
          if left == 0 { return Died, 0; }
          MovingOne(before, oldEpoch, Contents(), h);
          tombstones := tombstones[(oldEpoch, h) := records[h]];
          if left == 1 { return Died, 0; }
          records := records - {h};
          left := left - 2;
        }
        todo := todo - {h};
      }
      return Finished, left;
    }

    /** One bump for each tenant that owned a record when the rotation listed them, in sorted
        order. */
    method BumpOwners(owners: set<Tenant>, writes: nat) returns (e: Ended)
      modifies this`epochs
      ensures e == (if writes < |owners| then Died else Finished)
      ensures BumpedFirst(old(Contents()), owners, writes, Contents())
    {
      hide BumpedFirst, Rank;
      ghost var before := Contents();
      NothingBumped(before, owners);
      var todo, left: int := owners, writes;
      while todo != {}
        invariant todo <= owners && 0 <= left && |todo| == |owners| - (writes - left)
        invariant forall t, u :: t in todo && u in owners && u !in todo ==> u < t
        invariant Contents() == before.(epochs := epochs) && BumpedFirst(before, owners, writes - left, Contents())
        decreases |todo|
      {
        assert |todo| > 0;
        if left == 0 { return Died; }
        ghost var l := LeastOf(todo);
        var t :| t in todo && forall u :: u in todo ==> t <= u;
        RankOfNext(owners, todo, t);
        OneMoreBump(before, owners, writes - left, Contents(), t);
        epochs := epochs[t := (if t in epochs then epochs[t] else 1) + 1];
        todo, left := todo - {t}, left - 1;
      }
      EveryoneBumped(before, owners, writes - left, writes, Contents());
      return Finished;
    }

    /** What is left of a rotation once it is finalized. */
    method MoveAndBump(oldEpoch: nat, owners: set<Tenant>, writes: nat) returns (e: Ended)
      requires forall h :: (oldEpoch, h) !in tombstones
      modifies this`records, this`tombstones, this`epochs
      ensures Moving(old(Contents()), oldEpoch, Contents())
      ensures var moves := 2 * |OldHashes(old(records), oldEpoch)|;
              && (e == Finished <==> writes >= moves + |owners|)
              && BumpedFirst(old(Contents()), owners, if writes <= moves then 0 else writes - moves, Contents())
              && (writes >= moves ==> forall h :: h in records <==> h in old(records) && old(records)[h].secretEpoch != oldEpoch)
      ensures e != Refused
    {
      ghost var before := Contents();
      hide BumpedFirst;
      var left;
      e, left := TombstoneOld(oldEpoch, writes);
      if e == Died { NothingBumped(before, owners); SameEpochs(before, before, owners, 0, before, Contents()); return; }
      ghost var moved := Contents();
      e := BumpOwners(owners, left);
      SameEpochs(moved, before, owners, left, Contents(), Contents());
    }

    /** Begin, list the owners, finalize, move, bump: dying anywhere. */
    method RotateSecret(m: Material, writes: nat) returns (e: Ended)
      requires Valid(Contents())
      modifies this
      ensures Valid(Contents())
      ensures e == Refused <==> !MayBegin(old(Contents()))
      ensures e == Finished <==> MayBegin(old(Contents())) && writes >= RotationWrites(old(Contents()))
      ensures RotatedWithin(old(Contents()), m, writes, Contents())
    {
      hide Valid, Filed, BumpedFirst, Moving;
      var oldEpoch := keys.current;
      e := RotateBegin(m, writes);
      if e != Finished { return; }
      var owners := set h | h in records :: records[h].tenant;
      if writes == 2 { return Died; }
      e := RotateFinalize();
      assert Contents() == Finalized(Begun(old(Contents()), m)) && records == old(records);
      ghost var s1 := Contents();
      NothingMovedYet(old(Contents()));
      hide RotatedWithin;
      e := MoveAndBump(oldEpoch, owners, writes - 3);
      MovingKeepsValid(s1, oldEpoch, Contents());
      SameEpochs(s1, old(Contents()), owners, BumpsWithin(old(Contents()), writes), Contents(), Contents());
      EndsWithin(old(Contents()), m, writes, Contents());
    }
  }

  lemma NothingMovedYet(s: Store)
    requires Valid(s)
    ensures forall h :: (s.keys.current, h) !in s.tombstones
  {
  }

  lemma EndsWithin(s: Store, m: Material, writes: nat, s': Store)
    requires MayBegin(s) && writes >= 3 && Moving(Finalized(Begun(s, m)), s.keys.current, s')
    requires writes >= WritesBeforeBumps(s) ==> forall h :: h in s'.records <==> h in s.records && s.records[h].secretEpoch != s.keys.current
    requires BumpedFirst(s, Owners(s.records), BumpsWithin(s, writes), s')
    ensures RotatedWithin(s, m, writes, s')
  {
  }

  lemma NothingBumped(s: Store, owners: set<Tenant>)
    ensures BumpedFirst(s, owners, 0, s)
  {
  }

  lemma {:induction false} LeastOf(todo: set<Tenant>) returns (l: Tenant)
    requires todo != {}
    ensures l in todo && forall u :: u in todo ==> l <= u
    decreases todo
  {
    var t :| t in todo;
    var below := set u | u in todo && u < t;
    forall u | u in todo && u !in below ensures t <= u {}
    if below == {} {
      l := t;
    } else {
      assert t !in below && below <= todo;
      l := LeastOf(below);
    }
  }

  /** The tenants are done in the order of their ranks. */
  lemma RankOfNext(owners: set<Tenant>, todo: set<Tenant>, t: Tenant)
    requires todo <= owners && t in todo && forall u :: u in todo ==> t <= u
    requires forall v, u :: v in todo && u in owners && u !in todo ==> u < v
    ensures Rank(owners, t) == |owners| - |todo|
    ensures forall u :: u in owners && u != t ==> Rank(owners, u) != Rank(owners, t)
  {
    assert (set u | u in owners && u < t) == owners - todo;
    forall u | u in owners && u != t ensures Rank(owners, u) != Rank(owners, t) { RanksDiffer(owners, t, u); }
  }

  lemma RanksDiffer(owners: set<Tenant>, t: Tenant, u: Tenant)
    requires t in owners && u in owners && t != u
    ensures Rank(owners, t) != Rank(owners, u)
  {
    var low, high := if t < u then t else u, if t < u then u else t;
    var a, b := (set v | v in owners && v < low), (set v | v in owners && v < high);
    Smaller(a, b, low);
  }

  lemma Smaller(a: set<Tenant>, b: set<Tenant>, t: Tenant)
    requires a <= b && t in b && t !in a
    ensures |a| < |b|
  {
    assert b == a + (b - a) && t in b - a;
    assert |b| == |a| + |b - a|;
  }

  lemma RankIsBelow(owners: set<Tenant>, t: Tenant)
    requires t in owners
    ensures Rank(owners, t) < |owners|
  {
    Smaller((set u | u in owners && u < t), owners, t);
  }

  lemma OneMoreBump(s: Store, owners: set<Tenant>, k: nat, s1: Store, t: Tenant)
    requires BumpedFirst(s, owners, k, s1) && t in owners && Rank(owners, t) == k
    requires forall u :: u in owners && u != t ==> Rank(owners, u) != k
    ensures BumpedFirst(s, owners, k + 1, s1.(epochs := s1.epochs[t := Epoch(s1, t) + 1]))
  {
  }

  lemma EveryoneBumped(s: Store, owners: set<Tenant>, k: nat, j: nat, s1: Store)
    requires BumpedFirst(s, owners, k, s1) && |owners| <= k <= j
    ensures BumpedFirst(s, owners, j, s1)
  {
    forall t | t in owners ensures Rank(owners, t) < k { RankIsBelow(owners, t); }
  }

  lemma SameEpochs(s: Store, s0: Store, owners: set<Tenant>, k: nat, s1: Store, s2: Store)
    requires s.epochs == s0.epochs && s1.epochs == s2.epochs
    ensures BumpedFirst(s, owners, k, s1) <==> BumpedFirst(s0, owners, k, s2)
  {
  }

  lemma MovingNothing(s: Store, gone: nat)
    ensures Moving(s, gone, s)
  {
  }

  lemma MovingOne(s: Store, gone: nat, s1: Store, h: Hash)
    requires Moving(s, gone, s1) && h in s1.records && s1.records[h].secretEpoch == gone && (gone, h) !in s1.tombstones
    ensures var s2 := s1.(tombstones := s1.tombstones[(gone, h) := s1.records[h]]);
            Moving(s, gone, s2) && Moving(s, gone, s2.(records := s2.records - {h}))
  {
  }

  lemma MovingKeepsValid(s: Store, gone: nat, s': Store)
    requires Valid(s) && gone < s.keys.current && Moving(s, gone, s')
    ensures Valid(s')
  {
    assert forall h :: h in s.records ==> Filed(s, s.records[h].secretEpoch, h);
    assert forall k :: k in s.tombstones ==> Filed(s, k.0, k.1);
    forall k | k in s'.tombstones ensures k.0 < s'.keys.current && Filed(s', k.0, k.1) {
      if k in s.tombstones { assert Filed(s, k.0, k.1); } else { assert Filed(s, s.records[k.1].secretEpoch, k.1); }
    }
    forall h | h in s'.records ensures s'.records[h].secretEpoch <= s'.keys.current && Filed(s', s'.records[h].secretEpoch, h) {
      assert Filed(s, s.records[h].secretEpoch, h);
    }
  }

  // ---------------------------------------------------------------------
  // What a rotation means for the agents
  // ---------------------------------------------------------------------

  /** From begin to finalize an agent id leads to the record it led to before, except an
      unbound one for which a record is filed under the new material. */
  lemma UnchangedWhileDual(s: Store, m: Material, a: Agent)
    requires Valid(s) && MayBegin(s)
    ensures Valid(Begun(s, m))
    ensures Found(Begun(s, m), a) == Found(s, a) <==> (Found(s, a).Some? || Hash(m, a) !in s.records)
  {
  }

  /** Some earlier epoch used this very material and still has a record of the agent. */
  ghost predicate Reused(s: Store, m: Material, a: Agent) {
    exists e :: e in s.materials && s.materials[e] == m && Hash(m, a) in s.records && s.records[Hash(m, a)].secretEpoch == e
  }

  /** Once a rotation is finalized, a binding from before it resolves exactly when its agent
      still has a record under the same material: nothing checks that new material is new. */
  lemma OldBindingsStopResolving(s: Store, m: Material, a: Agent)
    requires Valid(s) && MayBegin(s)
    ensures Valid(Finalized(Begun(s, m)))
    ensures Found(Finalized(Begun(s, m)), a).Some? <==> Reused(s, m, a)
  {
    if Hash(m, a) in s.records { assert Filed(s, s.records[Hash(m, a)].secretEpoch, Hash(m, a)); }
  }

  /** With new material nothing resolves, whether or not the old records were moved. */
  lemma FreshMaterialCutsEveryone(s: Store, m: Material, a: Agent, s': Store)
    requires Valid(s) && MayBegin(s) && forall e :: e in s.materials ==> s.materials[e] != m
    requires Moving(Finalized(Begun(s, m)), s.keys.current, s')
    ensures Found(s', a).None?
  {
    OldBindingsStopResolving(s, m, a);
  }

  /** With the old material rotation cuts no one off until the old records are moved: every
      agent leads to the record it led to before. */
  lemma SameMaterialCutsNoOne(s: Store, a: Agent)
    requires Valid(s) && MayBegin(s)
    ensures Found(Finalized(Begun(s, s.materials[s.keys.current])), a) == Found(s, a)
  {
  }

  /** No record is lost by a rotation that dies while moving: it is in place, or in the
      tombstone of its epoch. */
  lemma RecordsAreConserved(s: Store, s': Store, gone: nat, h: Hash)
    requires Moving(s, gone, s') && h in s.records
    ensures (h in s'.records && s'.records[h] == s.records[h])
            || ((gone, h) in s'.tombstones && s'.tombstones[(gone, h)] == s.records[h] && s.records[h].secretEpoch == gone)
  {
  }

  /** An agent of tenant `t` that resolved before a rotation to new material no longer leads
      anywhere, while a snapshot of its tenant from before is still accepted, exactly when the
      rotation died between its third write and the bump of `t`: among the `3 + 2 * moved` writes
      that come before all bumps, or among the bumps of the tenants that sort before `t`. */
  lemma CutOffButAccepted(s: Store, m: Material, writes: nat, s': Store, a: Agent, t: Tenant)
    requires Valid(s) && MayBegin(s) && forall e :: e in s.materials ==> s.materials[e] != m
    requires RotatedWithin(s, m, writes, s')
    requires Found(s, a).Some? && Found(s, a).value.tenant == t
    ensures KeysOk(s')
    ensures Found(s', a).None? && Epoch(s', t) == Epoch(s, t)
            <==> 3 <= writes <= 3 + 2 * |OldHashes(s.records, s.keys.current)| + Rank(Owners(s.records), t)
  {
    hide Rank;
    UnchangedWhileDual(s, m, a);
    if writes >= 3 {
      assert KeysOk(s');
      FreshMaterialCutsEveryone(s, m, a, s');
      assert CurrentHash(s, a) in s.records && t in Owners(s.records);
    }
  }
}
