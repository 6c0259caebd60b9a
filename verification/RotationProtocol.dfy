/** Rotation commands and binding calls of several operators at once
    (scripts/cwk_agent_binding.py:473-580, 727-956, 1125-1154 and 1187-1290;
    scripts/cwk_tenant_cmd_binding.py:431-489).

    No rotation command holds a lock: it reads the key state, and what it writes later is
    computed from what it read.  One action is one read or one atomic write. */
module RotationProtocol {
  import opened Wrappers
  import opened BindingRotation

  // ---------------------------------------------------------------------
  // What a binding call asks for
  // ---------------------------------------------------------------------

  /** A binding call between two of its reads.  Only its first step looks whether a rotation is
      under way. */
  datatype Call =
    | Idle
    | Checked(a: Agent, deed: Deed)
    | Hashed(a: Agent, deed: Deed, h: Hash, epoch: nat, second: bool)
    | Computed(a: Agent, deed: Deed, h: Hash, before: Option<Record>, after: Record)

  /** A rotation command between two of its steps, with the key state it read.  `Waiting` has
      begun a rotation from epoch `from` and has still to finalize it; a command that only
      finalizes moves no records. */
  datatype Command =
    | Resting
    | Read(m: Material, k: KeyState)
    | Clear(m: Material, k: KeyState)     // saw no material for the next epoch
    | Named(m: Material, k: KeyState)     // put its material there
    | Waiting(from: nat)
    | Promoting(k: KeyState, moves: Option<nat>)
    | Mover(from: nat)

  datatype World = World(store: Store, calls: map<Pid, Call>, commands: map<Pid, Command>)

  datatype Action =
    | Start(p: Pid, a: Agent, deed: Deed)
    | Go(p: Pid)
    | Quit(p: Pid)                          // a call refuses or dies
    | Rotate(p: Pid, m: Material)           // a rotation reads the key state
    | Promote(p: Pid)                       // a lone finalize reads it
    | Step(p: Pid)
    | Die(p: Pid)
    | Copy(p: Pid, h: Hash, r: Record)      // a record as the mover listed it
    | Unlink(p: Pid, h: Hash)
    | Recover                               // sweeps journals and leftovers only

  function CallOf(w: World, p: Pid): Call { if p in w.calls then w.calls[p] else Idle }

  function CommandOf(w: World, p: Pid): Command { if p in w.commands then w.commands[p] else Resting }

  function To(w: World, p: Pid, c: Call): World { w.(calls := w.calls[p := c]) }

  function Now(w: World, p: Pid, c: Command): World { w.(commands := w.commands[p := c]) }

  // ---------------------------------------------------------------------
  // The steps of a binding call
  // ---------------------------------------------------------------------

  /** Reads the record under the hash; a change of status that finds none tries the next
      material, if a rotation is under way by now. */
  function ReadStep(w: World, p: Pid, a: Agent, d: Deed, h: Hash, e: nat, second: bool): World {
    var r := At(w.store, h);
    if Asked(r, d, e).Some? then To(w, p, Computed(a, d, h, r, Asked(r, d, e).value))
    else if d.Change? && r.None? && !second && w.store.keys.dual && KeysOk(w.store)
    then To(w, p, Hashed(a, d, NextHash(w.store, a), w.store.keys.secondary.value, true))
    else To(w, p, Idle)
  }

  /** The compare-and-swap of the record; nobody looks at the key state again. */
  function CommitStep(w: World, p: Pid, h: Hash, before: Option<Record>, after: Record): World {
    if At(w.store, h) != before then To(w, p, Idle)
    else To(w.(store := w.store.(records := w.store.records[h := after])), p, Idle)
  }

  function Advance(w: World, p: Pid): World {
    match CallOf(w, p)
    case Idle => w
    case Checked(a, d) => if KeysOk(w.store) then To(w, p, Hashed(a, d, CurrentHash(w.store, a), w.store.keys.current, false)) else To(w, p, Idle)
    case Hashed(a, d, h, e, second) => ReadStep(w, p, a, d, h, e, second)
    case Computed(_, _, h, before, after) => CommitStep(w, p, h, before, after)
  }

  // ---------------------------------------------------------------------
  // The steps of a rotation command
  // ---------------------------------------------------------------------

  /** The key state that a command writes that has read `k`. */
  function Target(k: KeyState): KeyState {
    if k.dual then KeyState(false, if k.secondary.Some? then k.secondary.value else k.current + 1, None, Some(k.current))
    else KeyState(true, k.current, Some(k.current + 1), k.previous)
  }

  function Write(w: World, k: KeyState): World { w.(store := w.store.(keys := Target(k))) }

  function Put(w: World, e: nat, m: Material): World { w.(store := w.store.(materials := w.store.materials[e := m])) }

  /** The exclusive mode of the material's write looks first and renames later. */
  function Proceed(w: World, p: Pid): World {
    match CommandOf(w, p)
    case Resting => w
    case Read(m, k) => Now(w, p, if k.current + 1 in w.store.materials then Resting else Clear(m, k))
    case Clear(m, k) => Now(Put(w, k.current + 1, m), p, Named(m, k))
    case Named(m, k) => Now(Write(w, k), p, Waiting(k.current))
    case Waiting(from) => Now(w, p, if w.store.keys.dual && w.store.keys.secondary.Some? then Promoting(w.store.keys, Some(from)) else Resting)
    case Promoting(k, moves) => Now(Write(w, k), p, if moves.Some? then Mover(moves.value) else Resting)
    case Mover(_) => Now(w, p, Resting)
  }

  function Next(w: World, x: Action): World {
    var s := w.store;
    match x
    case Start(p, a, d) => if CallOf(w, p).Idle? && !s.keys.dual then To(w, p, Checked(a, d)) else w
    case Go(p) => Advance(w, p)
    case Quit(p) => To(w, p, Idle)
    case Rotate(p, m) => if CommandOf(w, p).Resting? && !s.keys.dual then Now(w, p, Read(m, s.keys)) else w
    case Promote(p) => if CommandOf(w, p).Resting? && s.keys.dual && s.keys.secondary.Some? then Now(w, p, Promoting(s.keys, None)) else w
    case Step(p) => Proceed(w, p)
    case Die(p) => Now(w, p, Resting)
    case Copy(p, h, r) =>
      if CommandOf(w, p) == Mover(r.secretEpoch) && Filed(s, r.secretEpoch, h) && (r.secretEpoch, h) !in s.tombstones
      then w.(store := s.(tombstones := s.tombstones[(r.secretEpoch, h) := r])) else w
    case Unlink(p, h) =>
      if CommandOf(w, p).Mover? && (CommandOf(w, p).from, h) in s.tombstones then w.(store := s.(records := s.records - {h})) else w
    case Recover => w
  }

  function Run(w: World, actions: seq<Action>): World
    decreases |actions|
  {
    if actions == [] then w else Run(Next(w, actions[0]), actions[1..])
  }

  // ---------------------------------------------------------------------
  // What happened to a command since it looked
  // ---------------------------------------------------------------------

  /** `moved` counts how often the key state changed since the command read it, and `other` is
      the material that another command last put where this one saw none. */
  datatype Watch = Watch(moved: Pid -> nat, other: Pid -> Option<Material>)

  predicate Reads(w: World, x: Action, p: Pid) { (x.Rotate? && x.p == p) || (x.Promote? && x.p == p) || (x == Step(p) && CommandOf(w, p).Waiting?) }

  /** The material that the action puts at epoch `e`. */
  function Puts(w: World, x: Action, e: nat): Option<Material> {
    if x.Step? && CommandOf(w, x.p).Clear? && CommandOf(w, x.p).k.current + 1 == e then Some(CommandOf(w, x.p).m) else None
  }

  function MovedNext(w: World, t: Watch, x: Action, p: Pid): nat {
    if Reads(w, x, p) && CommandOf(Next(w, x), p) != CommandOf(w, p) then 0
    else t.moved(p) + (if Next(w, x).store.keys != w.store.keys then 1 else 0)
  }

  function OtherNext(w: World, t: Watch, x: Action, p: Pid): Option<Material> {
    if x == Step(p) then None
    else if CommandOf(w, p).Clear? && Puts(w, x, CommandOf(w, p).k.current + 1).Some? then Puts(w, x, CommandOf(w, p).k.current + 1)
    else t.other(p)
  }

  function WatchNext(w: World, t: Watch, x: Action): Watch { Watch(p => MovedNext(w, t, x, p), p => OtherNext(w, t, x, p)) }

  function WatchRun(w: World, t: Watch, actions: seq<Action>): Watch
    decreases |actions|
  {
    if actions == [] then t else WatchRun(Next(w, actions[0]), WatchNext(w, t, actions[0]), actions[1..])
  }

  /** The action is a write of a command that was overtaken: the key state moved twice since it
      read it, or another command put other material where it saw none. */
  predicate Overtaken(w: World, t: Watch, x: Action) {
    x.Step? &&
    match CommandOf(w, x.p)
    case Named(_, _) => t.moved(x.p) >= 2
    case Promoting(_, _) => t.moved(x.p) >= 2
    case Clear(m, _) => t.other(x.p).Some? && t.other(x.p).value != m
    case _ => false
  }

  ghost predicate NobodyOvertaken(w: World, t: Watch, actions: seq<Action>)
    decreases |actions|
  {
    actions == [] || (!Overtaken(w, t, actions[0]) && NobodyOvertaken(Next(w, actions[0]), WatchNext(w, t, actions[0]), actions[1..]))
  }

  /** How far the rotations have come. */
  function Place(k: KeyState): nat { 2 * k.current + (if k.dual then 1 else 0) }

  /** The rotations never go back, and material once written is never replaced. */
  ghost predicate Grows(s: Store, s': Store) {
    && Place(s.keys) <= Place(s'.keys)
    && (forall e :: e in s.materials ==> e in s'.materials && s'.materials[e] == s.materials[e])
  }

  ghost predicate GrowsThroughout(w: World, actions: seq<Action>)
    decreases |actions|
  {
    actions == [] || (Grows(w.store, Next(w, actions[0]).store) && GrowsThroughout(Next(w, actions[0]), actions[1..]))
  }

  // ---------------------------------------------------------------------
  // The invariant
  // ---------------------------------------------------------------------

  /** What a call under way knows. */
  predicate CallOk(s: Store, c: Call) {
    match c
    case Idle => true
    case Checked(_, _) => true
    case Hashed(a, d, h, e, second) => h.agent == a && Filed(s, e, h) && (d.Bind? ==> e <= s.keys.current)
    case Computed(a, d, h, before, after) =>
      && h.agent == a && before != Some(after)
      && Filed(s, after.secretEpoch, h) && after.secretEpoch <= s.keys.current
      && match d
         case Bind(t) => after.tenant == t && after.status == Bound && (before.None? || before.value.status == Revoked)
         case Change(status) => before.Some? && after == before.value.(status := status, epoch := before.value.epoch + 1)
  }

  /** How the key state of now relates to the one that a command read. */
  ghost predicate ReadOk(s: Store, k: KeyState, moved: nat) {
    && Place(s.keys) == Place(k) + moved
    && (moved == 0 ==> s.keys == k)
    && (moved == 1 ==> s.keys == Target(k))
    && (k.dual ==> k.secondary == Some(k.current + 1))
    && (forall e :: k.current <= e <= s.keys.current ==> e in s.materials)
  }

  /** What a rotation command under way knows. */
  ghost predicate CommandOk(s: Store, moved: nat, other: Option<Material>, c: Command) {
    match c
    case Resting => true
    case Read(_, k) => !k.dual && ReadOk(s, k, moved)
    case Clear(_, k) =>
      && !k.dual && ReadOk(s, k, moved)
      && (other.None? ==> k.current + 1 !in s.materials)
      && (other.Some? ==> k.current + 1 in s.materials && s.materials[k.current + 1] == other.value)
    case Named(_, k) => !k.dual && ReadOk(s, k, moved) && k.current + 1 in s.materials
    case Waiting(from) => from <= s.keys.current
    case Promoting(k, moves) => k.dual && ReadOk(s, k, moved) && k.current + 1 in s.materials && (moves.Some? ==> moves.value <= k.current)
    case Mover(from) => from < s.keys.current
  }

  ghost predicate Ok(w: World, t: Watch) {
    && Valid(w.store)
    && (forall p :: p in w.calls ==> CallOk(w.store, w.calls[p]))
    && (forall p :: p in w.commands ==> CommandOk(w.store, t.moved(p), t.other(p), w.commands[p]))
  }

  // ---------------------------------------------------------------------
  // Each action keeps it unless its command was overtaken
  // ---------------------------------------------------------------------

  lemma OtherCallsKeep(s: Store, s': Store, c: Call)
    requires CallOk(s, c) && Grows(s, s')
    ensures CallOk(s', c)
  {
  }

  lemma FiledStays(s: Store, s': Store, e: nat, h: Hash)
    requires Filed(s, e, h) && Grows(s, s')
    ensures Filed(s', e, h)
  {
  }

  /** A store whose records and tombstones are some of those of `s` is as good as `s`. */
  lemma StillValid(s: Store, s': Store)
    requires Valid(s) && Grows(s, s')
    requires s'.keys.current in s'.materials
    requires s'.keys.dual ==> s'.keys.secondary == Some(s'.keys.current + 1) && s'.keys.current + 1 in s'.materials
    requires s'.keys.previous.Some? ==> s'.keys.previous.value < s'.keys.current
    requires forall e :: e in s'.materials ==> e <= s'.keys.current + 1
    requires forall k :: k in s'.tombstones ==> k in s.tombstones || (k.0 < s.keys.current && Filed(s, k.0, k.1))
    requires forall h :: h in s'.records ==> h in s.records && s'.records[h] == s.records[h]
    ensures Valid(s')
  {
    forall k | k in s'.tombstones ensures k.0 < s'.keys.current && Filed(s', k.0, k.1) { assert Filed(s, k.0, k.1); FiledStays(s, s', k.0, k.1); }
    forall h | h in s'.records ensures s'.records[h].secretEpoch <= s'.keys.current && Filed(s', s'.records[h].secretEpoch, h) {
      assert Filed(s, s.records[h].secretEpoch, h);
      FiledStays(s, s', s.records[h].secretEpoch, h);
    }
  }

  lemma CommitKeeps(s: Store, h: Hash, after: Record)
    requires Valid(s) && Filed(s, after.secretEpoch, h) && after.secretEpoch <= s.keys.current
    ensures Valid(s.(records := s.records[h := after]))
  {
    var s' := s.(records := s.records[h := after]);
    forall g | g in s'.records ensures s'.records[g].secretEpoch <= s'.keys.current && Filed(s', s'.records[g].secretEpoch, g) {
      if g != h { assert Filed(s, s.records[g].secretEpoch, g); }
    }
    forall k | k in s'.tombstones ensures k.0 < s'.keys.current && Filed(s', k.0, k.1) { assert Filed(s, k.0, k.1); }
  }

  lemma ReadKeeps(w: World, t: Watch, p: Pid, a: Agent, d: Deed, h: Hash, e: nat, second: bool)
    requires Ok(w, t) && CallOf(w, p) == Hashed(a, d, h, e, second)
    ensures ReadStep(w, p, a, d, h, e, second).store == w.store
    ensures CallOk(w.store, CallOf(ReadStep(w, p, a, d, h, e, second), p))
  {
    assert CallOk(w.store, w.calls[p]);
    if h in w.store.records { assert Filed(w.store, w.store.records[h].secretEpoch, h); }
  }

  /** A step of a call: the key state and the materials stay. */
  lemma AdvanceKeeps(w: World, t: Watch, p: Pid)
    requires Ok(w, t)
    ensures var w' := Advance(w, p);
            && w'.store.keys == w.store.keys && w'.store.materials == w.store.materials && w'.commands == w.commands
            && Valid(w'.store) && forall q :: q in w'.calls ==> CallOk(w'.store, w'.calls[q])
  {
    var w' := Advance(w, p);
    CallAdvances(w, t, p);
    hide Valid, CommandOk, Advance;
    forall q | q in w'.calls ensures CallOk(w'.store, w'.calls[q]) {
      if q != p { OtherCallsKeep(w.store, w'.store, w.calls[q]); }
    }
  }

  lemma CallAdvances(w: World, t: Watch, p: Pid)
    requires Ok(w, t)
    ensures var w' := Advance(w, p);
            && w'.store.keys == w.store.keys && w'.store.materials == w.store.materials && w'.commands == w.commands
            && Valid(w'.store) && CallOk(w'.store, CallOf(w', p))
            && forall q :: q != p ==> (q in w'.calls <==> q in w.calls) && (q in w.calls ==> w'.calls[q] == w.calls[q])
  {
    hide CommandOk;
    match CallOf(w, p) {
      case Idle =>
      case Checked(a, d) =>
      case Hashed(a, d, h, e, second) => ReadKeeps(w, t, p, a, d, h, e, second);
      case Computed(a, d, h, before, after) =>
        assert CallOk(w.store, w.calls[p]);
        CommitKeeps(w.store, h, after);
    }
  }

  /** A write of the key state goes back exactly when the key state had moved twice. */
  lemma WhenAWriteGoesBack(s: Store, k: KeyState, moved: nat)
    requires ReadOk(s, k, moved)
    ensures Place(Target(k)) == Place(k) + 1
    ensures Place(Target(k)) < Place(s.keys) <==> moved >= 2
    ensures moved == 1 ==> Target(k) == s.keys
  {
  }

  lemma ReadStaysOk(s: Store, s': Store, k: KeyState, moved: nat, l: KeyState, its: nat)
    requires ReadOk(s, k, moved) && ReadOk(s, l, its) && its < 2
    requires s'.keys == Target(l) && s'.materials == s.materials && l.current + 1 in s.materials
    ensures ReadOk(s', k, moved + (if s'.keys != s.keys then 1 else 0))
  {
    WhenAWriteGoesBack(s, l, its);
  }

  /** Exactly the steps of overtaken commands do harm, and every other action keeps the
      invariant. */
  lemma HarmIsOvertaking(w: World, t: Watch, x: Action)
    requires Ok(w, t)
    ensures Grows(w.store, Next(w, x).store) <==> !Overtaken(w, t, x)
    ensures !Overtaken(w, t, x) ==> Ok(Next(w, x), WatchNext(w, t, x))
  {
    hide Valid, CommandOk;
    GrowsUnlessOvertaken(w, t, x);
    if !Overtaken(w, t, x) {
      NextValid(w, t, x);
      var w', t' := Next(w, x), WatchNext(w, t, x);
      forall p | p in w'.calls ensures CallOk(w'.store, w'.calls[p]) { NextCall(w, t, x, p); }
      forall p | p in w'.commands ensures CommandOk(w'.store, t'.moved(p), t'.other(p), w'.commands[p]) { NextCommand(w, t, x, p); assert Follows(w, t, x, p); }
    }
  }

  lemma GrowsUnlessOvertaken(w: World, t: Watch, x: Action)
    requires Ok(w, t)
    ensures Grows(w.store, Next(w, x).store) <==> !Overtaken(w, t, x)
  {
    hide Valid;
    match x {
      case Go(p) => AdvanceKeeps(w, t, p);
      case Step(p) =>
        var c := CommandOf(w, p);
        if !c.Resting? { assert CommandOk(w.store, t.moved(p), t.other(p), c); }
        if c.Named? || c.Promoting? { WhenAWriteGoesBack(w.store, c.k, t.moved(p)); }
      case _ =>
    }
  }

  lemma NextValid(w: World, t: Watch, x: Action)
    requires Ok(w, t) && !Overtaken(w, t, x)
    ensures Valid(Next(w, x).store)
  {
    GrowsUnlessOvertaken(w, t, x);
    match x {
      case Go(p) => AdvanceKeeps(w, t, p);
      case Step(p) => StepValid(w, t, p);
      case Copy(p, h, r) => CopyValid(w, t, p, h, r);
      case Unlink(p, h) => StillValid(w.store, Next(w, x).store);
      case _ =>
    }
  }

  lemma StepValid(w: World, t: Watch, p: Pid)
    requires Ok(w, t) && !Overtaken(w, t, Step(p)) && Grows(w.store, Next(w, Step(p)).store)
    ensures Valid(Next(w, Step(p)).store)
  {
    var c := CommandOf(w, p);
    if c.Clear? || c.Named? || c.Promoting? {
      assert CommandOk(w.store, t.moved(p), t.other(p), c);
      if !c.Clear? { WhenAWriteGoesBack(w.store, c.k, t.moved(p)); }
      hide Grows, CallOk;
      StillValid(w.store, Next(w, Step(p)).store);
    }
  }

  lemma CopyValid(w: World, t: Watch, p: Pid, h: Hash, r: Record)
    requires Ok(w, t)
    ensures Valid(Next(w, Copy(p, h, r)).store)
  {
    if CommandOf(w, p).Mover? { assert CommandOk(w.store, t.moved(p), t.other(p), CommandOf(w, p)); }
    StillValid(w.store, Next(w, Copy(p, h, r)).store);
  }

  lemma NextCall(w: World, t: Watch, x: Action, p: Pid)
    requires Ok(w, t) && !Overtaken(w, t, x) && p in Next(w, x).calls
    ensures CallOk(Next(w, x).store, Next(w, x).calls[p])
  {
    GrowsUnlessOvertaken(w, t, x);
    hide Valid, Grows;
    match x {
      case Go(q) => AdvanceKeeps(w, t, q);
      case Start(q, _, _) => if p != q { OtherCallsKeep(w.store, Next(w, x).store, w.calls[p]); }
      case Quit(q) => if p != q { OtherCallsKeep(w.store, Next(w, x).store, w.calls[p]); }
      case _ => OtherCallsKeep(w.store, Next(w, x).store, w.calls[p]);
    }
  }

  /** What the watch and the invariant say of one command after an action. */
  ghost predicate Follows(w: World, t: Watch, x: Action, p: Pid) {
    CommandOk(Next(w, x).store, MovedNext(w, t, x, p), OtherNext(w, t, x, p), CommandOf(Next(w, x), p))
  }

  lemma NextCommand(w: World, t: Watch, x: Action, p: Pid)
    requires Ok(w, t) && !Overtaken(w, t, x)
    ensures Follows(w, t, x, p)
  {
    KnownCommand(w, t, p);
    match x {
      case Go(q) => AdvanceKeeps(w, t, q); Undisturbed(w, t, x, p);
      case Step(q) => if q == p { OwnStep(w, t, p); } else { KnownCommand(w, t, q); OthersStep(w, t, q, p); }
      case Rotate(q, m) => if q == p { FirstRead(w, t, x, p); } else { Undisturbed(w, t, x, p); }
      case Promote(q) => if q == p { FirstRead(w, t, x, p); } else { Undisturbed(w, t, x, p); }
      case Die(q) => if q != p { Undisturbed(w, t, x, p); }
      case _ => Undisturbed(w, t, x, p);
    }
  }

  lemma KnownCommand(w: World, t: Watch, p: Pid)
    requires Ok(w, t)
    ensures CommandOk(w.store, t.moved(p), t.other(p), CommandOf(w, p)) && w.store.keys.current in w.store.materials
    ensures w.store.keys.dual ==> w.store.keys.secondary == Some(w.store.keys.current + 1) && w.store.keys.current + 1 in w.store.materials
  {
  }

  lemma Undisturbed(w: World, t: Watch, x: Action, p: Pid)
    requires CommandOk(w.store, t.moved(p), t.other(p), CommandOf(w, p))
    requires Next(w, x).store.keys == w.store.keys && Next(w, x).store.materials == w.store.materials
    requires CommandOf(Next(w, x), p) == CommandOf(w, p) && !x.Step?
    ensures Follows(w, t, x, p)
  {
  }

  lemma FirstRead(w: World, t: Watch, x: Action, p: Pid)
    requires CommandOk(w.store, t.moved(p), t.other(p), CommandOf(w, p)) && w.store.keys.current in w.store.materials
    requires w.store.keys.dual ==> w.store.keys.secondary == Some(w.store.keys.current + 1) && w.store.keys.current + 1 in w.store.materials
    requires (x.Rotate? || x.Promote?) && x.p == p
    ensures Follows(w, t, x, p)
  {
  }

  lemma OwnStep(w: World, t: Watch, p: Pid)
    requires Ok(w, t) && !Overtaken(w, t, Step(p))
    ensures Follows(w, t, Step(p), p)
  {
    KnownCommand(w, t, p);
    hide Valid, CallOk, Ok;
    var c := CommandOf(w, p);
    if c.Named? || c.Promoting? { WhenAWriteGoesBack(w.store, c.k, t.moved(p)); }
  }

  /** A step of one command, seen by another. */
  lemma OthersStep(w: World, t: Watch, q: Pid, p: Pid)
    requires CommandOk(w.store, t.moved(p), t.other(p), CommandOf(w, p)) && CommandOk(w.store, t.moved(q), t.other(q), CommandOf(w, q))
    requires !Overtaken(w, t, Step(q)) && p != q
    ensures Follows(w, t, Step(q), p)
  {
    hide Follows, ReadOk, Next;
    match CommandOf(w, q) {
      case Clear(m, k) => OthersName(w, t, q, p);
      case Named(m, k) => OthersWrite(w, t, q, p, k);
      case Promoting(k, _) => OthersWrite(w, t, q, p, k);
      case _ => OthersLook(w, t, q, p);
    }
  }

  lemma OthersLook(w: World, t: Watch, q: Pid, p: Pid)
    requires CommandOk(w.store, t.moved(p), t.other(p), CommandOf(w, p)) && p != q
    requires !CommandOf(w, q).Clear? && !CommandOf(w, q).Named? && !CommandOf(w, q).Promoting?
    ensures Follows(w, t, Step(q), p)
  {
    assert Next(w, Step(q)).store == w.store && CommandOf(Next(w, Step(q)), p) == CommandOf(w, p);
    hide Next, ReadOk;
  }

  lemma OthersName(w: World, t: Watch, q: Pid, p: Pid)
    requires CommandOk(w.store, t.moved(p), t.other(p), CommandOf(w, p)) && CommandOf(w, q).Clear? && p != q
    ensures Follows(w, t, Step(q), p)
  {
  }

  lemma OthersWrite(w: World, t: Watch, q: Pid, p: Pid, k: KeyState)
    requires CommandOk(w.store, t.moved(p), t.other(p), CommandOf(w, p)) && p != q
    requires (CommandOf(w, q).Named? || CommandOf(w, q).Promoting?) && CommandOf(w, q).k == k
    requires ReadOk(w.store, k, t.moved(q)) && t.moved(q) < 2 && k.current + 1 in w.store.materials
    ensures Follows(w, t, Step(q), p)
  {
    var c := CommandOf(w, p);
    var s' := Next(w, Step(q)).store;
    WhenAWriteGoesBack(w.store, k, t.moved(q));
    if c.Read? || c.Clear? || c.Named? || c.Promoting? { ReadStaysOk(w.store, s', c.k, t.moved(p), k, t.moved(q)); }
  }

  /** Over runs of any commands and calls: the current secret epoch never falls, no rotation is
      undone and no material is replaced, exactly when no command writes after it was
      overtaken. */
  lemma {:induction false} SecretEpochsOnlyGrow(w: World, t: Watch, actions: seq<Action>)
    requires Ok(w, t)
    ensures GrowsThroughout(w, actions) <==> NobodyOvertaken(w, t, actions)
    ensures NobodyOvertaken(w, t, actions) ==> Ok(Run(w, actions), WatchRun(w, t, actions)) && Grows(w.store, Run(w, actions).store)
    decreases |actions|
  {
    hide Ok, Next, Overtaken, WatchNext;
    if actions != [] {
      HarmIsOvertaking(w, t, actions[0]);
      if !Overtaken(w, t, actions[0]) { SecretEpochsOnlyGrow(Next(w, actions[0]), WatchNext(w, t, actions[0]), actions[1..]); }
    }
  }
}
