/** What an agent id leads to while rotation commands and binding calls run
    (scripts/cwk_agent_binding.py:699-803 and 1407-1427). */
module RotationResolution {
  import opened Wrappers
  import opened BindingRotation
  import opened RotationProtocol
  import opened RotationTheorems

  // ---------------------------------------------------------------------
  // What changes while a rotation is under way
  // ---------------------------------------------------------------------

  /** Agent `a` is looked up under this hash. */
  predicate Shown(s: Store, a: Agent, h: Hash)
    requires KeysOk(s)
  {
    h == CurrentHash(s, a) || (s.keys.dual && At(s, CurrentHash(s, a)).None? && h == NextHash(s, a))
  }

  /** The action commits a call, or unlinks a record that was copied, where agent `a` is looked
      up. */
  predicate Touches(w: World, x: Action, a: Agent)
    requires KeysOk(w.store)
  {
    match x
    case Go(p) => CallOf(w, p).Computed? && At(w.store, CallOf(w, p).h) == CallOf(w, p).before && Shown(w.store, a, CallOf(w, p).h)
    case Unlink(p, h) => CommandOf(w, p).Mover? && (CommandOf(w, p).from, h) in w.store.tombstones && h in w.store.records && Shown(w.store, a, h)
    case _ => false
  }

  /** The action writes the key state of a finalized rotation. */
  predicate Finalizes(w: World, x: Action) { x.Step? && CommandOf(w, x.p).Promoting? }

  /** Nothing of the run finalizes, and nobody is overtaken. */
  ghost predicate UnderWay(w: World, t: Watch, actions: seq<Action>)
    decreases |actions|
  {
    actions == [] ||
      (&& !Finalizes(w, actions[0]) && !Overtaken(w, t, actions[0])
       && UnderWay(Next(w, actions[0]), WatchNext(w, t, actions[0]), actions[1..]))
  }

  lemma ValidKeys(s: Store)
    requires Valid(s)
    ensures KeysOk(s)
  {
  }

  /** While dual, every begin under way writes what is there. */
  lemma KeysStayWhileDual(w: World, t: Watch, x: Action)
    requires Ok(w, t) && w.store.keys.dual && !Finalizes(w, x) && !Overtaken(w, t, x)
    ensures Next(w, x).store.keys == w.store.keys && Next(w, x).store.materials == w.store.materials
  {
    match x {
      case Go(p) => AdvanceKeeps(w, t, p);
      case Step(p) =>
        KnownCommand(w, t, p);
        if CommandOf(w, p).Clear? {
          var e := CommandOf(w, p).k.current + 1;
          assert e in w.store.materials && w.store.materials[e] == CommandOf(w, p).m;
          assert w.store.materials[e := CommandOf(w, p).m] == w.store.materials;
        }
      case _ =>
    }
  }

  /** Records under the two hashes of an agent are never the same record. */
  lemma TwoPlaces(s: Store, g: Hash, h: Hash)
    requires Valid(s) && g in s.records && h in s.records && g.material != h.material
    ensures s.records[g] != s.records[h]
  {
    assert Filed(s, s.records[g].secretEpoch, g) && Filed(s, s.records[h].secretEpoch, h);
  }

  lemma CommitChanges(s: Store, a: Agent, h: Hash, after: Record)
    requires Valid(s) && s.keys.dual && Filed(s, after.secretEpoch, h) && after.secretEpoch <= s.keys.current
    requires At(s, h) != Some(after)
    ensures KeysOk(s) && (Found(s.(records := s.records[h := after]), a) != Found(s, a) <==> Shown(s, a, h))
  {
    var s' := s.(records := s.records[h := after]);
    CommitKeeps(s, h, after);
    if h == CurrentHash(s, a) && At(s, h).None? && NextHash(s, a) in s.records {
      TwoPlaces(s', h, NextHash(s, a));
    }
  }

  lemma UnlinkChanges(s: Store, a: Agent, h: Hash)
    requires Valid(s) && s.keys.dual && h in s.records
    ensures KeysOk(s) && (Found(s.(records := s.records - {h}), a) != Found(s, a) <==> Shown(s, a, h))
  {
    if h == CurrentHash(s, a) && NextHash(s, a) in s.records && NextHash(s, a) != h {
      TwoPlaces(s, h, NextHash(s, a));
    }
  }

  /** From begin to finalize, an action changes what an agent id leads to exactly when it
      touches the place where the agent is looked up. */
  lemma WhatChangesResolution(w: World, t: Watch, x: Action, a: Agent)
    requires Ok(w, t) && w.store.keys.dual && !Finalizes(w, x) && !Overtaken(w, t, x)
    ensures KeysOk(w.store) && KeysOk(Next(w, x).store)
    ensures Found(Next(w, x).store, a) != Found(w.store, a) <==> Touches(w, x, a)
  {
    ValidKeys(w.store);
    KeysStayWhileDual(w, t, x);
    match x {
      case Go(p) =>
        if CallOf(w, p).Computed? {
          var c := CallOf(w, p);
          assert CallOk(w.store, c);
          if At(w.store, c.h) == c.before { CommitChanges(w.store, a, c.h, c.after); }
        }
      case Unlink(p, h) => if CommandOf(w, p).Mover? && (CommandOf(w, p).from, h) in w.store.tombstones && h in w.store.records { UnlinkChanges(w.store, a, h); }
      case _ =>
    }
  }

  ghost predicate Steady(w: World, actions: seq<Action>, a: Agent)
    decreases |actions|
  {
    actions == [] ||
      (&& KeysOk(w.store) && KeysOk(Next(w, actions[0]).store) && Found(Next(w, actions[0]).store, a) == Found(w.store, a)
       && Steady(Next(w, actions[0]), actions[1..], a))
  }

  ghost predicate Untouched(w: World, actions: seq<Action>, a: Agent)
    decreases |actions|
  {
    actions == [] || (KeysOk(w.store) && !Touches(w, actions[0], a) && Untouched(Next(w, actions[0]), actions[1..], a))
  }

  /** Over any run between begin and finalize: what an agent id leads to stays the same
      throughout exactly when nothing touches its place. */
  lemma {:induction false} ResolvesAsBeforeWhileDual(w: World, t: Watch, actions: seq<Action>, a: Agent)
    requires Ok(w, t) && w.store.keys.dual && UnderWay(w, t, actions)
    ensures Steady(w, actions, a) <==> Untouched(w, actions, a)
    ensures KeysOk(w.store) && KeysOk(Run(w, actions).store)
    ensures Untouched(w, actions, a) ==> Found(Run(w, actions).store, a) == Found(w.store, a)
    decreases |actions|
  {
    hide Ok, Next, Touches, Found, KeysOk, Overtaken, WatchNext, Finalizes;
    if actions != [] {
      WhatChangesResolution(w, t, actions[0], a);
      HarmIsOvertaking(w, t, actions[0]);
      KeysStayWhileDual(w, t, actions[0]);
      ResolvesAsBeforeWhileDual(Next(w, actions[0]), WatchNext(w, t, actions[0]), actions[1..], a);
    } else {
      KnownKeys(w, t);
    }
  }

  lemma KnownKeys(w: World, t: Watch)
    requires Ok(w, t)
    ensures KeysOk(w.store)
  {
  }

  lemma StaysIdle(w: World, x: Action, p: Pid)
    requires w.store.keys.dual && CallOf(w, p).Idle?
    ensures CallOf(Next(w, x), p).Idle?
  {
  }

  lemma {:induction false} HeldWhileUnderWay(w: World, t: Watch, actions: seq<Action>, p: Pid)
    requires Ok(w, t) && w.store.keys.dual && UnderWay(w, t, actions)
    ensures Ok(Run(w, actions), WatchRun(w, t, actions))
    ensures Run(w, actions).store.keys == w.store.keys && Run(w, actions).store.materials == w.store.materials
    ensures CallOf(w, p).Idle? ==> CallOf(Run(w, actions), p).Idle?
    decreases |actions|
  {
    hide Ok, Next, Overtaken, WatchNext, Finalizes;
    if actions != [] {
      HarmIsOvertaking(w, t, actions[0]);
      KeysStayWhileDual(w, t, actions[0]);
      if CallOf(w, p).Idle? { StaysIdle(w, actions[0], p); }
      HeldWhileUnderWay(Next(w, actions[0]), WatchNext(w, t, actions[0]), actions[1..], p);
    }
  }

  /** The command moves the records of an earlier epoch whose material is the current or the next
      one again. */
  predicate Recalled(s: Store, c: Command, a: Agent)
    requires KeysOk(s) && s.keys.dual
  {
    && c.Mover? && c.from < s.keys.current && c.from in s.materials
    && (s.materials[c.from] == CurrentHash(s, a).material || s.materials[c.from] == NextHash(s, a).material)
  }

  /** Only two kinds of action ever touch it: the commit of a call that had passed its check when
      the rotation began, and the unlink by an earlier rotation of a record under material that
      the current or the next epoch uses again. */
  lemma WhoChangesResolution(w: World, t: Watch, actions: seq<Action>, x: Action, a: Agent)
    requires Ok(w, t) && w.store.keys.dual && UnderWay(w, t, actions)
    ensures KeysOk(w.store) && KeysOk(Run(w, actions).store)
    ensures Touches(Run(w, actions), x, a) ==>
              || (x.Go? && !CallOf(w, x.p).Idle?)
              || (x.Unlink? && Recalled(w.store, CommandOf(Run(w, actions), x.p), a))
  {
    var w' := Run(w, actions);
    HeldWhileUnderWay(w, t, actions, if x.Go? then x.p else 0);
    KnownKeys(w, t);
    KnownKeys(w', WatchRun(w, t, actions));
    if x.Unlink? && Touches(w', x, a) { EarlierMover(w', WatchRun(w, t, actions), x.p, x.h); }
  }

  lemma EarlierMover(w: World, t: Watch, p: Pid, h: Hash)
    requires Ok(w, t) && CommandOf(w, p).Mover? && (CommandOf(w, p).from, h) in w.store.tombstones
    ensures CommandOf(w, p).from < w.store.keys.current && Filed(w.store, CommandOf(w, p).from, h)
  {
    KnownCommand(w, t, p);
  }

  /** Both kinds occur.  A bind that was computed before the rotation began commits while it is
      under way. */
  lemma LateBindChangesResolution(w: World, t: Watch, q: Pid, m: Material, p: Pid)
    requires Ok(w, t) && MayBegin(w.store) && CommandOf(w, q).Resting? && CallOf(w, p).Computed?
    requires CallOf(w, p).h == CurrentHash(w.store, CallOf(w, p).a) && At(w.store, CallOf(w, p).h) == CallOf(w, p).before
    ensures var w1 := Run(w, WholeRotation(q, m)[..4]);
            var w2 := Next(w1, Go(p));
            && w2.store.keys.dual && KeysOk(w2.store) && KeysOk(w1.store)
            && Found(w2.store, CallOf(w, p).a) == Some(CallOf(w, p).after) != Found(w1.store, CallOf(w, p).a)
  {
    BeginsFrom(w, q, m);
    assert CallOk(w.store, CallOf(w, p));
    ValidKeys(w.store);
  }

  /** And an earlier rotation's unlink cuts off an agent that is bound again under reused
      material. */
  lemma ReusedMaterialCutsOff(w: World, t: Watch, p: Pid, a: Agent)
    requires Ok(w, t) && w.store.keys.dual && CommandOf(w, p).Mover? && CommandOf(w, p).from in w.store.materials
    requires w.store.materials[CommandOf(w, p).from] == w.store.materials[w.store.keys.current]
    requires CurrentHash(w.store, a) in w.store.records && (CommandOf(w, p).from, CurrentHash(w.store, a)) in w.store.tombstones
    ensures var w' := Next(w, Unlink(p, CurrentHash(w.store, a)));
            KeysOk(w'.store) && Found(w'.store, a) != Found(w.store, a) && At(w'.store, CurrentHash(w.store, a)).None?
  {
    WhatChangesResolution(w, t, Unlink(p, CurrentHash(w.store, a)), a);
  }

  // ---------------------------------------------------------------------
  // A lookup that straddles writes of the key state
  // ---------------------------------------------------------------------

  /** The two reads of the key state and the two of the records happen at four moments. */
  function LookUp(s1: Store, s2: Store, s3: Store, s4: Store, a: Agent): Option<Record>
    requires KeysOk(s1) && KeysOk(s3)
  {
    var first := At(s2, CurrentHash(s1, a));
    if first.Some? || !s3.keys.dual then first else At(s4, NextHash(s3, a))
  }

  /** The records of the agent under the materials that `s'` has for epochs `c` and `c + 1`. */
  predicate SamePlaces(s: Store, s': Store, c: nat, a: Agent) {
    forall e :: c <= e <= c + 1 && e in s'.materials ==> At(s, Hash(s'.materials[e], a)) == At(s', Hash(s'.materials[e], a))
  }

  /** The rotation under way at the first read is finalized by the third, and the agent has a
      record under the next material only. */
  predicate Missed(s1: Store, s3: Store, a: Agent)
    requires KeysOk(s1) && KeysOk(s3)
  {
    s1.keys.dual && s3.keys.current > s1.keys.current && At(s1, CurrentHash(s1, a)).None? && At(s1, NextHash(s1, a)).Some?
  }

  /** While the agent's records under the current and the next material stay, and no second
      rotation begins during the lookup: it answers what the agent led to at the first or at the
      third read, except when the rotation is finalized between those two and the agent has a
      record under the next material only.  Then it finds nothing, although the agent led to
      that record before and after. */
  lemma LookUpAcrossRotation(w: World, t: Watch, actions: seq<Action>, s2: Store, s4: Store, a: Agent)
    requires Ok(w, t) && NobodyOvertaken(w, t, actions)
    requires Place(Run(w, actions).store.keys) <= 2 * (w.store.keys.current + 1)
    requires SamePlaces(w.store, Run(w, actions).store, w.store.keys.current, a)
    requires SamePlaces(s2, Run(w, actions).store, w.store.keys.current, a)
    requires SamePlaces(s4, Run(w, actions).store, w.store.keys.current, a)
    ensures KeysOk(w.store) && KeysOk(Run(w, actions).store)
    ensures var s1, s3 := w.store, Run(w, actions).store;
            var answer := LookUp(s1, s2, s3, s4, a);
            && (answer == Found(s1, a) || answer == Found(s3, a) <==> !Missed(s1, s3, a))
            && (Missed(s1, s3, a) ==> answer.None? && Found(s1, a) == Found(s3, a) == At(s1, NextHash(s1, a)))
  {
    hide Ok, Run, WatchRun, NobodyOvertaken, LookUp, SamePlaces, Found, KeysOk, Grows;
    SecretEpochsOnlyGrow(w, t, actions);
    KnownStore(w, t);
    KnownStore(Run(w, actions), WatchRun(w, t, actions));
    ValidKeys(w.store);
    ValidKeys(Run(w, actions).store);
    AnswersAcross(w.store, s2, Run(w, actions).store, s4, a);
  }

  lemma KnownStore(w: World, t: Watch)
    requires Ok(w, t)
    ensures Valid(w.store)
  {
  }

  lemma AnswersAcross(s1: Store, s2: Store, s3: Store, s4: Store, a: Agent)
    requires Valid(s1) && Valid(s3) && Grows(s1, s3) && Place(s3.keys) <= 2 * (s1.keys.current + 1)
    requires SamePlaces(s1, s3, s1.keys.current, a) && SamePlaces(s2, s3, s1.keys.current, a) && SamePlaces(s4, s3, s1.keys.current, a)
    ensures KeysOk(s1) && KeysOk(s3)
    ensures LookUp(s1, s2, s3, s4, a) == Found(s1, a) || LookUp(s1, s2, s3, s4, a) == Found(s3, a) <==> !Missed(s1, s3, a)
    ensures Missed(s1, s3, a) ==> LookUp(s1, s2, s3, s4, a).None? && Found(s1, a) == Found(s3, a) == At(s1, NextHash(s1, a))
  {
    var c := s1.keys.current;
    assert c in s1.materials && s3.materials[c] == s1.materials[c];
    assert At(s2, Hash(s3.materials[c], a)) == At(s1, Hash(s3.materials[c], a));
    if c + 1 in s3.materials { assert At(s4, Hash(s3.materials[c + 1], a)) == At(s1, Hash(s3.materials[c + 1], a)); }
  }

  // ---------------------------------------------------------------------
  // After a rotation
  // ---------------------------------------------------------------------

  /** No record of the agent is filed under the current material, nor under that of the next
      epoch if it is there already. */
  predicate CutOff(s: Store, a: Agent) {
    forall e :: e in s.materials && e >= s.keys.current ==> Hash(s.materials[e], a) !in s.records
  }

  /** A finalized rotation to new material leaves every agent cut off. */
  lemma RotationCutsOff(s: Store, m: Material, s': Store, a: Agent)
    requires Valid(s) && MayBegin(s) && forall e :: e in s.materials ==> s.materials[e] != m
    requires Moving(Finalized(Begun(s, m)), s.keys.current, s')
    ensures CutOff(s', a)
  {
    FreshMaterialCutsEveryone(s, m, a, s');
  }

  /** Every material put by the run is new to every other epoch, and no bind of agent `a` is
      committed. */
  ghost predicate FreshAndUnbound(w: World, actions: seq<Action>, a: Agent)
    decreases |actions|
  {
    actions == [] ||
      (&& NewMaterial(w, actions[0]) && !CommitsBind(w, actions[0], a)
       && FreshAndUnbound(Next(w, actions[0]), actions[1..], a))
  }

  ghost predicate NewMaterial(w: World, x: Action) {
    x.Step? && CommandOf(w, x.p).Clear? ==>
      forall e :: e in w.store.materials && e != CommandOf(w, x.p).k.current + 1 ==> w.store.materials[e] != CommandOf(w, x.p).m
  }

  predicate CommitsBind(w: World, x: Action, a: Agent) {
    x.Go? && CallOf(w, x.p).Computed? && CallOf(w, x.p).a == a && CallOf(w, x.p).deed.Bind? && At(w.store, CallOf(w, x.p).h) == CallOf(w, x.p).before
  }

  /** An agent that is cut off leads nowhere until it is bound again, through any further
      rotations to new material, by any number of operators who do not overtake each other,
      through deaths and late commits of other calls. */
  lemma {:induction false} CutOffUntilBoundAgain(w: World, t: Watch, actions: seq<Action>, a: Agent)
    requires Ok(w, t) && CutOff(w.store, a) && NobodyOvertaken(w, t, actions) && FreshAndUnbound(w, actions, a)
    ensures CutOff(Run(w, actions).store, a)
    ensures KeysOk(Run(w, actions).store) && Found(Run(w, actions).store, a).None?
    decreases |actions|
  {
    hide Ok, Next, CutOff, KeysOk, Found, Overtaken, WatchNext, NewMaterial, CommitsBind;
    if actions != [] {
      HarmIsOvertaking(w, t, actions[0]);
      StillCutOff(w, t, actions[0], a);
      CutOffUntilBoundAgain(Next(w, actions[0]), WatchNext(w, t, actions[0]), actions[1..], a);
    } else {
      CutOffLeadsNowhere(w, t, a);
    }
  }

  lemma CutOffLeadsNowhere(w: World, t: Watch, a: Agent)
    requires Ok(w, t) && CutOff(w.store, a)
    ensures KeysOk(w.store) && Found(w.store, a).None?
  {
  }

  lemma StillCutOff(w: World, t: Watch, x: Action, a: Agent)
    requires Ok(w, t) && CutOff(w.store, a) && !Overtaken(w, t, x) && NewMaterial(w, x) && !CommitsBind(w, x, a)
    ensures CutOff(Next(w, x).store, a)
  {
    GrowsUnlessOvertaken(w, t, x);
    match x {
      case Go(p) => LateCommitOfAnother(w, t, p, a);
      case Step(p) => StepCutsOff(w, t, p, a);
      case _ =>
    }
  }

  lemma LateCommitOfAnother(w: World, t: Watch, p: Pid, a: Agent)
    requires Ok(w, t) && CutOff(w.store, a) && !CommitsBind(w, Go(p), a)
    ensures CutOff(Next(w, Go(p)).store, a)
  {
    AdvanceKeeps(w, t, p);
    if CallOf(w, p).Computed? { assert CallOk(w.store, CallOf(w, p)); }
  }

  lemma StepCutsOff(w: World, t: Watch, p: Pid, a: Agent)
    requires Ok(w, t) && CutOff(w.store, a) && !Overtaken(w, t, Step(p)) && NewMaterial(w, Step(p))
    requires Grows(w.store, Next(w, Step(p)).store)
    ensures CutOff(Next(w, Step(p)).store, a)
  {
    assert forall h :: h in w.store.records ==> Filed(w.store, w.store.records[h].secretEpoch, h);
  }
}
