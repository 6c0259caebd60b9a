/** What rotation commands and binding calls of several operators can do to each other. */
module RotationTheorems {
  import opened Wrappers
  import opened BindingRotation
  import opened RotationProtocol

  // ---------------------------------------------------------------------
  // One operator at a time
  // ---------------------------------------------------------------------

  /** No rotation command of another process is under way. */
  ghost predicate Alone(w: World, p: Pid) { forall q :: q != p ==> CommandOf(w, q).Resting? }

  /** A rotation command starts only while no other is under way. */
  ghost predicate OneAtATime(w: World, actions: seq<Action>)
    decreases |actions|
  {
    actions == [] ||
      (&& (actions[0].Rotate? || actions[0].Promote? ==> Alone(w, actions[0].p))
       && OneAtATime(Next(w, actions[0]), actions[1..]))
  }

  /** What the only command under way, if there is one, has seen is how it is. */
  ghost predicate Solo(w: World, t: Watch) {
    && (forall p, q :: p != q && !CommandOf(w, p).Resting? ==> CommandOf(w, q).Resting?)
    && (forall p :: Fresh(w, t, p))
  }

  predicate Fresh(w: World, t: Watch, p: Pid) {
    var c := CommandOf(w, p);
    && (c.Read? || c.Clear? || c.Named? || c.Promoting? ==> t.moved(p) == 0)
    && (c.Clear? ==> t.other(p).None?)
  }

  lemma SoloStays(w: World, t: Watch, x: Action)
    requires Solo(w, t) && (x.Rotate? || x.Promote? ==> Alone(w, x.p))
    ensures !Overtaken(w, t, x)
    ensures Solo(Next(w, x), WatchNext(w, t, x))
  {
    var w', t' := Next(w, x), WatchNext(w, t, x);
    if x.Step? { assert Fresh(w, t, x.p); }
    forall p ensures Fresh(w', t', p) { FreshStays(w, t, x, p); }
    forall p, q | p != q && !CommandOf(w', p).Resting? ensures CommandOf(w', q).Resting? {
      StillResting(w, x, p);
      StillResting(w, x, q);
    }
  }

  lemma StillResting(w: World, x: Action, p: Pid)
    ensures CommandOf(w, p).Resting? && !((x.Rotate? || x.Promote?) && x.p == p) ==> CommandOf(Next(w, x), p).Resting?
    ensures (x.Rotate? || x.Promote?) && x.p != p ==> CommandOf(Next(w, x), p) == CommandOf(w, p)
  {
  }

  lemma FreshStays(w: World, t: Watch, x: Action, p: Pid)
    requires Solo(w, t) && (x.Rotate? || x.Promote? ==> Alone(w, x.p))
    ensures Fresh(Next(w, x), WatchNext(w, t, x), p)
  {
    assert Fresh(w, t, p);
    assert WatchNext(w, t, x).moved(p) == MovedNext(w, t, x, p) && WatchNext(w, t, x).other(p) == OtherNext(w, t, x, p);
  }

  /** An operator who lets only one rotation command run at a time is never overtaken, so the
      epoch never falls and no material is replaced, whatever dies. */
  lemma {:induction false} OneCommandIsSafe(w: World, t: Watch, actions: seq<Action>)
    requires Solo(w, t) && OneAtATime(w, actions)
    ensures NobodyOvertaken(w, t, actions)
    ensures Ok(w, t) ==> GrowsThroughout(w, actions) && Grows(w.store, Run(w, actions).store)
    decreases |actions|
  {
    hide Solo, Overtaken, Next, WatchNext, Ok;
    if actions != [] {
      SoloStays(w, t, actions[0]);
      OneCommandIsSafe(Next(w, actions[0]), WatchNext(w, t, actions[0]), actions[1..]);
    }
    if Ok(w, t) { SecretEpochsOnlyGrow(w, t, actions); }
  }

  /** A new registry, with nothing under way. */
  lemma NewRegistryIsOk(m: Material, t: Watch)
    ensures var w := World(Store(KeyState(false, 1, None, None), map[1 := m], map[], map[], map[]), map[], map[]);
            Ok(w, t) && Solo(w, t) && AllFit(w)
  {
  }

  // ---------------------------------------------------------------------
  // Two operators
  // ---------------------------------------------------------------------

  /** The actions of a whole rotation by `r` from here to its write of the final key state. */
  function WholeRotation(r: Pid, m: Material): seq<Action> { [Rotate(r, m), Step(r), Step(r), Step(r), Step(r), Step(r)] }

  lemma RunTwo(w: World, x: Action, y: Action)
    ensures Run(w, [x]) == Next(w, x)
    ensures Run(w, [x, y]) == Next(Next(w, x), y)
  {
    assert [x, y][1..] == [y] && [x][1..] == [] && [y][1..] == [];
    assert Run(Next(w, x), [y]) == Run(Next(Next(w, x), y), []);
  }

  lemma RunThree(w: World, x: Action, y: Action, z: Action)
    ensures Run(w, [x, y, z]) == Next(Next(Next(w, x), y), z)
  {
    assert [x, y, z][1..] == [y, z];
    RunTwo(Next(w, x), y, z);
  }

  lemma {:induction false} RunSplits(w: World, xs: seq<Action>, ys: seq<Action>)
    ensures Run(w, xs + ys) == Run(Run(w, xs), ys)
    decreases |xs|
  {
    if xs == [] {
      assert xs + ys == ys;
    } else {
      assert (xs + ys)[0] == xs[0] && (xs + ys)[1..] == xs[1..] + ys;
      RunSplits(Next(w, xs[0]), xs[1..], ys);
    }
  }

  lemma BeginsFrom(w: World, r: Pid, m: Material)
    requires MayBegin(w.store) && CommandOf(w, r).Resting?
    ensures var w' := Run(w, WholeRotation(r, m)[..4]);
            && w'.store == Begun(w.store, m) && w'.calls == w.calls && CommandOf(w', r) == Waiting(w.store.keys.current)
            && forall q :: q != r ==> CommandOf(w', q) == CommandOf(w, q)
  {
    var xs := WholeRotation(r, m)[..4];
    var w1 := Next(w, Rotate(r, m));
    var w2 := Next(w1, Step(r));
    var w3 := Next(w2, Step(r));
    var w4 := Next(w3, Step(r));
    assert xs[0] == Rotate(r, m) && xs[1..] == [Step(r), Step(r), Step(r)];
    RunThree(w1, Step(r), Step(r), Step(r));
    assert Run(w, xs) == w4;
  }

  lemma RotatesFrom(w: World, r: Pid, m: Material)
    requires MayBegin(w.store) && CommandOf(w, r).Resting?
    ensures var w' := Run(w, WholeRotation(r, m));
            && w'.store == Finalized(Begun(w.store, m)) && w'.calls == w.calls && CommandOf(w', r) == Mover(w.store.keys.current)
            && forall q :: q != r ==> CommandOf(w', q) == CommandOf(w, q)
  {
    BeginsFrom(w, r, m);
    var xs := WholeRotation(r, m);
    assert xs == xs[..4] + [Step(r), Step(r)];
    RunSplits(w, xs[..4], [Step(r), Step(r)]);
    var w4 := Run(w, xs[..4]);
    RunTwo(w4, Step(r), Step(r));
  }

  /** Two lone finalizes read the same rotation; one writes, the next rotation runs to its end,
      and the other writes: the current epoch falls, everything bound since is cut off, and the
      store is stuck, although nobody died. */
  lemma EpochFallsBack(w: World, p: Pid, q: Pid, r: Pid, m: Material)
    requires Valid(w.store) && w.store.keys.dual && p != q && q != r && r != p
    requires CommandOf(w, p).Resting? && CommandOf(w, q).Resting? && CommandOf(w, r).Resting?
    ensures var w' := Run(w, [Promote(p), Promote(q), Step(q)] + WholeRotation(r, m));
            var w'' := Next(w', Step(p));
            && w'.store.keys.current == w.store.keys.current + 2
            && w''.store.keys.current == w.store.keys.current + 1
            && Stuck(w''.store) && !CanMove(w'', p) && !CanMove(w'', q) && !CanMove(w'', r)
            && w''.store.records == w.store.records && w''.store.materials[w.store.keys.current + 2] == m
  {
    var xs := [Promote(p), Promote(q), Step(q)];
    RunSplits(w, xs, WholeRotation(r, m));
    BothRead(w, p, q);
    RotatesFrom(Run(w, xs), r, m);
  }

  /** Both have read the rotation under way and one has written. */
  lemma BothRead(w: World, p: Pid, q: Pid)
    requires Valid(w.store) && w.store.keys.dual && p != q && CommandOf(w, p).Resting? && CommandOf(w, q).Resting?
    ensures var w' := Run(w, [Promote(p), Promote(q), Step(q)]);
            && w'.store == Finalized(w.store) && MayBegin(w'.store)
            && CommandOf(w', p) == Promoting(w.store.keys, None)
            && forall o :: o != p ==> CommandOf(w', o) == (if o == q then Resting else CommandOf(w, o))
  {
    var xs := [Promote(p), Promote(q), Step(q)];
    var w1 := Next(w, Promote(p));
    var w2 := Next(w1, Promote(q));
    RunThree(w, Promote(p), Promote(q), Step(q));
  }

  /** The late write lands on the next rotation: it is undone, and the store is stuck, although
      nobody died. */
  lemma RotationUndone(w: World, p: Pid, q: Pid, r: Pid, m: Material)
    requires Valid(w.store) && w.store.keys.dual && p != q && q != r && r != p
    requires CommandOf(w, p).Resting? && CommandOf(w, q).Resting? && CommandOf(w, r).Resting?
    ensures var w' := Run(w, [Promote(p), Promote(q), Step(q)] + WholeRotation(r, m)[..4]);
            var w'' := Next(w', Step(p));
            && w'.store.keys.dual && w'.store.keys.current == w.store.keys.current + 1
            && !w''.store.keys.dual && w''.store.keys.current == w.store.keys.current + 1
            && Stuck(w''.store) && !CanMove(w'', p) && !CanMove(w'', q) && !CanMove(w'', r)
  {
    var xs := [Promote(p), Promote(q), Step(q)];
    RunSplits(w, xs, WholeRotation(r, m)[..4]);
    BothRead(w, p, q);
    BeginsFrom(Run(w, xs), r, m);
  }

  /** Two rotations begin at once: both see no material, and the second to rename replaces what
      the first put there, also after the first has begun to rotate to it. */
  lemma MaterialReplaced(w: World, p: Pid, q: Pid, m: Material, n: Material)
    requires MayBegin(w.store) && p != q && CommandOf(w, p).Resting? && CommandOf(w, q).Resting?
    ensures var w' := Run(w, [Rotate(q, n), Step(q)] + WholeRotation(p, m)[..4]);
            var w'' := Next(w', Step(q));
            var e := w.store.keys.current + 1;
            && w'.store.keys == w''.store.keys == Target(w.store.keys)
            && e in w'.store.materials && w'.store.materials[e] == m
            && e in w''.store.materials && w''.store.materials[e] == n
  {
    var xs := [Rotate(q, n), Step(q)];
    RunSplits(w, xs, WholeRotation(p, m)[..4]);
    RunTwo(w, Rotate(q, n), Step(q));
    BeginsFrom(Run(w, xs), p, m);
  }

  // ---------------------------------------------------------------------
  // Getting stuck
  // ---------------------------------------------------------------------

  /** The command can still change the key state as it is. */
  predicate CanMove(w: World, p: Pid) {
    match CommandOf(w, p)
    case Read(_, k) => k.current + 1 !in w.store.materials && Target(k) != w.store.keys
    case Clear(_, k) => Target(k) != w.store.keys
    case Named(_, k) => Target(k) != w.store.keys
    case Promoting(k, _) => Target(k) != w.store.keys
    case _ => false
  }

  /** Stuck, with nobody left who could move on. */
  ghost predicate Jammed(w: World) { Stuck(w.store) && forall p :: !CanMove(w, p) }

  /** A begin reads a stable key state, a finalize one under rotation. */
  predicate Fits(c: Command) {
    (c.Read? || c.Clear? || c.Named? ==> !c.k.dual) && (c.Promoting? ==> c.k.dual)
  }

  ghost predicate AllFit(w: World) { forall p :: Fits(CommandOf(w, p)) }

  lemma JammedStays(w: World, x: Action)
    requires Jammed(w) && AllFit(w)
    ensures Jammed(Next(w, x)) && AllFit(Next(w, x)) && Next(w, x).store.keys == w.store.keys
  {
    var w' := Next(w, x);
    if x.Step? { assert !CanMove(w, x.p) && Fits(CommandOf(w, x.p)); }
    CallsLeaveKeys(w, x);
    assert w'.store.keys == w.store.keys && Stuck(w'.store);
    forall p ensures !CanMove(w', p) && Fits(CommandOf(w', p)) { assert !CanMove(w, p) && Fits(CommandOf(w, p)); }
  }

  lemma CallsLeaveKeys(w: World, x: Action)
    ensures x.Go? ==> Next(w, x).store.keys == w.store.keys && Next(w, x).store.materials == w.store.materials && Next(w, x).commands == w.commands
  {
  }

  lemma {:induction false} JammedForever(w: World, actions: seq<Action>)
    requires Jammed(w) && AllFit(w)
    ensures Run(w, actions).store.keys == w.store.keys && Stuck(Run(w, actions).store)
    decreases |actions|
  {
    hide Jammed, AllFit, Next;
    if actions != [] {
      JammedStays(w, actions[0]);
      JammedForever(Next(w, actions[0]), actions[1..]);
    } else {
      JammedIsStuck(w);
    }
  }

  lemma JammedIsStuck(w: World)
    requires Jammed(w)
    ensures Stuck(w.store)
  {
  }

  /** The steps by which a command that can still move does. */
  function MovesBy(w: World, p: Pid): seq<Action> {
    match CommandOf(w, p)
    case Read(_, _) => [Step(p), Step(p), Step(p)]
    case Clear(_, _) => [Step(p), Step(p)]
    case _ => [Step(p)]
  }

  lemma CanMoveMoves(w: World, p: Pid)
    requires CanMove(w, p)
    ensures Run(w, MovesBy(w, p)).store.keys != w.store.keys
  {
    var w1 := Next(w, Step(p));
    var w2 := Next(w1, Step(p));
    match CommandOf(w, p) {
      case Read(m, k) =>
        RunThree(w, Step(p), Step(p), Step(p));
        assert CommandOf(w1, p) == Clear(m, k) && CommandOf(w2, p) == Named(m, k) && w2.store.keys == w.store.keys;
      case Clear(m, k) =>
        RunTwo(w, Step(p), Step(p));
        assert CommandOf(w1, p) == Named(m, k) && w1.store.keys == w.store.keys;
      case _ => RunTwo(w, Step(p), Step(p));
    }
  }

  lemma FitStays(w: World, x: Action)
    requires AllFit(w)
    ensures AllFit(Next(w, x))
  {
    CallsLeaveKeys(w, x);
    forall p ensures Fits(CommandOf(Next(w, x), p)) { assert Fits(CommandOf(w, p)); }
  }

  lemma {:induction false} RunFits(w: World, actions: seq<Action>)
    requires AllFit(w)
    ensures AllFit(Run(w, actions))
    decreases |actions|
  {
    hide AllFit, Next;
    if actions != [] {
      FitStays(w, actions[0]);
      RunFits(Next(w, actions[0]), actions[1..]);
    }
  }

  /** After any run, overtaken or not: material of the next epoch without a rotation blocks every
      command that starts from there, and recovery does not remove it, so the key state never
      moves again, in any continuation, exactly when no command from before can still move it. */
  lemma StuckForever(w: World, before: seq<Action>)
    requires AllFit(w) && Stuck(Run(w, before).store)
    ensures var w' := Run(w, before);
            (forall actions :: Run(w', actions).store.keys == w'.store.keys) <==> (forall p :: !CanMove(w', p))
  {
    RunFits(w, before);
    var w' := Run(w, before);
    if p :| CanMove(w', p) {
      CanMoveMoves(w', p);
    } else {
      forall actions ensures Run(w', actions).store.keys == w'.store.keys { JammedForever(w', actions); }
    }
  }

  /** Whoever else could move still can. */
  lemma OthersCanStillMove(w: World, x: Action, q: Pid)
    requires Stuck(w.store) && CanMove(w, q) && !((x.Die? || x.Step?) && x.p == q)
    requires Next(w, x).store.keys == w.store.keys && Next(w, x).store.materials == w.store.materials
    ensures CanMove(Next(w, x), q)
  {
  }

  lemma WhenAnotherJams(w: World, x: Action)
    requires !Jammed(w) && !x.Step?
    ensures Jammed(Next(w, x)) <==> x.Die? && Stuck(w.store) && CanMove(w, x.p) && forall q :: q != x.p ==> !CanMove(w, q)
  {
    var w' := Next(w, x);
    CallsLeaveKeys(w, x);
    assert w'.store.keys == w.store.keys && w'.store.materials == w.store.materials;
    if Stuck(w.store) {
      var q :| CanMove(w, q);
      if x == Die(q) {
        forall r | r != q ensures CanMove(w', r) == CanMove(w, r) { assert CommandOf(w', r) == CommandOf(w, r); }
        assert !CanMove(w', q);
      } else {
        OthersCanStillMove(w, x, q);
      }
    }
  }

  /** A step that leaves keys and materials, of a command that could not move before, jams
      nothing. */
  lemma IdleStep(w: World, p: Pid)
    requires !Jammed(w) && !CanMove(w, p)
    requires Next(w, Step(p)).store.keys == w.store.keys && Next(w, Step(p)).store.materials == w.store.materials
    ensures !Jammed(Next(w, Step(p)))
  {
    if Stuck(w.store) {
      var q :| CanMove(w, q);
      OthersCanStillMove(w, Step(p), q);
    }
  }

  lemma BeginMovesOn(w: World, p: Pid)
    requires Fits(CommandOf(w, p)) && (CommandOf(w, p).Clear? || (CommandOf(w, p).Read? && CommandOf(w, p).k.current + 1 !in w.store.materials))
    ensures !Jammed(Next(w, Step(p)))
  {
    var w' := Next(w, Step(p));
    assert Stuck(w'.store) ==> CanMove(w', p);
  }

  /** The step writes the key state of a finalized rotation over another one, and the next epoch
      has material already. */
  predicate FinalizesShort(w: World, p: Pid) {
    && CommandOf(w, p).Promoting? && Target(CommandOf(w, p).k) != w.store.keys
    && Target(CommandOf(w, p).k).current + 1 in w.store.materials
  }

  lemma WhenAStepJams(w: World, p: Pid)
    requires AllFit(w) && !Jammed(w)
    ensures Jammed(Next(w, Step(p))) <==> FinalizesShort(w, p) && forall q :: !CanMove(Next(w, Step(p)), q)
  {
    assert Fits(CommandOf(w, p));
    match CommandOf(w, p) {
      case Read(m, k) => if k.current + 1 in w.store.materials { IdleStep(w, p); } else { BeginMovesOn(w, p); }
      case Clear(m, k) => BeginMovesOn(w, p);
      case Named(m, k) =>
      case Promoting(k, _) => if Target(k) == w.store.keys { IdleStep(w, p); }
      case _ => IdleStep(w, p);
    }
  }

  /** Two things ever jam a store, in any state of any run: the last command that could still move
      on dies, with material there and no rotation; or a finalize writes where the next epoch has
      material already, and nobody else can move on. */
  lemma WhenJammed(w: World, x: Action)
    requires AllFit(w) && !Jammed(w)
    ensures Jammed(Next(w, x)) <==>
            || (x.Die? && Stuck(w.store) && CanMove(w, x.p) && forall q :: q != x.p ==> !CanMove(w, q))
            || (x.Step? && FinalizesShort(w, x.p) && forall q :: !CanMove(Next(w, x), q))
  {
    if x.Step? { WhenAStepJams(w, x.p); } else { WhenAnotherJams(w, x); }
  }

  /** While nobody has done harm, the second of them is exactly the write of an overtaken
      finalize. */
  lemma WhenStuck(w: World, t: Watch, x: Action)
    requires Ok(w, t) && !Jammed(w)
    ensures Jammed(Next(w, x)) <==>
            || (x.Die? && Stuck(w.store) && CanMove(w, x.p) && forall q :: q != x.p ==> !CanMove(w, q))
            || (x.Step? && CommandOf(w, x.p).Promoting? && Overtaken(w, t, x) && forall q :: !CanMove(Next(w, x), q))
  {
    OkIsFit(w, t);
    WhenJammed(w, x);
    if x.Step? { ShortIsOvertaken(w, t, x.p); }
  }

  lemma OkIsFit(w: World, t: Watch)
    requires Ok(w, t)
    ensures AllFit(w)
  {
    forall p ensures Fits(CommandOf(w, p)) { KnownCommand(w, t, p); }
  }

  lemma ShortIsOvertaken(w: World, t: Watch, p: Pid)
    requires Ok(w, t)
    ensures FinalizesShort(w, p) <==> CommandOf(w, p).Promoting? && Overtaken(w, t, Step(p))
  {
    KnownCommand(w, t, p);
    OnlyOneAhead(w, t);
  }

  lemma OnlyOneAhead(w: World, t: Watch)
    requires Ok(w, t)
    ensures w.store.keys.dual ==> w.store.keys.current + 1 in w.store.materials
    ensures w.store.keys.current + 2 !in w.store.materials
  {
  }
}
