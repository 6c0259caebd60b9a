/** Many writers of one file (scripts/cwk_atomic_file.py:367-567).  Each reads the file without
    the lock, computes, and then calls `cas_write`, which should be under the lock.  One
    action is one system call, so a run is any interleaving with a crash between any two
    calls; a sweep may unlink any temporary file at any time. */
module AtomicProtocol {
  import opened Wrappers
  import opened AtomicFile

  type Pid = nat
  type Temp = nat

  datatype Task = Task(locked: bool, expected: Option<Bytes>, data: Bytes)

  datatype PC =
    | Idle
    | Computing(seen: Option<Bytes>)
    | WantLock(task: Task)
    | Comparing(task: Task)
    | Creating(task: Task, attempts: nat)
    | Writing(task: Task, temp: Temp, done: nat)
    | Renaming(task: Task, temp: Temp)

  /** What a rename committed, and the bytes that its writer had read. */
  datatype Entry = Entry(writer: Pid, seen: Option<Bytes>, data: Bytes)

  /** `log` only records the commits; no process reads it. */
  datatype World = World(
    file: Option<Bytes>, temps: map<Temp, Bytes>, lock: Option<Pid>, pcs: map<Pid, PC>, log: seq<Entry>)

  datatype Action =
    | Read(p: Pid)
    | Call(p: Pid, locked: bool, exclusive: bool, data: Bytes)
    | Go(p: Pid, choice: nat)        // a temporary name, or how many bytes a write takes
    | Fail(p: Pid)                   // a system call of p fails
    | Crash(p: Pid)
    | Unlink(t: Temp)                // one step of `recover_orphans`, by anyone

  function Pc(w: World, p: Pid): PC { if p in w.pcs then w.pcs[p] else Idle }

  function To(w: World, p: Pid, pc: PC): World { w.(pcs := w.pcs[p := pc]) }

  function Release(w: World, p: Pid): World { if w.lock == Some(p) then w.(lock := None) else w }

  function End(w: World, p: Pid): World { To(Release(w, p), p, Idle) }

  function RenameStep(w: World, p: Pid, task: Task, t: Temp): World {
    if t !in w.temps then End(w, p)
    else End(w.(file := Some(w.temps[t]), temps := w.temps - {t}, log := w.log + [Entry(p, task.expected, w.temps[t])]), p)
  }

  function WriteStep(w: World, p: Pid, task: Task, t: Temp, done: nat, n: nat): World {
    if done >= |task.data| then To(w, p, Renaming(task, t))
    else
      var more := if done + n < |task.data| then done + n else |task.data|;
      To(if t in w.temps then w.(temps := w.temps[t := task.data[..more]]) else w, p, Writing(task, t, more))
  }

  function CreateStep(w: World, p: Pid, task: Task, attempts: nat, t: Temp): World {
    if t !in w.temps then To(w.(temps := w.temps[t := []]), p, Writing(task, t, 0))
    else if attempts + 1 < MAX_TEMP_ATTEMPTS then To(w, p, Creating(task, attempts + 1))
    else End(w, p)
  }

  function Advance(w: World, p: Pid, choice: nat): World {
    match Pc(w, p)
    case Idle => w
    case Computing(_) => w
    case WantLock(task) =>
      if !task.locked then To(w, p, Comparing(task))
      else if w.lock.Some? then w else To(w.(lock := Some(p)), p, Comparing(task))
    case Comparing(task) => if w.file == task.expected then To(w, p, Creating(task, 0)) else End(w, p)
    case Creating(task, attempts) => CreateStep(w, p, task, attempts, choice)
    case Writing(task, t, done) => WriteStep(w, p, task, t, done, choice)
    case Renaming(task, t) => RenameStep(w, p, task, t)
  }

  function FailStep(w: World, p: Pid): World {
    match Pc(w, p)
    case Writing(_, t, _) => End(w.(temps := w.temps - {t}), p)
    case Renaming(_, t) => End(w.(temps := w.temps - {t}), p)
    case _ => End(w, p)
  }

  function Next(w: World, a: Action): World {
    match a
    case Read(p) => if Pc(w, p).Idle? then To(w, p, Computing(w.file)) else w
    case Call(p, locked, exclusive, data) =>
      (match Pc(w, p)
       case Computing(seen) => To(w, p, WantLock(Task(locked, if exclusive then None else seen, data)))
       case _ => w)
    case Go(p, choice) => Advance(w, p, choice)
    case Fail(p) => FailStep(w, p)
    case Crash(p) => End(w, p)
    case Unlink(t) => w.(temps := w.temps - {t})
  }

  function Run(w: World, actions: seq<Action>): World
    decreases |actions|
  {
    if actions == [] then w else Run(Next(w, actions[0]), actions[1..])
  }

  // ---------------------------------------------------------------------
  // What every run of lock-holding writers keeps
  // ---------------------------------------------------------------------

  predicate Locking(a: Action) { a.Call? ==> a.locked }

  /** Each commit was made over exactly the bytes that its writer had read. */
  ghost predicate Chained(first: Option<Bytes>, log: seq<Entry>) {
    && (|log| > 0 ==> log[0].seen == first)
    && (forall i :: 0 < i < |log| ==> log[i].seen.Some? && log[i].seen.value == log[i - 1].data)
  }

  function Latest(first: Option<Bytes>, log: seq<Entry>): Option<Bytes> {
    if log == [] then first else Some(log[|log| - 1].data)
  }

  predicate Holds(pc: PC) { pc.Comparing? || pc.Creating? || pc.Writing? || pc.Renaming? }

  function TaskOf(pc: PC): Option<Task> {
    match pc
    case WantLock(task) => Some(task)
    case Comparing(task) => Some(task)
    case Creating(task, _) => Some(task)
    case Writing(task, _, _) => Some(task)
    case Renaming(task, _) => Some(task)
    case _ => None
  }

  /** What one process knows.  The temporary file holds what was written so far, unless it
      was swept away. */
  predicate PcOk(w: World, p: Pid, pc: PC) {
    && (TaskOf(pc).Some? ==> TaskOf(pc).value.locked)
    && (Holds(pc) ==> w.lock == Some(p))
    && (pc.Creating? || pc.Writing? || pc.Renaming? ==> w.file == pc.task.expected)
    && (pc.Writing? ==> pc.done <= |pc.task.data| && (pc.temp in w.temps ==> w.temps[pc.temp] == pc.task.data[..pc.done]))
    && (pc.Renaming? ==> pc.temp in w.temps ==> w.temps[pc.temp] == pc.task.data)
  }

  ghost predicate Inv(w: World, first: Option<Bytes>) {
    && w.file == Latest(first, w.log) && Chained(first, w.log)
    && (forall p :: p in w.pcs ==> PcOk(w, p, w.pcs[p]))
  }

  /** Only the holder of the lock touches the file or grows a temporary file of it. */
  lemma OthersKeep(w: World, w': World, p: Pid, q: Pid)
    requires PcOk(w, q, Pc(w, q)) && q != p && Pc(w', q) == Pc(w, q)
    requires w'.lock != w.lock ==> w.lock == None || w.lock == Some(p)
    requires w'.file != w.file || !(w'.temps.Keys <= w.temps.Keys && forall t :: t in w'.temps ==> w'.temps[t] == w.temps[t]) ==> w.lock == Some(p)
    ensures PcOk(w', q, Pc(w', q))
  {
  }

  lemma AdvanceKeeps(w: World, first: Option<Bytes>, p: Pid, choice: nat)
    requires Inv(w, first)
    ensures Inv(Advance(w, p, choice), first)
  {
    var w' := Advance(w, p, choice);
    assert PcOk(w, p, Pc(w, p));
    assert PcOk(w', p, Pc(w', p)) && w'.file == Latest(first, w'.log) && Chained(first, w'.log) by {
      OwnStep(w, first, p, choice);
    }
    forall q | q in w'.pcs ensures PcOk(w', q, w'.pcs[q]) {
      if q != p { OthersKeep(w, w', p, q); }
    }
  }

  lemma OwnStep(w: World, first: Option<Bytes>, p: Pid, choice: nat)
    requires Inv(w, first)
    ensures var w' := Advance(w, p, choice); PcOk(w', p, Pc(w', p)) && w'.file == Latest(first, w'.log) && Chained(first, w'.log)
  {
    assert PcOk(w, p, Pc(w, p));
    match Pc(w, p) {
      case Writing(task, t, done) => assert task.data[..|task.data|] == task.data;
      case Renaming(task, t) => if t in w.temps { CommitChains(w, first, p, task, t); }
      case _ =>
    }
  }

  lemma CommitChains(w: World, first: Option<Bytes>, p: Pid, task: Task, t: Temp)
    requires Inv(w, first) && Pc(w, p) == Renaming(task, t) && p in w.pcs && t in w.temps
    ensures Chained(first, w.log + [Entry(p, task.expected, w.temps[t])])
    ensures w.temps[t] == task.data
  {
    assert PcOk(w, p, w.pcs[p]);
    var log' := w.log + [Entry(p, task.expected, w.temps[t])];
    forall i | 0 < i < |log'| ensures log'[i].seen.Some? && log'[i].seen.value == log'[i - 1].data {
      assert log'[i - 1] == w.log[i - 1];
    }
  }

  lemma NextKeeps(w: World, first: Option<Bytes>, a: Action)
    requires Inv(w, first) && Locking(a)
    ensures Inv(Next(w, a), first)
  {
    match a {
      case Go(p, choice) => AdvanceKeeps(w, first, p, choice);
      case Read(p) => Quiet(w, first, a, p);
      case Call(p, _, _, _) => Quiet(w, first, a, p);
      case Fail(p) => Quiet(w, first, a, p);
      case Crash(p) => Quiet(w, first, a, p);
      case Unlink(t) =>
        forall q | q in w.pcs ensures PcOk(Next(w, a), q, w.pcs[q]) { assert PcOk(w, q, w.pcs[q]); }
    }
  }

  /** Actions that commit nothing. */
  lemma Quiet(w: World, first: Option<Bytes>, a: Action, p: Pid)
    requires Inv(w, first) && Locking(a)
    requires a == Read(p) || a == Fail(p) || a == Crash(p) || (a.Call? && a.p == p)
    ensures Inv(Next(w, a), first)
  {
    var w' := Next(w, a);
    assert PcOk(w, p, Pc(w, p));
    forall q | q in w'.pcs ensures PcOk(w', q, w'.pcs[q]) {
      if q != p { OthersKeep(w, w', p, q); }
    }
  }

  /** No lost update, no torn file: whatever the interleaving, the crashes and the sweeps, the
      file holds the complete bytes of the last commit, and every commit replaced exactly the
      bytes that its writer had read. */
  lemma {:induction false} NoLostUpdate(w: World, first: Option<Bytes>, actions: seq<Action>)
    requires Inv(w, first) && forall i :: 0 <= i < |actions| ==> Locking(actions[i])
    ensures Inv(Run(w, actions), first)
    ensures Run(w, actions).file == Latest(first, Run(w, actions).log)
    ensures Chained(first, Run(w, actions).log)
    decreases |actions|
  {
    if actions != [] {
      NextKeeps(w, first, actions[0]);
      NoLostUpdate(Next(w, actions[0]), first, actions[1..]);
    }
  }

  /** The bytes of each commit are those of one whole `cas_write` call. */
  lemma CommitsAreWhole(w: World, first: Option<Bytes>, a: Action)
    requires Inv(w, first) && Locking(a)
    ensures var log' := Next(w, a).log;
            || log' == w.log
            || (a.Go? && Pc(w, a.p).Renaming? && log' == w.log + [Entry(a.p, Pc(w, a.p).task.expected, Pc(w, a.p).task.data)])
  {
    if a.Go? { assert PcOk(w, a.p, Pc(w, a.p)); }
  }

  /** Two exclusive writers cannot both succeed while they hold the lock. */
  lemma ExclusiveCommitsOnce(w: World, actions: seq<Action>, i: nat, j: nat)
    requires Inv(w, None) && w.log == [] && forall k :: 0 <= k < |actions| ==> Locking(actions[k])
    requires i < j < |Run(w, actions).log|
    ensures Run(w, actions).log[j].seen != None
  {
    NoLostUpdate(w, None, actions);
    assert Run(w, actions).log[j].seen.Some?;
  }

  /** Without the lock they can: the check for an existing file and the rename are two system
      calls, and the rename replaces whatever is there by then. */
  lemma ExclusiveNeedsTheLock(a: Bytes, b: Bytes)
    requires a != [] && b != []
    ensures var start := World(None, map[], None, map[], []);
            var run := [Read(1), Read(2), Call(1, false, true, a), Call(2, false, true, b), Go(1, 0), Go(2, 0), Go(1, 0), Go(2, 0),
                        Go(1, 11), Go(2, 22), Go(1, |a|), Go(2, |b|), Go(1, 0), Go(2, 0), Go(1, 0), Go(2, 0)];
            && Run(start, run).log == [Entry(1, None, a), Entry(2, None, b)]
            && Run(start, run).file == Some(b)
  {
    var start := World(None, map[], None, map[], []);
    var rest := [Go(1, 11), Go(2, 22), Go(1, |a|), Go(2, |b|), Go(1, 0), Go(2, 0), Go(1, 0), Go(2, 0)];
    var opening := [Read(1), Read(2), Call(1, false, true, a), Call(2, false, true, b), Go(1, 0), Go(2, 0), Go(1, 0), Go(2, 0)];
    Opening(a, b);
    Closing(a, b);
    RunConcat(start, opening, rest);
    assert opening + rest == [Read(1), Read(2), Call(1, false, true, a), Call(2, false, true, b), Go(1, 0), Go(2, 0), Go(1, 0), Go(2, 0),
                              Go(1, 11), Go(2, 22), Go(1, |a|), Go(2, |b|), Go(1, 0), Go(2, 0), Go(1, 0), Go(2, 0)];
  }

  lemma {:induction false} RunConcat(w: World, xs: seq<Action>, ys: seq<Action>)
    ensures Run(w, xs + ys) == Run(Run(w, xs), ys)
    decreases |xs|
  {
    if xs == [] {
      assert xs + ys == ys;
    } else {
      assert (xs + ys)[1..] == xs[1..] + ys;
      RunConcat(Next(w, xs[0]), xs[1..], ys);
    }
  }

  function Pair(file: Option<Bytes>, temps: map<Temp, Bytes>, first: PC, second: PC, log: seq<Entry>): World {
    World(file, temps, None, map[1 := first, 2 := second], log)
  }

  lemma PairMoves(file: Option<Bytes>, temps: map<Temp, Bytes>, first: PC, second: PC, log: seq<Entry>, pc: PC)
    ensures To(Pair(file, temps, first, second, log), 1, pc) == Pair(file, temps, pc, second, log)
    ensures To(Pair(file, temps, first, second, log), 2, pc) == Pair(file, temps, first, pc, log)
    ensures Pc(Pair(file, temps, first, second, log), 1) == first && Pc(Pair(file, temps, first, second, log), 2) == second
  {
  }

  lemma Still(w: World)
    ensures Run(w, []) == w
  {
  }

  lemma TwoSteps(w: World, xs: seq<Action>)
    requires |xs| >= 2
    ensures Run(w, xs) == Run(Next(Next(w, xs[0]), xs[1]), xs[2..])
  {
    assert xs[1..][1..] == xs[2..];
  }

  /** Both writers pass the check for an existing file. */
  lemma Opening(a: Bytes, b: Bytes)
    ensures Run(World(None, map[], None, map[], []),
                [Read(1), Read(2), Call(1, false, true, a), Call(2, false, true, b), Go(1, 0), Go(2, 0), Go(1, 0), Go(2, 0)])
            == Pair(None, map[], Creating(Task(false, None, a), 0), Creating(Task(false, None, b), 0), [])
  {
    hide Run;
    var ta, tb := Task(false, None, a), Task(false, None, b);
    var xs := [Read(1), Read(2), Call(1, false, true, a), Call(2, false, true, b), Go(1, 0), Go(2, 0), Go(1, 0), Go(2, 0)];
    var w0 := World(None, map[], None, map[], []);
    assert Next(Next(w0, xs[0]), xs[1]) == Pair(None, map[], Computing(None), Computing(None), []);
    TwoSteps(w0, xs);
    OpeningCalls(a, b);
    TwoSteps(Pair(None, map[], Computing(None), Computing(None), []), xs[2..]);
    OpeningLocks(ta, tb);
    TwoSteps(Pair(None, map[], WantLock(ta), WantLock(tb), []), xs[4..]);
    TwoSteps(Pair(None, map[], Comparing(ta), Comparing(tb), []), xs[6..]);
    assert xs[6..][2..] == [];
    Still(Pair(None, map[], Creating(ta, 0), Creating(tb, 0), []));
  }

  lemma OpeningCalls(a: Bytes, b: Bytes)
    ensures Next(Next(Pair(None, map[], Computing(None), Computing(None), []), Call(1, false, true, a)), Call(2, false, true, b))
            == Pair(None, map[], WantLock(Task(false, None, a)), WantLock(Task(false, None, b)), [])
  {
    PairMoves(None, map[], Computing(None), Computing(None), [], WantLock(Task(false, None, a)));
    PairMoves(None, map[], WantLock(Task(false, None, a)), Computing(None), [], WantLock(Task(false, None, b)));
  }

  lemma OpeningLocks(ta: Task, tb: Task)
    requires !ta.locked && !tb.locked && ta.expected == None && tb.expected == None
    ensures Next(Next(Pair(None, map[], WantLock(ta), WantLock(tb), []), Go(1, 0)), Go(2, 0)) == Pair(None, map[], Comparing(ta), Comparing(tb), [])
    ensures Next(Next(Pair(None, map[], Comparing(ta), Comparing(tb), []), Go(1, 0)), Go(2, 0)) == Pair(None, map[], Creating(ta, 0), Creating(tb, 0), [])
  {
    PairMoves(None, map[], WantLock(ta), WantLock(tb), [], Comparing(ta));
    PairMoves(None, map[], Comparing(ta), WantLock(tb), [], Comparing(tb));
    PairMoves(None, map[], Comparing(ta), Comparing(tb), [], Creating(ta, 0));
    PairMoves(None, map[], Creating(ta, 0), Comparing(tb), [], Creating(tb, 0));
  }

  /** Both write their temporary files, and both renames succeed. */
  lemma Closing(a: Bytes, b: Bytes)
    requires a != [] && b != []
    ensures var w := Pair(None, map[], Creating(Task(false, None, a), 0), Creating(Task(false, None, b), 0), []);
            var w' := Run(w, [Go(1, 11), Go(2, 22), Go(1, |a|), Go(2, |b|), Go(1, 0), Go(2, 0), Go(1, 0), Go(2, 0)]);
            w'.log == [Entry(1, None, a), Entry(2, None, b)] && w'.file == Some(b)
  {
    hide Run, Next;
    var ta, tb := Task(false, None, a), Task(false, None, b);
    var xs := [Go(1, 11), Go(2, 22), Go(1, |a|), Go(2, |b|), Go(1, 0), Go(2, 0), Go(1, 0), Go(2, 0)];
    ClosingTemps(ta, tb);
    TwoSteps(Pair(None, map[], Creating(ta, 0), Creating(tb, 0), []), xs);
    ClosingWrites(ta, tb);
    TwoSteps(Pair(None, map[11 := [], 22 := []], Writing(ta, 11, 0), Writing(tb, 22, 0), []), xs[2..]);
    ClosingSyncs(ta, tb);
    ClosingRenames(ta, tb);
    TwoSteps(Pair(None, map[11 := a, 22 := b], Writing(ta, 11, |a|), Writing(tb, 22, |b|), []), xs[4..]);
    TwoSteps(Pair(None, map[11 := a, 22 := b], Renaming(ta, 11), Renaming(tb, 22), []), xs[6..]);
    assert xs[6..][2..] == [];
    Still(Next(Next(Pair(None, map[11 := a, 22 := b], Renaming(ta, 11), Renaming(tb, 22), []), xs[6]), xs[7]));
  }

  lemma ClosingTemps(ta: Task, tb: Task)
    ensures Next(Next(Pair(None, map[], Creating(ta, 0), Creating(tb, 0), []), Go(1, 11)), Go(2, 22))
            == Pair(None, map[11 := [], 22 := []], Writing(ta, 11, 0), Writing(tb, 22, 0), [])
  {
    PairMoves(None, map[11 := []], Creating(ta, 0), Creating(tb, 0), [], Writing(ta, 11, 0));
    PairMoves(None, map[11 := [], 22 := []], Writing(ta, 11, 0), Creating(tb, 0), [], Writing(tb, 22, 0));
  }

  lemma ClosingWrites(ta: Task, tb: Task)
    requires ta.data != [] && tb.data != []
    ensures Next(Next(Pair(None, map[11 := [], 22 := []], Writing(ta, 11, 0), Writing(tb, 22, 0), []), Go(1, |ta.data|)), Go(2, |tb.data|))
            == Pair(None, map[11 := ta.data, 22 := tb.data], Writing(ta, 11, |ta.data|), Writing(tb, 22, |tb.data|), [])
  {
    assert ta.data[..|ta.data|] == ta.data && tb.data[..|tb.data|] == tb.data;
    PairMoves(None, map[11 := ta.data, 22 := []], Writing(ta, 11, 0), Writing(tb, 22, 0), [], Writing(ta, 11, |ta.data|));
    PairMoves(None, map[11 := ta.data, 22 := tb.data], Writing(ta, 11, |ta.data|), Writing(tb, 22, 0), [], Writing(tb, 22, |tb.data|));
  }

  lemma ClosingSyncs(ta: Task, tb: Task)
    ensures Next(Next(Pair(None, map[11 := ta.data, 22 := tb.data], Writing(ta, 11, |ta.data|), Writing(tb, 22, |tb.data|), []), Go(1, 0)), Go(2, 0))
            == Pair(None, map[11 := ta.data, 22 := tb.data], Renaming(ta, 11), Renaming(tb, 22), [])
  {
    PairMoves(None, map[11 := ta.data, 22 := tb.data], Writing(ta, 11, |ta.data|), Writing(tb, 22, |tb.data|), [], Renaming(ta, 11));
    PairMoves(None, map[11 := ta.data, 22 := tb.data], Renaming(ta, 11), Writing(tb, 22, |tb.data|), [], Renaming(tb, 22));
  }

  lemma ClosingRenames(ta: Task, tb: Task)
    ensures var w' := Next(Next(Pair(None, map[11 := ta.data, 22 := tb.data], Renaming(ta, 11), Renaming(tb, 22), []), Go(1, 0)), Go(2, 0));
            w'.log == [Entry(1, ta.expected, ta.data), Entry(2, tb.expected, tb.data)] && w'.file == Some(tb.data)
  {
    PairMoves(Some(ta.data), map[22 := tb.data], Renaming(ta, 11), Renaming(tb, 22), [Entry(1, ta.expected, ta.data)], Idle);
  }

  // ---------------------------------------------------------------------
  // Leftovers
  // ---------------------------------------------------------------------

  /** Unlinks every one of the given temporary files. */
  function Sweep(w: World, ts: seq<Temp>): World
    decreases |ts|
  {
    if ts == [] then w else Sweep(Next(w, Unlink(ts[0])), ts[1..])
  }

  /** A sweep at any moment removes leftovers only: the file, the lock, the processes and the
      commits are untouched, and every temporary file that was listed is gone. */
  lemma {:induction false} SweepRemovesOnlyTemps(w: World, ts: seq<Temp>)
    ensures var w' := Sweep(w, ts);
            w' == w.(temps := w'.temps) && w'.temps.Keys == w.temps.Keys - (set t | t in ts)
    decreases |ts|
  {
    if ts != [] {
      SweepRemovesOnlyTemps(Next(w, Unlink(ts[0])), ts[1..]);
      assert forall t :: t in ts <==> t == ts[0] || t in ts[1..];
    }
  }
}
