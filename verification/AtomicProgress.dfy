/** What one writer does that nobody disturbs, from any state (scripts/cwk_atomic_file.py:367-498). */
module AtomicProgress {
  import opened Wrappers
  import opened AtomicFile
  import opened AtomicProtocol

  function Goes(p: Pid, choices: seq<nat>): (r: seq<Action>)
    ensures |r| == |choices| && forall i :: 0 <= i < |r| ==> r[i] == Go(p, choices[i])
  {
    seq(|choices|, i requires 0 <= i < |choices| => Go(p, choices[i]))
  }

  lemma FirstGo(w: World, p: Pid, choices: seq<nat>)
    requires choices != []
    ensures Run(w, Goes(p, choices)) == Run(Advance(w, p, choices[0]), Goes(p, choices[1..]))
  {
    assert Goes(p, choices)[1..] == Goes(p, choices[1..]);
  }

  lemma {:induction false} GoesOn(w: World, p: Pid, a: seq<nat>, b: seq<nat>)
    ensures Run(w, Goes(p, a + b)) == Run(Run(w, Goes(p, a)), Goes(p, b))
    decreases |a|
  {
    if a == [] {
      assert a + b == b;
    } else {
      FirstGo(w, p, a + b);
      FirstGo(w, p, a);
      assert (a + b)[1..] == a[1..] + b;
      GoesOn(Advance(w, p, a[0]), p, a[1..], b);
    }
  }

  function Total(sizes: seq<nat>): nat
    decreases |sizes|
  {
    if sizes == [] then 0 else sizes[0] + Total(sizes[1..])
  }

  /** Names that are taken are passed over, and the eighth ends the call. */
  lemma {:induction false} TakenNames(w: World, p: Pid, task: Task, tried: nat, taken: seq<Temp>)
    requires Pc(w, p) == Creating(task, tried) && tried + |taken| <= 8 && tried < 8
    requires forall i :: 0 <= i < |taken| ==> taken[i] in w.temps
    ensures Run(w, Goes(p, taken)) == if tried + |taken| < 8 then w.(pcs := w.pcs[p := Creating(task, tried + |taken|)]) else End(w, p)
    decreases |taken|
  {
    if taken == [] {
      assert w.pcs[p := Creating(task, tried)] == w.pcs;
    } else {
      FirstGo(w, p, taken);
      if tried + 1 < 8 {
        var w1 := To(w, p, Creating(task, tried + 1));
        TakenNames(w1, p, task, tried + 1, taken[1..]);
        assert End(w1, p).pcs == End(w, p).pcs;
        assert w1.pcs[p := Creating(task, tried + |taken|)] == w.pcs[p := Creating(task, tried + |taken|)];
      } else {
        assert taken[1..] == [];
      }
    }
  }

  /** Short writes, whatever the system takes of each, add up. */
  lemma {:induction false} ShortWrites(w: World, p: Pid, task: Task, t: Temp, done: nat, sizes: seq<nat>)
    requires Pc(w, p) == Writing(task, t, done) && done + Total(sizes) == |task.data|
    requires t in w.temps && w.temps[t] == task.data[..done] && forall i :: 0 <= i < |sizes| ==> sizes[i] > 0
    ensures Run(w, Goes(p, sizes)) == w.(temps := w.temps[t := task.data], pcs := w.pcs[p := Writing(task, t, |task.data|)])
    decreases |sizes|
  {
    if sizes == [] {
      assert task.data[..done] == task.data;
      assert w.temps[t := task.data] == w.temps && w.pcs[p := Writing(task, t, |task.data|)] == w.pcs;
    } else {
      FirstGo(w, p, sizes);
      var more := done + sizes[0];
      var w1 := w.(temps := w.temps[t := task.data[..more]], pcs := w.pcs[p := Writing(task, t, more)]);
      assert Advance(w, p, sizes[0]) == w1;
      ShortWrites(w1, p, task, t, more, sizes[1..]);
      assert w1.temps[t := task.data] == w.temps[t := task.data];
      assert w1.pcs[p := Writing(task, t, |task.data|)] == w.pcs[p := Writing(task, t, |task.data|)];
    }
  }

  /** A free lock is taken where the writer asks for it, and the file is as it was read. */
  lemma Compared(w: World, p: Pid, task: Task)
    requires Pc(w, p) == WantLock(task) && w.lock == None
    ensures var held := if task.locked then Some(p) else None;
            Run(w, Goes(p, [0, 0])) == if w.file == task.expected then w.(lock := held, pcs := w.pcs[p := Creating(task, 0)]) else w.(pcs := w.pcs[p := Idle])
  {
    var w1 := Advance(w, p, 0);
    FirstGo(w, p, [0, 0]);
    assert [0, 0][1..] == [0];
    FirstGo(w1, p, [0]);
    assert Goes(p, [0][1..]) == [];
    var w2 := Advance(w1, p, 0);
    assert w.file == task.expected ==> w2.pcs == w.pcs[p := Creating(task, 0)];
    assert w.file != task.expected ==> w2.pcs == w.pcs[p := Idle];
  }

  lemma Written(w: World, p: Pid, task: Task, t: Temp, sizes: seq<nat>)
    requires exists tried: nat :: Pc(w, p) == Creating(task, tried)
    requires t !in w.temps && Total(sizes) == |task.data| && forall i :: 0 <= i < |sizes| ==> sizes[i] > 0
    requires w.lock == None || w.lock == Some(p)
    ensures Run(w, Goes(p, [t] + sizes + [0, 0]))
              == World(Some(task.data), w.temps, None, w.pcs[p := Idle], w.log + [Entry(p, task.expected, task.data)])
  {
    hide Run, Goes, WriteStep, RenameStep;
    var w1 := w.(temps := w.temps[t := []], pcs := w.pcs[p := Writing(task, t, 0)]);
    FirstGo(w, p, [t] + sizes + [0, 0]);
    assert ([t] + sizes + [0, 0])[1..] == sizes + [0, 0];
    ShortWrites(w1, p, task, t, 0, sizes);
    GoesOn(w1, p, sizes, [0, 0]);
    var w2 := w.(temps := w.temps[t := task.data], pcs := w.pcs[p := Writing(task, t, |task.data|)]);
    assert w1.temps[t := task.data] == w2.temps && w1.pcs[p := Writing(task, t, |task.data|)] == w2.pcs;
    Renamed(w2, p, task, t);
    assert w2.temps - {t} == w.temps && w2.pcs[p := Idle] == w.pcs[p := Idle];
  }

  lemma Renamed(w: World, p: Pid, task: Task, t: Temp)
    requires Pc(w, p) == Writing(task, t, |task.data|) && t in w.temps && (w.lock == None || w.lock == Some(p))
    ensures Run(w, Goes(p, [0, 0]))
              == World(Some(w.temps[t]), w.temps - {t}, None, w.pcs[p := Idle], w.log + [Entry(p, task.expected, w.temps[t])])
  {
    var w1 := Advance(w, p, 0);
    FirstGo(w, p, [0, 0]);
    assert [0, 0][1..] == [0];
    FirstGo(w1, p, [0]);
    assert Goes(p, [0][1..]) == [];
    assert Advance(w1, p, 0).pcs == w.pcs[p := Idle];
  }

  /** A read and the call that is made of it. */
  function Asked(w: World, p: Pid, locked: bool, exclusive: bool, data: Bytes): World { Run(w, [Read(p), Call(p, locked, exclusive, data)]) }

  lemma AskedFor(w: World, p: Pid, locked: bool, exclusive: bool, data: Bytes)
    requires Pc(w, p).Idle?
    ensures Asked(w, p, locked, exclusive, data)
              == w.(pcs := w.pcs[p := WantLock(Task(locked, if exclusive then None else w.file, data))])
  {
    var w1 := Next(w, Read(p));
    var call := Call(p, locked, exclusive, data);
    assert [Read(p), call][1..] == [call] && [call][1..] == [];
    assert Run(w1, [call]) == Run(Next(w1, call), []);
    assert Next(w1, call).pcs == w.pcs[p := WantLock(Task(locked, if exclusive then None else w.file, data))];
  }

  /** Left alone with the lock free, a writer always succeeds, whatever the system takes of each
      write and although up to seven names are taken: the file holds its bytes, no temporary file
      and no lock is left, and the log has one more commit.  An exclusive writer does so exactly
      where no file is, and otherwise changes nothing. */
  lemma UndisturbedWrite(w: World, p: Pid, locked: bool, exclusive: bool, data: Bytes, taken: seq<Temp>, t: Temp, sizes: seq<nat>)
    requires Pc(w, p).Idle? && w.lock == None
    requires |taken| < 8 && (forall i :: 0 <= i < |taken| ==> taken[i] in w.temps) && t !in w.temps
    requires Total(sizes) == |data| && forall i :: 0 <= i < |sizes| ==> sizes[i] > 0
    ensures var w1 := Run(Asked(w, p, locked, exclusive, data), Goes(p, [0, 0]));
            if exclusive && w.file.Some? then w1 == w.(pcs := w.pcs[p := Idle])
            else
              var seen := if exclusive then None else w.file;
              Run(Run(w1, Goes(p, taken)), Goes(p, [t] + sizes + [0, 0]))
                == World(Some(data), w.temps, None, w.pcs[p := Idle], w.log + [Entry(p, seen, data)])
  {
    hide Run, Advance;
    var task := Task(locked, if exclusive then None else w.file, data);
    var w0 := Asked(w, p, locked, exclusive, data);
    AskedFor(w, p, locked, exclusive, data);
    Compared(w0, p, task);
    if !(exclusive && w.file.Some?) {
      var w1 := w0.(lock := if locked then Some(p) else None, pcs := w0.pcs[p := Creating(task, 0)]);
      TakenNames(w1, p, task, 0, taken);
      var w2 := w1.(pcs := w1.pcs[p := Creating(task, |taken|)]);
      Written(w2, p, task, t, sizes);
      assert w2.pcs[p := Idle] == w.pcs[p := Idle];
    } else {
      assert w0.pcs[p := Idle] == w.pcs[p := Idle];
    }
  }

  /** Eight taken names end a call, and nothing is left of it. */
  lemma NoNameLeft(w: World, p: Pid, locked: bool, data: Bytes, taken: seq<Temp>)
    requires Pc(w, p).Idle? && w.lock == None && |taken| == 8 && forall i :: 0 <= i < |taken| ==> taken[i] in w.temps
    ensures Run(Run(Asked(w, p, locked, false, data), Goes(p, [0, 0])), Goes(p, taken)) == w.(pcs := w.pcs[p := Idle])
  {
    hide Run, Advance;
    var task := Task(locked, w.file, data);
    var w0 := Asked(w, p, locked, false, data);
    AskedFor(w, p, locked, false, data);
    Compared(w0, p, task);
    var w1 := w0.(lock := if locked then Some(p) else None, pcs := w0.pcs[p := Creating(task, 0)]);
    TakenNames(w1, p, task, 0, taken);
    assert w1.pcs[p := Idle] == w.pcs[p := Idle];
  }

  /** A call that fails takes its temporary file with it, one that dies leaves it; either lets go of
      the lock and leaves the file alone. */
  lemma WhatAnEndLeaves(w: World, p: Pid)
    ensures var failed, died := Next(w, Fail(p)), Next(w, Crash(p));
            && died == w.(lock := if w.lock == Some(p) then None else w.lock, pcs := w.pcs[p := Idle])
            && failed == died.(temps := match Pc(w, p)
                                        case Writing(_, t, _) => w.temps - {t}
                                        case Renaming(_, t) => w.temps - {t}
                                        case _ => w.temps)
  {
  }
}
