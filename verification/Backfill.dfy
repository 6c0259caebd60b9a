/** The rotation of historical backfill (scripts/cwk_collect_live.py:261-267 and 377-414):
    one page of one lane per run, with a cursor for each lane. */
module Backfill {
  import opened Wrappers

  const LANES: nat := 5

  datatype Lane = Lane(nextPage: nat, exhausted: bool, failures: nat)

  datatype Rotation = Rotation(next: nat, lanes: seq<Lane>) {
    predicate Valid() { |lanes| == LANES && forall l :: 0 <= l < LANES ==> lanes[l].nextPage >= 1 }
  }

  /** What one page request answered: how many rows, out of how many asked for. */
  datatype Answer = Failed | Page(rows: nat)

  const FRESH: Rotation := Rotation(0, [Lane(1, false, 0), Lane(1, false, 0), Lane(1, false, 0), Lane(1, false, 0), Lane(1, false, 0)])

  /** The lane `offset` places after the cursor, in cyclic order. */
  function At(start: nat, offset: nat): (l: nat)
    requires start < LANES && offset < LANES
    ensures l < LANES && l == (start + offset) % LANES
  {
    if start + offset < LANES then start + offset else start + offset - LANES
  }

  /** How far the cursor is from a lane. */
  function Distance(start: nat, l: nat): (d: nat)
    requires start < LANES && l < LANES
    ensures d < LANES && At(start, d) == l
  {
    if l >= start then l - start else l + LANES - start
  }

  lemma OnlyOneOffset(start: nat, offset: nat)
    requires start < LANES && offset < LANES
    ensures Distance(start, At(start, offset)) == offset
  {
  }

  function Start(b: Rotation): (s: nat)
    ensures s < LANES
  {
    b.next % LANES
  }

  /** The first lane at or after the cursor, in cyclic order, that has pages left. */
  function FirstOpen(b: Rotation, offset: nat): (lane: Option<nat>)
    requires b.Valid() && offset <= LANES
    ensures lane.Some? ==> lane.value < LANES && !b.lanes[lane.value].exhausted
    decreases LANES - offset
  {
    if offset == LANES then None
    else if !b.lanes[At(Start(b), offset)].exhausted then Some(At(Start(b), offset))
    else FirstOpen(b, offset + 1)
  }

  lemma {:induction false} FirstOpenIsNearest(b: Rotation, l: nat, offset: nat)
    requires b.Valid() && l < LANES && !b.lanes[l].exhausted && offset <= Distance(Start(b), l)
    ensures FirstOpen(b, offset).Some?
    ensures Distance(Start(b), FirstOpen(b, offset).value) <= Distance(Start(b), l)
    decreases LANES - offset
  {
    if b.lanes[At(Start(b), offset)].exhausted {
      assert offset != Distance(Start(b), l);
      FirstOpenIsNearest(b, l, offset + 1);
    } else {
      OnlyOneOffset(Start(b), offset);
    }
  }

  /** How many steps of the cursor away a lane is. */
  function FromCursor(b: Rotation, l: nat): nat { (l + 5 - b.next % 5) % 5 }

  lemma NearestOpen(b: Rotation)
    requires b.Valid()
    ensures FirstOpen(b, 0).Some? ==> forall l :: 0 <= l < 5 && !b.lanes[l].exhausted ==> FromCursor(b, FirstOpen(b, 0).value) <= FromCursor(b, l)
  {
    hide FirstOpen;
    forall l | 0 <= l < 5 && !b.lanes[l].exhausted ensures FirstOpen(b, 0).Some? && FromCursor(b, FirstOpen(b, 0).value) <= FromCursor(b, l) {
      FirstOpenIsNearest(b, l, 0);
    }
  }

  method PickLane(b: Rotation) returns (lane: Option<nat>)
    requires b.Valid()
    ensures lane == FirstOpen(b, 0)
    ensures lane.None? ==> forall l :: 0 <= l < LANES ==> b.lanes[l].exhausted
    ensures lane.Some? ==> lane.value < 5 && !b.lanes[lane.value].exhausted
    ensures lane.Some? ==> forall l :: 0 <= l < 5 && !b.lanes[l].exhausted ==> FromCursor(b, lane.value) <= FromCursor(b, l)
  {
    var start := b.next % LANES;
    var offset := 0;
    while offset < LANES
      invariant 0 <= offset <= LANES
      invariant FirstOpen(b, 0) == FirstOpen(b, offset)
    {
      var candidate := (start + offset) % LANES;
      if !b.lanes[candidate].exhausted {
        NearestOpen(b);
        return Some(candidate);
      }
      offset := offset + 1;
    }
    forall l | 0 <= l < LANES ensures b.lanes[l].exhausted {
      if !b.lanes[l].exhausted { FirstOpenIsNearest(b, l, 0); }
    }
    return None;
  }

  function AfterAnswer(lane: Lane, answer: Answer, pageSize: nat): Lane {
    match answer
    case Failed => lane.(failures := lane.failures + 1)
    case Page(rows) =>
      if rows < pageSize then lane.(exhausted := true, failures := 0)
      else lane.(nextPage := lane.nextPage + 1, failures := 0)
  }

  /** One backfill run: at most one page of one lane, then the cursor moves past that lane. */
  function Visit(b: Rotation, answer: Answer, pageSize: nat): (r: Rotation)
    requires b.Valid()
    ensures r.Valid()
  {
    match FirstOpen(b, 0)
    case None => b
    case Some(l) => Rotation((l + 1) % LANES, b.lanes[l := AfterAnswer(b.lanes[l], answer, pageSize)])
  }

  /** One run touches one lane, the first open one from the cursor, and leaves the cursor behind it:
      a failed page stays due and counts as a failure; a page that is not full ends the lane; a full
      one moves the lane to its next page; either success forgets the failures. */
  lemma WhatAVisitDoes(b: Rotation, answer: Answer, pageSize: nat, l: nat)
    requires b.Valid() && l < 5
    ensures var r, lane := Visit(b, answer, pageSize), FirstOpen(b, 0);
            if lane.None? then r == b
            else
              && r.next == (lane.value + 1) % 5
              && (l != lane.value ==> r.lanes[l] == b.lanes[l])
              && r.lanes[lane.value] ==
                   (match answer
                    case Failed => Lane(b.lanes[lane.value].nextPage, false, b.lanes[lane.value].failures + 1)
                    case Page(rows) => if rows >= pageSize then Lane(b.lanes[lane.value].nextPage + 1, false, 0) else Lane(b.lanes[lane.value].nextPage, true, 0))
  {
  }

  function VisitAll(b: Rotation, answers: seq<Answer>, pageSize: nat): (r: Rotation)
    requires b.Valid()
    ensures r.Valid()
    decreases |answers|
  {
    if answers == [] then b else VisitAll(Visit(b, answers[0], pageSize), answers[1..], pageSize)
  }

  /** The lane that run number `i` visits. */
  function VisitedAt(b: Rotation, answers: seq<Answer>, pageSize: nat, i: nat): Option<nat>
    requires b.Valid() && i < |answers|
    decreases i
  {
    if i == 0 then FirstOpen(b, 0) else VisitedAt(Visit(b, answers[0], pageSize), answers[1..], pageSize, i - 1)
  }

  // ---------------------------------------------------------------------
  // Fairness
  // ---------------------------------------------------------------------

  lemma VisitApproaches(b: Rotation, l: nat, answer: Answer, pageSize: nat)
    requires b.Valid() && l < LANES && !b.lanes[l].exhausted && FirstOpen(b, 0) != Some(l)
    ensures var r := Visit(b, answer, pageSize);
            !r.lanes[l].exhausted && r.lanes[l] == b.lanes[l] && Distance(Start(r), l) < Distance(Start(b), l)
  {
    FirstOpenIsNearest(b, l, 0);
    PassingApproaches(Start(b), FirstOpen(b, 0).value, l);
  }

  /** A cursor that moves past a nearer lane comes closer. */
  lemma PassingApproaches(start: nat, passed: nat, l: nat)
    requires start < LANES && passed < LANES && l < LANES && passed != l && Distance(start, passed) <= Distance(start, l)
    ensures Distance((passed + 1) % LANES % LANES, l) < Distance(start, l)
  {
  }

  /** A lane with pages left is visited within five backfill runs, whatever the answers. */
  lemma {:induction false} Fair(b: Rotation, l: nat, answers: seq<Answer>, pageSize: nat)
    requires b.Valid() && l < LANES && !b.lanes[l].exhausted && |answers| > Distance(Start(b), l)
    ensures Distance(Start(b), l) < LANES
    ensures exists i :: 0 <= i <= Distance(Start(b), l) && VisitedAt(b, answers, pageSize, i) == Some(l)
    decreases |answers|
  {
    if FirstOpen(b, 0) == Some(l) {
      assert VisitedAt(b, answers, pageSize, 0) == Some(l);
    } else {
      VisitApproaches(b, l, answers[0], pageSize);
      var r := Visit(b, answers[0], pageSize);
      Fair(r, l, answers[1..], pageSize);
      var i :| 0 <= i <= Distance(Start(r), l) && VisitedAt(r, answers[1..], pageSize, i) == Some(l);
      assert VisitedAt(b, answers, pageSize, i + 1) == Some(l);
    }
  }

  // ---------------------------------------------------------------------
  // No gaps
  // ---------------------------------------------------------------------

  /** The pages of lane `l` that were fetched successfully, in the order of the runs. */
  function Fetched(b: Rotation, answers: seq<Answer>, pageSize: nat, l: nat): seq<nat>
    requires b.Valid() && l < LANES
    decreases |answers|
  {
    if answers == [] then []
    else (if FirstOpen(b, 0) == Some(l) && answers[0].Page? then [b.lanes[l].nextPage] else [])
         + Fetched(Visit(b, answers[0], pageSize), answers[1..], pageSize, l)
  }

  function Range(from: nat, to: nat): seq<nat>
    requires from <= to
  {
    seq(to - from, i requires 0 <= i < to - from => from + i)
  }

  /** Pages that the cursor of a lane has passed: one past the last page asked for when the
      lane is still open, the last page itself when it is exhausted. */
  function Passed(lane: Lane): nat { if lane.exhausted then lane.nextPage + 1 else lane.nextPage }

  /** One run passes at most the next page of a lane, and exactly when it fetched it. */
  lemma OneRun(b: Rotation, answer: Answer, pageSize: nat, l: nat)
    requires b.Valid() && l < LANES
    ensures var r := Visit(b, answer, pageSize);
            if FirstOpen(b, 0) == Some(l) && answer.Page?
            then !b.lanes[l].exhausted && Passed(r.lanes[l]) == Passed(b.lanes[l]) + 1
            else Passed(r.lanes[l]) == Passed(b.lanes[l])
  {
  }

  lemma PassedIsNext(lane: Lane)
    ensures !lane.exhausted ==> Passed(lane) == lane.nextPage
  {
  }

  lemma EmptyRange(from: nat)
    ensures Range(from, from) == []
  {
  }

  lemma RangeSplits(from: nat, to: nat)
    requires from < to
    ensures Range(from, to) == [from] + Range(from + 1, to)
  {
  }

  /** From any cursor on, the fetched pages are consecutive: none is skipped and none is
      fetched twice, through failures and retries. */
  lemma {:induction false} NoGaps(b: Rotation, answers: seq<Answer>, pageSize: nat, l: nat)
    requires b.Valid() && l < LANES
    ensures var from, to := Passed(b.lanes[l]), Passed(VisitAll(b, answers, pageSize).lanes[l]);
            from <= to && Fetched(b, answers, pageSize, l) == Range(from, to)
    decreases |answers|
  {
    hide Visit, FirstOpen, Range, Passed;
    if answers == [] {
      EmptyRange(Passed(b.lanes[l]));
    } else {
      var r := Visit(b, answers[0], pageSize);
      OneRun(b, answers[0], pageSize, l);
      NoGaps(r, answers[1..], pageSize, l);
      PassedIsNext(b.lanes[l]);
      if Passed(r.lanes[l]) > Passed(b.lanes[l]) { RangeSplits(Passed(b.lanes[l]), Passed(VisitAll(b, answers, pageSize).lanes[l])); }
    }
  }

  /** A lane's fetched pages are exactly 1 up to its cursor: excluded while it is open,
      included once it is exhausted. */
  lemma PagesFromTheStart(answers: seq<Answer>, pageSize: nat, l: nat)
    requires l < LANES
    ensures var lane := VisitAll(FRESH, answers, pageSize).lanes[l];
            lane.nextPage >= 1
            && Fetched(FRESH, answers, pageSize, l) == Range(1, if lane.exhausted then lane.nextPage + 1 else lane.nextPage)
  {
    NoGaps(FRESH, answers, pageSize, l);
  }

  // ---------------------------------------------------------------------
  // It ends
  // ---------------------------------------------------------------------

  /** The answer of a lane that holds `size` rows. */
  function PageOf(size: nat, page: nat, pageSize: nat): Answer
    requires page >= 1 && pageSize > 0
  {
    Page(if size < (page - 1) * pageSize then 0 else if size - (page - 1) * pageSize < pageSize then size - (page - 1) * pageSize else pageSize)
  }

  /** The last page of a lane is the first that is not full. */
  function LastPage(size: nat, pageSize: nat): nat
    requires pageSize > 0
  {
    size / pageSize + 1
  }

  lemma FullPages(size: nat, page: nat, pageSize: nat)
    requires page >= 1 && pageSize > 0
    ensures PageOf(size, page, pageSize).rows < pageSize <==> page >= LastPage(size, pageSize)
  {
    var q, r := size / pageSize, size % pageSize;
    assert size == q * pageSize + r;
    if page - 1 <= q - 1 {
      assert (page - 1) * pageSize <= (q - 1) * pageSize;
    } else {
      assert (page - 1) * pageSize >= q * pageSize;
    }
  }

  function PagesLeft(lane: Lane, size: nat, pageSize: nat): nat
    requires pageSize > 0
  {
    if lane.exhausted || lane.nextPage > LastPage(size, pageSize) then 0 else LastPage(size, pageSize) + 1 - lane.nextPage
  }

  function TotalLeft(b: Rotation, sizes: seq<nat>, pageSize: nat): nat
    requires b.Valid() && |sizes| == LANES && pageSize > 0
  {
    PagesLeft(b.lanes[0], sizes[0], pageSize) + PagesLeft(b.lanes[1], sizes[1], pageSize) + PagesLeft(b.lanes[2], sizes[2], pageSize)
    + PagesLeft(b.lanes[3], sizes[3], pageSize) + PagesLeft(b.lanes[4], sizes[4], pageSize)
  }

  predicate Within(b: Rotation, sizes: seq<nat>, pageSize: nat)
    requires b.Valid() && |sizes| == LANES && pageSize > 0
  {
    forall l :: 0 <= l < LANES && !b.lanes[l].exhausted ==> b.lanes[l].nextPage <= LastPage(sizes[l], pageSize)
  }

  /** Runs against lanes that hold `sizes` rows; `up[i]` says whether request `i` succeeds. */
  function Drain(b: Rotation, sizes: seq<nat>, up: seq<bool>, pageSize: nat): (r: Rotation)
    requires b.Valid() && |sizes| == LANES && pageSize > 0
    ensures r.Valid()
    decreases |up|
  {
    if up == [] then b
    else Drain(Visit(b, AnswerOf(b, sizes, up[0], pageSize), pageSize), sizes, up[1..], pageSize)
  }

  function AnswerOf(b: Rotation, sizes: seq<nat>, ok: bool, pageSize: nat): Answer
    requires b.Valid() && |sizes| == LANES && pageSize > 0
  {
    match FirstOpen(b, 0)
    case None => Failed
    case Some(l) => if ok && l < LANES then PageOf(sizes[l], b.lanes[l].nextPage, pageSize) else Failed
  }

  function Successes(up: seq<bool>): nat
    decreases |up|
  {
    if up == [] then 0 else (if up[0] then 1 else 0) + Successes(up[1..])
  }

  /** Each success takes exactly one page off what is left, and a failure takes nothing. */
  lemma OneVisit(b: Rotation, sizes: seq<nat>, ok: bool, pageSize: nat)
    requires b.Valid() && |sizes| == LANES && pageSize > 0 && Within(b, sizes, pageSize)
    ensures var r := Visit(b, AnswerOf(b, sizes, ok, pageSize), pageSize);
            && Within(r, sizes, pageSize)
            && TotalLeft(r, sizes, pageSize) == (if ok && TotalLeft(b, sizes, pageSize) > 0 then TotalLeft(b, sizes, pageSize) - 1 else TotalLeft(b, sizes, pageSize))
  {
    match FirstOpen(b, 0) {
      case None => NoneLeft(b, sizes, pageSize);
      case Some(l) =>
        FullPages(sizes[l], b.lanes[l].nextPage, pageSize);
        var r := Visit(b, AnswerOf(b, sizes, ok, pageSize), pageSize);
        assert forall k :: 0 <= k < LANES && k != l ==> r.lanes[k] == b.lanes[k];
    }
  }

  lemma NoneLeft(b: Rotation, sizes: seq<nat>, pageSize: nat)
    requires b.Valid() && |sizes| == LANES && pageSize > 0 && Within(b, sizes, pageSize)
    ensures TotalLeft(b, sizes, pageSize) == 0 <==> forall l :: 0 <= l < LANES ==> b.lanes[l].exhausted
    ensures FirstOpen(b, 0).None? ==> TotalLeft(b, sizes, pageSize) == 0
  {
    if FirstOpen(b, 0).None? {
      forall l | 0 <= l < LANES ensures b.lanes[l].exhausted {
        if !b.lanes[l].exhausted { FirstOpenIsNearest(b, l, 0); }
      }
    }
  }

  /** Finite lanes end: all of them are exhausted exactly when as many requests succeeded as
      there were pages. */
  lemma {:induction false} AllLanesEnd(b: Rotation, sizes: seq<nat>, up: seq<bool>, pageSize: nat)
    requires b.Valid() && |sizes| == LANES && pageSize > 0 && Within(b, sizes, pageSize)
    ensures Within(Drain(b, sizes, up, pageSize), sizes, pageSize)
    ensures (forall l :: 0 <= l < LANES ==> Drain(b, sizes, up, pageSize).lanes[l].exhausted)
            <==> Successes(up) >= TotalLeft(b, sizes, pageSize)
    decreases |up|
  {
    hide Visit, AnswerOf, TotalLeft, Within, FirstOpen;
    if up == [] {
      NoneLeft(b, sizes, pageSize);
    } else {
      OneVisit(b, sizes, up[0], pageSize);
      AllLanesEnd(Visit(b, AnswerOf(b, sizes, up[0], pageSize), pageSize), sizes, up[1..], pageSize);
    }
  }
}
