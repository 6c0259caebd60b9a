/** One collection run (scripts/cwk_collection_state.py:205-284 and the selection and update
    parts of scripts/cwk_collect_live.py:367-462): caps, priorities, and what is conserved. */
module CollectionRun {
  import opened Wrappers
  import opened Collection

  // ---------------------------------------------------------------------
  // Filtering and sorting
  // ---------------------------------------------------------------------

  function Filter(es: seq<Entry>, p: Entry -> bool): (r: seq<Entry>)
    ensures forall e :: e in r <==> e in es && p(e)
    decreases |es|
  {
    if es == [] then []
    else
      var e := es[|es| - 1];
      assert es == es[..|es| - 1] + [e];
      Filter(es[..|es| - 1], p) + (if p(e) then [e] else [])
  }

  datatype Key = Key(major: int, minor: int, id: int)

  predicate KeyLe(a: Key, b: Key) {
    a.major < b.major || (a.major == b.major && (a.minor < b.minor || (a.minor == b.minor && a.id <= b.id)))
  }

  /** Replies and workflow changes first, then updates, then new reports. */
  function FreshKey(e: Entry): Key { Key(if e.row.replied then 0 else 1, if e.change == Updated then 0 else 1, e.id) }

  /** Never processed first, then the least recently processed. */
  function ContinuationKey(s: State, e: Entry): Key {
    if e.id in s.records then Key(1, s.records[e.id].processedAt, e.id) else Key(0, 0, e.id)
  }

  function InsertLast(r: seq<Entry>, e: Entry, key: Entry -> Key): seq<Entry>
    decreases |r|
  {
    if r == [] || KeyLe(key(r[|r| - 1]), key(e)) then r + [e]
    else InsertLast(r[..|r| - 1], e, key) + [r[|r| - 1]]
  }

  /** The stable sort of the host language. */
  function SortBy(es: seq<Entry>, key: Entry -> Key): seq<Entry>
    decreases |es|
  {
    if es == [] then [] else InsertLast(SortBy(es[..|es| - 1], key), es[|es| - 1], key)
  }

  ghost predicate Sorted(es: seq<Entry>, key: Entry -> Key) { forall i, j :: 0 <= i < j < |es| ==> KeyLe(key(es[i]), key(es[j])) }

  lemma {:induction false} InsertSorts(r: seq<Entry>, e: Entry, key: Entry -> Key)
    requires Sorted(r, key)
    ensures Sorted(InsertLast(r, e, key), key) && multiset(InsertLast(r, e, key)) == multiset(r) + multiset{e}
    decreases |r|
  {
    if r == [] || KeyLe(key(r[|r| - 1]), key(e)) {
    } else {
      var last, rest := r[|r| - 1], r[..|r| - 1];
      assert r == rest + [last];
      InsertSorts(rest, e, key);
      var r' := InsertLast(rest, e, key);
      forall i | 0 <= i < |r'| ensures KeyLe(key(r'[i]), key(last)) {
        assert r'[i] in multiset(r');
        if r'[i] != e {
          assert r'[i] in multiset(rest);
          assert r'[i] in rest;
        }
      }
    }
  }

  lemma {:induction false} SortSorts(es: seq<Entry>, key: Entry -> Key)
    ensures Sorted(SortBy(es, key), key) && multiset(SortBy(es, key)) == multiset(es)
    decreases |es|
  {
    if es != [] {
      assert es == es[..|es| - 1] + [es[|es| - 1]];
      SortSorts(es[..|es| - 1], key);
      InsertSorts(SortBy(es[..|es| - 1], key), es[|es| - 1], key);
    }
  }

  lemma SortKeepsMembers(es: seq<Entry>, key: Entry -> Key)
    ensures forall e :: e in SortBy(es, key) <==> e in es
    ensures |SortBy(es, key)| == |es|
  {
    SortSorts(es, key);
    assert forall e :: e in SortBy(es, key) <==> e in multiset(SortBy(es, key));
    assert |multiset(SortBy(es, key))| == |multiset(es)|;
  }

  function Take(es: seq<Entry>, n: nat): seq<Entry> { if n < |es| then es[..n] else es }

  function Drop(es: seq<Entry>, n: nat): seq<Entry> { if n < |es| then es[n..] else [] }

  // ---------------------------------------------------------------------
  // Choosing
  // ---------------------------------------------------------------------

  datatype Caps = Caps(detail: nat, continuation: nat, backfill: nat)

  predicate IsContinuation(e: Entry) { e.change == Continuation }

  function ByContinuation(s: State): Entry -> Key { (e: Entry) => ContinuationKey(s, e) }

  function FreshOutside(ids: set<Id>): Entry -> bool { (e: Entry) => e.id !in ids && IsFresh(e) }

  function Fresh(classified: seq<Entry>): seq<Entry> { SortBy(Filter(classified, IsFresh), FreshKey) }

  function Continuations(s: State, classified: seq<Entry>, cap: nat): seq<Entry> {
    Take(SortBy(Filter(classified, IsContinuation), ByContinuation(s)), cap)
  }

  function SelectedDaily(s: State, classified: seq<Entry>, caps: Caps): seq<Entry> {
    Take(Fresh(classified) + Continuations(s, classified, caps.continuation), caps.detail)
  }

  function Overflow(classified: seq<Entry>, selected: seq<Entry>): seq<Entry> {
    Dedupe(Filter(classified, FreshOutside(Ids(selected))))
  }

  function Tally(s: State, cs: seq<Candidate>, queued: set<Id>, change: Change): nat
    decreases |cs|
  {
    if cs == [] then 0
    else
      var c := cs[|cs| - 1];
      Tally(s, cs[..|cs| - 1], queued, change) + (if c.id !in queued && Offered(s, c).change == change then 1 else 0)
  }

  method DailyQueue(pending: seq<Entry>) returns (queued: seq<Entry>)
    ensures queued == QueuedDaily(pending)
  {
    queued := [];
    var n := 0;
    while n < |pending|
      invariant 0 <= n <= |pending| && queued == QueuedDaily(pending[..n])
    {
      assert pending[..n + 1][..n] == pending[..n];
      if pending[n].origin == Daily { queued := queued + [pending[n]]; }
      n := n + 1;
    }
    assert pending[..n] == pending;
  }

  method Requeue(s: State, cs: seq<Candidate>, queued: seq<Entry>) returns (classified: seq<Entry>)
    ensures classified == RequeuedAll(s, cs, queued)
  {
    classified := [];
    var n := 0;
    while n < |queued|
      invariant 0 <= n <= |queued| && classified == RequeuedAll(s, cs, queued[..n])
    {
      assert queued[..n + 1][..n] == queued[..n];
      classified := classified + [Requeued(s, cs, queued[n])];
      n := n + 1;
    }
    assert queued[..n] == queued;
  }

  method Offer(s: State, cs: seq<Candidate>, queued: set<Id>) returns (offered: seq<Entry>, counts: map<Change, nat>)
    ensures offered == OfferedAll(s, cs, queued)
    ensures counts.Keys == {New, Updated, Continuation, Unchanged}
    ensures forall c :: c in counts ==> counts[c] == Tally(s, cs, queued, c)
  {
    offered := [];
    counts := map[New := 0, Updated := 0, Continuation := 0, Unchanged := 0];
    var n := 0;
    while n < |cs|
      invariant 0 <= n <= |cs| && offered == OfferedAll(s, cs[..n], queued)
      invariant counts.Keys == {New, Updated, Continuation, Unchanged}
      invariant forall c :: c in counts ==> counts[c] == Tally(s, cs[..n], queued, c)
    {
      assert cs[..n + 1][..n] == cs[..n];
      if cs[n].id !in queued {
        var e := Offered(s, cs[n]);
        counts := counts[e.change := counts[e.change] + 1];
        if e.change != Unchanged { offered := offered + [e]; }
      }
      n := n + 1;
    }
    assert cs[..n] == cs;
  }

  method ChooseIncremental(s: State, cs: seq<Candidate>, caps: Caps)
    returns (selected: seq<Entry>, overflow: seq<Entry>, counts: map<Change, nat>)
    ensures selected == SelectedDaily(s, Classified(s, cs), caps)
    ensures overflow == Overflow(Classified(s, cs), selected)
    ensures counts.Keys == {New, Updated, Continuation, Unchanged}
    ensures forall c :: c in counts ==> counts[c] == Tally(s, cs, Ids(QueuedDaily(s.pending)), c)
  {
    var queued := DailyQueue(s.pending);
    var requeued := Requeue(s, cs, queued);
    var offered;
    offered, counts := Offer(s, cs, Ids(queued));
    var classified := requeued + offered;
    selected := SelectedDaily(s, classified, caps);
    overflow := DedupePending(Filter(classified, FreshOutside(Ids(selected))));
  }

  /** Every report at the source that was not queued is counted under exactly one change. */
  lemma {:induction false} CountsAddUp(s: State, cs: seq<Candidate>, queued: set<Id>)
    ensures Tally(s, cs, queued, New) + Tally(s, cs, queued, Updated) + Tally(s, cs, queued, Continuation) + Tally(s, cs, queued, Unchanged)
            == |Unqueued(cs, queued)|
    ensures Tally(s, cs, queued, HistoricalBackfill) == 0
    decreases |cs|
  {
    if cs != [] { CountsAddUp(s, cs[..|cs| - 1], queued); }
  }

  function Unqueued(cs: seq<Candidate>, queued: set<Id>): seq<Candidate>
    decreases |cs|
  {
    if cs == [] then []
    else Unqueued(cs[..|cs| - 1], queued) + (if cs[|cs| - 1].id !in queued then [cs[|cs| - 1]] else [])
  }

  /** Caps hold. */
  lemma CapsHold(s: State, classified: seq<Entry>, caps: Caps)
    ensures |SelectedDaily(s, classified, caps)| <= caps.detail
    ensures |Filter(SelectedDaily(s, classified, caps), IsContinuation)| <= caps.continuation
  {
    var urgent, conts := Fresh(classified), Continuations(s, classified, caps.continuation);
    SortKeepsMembers(Filter(classified, IsFresh), FreshKey);
    CountInPrefix(urgent + conts, caps.detail);
    CountInConcat(urgent, conts);
  }

  lemma {:induction false} CountInPrefix(es: seq<Entry>, n: nat)
    ensures |Filter(Take(es, n), IsContinuation)| <= |Filter(es, IsContinuation)|
    decreases |es|
  {
    if n < |es| {
      assert Take(es, n) == Take(es[..|es| - 1], n);
      CountInPrefix(es[..|es| - 1], n);
    }
  }

  lemma NothingLeft(es: seq<Entry>, p: Entry -> bool)
    requires forall e :: e in es ==> !p(e)
    ensures Filter(es, p) == []
  {
    var r := Filter(es, p);
    assert forall i :: 0 <= i < |r| ==> r[i] in r;
  }

  lemma TakeMembers(xs: seq<Entry>, ys: seq<Entry>, n: nat, e: Entry)
    ensures e in Take(xs + ys, n) && n <= |xs| ==> e in xs
    ensures e in xs && n > |xs| ==> e in Take(xs + ys, n)
  {
    if n <= |xs| {
      assert forall i :: 0 <= i < n ==> (xs + ys)[i] == xs[i];
    } else if e in xs {
      var i :| 0 <= i < |xs| && xs[i] == e;
      assert Take(xs + ys, n)[i] == e;
    }
  }

  lemma TakeIndex(xs: seq<Entry>, ys: seq<Entry>, n: nat, i: nat)
    requires i < |xs|
    ensures i < n ==> xs[i] in Take(xs + ys, n)
    ensures n <= i ==> Take(xs + ys, n) == xs[..n]
  {
    if i < n { assert Take(xs + ys, n)[i] == xs[i]; }
  }

  lemma {:induction false} CountInConcat(urgent: seq<Entry>, conts: seq<Entry>)
    requires forall e :: e in urgent ==> IsFresh(e)
    ensures |Filter(urgent + conts, IsContinuation)| <= |conts|
    decreases |conts|
  {
    if conts == [] {
      assert urgent + conts == urgent;
      NothingLeft(urgent, IsContinuation);
    } else {
      assert (urgent + conts)[..|urgent + conts| - 1] == urgent + conts[..|conts| - 1];
      CountInConcat(urgent, conts[..|conts| - 1]);
    }
  }

  /** A continuation is read only when every new and updated report is. */
  lemma ContinuationsWait(s: State, classified: seq<Entry>, caps: Caps, c: Entry, e: Entry)
    requires c in SelectedDaily(s, classified, caps) && c.change == Continuation
    requires e in classified && IsFresh(e)
    ensures e in SelectedDaily(s, classified, caps)
  {
    var urgent, conts := Fresh(classified), Continuations(s, classified, caps.continuation);
    SortKeepsMembers(Filter(classified, IsFresh), FreshKey);
    TakeMembers(urgent, conts, caps.detail, c);
    TakeMembers(urgent, conts, caps.detail, e);
  }

  /** No fresh report that overflowed comes before one that was read. */
  lemma PriorityHolds(s: State, classified: seq<Entry>, caps: Caps, e: Entry, x: Entry)
    requires var selected := SelectedDaily(s, classified, caps);
             e in classified && IsFresh(e) && e.id !in Ids(selected) && x in selected
    ensures IsFresh(x) && KeyLe(FreshKey(x), FreshKey(e))
  {
    var urgent, conts := Fresh(classified), Continuations(s, classified, caps.continuation);
    var selected := SelectedDaily(s, classified, caps);
    SortSorts(Filter(classified, IsFresh), FreshKey);
    SortKeepsMembers(Filter(classified, IsFresh), FreshKey);
    var i :| 0 <= i < |urgent| && urgent[i] == e;
    var j :| 0 <= j < |selected| && selected[j] == x;
    assert e !in selected;
    TakeIndex(urgent, conts, caps.detail, i);
  }

  /** Every fresh report is read or stays queued. */
  lemma FreshIsKept(s: State, classified: seq<Entry>, caps: Caps, e: Entry)
    requires e in classified && IsFresh(e) && e.id != 0
    ensures var selected := SelectedDaily(s, classified, caps);
            e.id in Ids(selected) || Has(Overflow(classified, selected), e.id)
  {
    var selected := SelectedDaily(s, classified, caps);
    if e.id !in Ids(selected) {
      var rest := Filter(classified, FreshOutside(Ids(selected)));
      DedupeMeaning(rest);
      assert e in rest;
      var k :| 0 <= k < |rest| && rest[k] == e;
      assert Has(Dedupe(rest), rest[k].id);
    }
  }

  lemma OverflowIsFresh(classified: seq<Entry>, selected: seq<Entry>, id: Id)
    requires Has(Overflow(classified, selected), id)
    ensures id !in Ids(selected) && exists e :: e in classified && e.id == id && IsFresh(e)
  {
    var rest := Filter(classified, FreshOutside(Ids(selected)));
    DedupeMeaning(rest);
    var i :| 0 <= i < |Dedupe(rest)| && Dedupe(rest)[i].id == id;
    var j :| LastAt(rest, Dedupe(rest)[i].id, j) && rest[j] == Dedupe(rest)[i];
    assert rest[j] in rest;
  }

  // ---------------------------------------------------------------------
  // Which continuations are read
  // ---------------------------------------------------------------------

  /** Continuations that sort before `e`. */
  function SortsBefore(s: State, e: Entry): Entry -> bool {
    (x: Entry) => IsContinuation(x) && x.id != e.id && KeyLe(ContinuationKey(s, x), ContinuationKey(s, e))
  }

  function Rank(s: State, classified: seq<Entry>, e: Entry): nat { |Filter(classified, SortsBefore(s, e))| }

  /** How many continuations a run has room for. */
  function Room(classified: seq<Entry>, caps: Caps): nat {
    var urgent := |Filter(classified, IsFresh)|;
    if urgent >= caps.detail then 0
    else if caps.continuation < caps.detail - urgent then caps.continuation
    else caps.detail - urgent
  }

  lemma FilterSnoc(es: seq<Entry>, e: Entry, p: Entry -> bool)
    ensures Filter(es + [e], p) == Filter(es, p) + (if p(e) then [e] else [])
  {
    assert (es + [e])[..|es|] == es;
  }

  lemma {:induction false} InsertCounts(r: seq<Entry>, e: Entry, key: Entry -> Key, p: Entry -> bool)
    ensures |Filter(InsertLast(r, e, key), p)| == |Filter(r, p)| + (if p(e) then 1 else 0)
    decreases |r|
  {
    if r == [] || KeyLe(key(r[|r| - 1]), key(e)) {
      FilterSnoc(r, e, p);
    } else {
      var rest, last := r[..|r| - 1], r[|r| - 1];
      InsertCounts(rest, e, key, p);
      FilterSnoc(InsertLast(rest, e, key), last, p);
    }
  }

  /** Sorting keeps counts. */
  lemma {:induction false} SortCounts(es: seq<Entry>, key: Entry -> Key, p: Entry -> bool)
    ensures |Filter(SortBy(es, key), p)| == |Filter(es, p)|
    decreases |es|
  {
    if es != [] {
      SortCounts(es[..|es| - 1], key, p);
      InsertCounts(SortBy(es[..|es| - 1], key), es[|es| - 1], key, p);
    }
  }

  lemma {:induction false} FilterTwice(es: seq<Entry>, p: Entry -> bool, q: Entry -> bool)
    requires forall e :: q(e) ==> p(e)
    ensures Filter(Filter(es, p), q) == Filter(es, q)
    decreases |es|
  {
    if es != [] {
      var rest, e := es[..|es| - 1], es[|es| - 1];
      FilterTwice(rest, p, q);
      assert es == rest + [e];
      FilterSnoc(rest, e, p);
      FilterSnoc(rest, e, q);
      FilterSnoc(Filter(rest, p), e, q);
      assert Filter(rest, p) + [] == Filter(rest, p) && Filter(rest, q) + [] == Filter(rest, q);
    }
  }

  lemma {:induction false} PrefixCounts(r: seq<Entry>, i: nat, p: Entry -> bool)
    requires i <= |r| && (forall j :: 0 <= j < i ==> p(r[j])) && (forall j :: i <= j < |r| ==> !p(r[j]))
    ensures |Filter(r, p)| == i
    decreases |r|
  {
    if r != [] { PrefixCounts(r[..|r| - 1], if i == |r| then i - 1 else i, p); }
  }

  lemma {:induction false} FilterDistinct(es: seq<Entry>, p: Entry -> bool)
    requires DistinctIds(es)
    ensures DistinctIds(Filter(es, p))
    decreases |es|
  {
    if es != [] {
      FilterDistinct(es[..|es| - 1], p);
      var r := Filter(es[..|es| - 1], p);
      forall i | 0 <= i < |r| ensures r[i].id != es[|es| - 1].id { assert r[i] in es[..|es| - 1]; }
    }
  }

  lemma {:induction false} InsertDistinct(r: seq<Entry>, e: Entry, key: Entry -> Key)
    requires DistinctIds(r) && forall i :: 0 <= i < |r| ==> r[i].id != e.id
    ensures DistinctIds(InsertLast(r, e, key))
    ensures forall x :: x in InsertLast(r, e, key) ==> x in r || x == e
    decreases |r|
  {
    if r == [] || KeyLe(key(r[|r| - 1]), key(e)) {
    } else {
      var rest, last := r[..|r| - 1], r[|r| - 1];
      InsertDistinct(rest, e, key);
      var r' := InsertLast(rest, e, key);
      forall i | 0 <= i < |r'| ensures r'[i].id != last.id { assert r'[i] in rest || r'[i] == e; }
    }
  }

  lemma {:induction false} SortDistinct(es: seq<Entry>, key: Entry -> Key)
    requires DistinctIds(es)
    ensures DistinctIds(SortBy(es, key))
    decreases |es|
  {
    if es != [] {
      var rest, e := es[..|es| - 1], es[|es| - 1];
      SortDistinct(rest, key);
      SortKeepsMembers(rest, key);
      var r := SortBy(rest, key);
      forall i | 0 <= i < |r| ensures r[i].id != e.id { assert r[i] in rest; }
      InsertDistinct(r, e, key);
    }
  }

  lemma KeysTellApart(s: State, x: Entry, e: Entry)
    requires KeyLe(ContinuationKey(s, x), ContinuationKey(s, e)) && KeyLe(ContinuationKey(s, e), ContinuationKey(s, x))
    ensures x.id == e.id
  {
  }

  /** In a sorted list of continuations exactly the earlier ones sort before an entry. */
  lemma EarlierSortBefore(s: State, r: seq<Entry>, i: nat)
    requires DistinctIds(r) && Sorted(r, ByContinuation(s)) && i < |r| && forall j :: 0 <= j < |r| ==> IsContinuation(r[j])
    ensures forall j :: 0 <= j < |r| ==> (SortsBefore(s, r[i])(r[j]) <==> j < i)
  {
    forall j | 0 <= j < |r| ensures SortsBefore(s, r[i])(r[j]) <==> j < i {
      if j < i {
        assert KeyLe(ByContinuation(s)(r[j]), ByContinuation(s)(r[i]));
      } else if i < j {
        assert KeyLe(ByContinuation(s)(r[i]), ByContinuation(s)(r[j]));
        if KeyLe(ContinuationKey(s, r[j]), ContinuationKey(s, r[i])) { KeysTellApart(s, r[j], r[i]); }
      }
    }
  }

  /** A continuation stands at the place that its rank says. */
  lemma PlaceIsRank(s: State, classified: seq<Entry>, e: Entry, i: nat)
    requires DistinctIds(classified)
    requires var r := SortBy(Filter(classified, IsContinuation), ByContinuation(s)); i < |r| && r[i] == e
    ensures i == Rank(s, classified, e)
  {
    var conts := Filter(classified, IsContinuation);
    var r := SortBy(conts, ByContinuation(s));
    var p := SortsBefore(s, e);
    FilterDistinct(classified, IsContinuation);
    SortDistinct(conts, ByContinuation(s));
    SortSorts(conts, ByContinuation(s));
    SortKeepsMembers(conts, ByContinuation(s));
    forall j | 0 <= j < |r| ensures IsContinuation(r[j]) { assert r[j] in conts; }
    EarlierSortBefore(s, r, i);
    SortCounts(conts, ByContinuation(s), p);
    FilterTwice(classified, IsContinuation, p);
    hide DistinctIds, SortBy, Filter, Sorted, KeyLe;
    PrefixCounts(r, i, p);
  }

  lemma SelectedAt(urgent: seq<Entry>, conts: seq<Entry>, n: nat, e: Entry)
    requires e !in urgent
    ensures e in Take(urgent + conts, n) <==> exists i :: 0 <= i < |conts| && conts[i] == e && |urgent| + i < n
  {
    var selected := Take(urgent + conts, n);
    if e in selected {
      var j :| 0 <= j < |selected| && selected[j] == e;
      assert (urgent + conts)[j] == e;
      assert j >= |urgent| && conts[j - |urgent|] == e;
    }
    if i :| 0 <= i < |conts| && conts[i] == e && |urgent| + i < n {
      assert selected[|urgent| + i] == e;
    }
  }

  /** A continuation is read exactly when its rank is within the room. */
  lemma ContinuationIsRead(s: State, classified: seq<Entry>, caps: Caps, e: Entry)
    requires DistinctIds(classified) && e in classified && IsContinuation(e)
    ensures e in SelectedDaily(s, classified, caps) <==> Rank(s, classified, e) < Room(classified, caps)
  {
    var urgent := Fresh(classified);
    var sorted := SortBy(Filter(classified, IsContinuation), ByContinuation(s));
    var conts := Continuations(s, classified, caps.continuation);
    SortKeepsMembers(Filter(classified, IsFresh), FreshKey);
    SortKeepsMembers(Filter(classified, IsContinuation), ByContinuation(s));
    assert e !in urgent;
    SelectedAt(urgent, conts, caps.detail, e);
    forall i | 0 <= i < |sorted| && sorted[i] == e ensures i == Rank(s, classified, e) { PlaceIsRank(s, classified, e, i); }
    hide DistinctIds, SortBy, Filter, Rank, KeyLe, SelectedDaily, Fresh;
    PlaceInPrefix(sorted, caps.continuation, e, Rank(s, classified, e));
  }

  lemma PlaceInPrefix(sorted: seq<Entry>, n: nat, e: Entry, rank: nat)
    requires e in sorted && forall i :: 0 <= i < |sorted| && sorted[i] == e ==> i == rank
    ensures forall i :: 0 <= i < |Take(sorted, n)| && Take(sorted, n)[i] == e ==> i == rank
    ensures rank < n ==> rank < |Take(sorted, n)| && Take(sorted, n)[rank] == e
    ensures |Take(sorted, n)| <= n
  {
  }

  // ---------------------------------------------------------------------
  // What selection can lose
  // ---------------------------------------------------------------------

  lemma {:induction false} QueuedDailyMembers(pending: seq<Entry>)
    ensures forall e :: e in QueuedDaily(pending) <==> e in pending && e.origin == Daily
    decreases |pending|
  {
    if pending != [] {
      assert pending == pending[..|pending| - 1] + [pending[|pending| - 1]];
      QueuedDailyMembers(pending[..|pending| - 1]);
    }
  }

  lemma {:induction false} OfferedAreNotQueued(s: State, cs: seq<Candidate>, queued: set<Id>)
    ensures forall e :: e in OfferedAll(s, cs, queued) ==> e.id !in queued
    decreases |cs|
  {
    if cs != [] { OfferedAreNotQueued(s, cs[..|cs| - 1], queued); }
  }

  /** The one classified entry of a queued id. */
  lemma RequeuedIsTheOnlyOne(s: State, cs: seq<Candidate>, q: Entry, e: Entry)
    requires q in s.pending && q.origin == Daily && DistinctIds(s.pending)
    ensures Requeued(s, cs, q) in Classified(s, cs)
    ensures e in Classified(s, cs) && e.id == q.id ==> e == Requeued(s, cs, q)
  {
    var queued := QueuedDaily(s.pending);
    QueuedDailyMembers(s.pending);
    OfferedAreNotQueued(s, cs, Ids(queued));
    var k :| 0 <= k < |queued| && queued[k] == q;
    assert RequeuedAll(s, cs, queued)[k] == Requeued(s, cs, q);
    if e in Classified(s, cs) && e.id == q.id {
      assert q.id in Ids(queued);
      var m :| 0 <= m < |queued| && RequeuedAll(s, cs, queued)[m] == e;
      assert queued[m].id == q.id && queued[m] in s.pending;
    }
  }

  // ---------------------------------------------------------------------
  // The whole run
  // ---------------------------------------------------------------------

  function FromOrigin(o: Origin): Entry -> bool { (e: Entry) => e.origin == o }

  function NotIn(ids: set<Id>): Entry -> bool { (e: Entry) => e.id !in ids }

  /** The backfill queue of this run: what was queued and what the page brought, except what
      is recorded or selected from the daily lanes. */
  function BackfillQueue(s: State, daily: seq<Entry>, page: seq<Entry>): seq<Entry> {
    Filter(Dedupe(Filter(s.pending, FromOrigin(Backfill)) + page), NotIn(s.records.Keys + Ids(daily)))
  }

  function Recorded(records: map<Id, Record>, selected: seq<Entry>, readable: set<Id>, now: Time): map<Id, Record>
    decreases |selected|
  {
    if selected == [] then records
    else
      var e, before := selected[|selected| - 1], Recorded(records, selected[..|selected| - 1], readable, now);
      if e.id in readable then before[e.id := Record(e.fingerprint, now)] else before
  }

  datatype Input = Input(
    candidates: seq<Candidate>, page: seq<Entry>, caps: Caps, readable: set<Id>, startedAt: Time, now: Time, sourcesOk: bool)

  function Selected(s: State, x: Input): seq<Entry> {
    var daily := SelectedDaily(s, Classified(s, x.candidates), x.caps);
    daily + Take(BackfillQueue(s, daily, x.page), x.caps.backfill)
  }

  function After(s: State, x: Input): State {
    var classified := Classified(s, x.candidates);
    var daily := SelectedDaily(s, classified, x.caps);
    var queue := BackfillQueue(s, daily, x.page);
    var selected := daily + Take(queue, x.caps.backfill);
    State(Recorded(s.records, selected, x.readable, x.now),
          Dedupe(Overflow(classified, daily) + Drop(queue, x.caps.backfill) + Filter(selected, NotIn(x.readable))),
          if x.sourcesOk then Some(x.startedAt) else s.cutoff)
  }

  /** The collector's state file, updated in place as the run reads one report after another. */
  class Collector {
    var records: map<Id, Record>
    var pending: seq<Entry>
    var cutoff: Option<Time>

    function Contents(): State
      reads this
    {
      State(records, pending, cutoff)
    }

    constructor ()
      ensures Contents() == State(map[], [], None)
    {
      records, pending, cutoff := map[], [], None;
    }

    method ChooseBackfill(daily: seq<Entry>, page: seq<Entry>, cap: nat) returns (chosen: seq<Entry>, rest: seq<Entry>)
      ensures chosen == Take(BackfillQueue(Contents(), daily, page), cap)
      ensures rest == Drop(BackfillQueue(Contents(), daily, page), cap)
      ensures chosen + rest == BackfillQueue(Contents(), daily, page) && |chosen| <= cap
    {
      var combined := DedupePending(Filter(pending, FromOrigin(Backfill)) + page);
      combined := Filter(combined, NotIn(records.Keys + Ids(daily)));
      chosen, rest := Take(combined, cap), Drop(combined, cap);
    }

    method ReadDetails(selected: seq<Entry>, readable: set<Id>, now: Time) returns (failed: seq<Entry>)
      modifies this`records
      ensures records == Recorded(old(records), selected, readable, now)
      ensures failed == Filter(selected, NotIn(readable))
    {
      failed := [];
      var n := 0;
      while n < |selected|
        invariant 0 <= n <= |selected|
        invariant records == Recorded(old(records), selected[..n], readable, now)
        invariant failed == Filter(selected[..n], NotIn(readable))
      {
        var e := selected[n];
        assert selected[..n + 1][..n] == selected[..n];
        if e.id !in readable {
          failed := failed + [e];
        } else {
          records := records[e.id := Record(e.fingerprint, now)];
        }
        n := n + 1;
      }
      assert selected[..n] == selected;
    }

    method Collect(x: Input)
      modifies this
      ensures Contents() == After(old(Contents()), x)
    {
      var daily, overflow, counts := ChooseIncremental(Contents(), x.candidates, x.caps);
      var backfill, rest := ChooseBackfill(daily, x.page, x.caps.backfill);
      var failed := ReadDetails(daily + backfill, x.readable, x.now);
      pending := DedupePending(overflow + rest + failed);
      if x.sourcesOk { cutoff := Some(x.startedAt); }
    }
  }

  lemma {:induction false} RecordedMeaning(records: map<Id, Record>, selected: seq<Entry>, readable: set<Id>, now: Time)
    ensures var r := Recorded(records, selected, readable, now);
            && (forall id :: id in records ==> id in r)
            && (forall id :: id in Ids(selected) && id in readable ==> id in r && r[id].processedAt == now)
            && (forall id :: id in r && !(id in Ids(selected) && id in readable) ==> id in records && r[id] == records[id])
    decreases |selected|
  {
    if selected != [] {
      var rest, e := selected[..|selected| - 1], selected[|selected| - 1];
      assert selected == rest + [e];
      RecordedMeaning(records, rest, readable, now);
      assert Ids(selected) == Ids(rest) + {e.id};
    }
  }

  /** An entry of any of the three lists leaves its id in the new queue. */
  lemma Queued(a: seq<Entry>, b: seq<Entry>, c: seq<Entry>, id: Id)
    requires id != 0 && (Has(a, id) || Has(b, id) || Has(c, id))
    ensures Has(Dedupe(a + b + c), id)
  {
    var all := a + b + c;
    DedupeMeaning(all);
    if Has(a, id) {
      var i :| 0 <= i < |a| && a[i].id == id;
      assert all[i].id == id;
    } else if Has(b, id) {
      var i :| 0 <= i < |b| && b[i].id == id;
      assert all[|a| + i].id == id;
    } else {
      var i :| 0 <= i < |c| && c[i].id == id;
      assert all[|a| + |b| + i].id == id;
    }
  }

  lemma InSeq(es: seq<Entry>, id: Id)
    ensures id in Ids(es) <==> Has(es, id)
  {
    if id in Ids(es) {
      var e :| e in es && e.id == id;
      var i :| 0 <= i < |es| && es[i] == e;
      assert es[i].id == id;
    }
  }

  lemma SelectedIsSettled(s: State, x: Input, id: Id)
    requires id != 0 && id in Ids(Selected(s, x))
    ensures if id in x.readable then id in After(s, x).records && After(s, x).records[id].processedAt == x.now
            else Has(After(s, x).pending, id)
  {
    hide SelectedDaily, Overflow, BackfillQueue, Classified, Dedupe, Recorded;
    var selected := Selected(s, x);
    RecordedMeaning(s.records, selected, x.readable, x.now);
    if id !in x.readable {
      var e :| e in selected && e.id == id;
      assert e in Filter(selected, NotIn(x.readable));
      InSeq(Filter(selected, NotIn(x.readable)), id);
      var daily := SelectedDaily(s, Classified(s, x.candidates), x.caps);
      Queued(Overflow(Classified(s, x.candidates), daily), Drop(BackfillQueue(s, daily, x.page), x.caps.backfill), Filter(selected, NotIn(x.readable)), id);
    }
  }

  /** Conservation of daily reports: whatever this run classified as new or updated is read
      now, or is in the saved queue. */
  lemma FreshIsConserved(s: State, x: Input, e: Entry)
    requires e in Classified(s, x.candidates) && IsFresh(e) && e.id != 0
    ensures || (e.id in x.readable && e.id in After(s, x).records && After(s, x).records[e.id].processedAt == x.now)
            || Has(After(s, x).pending, e.id)
  {
    hide SelectedDaily, Overflow, BackfillQueue, Classified, Dedupe, Recorded;
    var classified := Classified(s, x.candidates);
    var daily := SelectedDaily(s, classified, x.caps);
    FreshIsKept(s, classified, x.caps, e);
    if e.id in Ids(daily) {
      DailyIsSelected(s, x, e.id);
      SelectedIsSettled(s, x, e.id);
    } else {
      Queued(Overflow(classified, daily), Drop(BackfillQueue(s, daily, x.page), x.caps.backfill), Filter(Selected(s, x), NotIn(x.readable)), e.id);
    }
  }

  lemma DailyIsSelected(s: State, x: Input, id: Id)
    requires id in Ids(SelectedDaily(s, Classified(s, x.candidates), x.caps))
    ensures id in Ids(Selected(s, x))
  {
    var daily := SelectedDaily(s, Classified(s, x.candidates), x.caps);
    var e :| e in daily && e.id == id;
    assert e in Selected(s, x);
  }

  /** Conservation of backfill: every queued or fetched backfill id is recorded or still
      queued after the run. */
  lemma BackfillIsConserved(s: State, x: Input, b: Entry)
    requires b.id != 0 && (b in x.page || (b in s.pending && b.origin == Backfill))
    ensures b.id in After(s, x).records || Has(After(s, x).pending, b.id)
  {
    var daily := SelectedDaily(s, Classified(s, x.candidates), x.caps);
    var all := Filter(s.pending, FromOrigin(Backfill)) + x.page;
    hide SelectedDaily, Overflow, Classified, Recorded;
    if b.id in s.records {
      RecordedMeaning(s.records, Selected(s, x), x.readable, x.now);
    } else if b.id in Ids(daily) {
      DailyIsSelected(s, x, b.id);
      SelectedIsSettled(s, x, b.id);
    } else {
      assert b in all;
      InBackfillQueue(s, daily, x.page, b);
      var queue := BackfillQueue(s, daily, x.page);
      var e :| e in queue && e.id == b.id;
      if e in Take(queue, x.caps.backfill) {
        assert e in Selected(s, x);
        SelectedIsSettled(s, x, b.id);
      } else {
        SplitQueue(queue, x.caps.backfill, e);
        InSeq(Drop(queue, x.caps.backfill), b.id);
        Queued(Overflow(Classified(s, x.candidates), daily), Drop(queue, x.caps.backfill), Filter(Selected(s, x), NotIn(x.readable)), b.id);
      }
    }
  }

  lemma SplitQueue(queue: seq<Entry>, n: nat, e: Entry)
    requires e in queue
    ensures e in Take(queue, n) || e in Drop(queue, n)
  {
    if n < |queue| { assert queue == queue[..n] + queue[n..]; }
  }

  lemma InBackfillQueue(s: State, daily: seq<Entry>, page: seq<Entry>, b: Entry)
    requires b.id != 0 && b in Filter(s.pending, FromOrigin(Backfill)) + page && b.id !in s.records && b.id !in Ids(daily)
    ensures exists e :: e in BackfillQueue(s, daily, page) && e.id == b.id
  {
    var all := Filter(s.pending, FromOrigin(Backfill)) + page;
    DedupeMeaning(all);
    var k :| 0 <= k < |all| && all[k] == b;
    assert Has(Dedupe(all), all[k].id);
    var i :| 0 <= i < |Dedupe(all)| && Dedupe(all)[i].id == b.id;
    assert Dedupe(all)[i] in BackfillQueue(s, daily, page);
  }

  lemma {:induction false} RecordedFingerprint(records: map<Id, Record>, selected: seq<Entry>, readable: set<Id>, now: Time, id: Id)
    requires id in Ids(selected) && id in readable
    ensures id in Recorded(records, selected, readable, now)
    ensures exists e :: e in selected && e.id == id && Recorded(records, selected, readable, now)[id].fingerprint == e.fingerprint
    decreases |selected|
  {
    var rest, last := selected[..|selected| - 1], selected[|selected| - 1];
    assert selected == rest + [last];
    if last.id != id {
      var x :| x in selected && x.id == id;
      assert x in rest;
      RecordedFingerprint(records, rest, readable, now, id);
    }
  }

  /** A report that was read is fresh again exactly when its fingerprint changes: nothing else
      about its row or its scopes makes a later run read it as new or updated. */
  lemma ReadAgainOnlyWhenChanged(s: State, x: Input, id: Id, fingerprint: nat, scopes: set<Scope>, row: Row)
    requires id in Ids(Selected(s, x)) && id in x.readable
    ensures id in After(s, x).records
    ensures exists e :: e in Selected(s, x) && e.id == id && After(s, x).records[id].fingerprint == e.fingerprint
    ensures Classify(After(s, x), id, fingerprint, scopes, row) in {New, Updated} <==> fingerprint != After(s, x).records[id].fingerprint
    ensures Classify(After(s, x), id, fingerprint, scopes, row) != New
  {
    hide Selected;
    RecordedFingerprint(s.records, Selected(s, x), x.readable, x.now, id);
    SameSelection(s, x);
  }

  lemma SameSelection(s: State, x: Input)
    ensures After(s, x).records == Recorded(s.records, Selected(s, x), x.readable, x.now)
  {
  }

  /** The saved queue has each id once and no missing id, after every run. */
  lemma QueueStaysGood(s: State, x: Input)
    ensures DistinctIds(After(s, x).pending) && forall i :: 0 <= i < |After(s, x).pending| ==> After(s, x).pending[i].id != 0
    ensures |SelectedDaily(s, Classified(s, x.candidates), x.caps)| <= x.caps.detail
    ensures |Selected(s, x)| <= x.caps.detail + x.caps.backfill
  {
    var classified := Classified(s, x.candidates);
    var daily := SelectedDaily(s, classified, x.caps);
    var queue := BackfillQueue(s, daily, x.page);
    CapsHold(s, classified, x.caps);
    hide SelectedDaily, BackfillQueue, Classified, Overflow, Dedupe;
    DedupeMeaning(Overflow(classified, daily) + Drop(queue, x.caps.backfill) + Filter(Selected(s, x), NotIn(x.readable)));
  }

  // ---------------------------------------------------------------------
  // What the queue holds, and how a backfill report can leave its lane
  // ---------------------------------------------------------------------

  predicate DailyChange(e: Entry) { e.origin == Daily ==> IsFresh(e) || IsContinuation(e) }

  ghost predicate Typed(es: seq<Entry>) { forall e :: e in es ==> DailyChange(e) }

  lemma {:induction false} ClassifiedIsTyped(s: State, cs: seq<Candidate>)
    requires Typed(s.pending)
    ensures forall e :: e in Classified(s, cs) ==> e.origin == Daily && (IsFresh(e) || IsContinuation(e))
  {
    var queued := QueuedDaily(s.pending);
    QueuedDailyMembers(s.pending);
    forall e | e in RequeuedAll(s, cs, queued) ensures e.origin == Daily && (IsFresh(e) || IsContinuation(e)) {
      var i :| 0 <= i < |queued| && RequeuedAll(s, cs, queued)[i] == e;
      assert queued[i] in s.pending;
    }
    OfferedAreTyped(s, cs, Ids(queued));
  }

  lemma {:induction false} OfferedAreTyped(s: State, cs: seq<Candidate>, queued: set<Id>)
    ensures forall e :: e in OfferedAll(s, cs, queued) ==> e.origin == Daily && (IsFresh(e) || IsContinuation(e))
    decreases |cs|
  {
    if cs != [] { OfferedAreTyped(s, cs[..|cs| - 1], queued); }
  }

  lemma SelectedDailyMembers(s: State, classified: seq<Entry>, caps: Caps)
    ensures forall e :: e in SelectedDaily(s, classified, caps) ==> e in classified
  {
    SortKeepsMembers(Filter(classified, IsFresh), FreshKey);
    SortKeepsMembers(Filter(classified, IsContinuation), ByContinuation(s));
  }

  lemma DedupeMembers(es: seq<Entry>)
    ensures forall e :: e in Dedupe(es) ==> e in es
  {
    DedupeMeaning(es);
    forall e | e in Dedupe(es) ensures e in es {
      var i :| 0 <= i < |Dedupe(es)| && Dedupe(es)[i] == e;
      var j :| LastAt(es, Dedupe(es)[i].id, j) && es[j] == Dedupe(es)[i];
    }
  }

  lemma BackfillQueueMembers(s: State, daily: seq<Entry>, page: seq<Entry>)
    requires forall e :: e in page ==> e.origin == Backfill
    ensures forall e :: e in BackfillQueue(s, daily, page) ==> e.origin == Backfill && e.id !in Ids(daily)
  {
    DedupeMembers(Filter(s.pending, FromOrigin(Backfill)) + page);
  }

  /** Every entry of the daily queue is new, updated or a continuation, after every run. */
  lemma DailyQueueStaysTyped(s: State, x: Input)
    requires Typed(s.pending) && forall e :: e in x.page ==> e.origin == Backfill
    ensures Typed(After(s, x).pending)
  {
    var classified := Classified(s, x.candidates);
    var daily := SelectedDaily(s, classified, x.caps);
    ClassifiedIsTyped(s, x.candidates);
    SelectedDailyMembers(s, classified, x.caps);
    BackfillQueueMembers(s, daily, x.page);
    DedupeMembers(Filter(classified, FreshOutside(Ids(daily))));
    var queue := BackfillQueue(s, daily, x.page);
    DedupeMembers(Overflow(classified, daily) + Drop(queue, x.caps.backfill) + Filter(Selected(s, x), NotIn(x.readable)));
  }

  lemma LastPlace(es: seq<Entry>, p: Entry) returns (j: nat)
    requires p in Dedupe(es)
    ensures LastAt(es, p.id, j) && es[j] == p
  {
    DedupeMeaning(es);
    var i :| 0 <= i < |Dedupe(es)| && Dedupe(es)[i] == p;
    var k :| LastAt(es, Dedupe(es)[i].id, k) && es[k] == p;
    j := k;
  }

  lemma WhichPart(a: seq<Entry>, b: seq<Entry>, c: seq<Entry>, j: nat)
    requires j < |a + b + c|
    ensures |a| <= j < |a| + |b| ==> (a + b + c)[j] in b
    ensures |a| + |b| <= j ==> (a + b + c)[j] in c && Has(c, (a + b + c)[j].id)
  {
    if |a| + |b| <= j { assert (a + b + c)[j] == c[j - |a| - |b|]; }
  }

  /** The queue's entry for an id is the last one given: a failed read, else what is left of
      the backfill queue, else overflow. */
  lemma LastOfThree(a: seq<Entry>, b: seq<Entry>, c: seq<Entry>, p: Entry)
    requires p in Dedupe(a + b + c)
    ensures Has(c, p.id) ==> p in c
    ensures !Has(c, p.id) && Has(b, p.id) ==> p in b
  {
    var all := a + b + c;
    var j := LastPlace(all, p);
    WhichPart(a, b, c, j);
    if Has(c, p.id) {
      var k :| 0 <= k < |c| && c[k].id == p.id;
      assert all[|a| + |b| + k] == c[k];
    } else if Has(b, p.id) {
      var k :| 0 <= k < |b| && b[k].id == p.id;
      assert all[|a| + k] == b[k];
    }
  }

  /** A backfill report that is not recorded stays queued, but it leaves the backfill queue
      exactly when the daily selection took it and its read failed: it is then a daily entry,
      which `LostFromTheQueue` can lose although its page will not be fetched again. */
  lemma BackfillBecomesDaily(s: State, x: Input, b: Entry, p: Entry)
    requires Typed(s.pending) && forall e :: e in x.page ==> e.origin == Backfill
    requires b.id != 0 && (b in x.page || (b in s.pending && b.origin == Backfill))
    requires b.id !in After(s, x).records && p in After(s, x).pending && p.id == b.id
    ensures p.origin == Daily <==> b.id in Ids(SelectedDaily(s, Classified(s, x.candidates), x.caps))
  {
    var classified := Classified(s, x.candidates);
    var daily := SelectedDaily(s, classified, x.caps);
    var queue := BackfillQueue(s, daily, x.page);
    var failed := Filter(Selected(s, x), NotIn(x.readable));
    ClassifiedIsTyped(s, x.candidates);
    SelectedDailyMembers(s, classified, x.caps);
    BackfillQueueMembers(s, daily, x.page);
    RecordedMeaning(s.records, Selected(s, x), x.readable, x.now);
    LastOfThree(Overflow(classified, daily), Drop(queue, x.caps.backfill), failed, p);
    hide SelectedDaily, BackfillQueue, Classified, Overflow, Dedupe;
    if b.id in Ids(daily) {
      DailyIsSelected(s, x, b.id);
      FailedReadIsQueued(s, x, b.id);
      NotBoth(daily, Take(queue, x.caps.backfill), x.readable, p);
    } else {
      assert b in Filter(s.pending, FromOrigin(Backfill)) + x.page;
      InBackfillQueue(s, daily, x.page, b);
      var e :| e in queue && e.id == b.id;
      SplitQueue(queue, x.caps.backfill, e);
      if e in Take(queue, x.caps.backfill) {
        assert e in Selected(s, x);
        FailedReadIsQueued(s, x, b.id);
      } else {
        InSeq(Drop(queue, x.caps.backfill), b.id);
      }
      NotBoth(daily, Take(queue, x.caps.backfill), x.readable, p);
    }
  }

  lemma FailedReadIsQueued(s: State, x: Input, id: Id)
    requires id in Ids(Selected(s, x)) && id !in After(s, x).records
    ensures Has(Filter(Selected(s, x), NotIn(x.readable)), id)
  {
    hide SelectedDaily, BackfillQueue, Classified, Overflow, Dedupe;
    RecordedMeaning(s.records, Selected(s, x), x.readable, x.now);
    var e :| e in Selected(s, x) && e.id == id;
    assert e in Filter(Selected(s, x), NotIn(x.readable));
    InSeq(Filter(Selected(s, x), NotIn(x.readable)), id);
  }

  lemma NotBoth(daily: seq<Entry>, backfill: seq<Entry>, readable: set<Id>, p: Entry)
    ensures p in Filter(daily + backfill, NotIn(readable)) ==> p in daily || p in backfill
    ensures p in daily ==> p.id in Ids(daily)
  {
  }

  // ---------------------------------------------------------------------
  // What a run can lose
  // ---------------------------------------------------------------------

  /** Candidates are keyed by id. */
  ghost predicate DistinctCandidates(cs: seq<Candidate>) { forall i, j :: 0 <= i < j < |cs| ==> cs[i].id != cs[j].id }

  lemma {:induction false} QueuedDailyDistinct(pending: seq<Entry>)
    requires DistinctIds(pending)
    ensures DistinctIds(QueuedDaily(pending))
    decreases |pending|
  {
    if pending != [] {
      var rest := pending[..|pending| - 1];
      QueuedDailyDistinct(rest);
      QueuedDailyMembers(rest);
      var r := QueuedDaily(rest);
      forall i | 0 <= i < |r| ensures r[i].id != pending[|pending| - 1].id { assert r[i] in rest; }
    }
  }

  lemma {:induction false} OfferedDistinct(s: State, cs: seq<Candidate>, queued: set<Id>)
    requires DistinctCandidates(cs)
    ensures DistinctIds(OfferedAll(s, cs, queued))
    ensures forall e :: e in OfferedAll(s, cs, queued) ==> exists k :: 0 <= k < |cs| && cs[k].id == e.id && e == Offered(s, cs[k])
    ensures forall k :: 0 <= k < |cs| && IsOffered(s, cs[k], queued) ==> Offered(s, cs[k]) in OfferedAll(s, cs, queued)
    decreases |cs|
  {
    if cs != [] {
      var rest := cs[..|cs| - 1];
      OfferedDistinct(s, rest, queued);
      var r := OfferedAll(s, rest, queued);
      forall i | 0 <= i < |r| ensures r[i].id != cs[|cs| - 1].id {
        assert r[i] in r;
        var k :| 0 <= k < |rest| && rest[k].id == r[i].id && r[i] == Offered(s, rest[k]);
      }
      forall e | e in OfferedAll(s, cs, queued) ensures exists k :: 0 <= k < |cs| && cs[k].id == e.id && e == Offered(s, cs[k]) {
        if e in r {
          var k :| 0 <= k < |rest| && rest[k].id == e.id && e == Offered(s, rest[k]);
          assert cs[k] == rest[k];
        } else {
          assert e == Offered(s, cs[|cs| - 1]);
        }
      }
      forall k | 0 <= k < |cs| && IsOffered(s, cs[k], queued) ensures Offered(s, cs[k]) in OfferedAll(s, cs, queued) {
        if k < |rest| { assert rest[k] == cs[k]; }
      }
    }
  }

  lemma ClassifiedDistinct(s: State, cs: seq<Candidate>)
    requires DistinctIds(s.pending) && DistinctCandidates(cs)
    ensures DistinctIds(Classified(s, cs))
  {
    var queued := QueuedDaily(s.pending);
    QueuedDailyDistinct(s.pending);
    OfferedDistinct(s, cs, Ids(queued));
    OfferedAreNotQueued(s, cs, Ids(queued));
    var a, b := RequeuedAll(s, cs, queued), OfferedAll(s, cs, Ids(queued));
    forall i, j | 0 <= i < |a| && 0 <= j < |b| ensures a[i].id != b[j].id {
      assert a[i].id == queued[i].id && queued[i] in queued;
      assert b[j] in b;
    }
  }

  /** Neither recorded nor queued after the run. */
  ghost predicate Lost(s: State, x: Input, id: Id) { id !in After(s, x).records && !Has(After(s, x).pending, id) }

  lemma HasPart(a: seq<Entry>, b: seq<Entry>, c: seq<Entry>, id: Id)
    ensures Has(Dedupe(a + b + c), id) ==> Has(a, id) || Has(b, id) || Has(c, id)
  {
    var all := a + b + c;
    if Has(Dedupe(all), id) {
      var i :| 0 <= i < |Dedupe(all)| && Dedupe(all)[i].id == id;
      var j := LastPlace(all, Dedupe(all)[i]);
      if j < |a| { assert a[j].id == id; }
      else if j < |a| + |b| { assert b[j - |a|].id == id; }
      else { assert c[j - |a| - |b|].id == id; }
    }
  }

  lemma FewerIds(es: seq<Entry>, whole: seq<Entry>, id: Id)
    requires id !in Ids(whole) && forall e :: e in es ==> e in whole
    ensures !Has(es, id)
  {
    InSeq(es, id);
    InSeq(whole, id);
  }

  /** An id that no list of the run names disappears. */
  lemma NothingKeepsIt(s: State, x: Input, id: Id)
    requires id !in s.records && id !in Ids(Selected(s, x))
    requires !Has(Overflow(Classified(s, x.candidates), SelectedDaily(s, Classified(s, x.candidates), x.caps)), id)
    requires id !in Ids(BackfillQueue(s, SelectedDaily(s, Classified(s, x.candidates), x.caps), x.page))
    ensures Lost(s, x, id)
  {
    hide SelectedDaily, Overflow, BackfillQueue, Classified, Dedupe, Recorded, Selected;
    var daily := SelectedDaily(s, Classified(s, x.candidates), x.caps);
    var queue := BackfillQueue(s, daily, x.page);
    var failed := Filter(Selected(s, x), NotIn(x.readable));
    RecordedMeaning(s.records, Selected(s, x), x.readable, x.now);
    SameSelection(s, x);
    SameQueue(s, x);
    FewerIds(failed, Selected(s, x), id);
    FewerIds(Drop(queue, x.caps.backfill), queue, id);
    HasPart(Overflow(Classified(s, x.candidates), daily), Drop(queue, x.caps.backfill), failed, id);
  }

  lemma SameQueue(s: State, x: Input)
    ensures var daily := SelectedDaily(s, Classified(s, x.candidates), x.caps);
            var queue := BackfillQueue(s, daily, x.page);
            After(s, x).pending
              == Dedupe(Overflow(Classified(s, x.candidates), daily) + Drop(queue, x.caps.backfill) + Filter(Selected(s, x), NotIn(x.readable)))
  {
  }

  lemma NotInBackfill(s: State, daily: seq<Entry>, page: seq<Entry>, id: Id)
    requires forall e :: e in s.pending && e.origin == Backfill ==> e.id != id
    requires id !in Ids(page)
    ensures id !in Ids(BackfillQueue(s, daily, page))
  {
    var all := Filter(s.pending, FromOrigin(Backfill)) + page;
    DedupeMembers(all);
    forall e | e in BackfillQueue(s, daily, page) ensures e.id != id { assert e in all; }
  }

  lemma NotSelected(s: State, x: Input, id: Id)
    requires var daily := SelectedDaily(s, Classified(s, x.candidates), x.caps);
             id !in Ids(daily) && id !in Ids(BackfillQueue(s, daily, x.page))
    ensures id !in Ids(Selected(s, x))
  {
    hide SelectedDaily, BackfillQueue, Classified;
    var daily := SelectedDaily(s, Classified(s, x.candidates), x.caps);
    var queue := BackfillQueue(s, daily, x.page);
    forall e | e in Selected(s, x) ensures e.id != id { assert e in daily || e in queue; }
  }

  /** A queued daily report is neither recorded nor queued after a run exactly when it was not
      recorded before, the run takes it for a continuation whose rank is beyond the room for
      continuations, and the run's backfill page does not bring it again. */
  lemma LostFromTheQueue(s: State, x: Input, q: Entry)
    requires q in s.pending && q.origin == Daily && q.id != 0 && DailyChange(q)
    requires DistinctIds(s.pending) && DistinctCandidates(x.candidates)
    ensures var classified := Classified(s, x.candidates);
            var e := Requeued(s, x.candidates, q);
            Lost(s, x, q.id) <==>
              && q.id !in s.records && e.change == Continuation
              && Rank(s, classified, e) >= Room(classified, x.caps) && q.id !in Ids(x.page)
  {
    var classified := Classified(s, x.candidates);
    var e := Requeued(s, x.candidates, q);
    RequeuedIsTheOnlyOne(s, x.candidates, q, e);
    ClassifiedDistinct(s, x.candidates);
    if IsContinuation(e) { ContinuationIsRead(s, classified, x.caps, e); }
    hide Classified, Requeued, SelectedDaily, After, Selected, BackfillQueue, Rank, Room, Lost;
    if q.id in s.records {
      RecordedStays(s, x, q.id);
    } else if IsFresh(e) {
      FreshIsConserved(s, x, e);
      NotLost(s, x, q.id);
    } else if q.id in Ids(x.page) {
      var b :| b in x.page && b.id == q.id;
      BackfillIsConserved(s, x, b);
      NotLost(s, x, q.id);
    } else {
      RequeuedKinds(s, x.candidates, q);
      UnbroughtContinuation(s, x, q, e);
    }
  }

  lemma RequeuedKinds(s: State, cs: seq<Candidate>, q: Entry)
    requires q.origin == Daily && DailyChange(q)
    ensures Requeued(s, cs, q).id == q.id && (IsFresh(Requeued(s, cs, q)) || IsContinuation(Requeued(s, cs, q)))
  {
  }

  lemma RecordedStays(s: State, x: Input, id: Id)
    requires id in s.records
    ensures !Lost(s, x, id)
  {
    hide Selected;
    RecordedMeaning(s.records, Selected(s, x), x.readable, x.now);
    SameSelection(s, x);
  }

  lemma NotLost(s: State, x: Input, id: Id)
    requires id in After(s, x).records || Has(After(s, x).pending, id)
    ensures !Lost(s, x, id)
  {
  }

  /** A continuation that the page does not bring is lost exactly when it is not selected. */
  lemma UnbroughtContinuation(s: State, x: Input, q: Entry, e: Entry)
    requires q in s.pending && q.origin == Daily && q.id != 0 && DistinctIds(s.pending)
    requires e == Requeued(s, x.candidates, q) && e.id == q.id && IsContinuation(e) && e in Classified(s, x.candidates)
    requires q.id !in s.records && q.id !in Ids(x.page)
    ensures Lost(s, x, q.id) <==> e !in SelectedDaily(s, Classified(s, x.candidates), x.caps)
  {
    hide Requeued, After, Selected, BackfillQueue, Lost;
    var classified := Classified(s, x.candidates);
    var daily := SelectedDaily(s, classified, x.caps);
    SelectedDailyMembers(s, classified, x.caps);
    hide Classified, SelectedDaily;
    if e in daily {
      DailyIsSelected(s, x, q.id);
      SelectedIsSettled(s, x, q.id);
      NotLost(s, x, q.id);
    } else {
      forall f | f in daily ensures f.id != q.id { if f.id == q.id { RequeuedIsTheOnlyOne(s, x.candidates, q, f); } }
      if Has(Overflow(classified, daily), q.id) {
        OverflowIsFresh(classified, daily, q.id);
        var f :| f in classified && f.id == q.id && IsFresh(f);
        RequeuedIsTheOnlyOne(s, x.candidates, q, f);
      }
      OtherOrigin(s, q);
      NotInBackfill(s, daily, x.page, q.id);
      NotSelected(s, x, q.id);
      NothingKeepsIt(s, x, q.id);
    }
  }

  lemma OtherOrigin(s: State, q: Entry)
    requires q in s.pending && q.origin == Daily && DistinctIds(s.pending)
    ensures forall e :: e in s.pending && e.origin == Backfill ==> e.id != q.id
  {
    forall e | e in s.pending && e.origin == Backfill ensures e.id != q.id {
      var i :| 0 <= i < |s.pending| && s.pending[i] == e;
      var j :| 0 <= j < |s.pending| && s.pending[j] == q;
      assert i != j;
    }
  }

  /** A report that overflowed stands in the saved queue as it was offered. */
  lemma OverflowIsSaved(s: State, x: Input, c: Candidate) returns (p: Entry)
    requires c in x.candidates && c.id != 0 && c.id !in s.records && c.id !in Ids(s.pending) && c.id !in Ids(x.page)
    requires DistinctIds(s.pending) && DistinctCandidates(x.candidates) && Offered(s, c).change == New
    requires c.id !in Ids(SelectedDaily(s, Classified(s, x.candidates), x.caps))
    ensures p in After(s, x).pending && p == Offered(s, c) && c.id !in After(s, x).records
  {
    var classified := Classified(s, x.candidates);
    var daily := SelectedDaily(s, classified, x.caps);
    var e := Offered(s, c);
    NewIsClassified(s, x.candidates, c);
    ClassifiedDistinct(s, x.candidates);
    var queue := BackfillQueue(s, daily, x.page);
    hide Classified, SelectedDaily, BackfillQueue, After, Selected, Offered;
    NotInBackfill(s, daily, x.page, c.id);
    NotSelected(s, x, c.id);
    RecordedMeaning(s.records, Selected(s, x), x.readable, x.now);
    SameSelection(s, x);
    SameQueue(s, x);
    FreshIsConserved(s, x, e);
    var failed := Filter(Selected(s, x), NotIn(x.readable));
    var k :| 0 <= k < |After(s, x).pending| && After(s, x).pending[k].id == e.id;
    p := After(s, x).pending[k];
    assert p in After(s, x).pending;
    SavedFromOverflow(classified, daily, Drop(queue, x.caps.backfill), failed, p, e);
  }

  lemma NewIsClassified(s: State, cs: seq<Candidate>, c: Candidate)
    requires c in cs && c.id !in Ids(s.pending) && Offered(s, c).change == New && DistinctCandidates(cs)
    ensures Offered(s, c) in Classified(s, cs) && Offered(s, c).id == c.id && IsFresh(Offered(s, c))
  {
    var queued := QueuedDaily(s.pending);
    QueuedDailyMembers(s.pending);
    assert c.id !in Ids(queued);
    OfferedDistinct(s, cs, Ids(queued));
    var k :| 0 <= k < |cs| && cs[k] == c;
  }

  lemma SavedFromOverflow(classified: seq<Entry>, daily: seq<Entry>, b: seq<Entry>, c: seq<Entry>, p: Entry, e: Entry)
    requires DistinctIds(classified) && e in classified && p.id == e.id
    requires p in Dedupe(Overflow(classified, daily) + b + c)
    requires forall x :: x in b || x in c ==> x.id != e.id
    ensures p == e
  {
    var a := Overflow(classified, daily);
    var rest := Filter(classified, FreshOutside(Ids(daily)));
    DedupeMembers(a + b + c);
    DedupeMembers(rest);
    assert p in a;
    assert p in classified;
    var i :| 0 <= i < |classified| && classified[i] == p;
    var j :| 0 <= j < |classified| && classified[j] == e;
    assert i == j;
  }

  /** Overflow is queued so that priority never discards evidence.  Yet in every two runs of
      which the first queues a new report for lack of room and succeeds at its sources, and the
      second sees nothing new about it, still waits for its answer, and has no room for a
      continuation of its rank, the report is gone: neither recorded nor queued. */
  lemma QueuedNewReportIsLost(s: State, x1: Input, x2: Input, c: Candidate)
    requires c in x1.candidates && c.id != 0 && c.id !in s.records && c.id !in Ids(s.pending) && c.id !in Ids(x1.page)
    requires DistinctIds(s.pending) && DistinctCandidates(x1.candidates) && DistinctCandidates(x2.candidates)
    requires Offered(s, c).change == New && Sticky(c.scopes)
    requires c.id !in Ids(SelectedDaily(s, Classified(s, x1.candidates), x1.caps))
    requires x1.sourcesOk && (c.row.observed.None? || c.row.observed.value <= x1.startedAt)
    requires Find(x2.candidates, c.id) == None || Find(x2.candidates, c.id) == Some(c)
    requires c.id !in Ids(x2.page)
    requires var s1 := After(s, x1);
             Rank(s1, Classified(s1, x2.candidates), Requeued(s1, x2.candidates, Offered(s, c))) >= Room(Classified(s1, x2.candidates), x2.caps)
    ensures Has(After(s, x1).pending, c.id) && Lost(After(s, x1), x2, c.id)
  {
    var s1 := After(s, x1);
    var p := OverflowIsSaved(s, x1, c);
    QueueStaysGood(s, x1);
    SuccessMovesTheCutoff(s, x1);
    hide After, Lost, Rank, Room, Classified, SelectedDaily;
    assert s1.cutoff == Some(x1.startedAt);
    assert p.id == c.id && p.row == c.row && p.scopes == c.scopes && p.change == New && p.origin == Daily;
    assert Requeued(s1, x2.candidates, p).change == Continuation;
    LostFromTheQueue(s1, x2, p);
    var i :| 0 <= i < |s1.pending| && s1.pending[i] == p;
    assert s1.pending[i].id == c.id;
  }

  lemma SuccessMovesTheCutoff(s: State, x: Input)
    ensures After(s, x).cutoff == if x.sourcesOk then Some(x.startedAt) else s.cutoff
  {
  }

  lemma FilterTwo(a: Entry, b: Entry, p: Entry -> bool)
    ensures Filter([a], p) == if p(a) then [a] else []
    ensures Filter([a, b], p) == (if p(a) then [a] else []) + (if p(b) then [b] else [])
  {
    assert [a, b][..1] == [a] && [a][..0] == [];
    assert Filter([], p) == [];
    assert [a, b] == [a] + [b] && [a] == [] + [a];
    FilterSnoc([], a, p);
    FilterSnoc([a], b, p);
  }

  lemma ClassifiedTwo(s: State, c: Candidate, d: Candidate)
    requires s.pending == [] && Offered(s, c).change == New && Offered(s, d).change == New
    ensures Classified(s, [c, d]) == [Offered(s, c), Offered(s, d)]
  {
    assert [c, d][..1] == [c] && [c][..0] == [];
    assert QueuedDaily([]) == [] && OfferedAll(s, [], {}) == [];
    assert OfferedAll(s, [c], {}) == [Offered(s, c)];
    assert Ids([]) == {};
  }

  lemma InOrder(a: Entry, b: Entry)
    requires KeyLe(FreshKey(a), FreshKey(b))
    ensures SortBy([a, b], FreshKey) == [a, b]
  {
    assert [a, b][..1] == [a] && [a][..0] == [];
    assert SortBy([], FreshKey) == [];
    assert SortBy([a], FreshKey) == [a];
  }

  const BLANK: State := State(map[], [], None)

  function FirstDay(c: Candidate, d: Candidate): Input { Input([c, d], [], Caps(1, 1, 1), {c.id}, 10, 11, true) }

  /** On a day with two new reports and room for one, the answered one is read. */
  lemma FirstDayReads(c: Candidate, d: Candidate)
    requires c.row.replied && !d.row.replied
    ensures Classified(BLANK, [c, d]) == [Offered(BLANK, c), Offered(BLANK, d)]
    ensures SelectedDaily(BLANK, [Offered(BLANK, c), Offered(BLANK, d)], Caps(1, 1, 1)) == [Offered(BLANK, c)]
  {
    var a, b := Offered(BLANK, c), Offered(BLANK, d);
    ClassifiedTwo(BLANK, c, d);
    hide Classified, Offered;
    FilterTwo(a, b, IsFresh);
    assert KeyLe(FreshKey(a), FreshKey(b));
    InOrder(a, b);
    FilterTwo(a, b, IsContinuation);
    assert SortBy([], ByContinuation(BLANK)) == [];
  }

  /** The other one is queued. */
  lemma FirstDayQueues(c: Candidate, d: Candidate)
    requires c.id != 0 && d.id != 0 && c.id != d.id && c.row.replied && !d.row.replied
    ensures After(BLANK, FirstDay(c, d)) == State(map[c.id := Record(c.row.fingerprint, 11)], [Offered(BLANK, d)], Some(10))
  {
    var a, b := Offered(BLANK, c), Offered(BLANK, d);
    FirstDayReads(c, d);
    assert a.id == c.id && b.id == d.id && a.fingerprint == c.row.fingerprint && IsFresh(b);
    hide Classified, SelectedDaily, Offered;
    OneReadOneQueued(a, b);
    QueueOfNothing([a]);
    RecordedOne(a);
    DedupeOne(b);
    hide Overflow, BackfillQueue, Recorded, Dedupe, Filter, After;
    OneStep(BLANK, FirstDay(c, d), [a, b], [a], [b]);
  }

  /** A run whose backfill queue is empty, and that reads all it selects. */
  lemma OneStep(s: State, x: Input, classified: seq<Entry>, daily: seq<Entry>, overflow: seq<Entry>)
    requires Classified(s, x.candidates) == classified && SelectedDaily(s, classified, x.caps) == daily
    requires BackfillQueue(s, daily, x.page) == [] && Overflow(classified, daily) == overflow && Filter(daily, NotIn(x.readable)) == []
    ensures After(s, x) == State(Recorded(s.records, daily, x.readable, x.now), Dedupe(overflow), if x.sourcesOk then Some(x.startedAt) else s.cutoff)
  {
    hide Classified, SelectedDaily, BackfillQueue, Overflow, Filter, Recorded, Dedupe;
    assert overflow + [] + [] == overflow;
    assert daily + [] == daily;
  }

  lemma OneReadOneQueued(a: Entry, b: Entry)
    requires a.id != b.id && b.id != 0 && IsFresh(b)
    ensures Overflow([a, b], [a]) == [b] && Filter([a], NotIn({a.id})) == []
  {
    assert Ids([a]) == {a.id};
    FilterTwo(a, b, FreshOutside({a.id}));
    FilterTwo(a, b, NotIn({a.id}));
    DedupeOne(b);
  }

  lemma QueueOfNothing(daily: seq<Entry>)
    ensures BackfillQueue(BLANK, daily, []) == []
  {
    var empty: seq<Entry> := [];
    assert Filter(empty, FromOrigin(Backfill)) == [] && empty + empty == [];
    assert Dedupe(empty) == [];
  }

  lemma DedupeOne(b: Entry)
    requires b.id != 0
    ensures Dedupe([b]) == [b]
  {
    assert [b][..0] == [];
    assert Dedupe([]) == [];
  }

  lemma RecordedOne(a: Entry)
    ensures Recorded(map[], [a], {a.id}, 11) == map[a.id := Record(a.fingerprint, 11)]
  {
    assert [a][..0] == [];
    assert Recorded(map[], [], {a.id}, 11) == map[];
  }

  /** Two ordinary days on which that happens: two reports come and there is room for one; the
      next day one more comes. */
  lemma TwoDaysThatLoseAReport(c: Candidate, d: Candidate, e: Candidate)
    requires c.id != 0 && d.id != 0 && e.id != 0 && c.id != d.id && e.id != c.id && e.id != d.id
    requires c.row.replied && !d.row.replied && Sticky(d.scopes) && d.row.observed == Some(9) && e.row.observed == Some(15)
    ensures var s1 := After(BLANK, FirstDay(c, d));
            Has(s1.pending, d.id) && Lost(s1, Input([e], [], Caps(1, 1, 1), {e.id}, 20, 21, true), d.id)
  {
    var s1 := After(BLANK, FirstDay(c, d));
    FirstDayReads(c, d);
    FirstDayQueues(c, d);
    NoRoomNextDay(c, d, e);
    NewOnTheFirstDay(c, d, e);
    hide After, Lost, SelectedDaily, Classified, Rank, Room, Requeued, Offered, Ids, Find, DistinctCandidates, DistinctIds;
    QueuedNewReportIsLost(BLANK, FirstDay(c, d), Input([e], [], Caps(1, 1, 1), {e.id}, 20, 21, true), d);
  }

  lemma NewOnTheFirstDay(c: Candidate, d: Candidate, e: Candidate)
    requires c.id != d.id && e.id != d.id
    ensures Offered(BLANK, d).change == New && DistinctIds(BLANK.pending) && DistinctCandidates([c, d]) && DistinctCandidates([e])
    ensures Find([e], d.id) == None && Ids([]) == {} && Ids([Offered(BLANK, c)]) == {c.id}
  {
  }

  /** A new report fills the one place. */
  lemma NoRoomBeside(s: State, e: Candidate)
    requires e.id !in s.records && e.id !in Ids(s.pending) && Offered(s, e).change == New
    ensures Room(Classified(s, [e]), Caps(1, 1, 1)) == 0
  {
    NewIsClassified(s, [e], e);
    hide Classified, Offered;
    assert Offered(s, e) in Filter(Classified(s, [e]), IsFresh);
  }

  lemma NoRoomNextDay(c: Candidate, d: Candidate, e: Candidate)
    requires c.id != 0 && d.id != 0 && c.id != d.id && e.id != c.id && e.id != d.id
    requires c.row.replied && !d.row.replied && e.row.observed == Some(15)
    ensures Room(Classified(After(BLANK, FirstDay(c, d)), [e]), Caps(1, 1, 1)) == 0
  {
    FirstDayQueues(c, d);
    hide After, Classified, Room;
    QueuedBeside(map[c.id := Record(c.row.fingerprint, 11)], Offered(BLANK, d), e);
  }

  lemma QueuedBeside(records: map<Id, Record>, b: Entry, e: Candidate)
    requires e.id !in records && e.id != b.id && e.row.observed == Some(15)
    ensures Room(Classified(State(records, [b], Some(10)), [e]), Caps(1, 1, 1)) == 0
  {
    assert Ids([b]) == {b.id};
    hide Classified, Room;
    NoRoomBeside(State(records, [b], Some(10)), e);
  }
}
