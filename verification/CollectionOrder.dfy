/** In which order a run reads, told from rows and records alone
    (scripts/cwk_collection_state.py:141-163 and 216-277). */
module CollectionOrder {
  import opened Wrappers
  import opened Collection
  import opened CollectionRun

  /** A reply or workflow change first, then an update before a new report, then by id. */
  predicate FreshBefore(x: Entry, y: Entry) {
    || (x.row.replied && !y.row.replied)
    || (x.row.replied == y.row.replied && x.change == Updated && y.change == New)
    || (x.row.replied == y.row.replied && x.change == y.change && x.id <= y.id)
  }

  /** What was never processed first, then what was processed longest ago, then by id. */
  predicate WaitedLonger(records: map<Id, Record>, x: Entry, y: Entry) {
    if x.id in records then
      && y.id in records
      && (|| records[x.id].processedAt < records[y.id].processedAt
          || (records[x.id].processedAt == records[y.id].processedAt && x.id <= y.id))
    else y.id in records || x.id <= y.id
  }

  lemma WhatTheKeysMean(s: State, x: Entry, y: Entry)
    ensures IsFresh(x) && IsFresh(y) ==> (KeyLe(FreshKey(x), FreshKey(y)) <==> FreshBefore(x, y))
    ensures KeyLe(ContinuationKey(s, x), ContinuationKey(s, y)) <==> WaitedLonger(s.records, x, y)
  {
  }

  /** The reports of a run are read in this order: new and updated ones before continuations,
      each kind in its own order. */
  lemma ReadingOrder(s: State, classified: seq<Entry>, caps: Caps, i: nat, j: nat)
    requires i < j < |SelectedDaily(s, classified, caps)|
    ensures var x, y := SelectedDaily(s, classified, caps)[i], SelectedDaily(s, classified, caps)[j];
            && x in classified && y in classified
            && (y.change == New || y.change == Updated ==> (x.change == New || x.change == Updated) && FreshBefore(x, y))
            && (x.change == Continuation ==> y.change == Continuation && WaitedLonger(s.records, x, y))
  {
    var urgent := Fresh(classified);
    var sorted := SortBy(Filter(classified, IsContinuation), ByContinuation(s));
    SortSorts(Filter(classified, IsFresh), FreshKey);
    SortSorts(Filter(classified, IsContinuation), ByContinuation(s));
    SortKeepsMembers(Filter(classified, IsFresh), FreshKey);
    SortKeepsMembers(Filter(classified, IsContinuation), ByContinuation(s));
    hide Sorted, SortBy, Filter, KeyLe, FreshKey, ContinuationKey;
    TwoPlaces(urgent, sorted, ByContinuation(s), caps, i, j);
    var x, y := SelectedDaily(s, classified, caps)[i], SelectedDaily(s, classified, caps)[j];
    WhatTheKeysMean(s, x, y);
  }

  lemma TwoPlaces(urgent: seq<Entry>, sorted: seq<Entry>, key: Entry -> Key, caps: Caps, i: nat, j: nat)
    requires Sorted(urgent, FreshKey) && Sorted(sorted, key) && i < j < |Take(urgent + Take(sorted, caps.continuation), caps.detail)|
    ensures var all := Take(urgent + Take(sorted, caps.continuation), caps.detail);
            if j < |urgent| then all[i] in urgent && all[j] in urgent && KeyLe(FreshKey(all[i]), FreshKey(all[j]))
            else all[j] in sorted && (if i < |urgent| then all[i] in urgent else all[i] in sorted && KeyLe(key(all[i]), key(all[j])))
  {
    var conts := Take(sorted, caps.continuation);
    var all := urgent + conts;
    assert forall k :: 0 <= k < |urgent| ==> all[k] == urgent[k];
    assert forall k :: |urgent| <= k < |all| ==> all[k] == sorted[k - |urgent|];
  }

  /** What is left unread had nothing before it that it should have preceded. */
  lemma UnreadComesLater(s: State, classified: seq<Entry>, caps: Caps, x: Entry, e: Entry)
    requires x in SelectedDaily(s, classified, caps) && e in classified && e !in SelectedDaily(s, classified, caps)
    ensures e.change == New || e.change == Updated ==> (x.change == New || x.change == Updated) && FreshBefore(x, e)
    ensures e.change == Continuation && x.change == Continuation ==> WaitedLonger(s.records, x, e)
  {
    var urgent, conts := Fresh(classified), Continuations(s, classified, caps.continuation);
    var sorted := SortBy(Filter(classified, IsContinuation), ByContinuation(s));
    SortSorts(Filter(classified, IsFresh), FreshKey);
    SortSorts(Filter(classified, IsContinuation), ByContinuation(s));
    SortKeepsMembers(Filter(classified, IsFresh), FreshKey);
    SortKeepsMembers(Filter(classified, IsContinuation), ByContinuation(s));
    WhatTheKeysMean(s, x, e);
    if IsFresh(e) {
      FreshUnread(urgent, conts, caps.detail, x, e);
    } else if e.change == Continuation && x.change == Continuation {
      ContinuationUnread(urgent, sorted, caps, ByContinuation(s), x, e);
    }
  }

  /** And a run reads as many as its caps let it. */
  lemma HowManyAreRead(s: State, classified: seq<Entry>, caps: Caps)
    ensures var urgent, waiting := |Filter(classified, IsFresh)|, |Filter(classified, IsContinuation)|;
            var all := urgent + (if waiting < caps.continuation then waiting else caps.continuation);
            |SelectedDaily(s, classified, caps)| == if all < caps.detail then all else caps.detail
    ensures forall e :: IsFresh(e) <==> e.change == New || e.change == Updated
    ensures forall e :: IsContinuation(e) <==> e.change == Continuation
  {
    SortKeepsMembers(Filter(classified, IsFresh), FreshKey);
    SortKeepsMembers(Filter(classified, IsContinuation), ByContinuation(s));
  }

  lemma FreshUnread(urgent: seq<Entry>, conts: seq<Entry>, n: nat, x: Entry, e: Entry)
    requires Sorted(urgent, FreshKey) && e in urgent && x in Take(urgent + conts, n) && e !in Take(urgent + conts, n)
    ensures x in urgent && KeyLe(FreshKey(x), FreshKey(e))
  {
    var i :| 0 <= i < |urgent| && urgent[i] == e;
    TakeIndex(urgent, conts, n, i);
    var j :| 0 <= j < |Take(urgent + conts, n)| && Take(urgent + conts, n)[j] == x;
    assert urgent[j] == x;
  }

  lemma ContinuationUnread(urgent: seq<Entry>, sorted: seq<Entry>, caps: Caps, key: Entry -> Key, x: Entry, e: Entry)
    requires Sorted(sorted, key) && e in sorted && x in sorted && x !in urgent
    requires x in Take(urgent + Take(sorted, caps.continuation), caps.detail) && e !in Take(urgent + Take(sorted, caps.continuation), caps.detail)
    ensures KeyLe(key(x), key(e))
  {
    var conts := Take(sorted, caps.continuation);
    var all := urgent + conts;
    var j :| 0 <= j < |Take(all, caps.detail)| && Take(all, caps.detail)[j] == x;
    assert all[j] == x && j >= |urgent| && sorted[j - |urgent|] == x;
    var i :| 0 <= i < |sorted| && sorted[i] == e;
    if i < |conts| {
      assert all[|urgent| + i] == e;
      TakeHolds(all, caps.detail, |urgent| + i);
    }
  }

  lemma TakeHolds(es: seq<Entry>, n: nat, k: nat)
    requires k < |es|
    ensures k < n ==> es[k] in Take(es, n)
  {
    if k < n { assert Take(es, n)[k] == es[k]; }
  }

  /** How a report is classified: not recorded and observed after the cutoff, new; recorded with
      another fingerprint, updated; of the rest, what still waits for an answer is continued and
      the others are unchanged. */
  lemma Classes(s: State, id: Id, fingerprint: nat, scopes: set<Scope>, row: Row)
    ensures var waiting := Pending in scopes || TodoPending in scopes || Unread in scopes;
            var past := s.cutoff.Some? && (row.observed.None? || row.observed.value <= s.cutoff.value);
            match Classify(s, id, fingerprint, scopes, row)
            case New => id !in s.records && !past
            case Updated => id in s.records && s.records[id].fingerprint != fingerprint
            case Continuation => waiting && (if id in s.records then s.records[id].fingerprint == fingerprint else past)
            case Unchanged => !waiting && (if id in s.records then s.records[id].fingerprint == fingerprint else past)
            case HistoricalBackfill => false
  {
  }

  /** A queued entry is refreshed from the row that the source shows now, if it shows one; its
      origin is daily, and when nothing about it changed it keeps the class it was queued with. */
  lemma WhatRequeueingKeeps(s: State, cs: seq<Candidate>, e: Entry)
    ensures var r := Requeued(s, cs, e);
            && r.id == e.id && r.origin == Daily
            && match Find(cs, e.id)
               case None =>
                 && r.row == e.row && r.scopes == e.scopes && r.fingerprint == e.fingerprint
                 && (r.change == Classify(s, e.id, e.fingerprint, e.scopes, e.row) || (r.change == e.change && Classify(s, e.id, e.fingerprint, e.scopes, e.row) == Unchanged))
               case Some(c) =>
                 && r.row == c.row && r.fingerprint == c.row.fingerprint && r.scopes == (if c.scopes == {} then e.scopes else c.scopes)
                 && (r.change == Classify(s, e.id, c.row.fingerprint, r.scopes, c.row) || (r.change == e.change && Classify(s, e.id, c.row.fingerprint, r.scopes, c.row) == Unchanged))
  {
  }

  lemma {:induction false} FindFinds(cs: seq<Candidate>, id: Id)
    ensures match Find(cs, id)
            case None => forall c :: c in cs ==> c.id != id
            case Some(c) => c in cs && c.id == id
    decreases |cs|
  {
    if cs != [] && cs[0].id != id { FindFinds(cs[1..], id); assert cs == [cs[0]] + cs[1..]; }
  }
}
