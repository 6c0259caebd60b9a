/** Incremental selection (scripts/cwk_collection_state.py:141-284): what a run reads in full,
    what it queues, and what it may lose.

    Report ids and times are numbers; id 0 stands for a missing id.  A row's fingerprint is a
    field of the row. */
module Collection {
  import opened Wrappers

  type Id = nat
  type Time = int

  datatype Scope = Inbox | Outbox | Pending | Unread | TodoPending | History

  datatype Row = Row(fingerprint: nat, replied: bool, observed: Option<Time>)

  datatype Change = New | Updated | Continuation | Unchanged | HistoricalBackfill

  datatype Origin = Daily | Backfill

  datatype Entry = Entry(id: Id, row: Row, scopes: set<Scope>, change: Change, origin: Origin, fingerprint: nat)

  datatype Candidate = Candidate(id: Id, row: Row, scopes: set<Scope>)

  datatype Record = Record(fingerprint: nat, processedAt: Time)

  datatype State = State(records: map<Id, Record>, pending: seq<Entry>, cutoff: Option<Time>)

  // ---------------------------------------------------------------------
  // Classification
  // ---------------------------------------------------------------------

  /** Still waiting for an answer at the source. */
  predicate Sticky(scopes: set<Scope>) { Pending in scopes || TodoPending in scopes || Unread in scopes }

  predicate BeforeCutoff(s: State, row: Row) {
    s.cutoff.Some? && (row.observed.None? || row.observed.value <= s.cutoff.value)
  }

  function Classify(s: State, id: Id, fingerprint: nat, scopes: set<Scope>, row: Row): Change {
    if id !in s.records then
      if BeforeCutoff(s, row) then (if Sticky(scopes) then Continuation else Unchanged) else New
    else if s.records[id].fingerprint != fingerprint then Updated
    else if Sticky(scopes) then Continuation
    else Unchanged
  }

  predicate IsFresh(e: Entry) { e.change == New || e.change == Updated }

  function Find(cs: seq<Candidate>, id: Id): Option<Candidate>
    decreases |cs|
  {
    if cs == [] then None else if cs[0].id == id then Some(cs[0]) else Find(cs[1..], id)
  }

  /** A queued entry, refreshed with what the source shows now. */
  function Requeued(s: State, cs: seq<Candidate>, e: Entry): Entry {
    var c := Find(cs, e.id);
    var row := if c.Some? then c.value.row else e.row;
    var scopes := if c.Some? && c.value.scopes != {} then c.value.scopes else e.scopes;
    var fingerprint := if c.Some? then row.fingerprint else e.fingerprint;
    var change := Classify(s, e.id, fingerprint, scopes, row);
    Entry(e.id, row, scopes, if change == Unchanged then e.change else change, Daily, fingerprint)
  }

  function Offered(s: State, c: Candidate): Entry {
    Entry(c.id, c.row, c.scopes, Classify(s, c.id, c.row.fingerprint, c.scopes, c.row), Daily, c.row.fingerprint)
  }

  function QueuedDaily(pending: seq<Entry>): seq<Entry>
    decreases |pending|
  {
    if pending == [] then []
    else
      var rest, e := pending[..|pending| - 1], pending[|pending| - 1];
      QueuedDaily(rest) + (if e.origin == Daily then [e] else [])
  }

  function RequeuedAll(s: State, cs: seq<Candidate>, es: seq<Entry>): (r: seq<Entry>)
    ensures |r| == |es| && forall i :: 0 <= i < |es| ==> r[i] == Requeued(s, cs, es[i])
    decreases |es|
  {
    if es == [] then [] else RequeuedAll(s, cs, es[..|es| - 1]) + [Requeued(s, cs, es[|es| - 1])]
  }

  predicate IsOffered(s: State, c: Candidate, queued: set<Id>) { c.id !in queued && Offered(s, c).change != Unchanged }

  function OfferedAll(s: State, cs: seq<Candidate>, queued: set<Id>): seq<Entry>
    decreases |cs|
  {
    if cs == [] then []
    else
      var c := cs[|cs| - 1];
      OfferedAll(s, cs[..|cs| - 1], queued) + (if IsOffered(s, c, queued) then [Offered(s, c)] else [])
  }

  function Ids(es: seq<Entry>): set<Id> { set e | e in es :: e.id }

  /** Everything this run classified as worth reading. */
  function Classified(s: State, cs: seq<Candidate>): seq<Entry> {
    var queued := QueuedDaily(s.pending);
    RequeuedAll(s, cs, queued) + OfferedAll(s, cs, Ids(queued))
  }

  // ---------------------------------------------------------------------
  // The queue: one entry for each id
  // ---------------------------------------------------------------------

  ghost predicate Has(es: seq<Entry>, id: Id) { exists i :: 0 <= i < |es| && es[i].id == id }

  ghost predicate DistinctIds(es: seq<Entry>) { forall i, j :: 0 <= i < j < |es| ==> es[i].id != es[j].id }

  function Position(r: seq<Entry>, id: Id): (k: Option<nat>)
    ensures k.Some? ==> k.value < |r| && r[k.value].id == id
    ensures k.None? ==> forall i :: 0 <= i < |r| ==> r[i].id != id
    decreases |r|
  {
    if r == [] then None
    else if r[|r| - 1].id == id then Some(|r| - 1)
    else Position(r[..|r| - 1], id)
  }

  function Enter(r: seq<Entry>, e: Entry): seq<Entry> {
    if e.id == 0 then r
    else match Position(r, e.id) case Some(k) => r[k := e] case None => r + [e]
  }

  function Dedupe(es: seq<Entry>): seq<Entry>
    decreases |es|
  {
    if es == [] then [] else Enter(Dedupe(es[..|es| - 1]), es[|es| - 1])
  }

  /** `i` is where an id first occurs, `j` where it last occurs. */
  ghost predicate FirstAt(es: seq<Entry>, id: Id, i: int) { 0 <= i < |es| && es[i].id == id && forall k :: 0 <= k < i ==> es[k].id != id }

  ghost predicate LastAt(es: seq<Entry>, id: Id, j: int) { 0 <= j < |es| && es[j].id == id && forall k :: j < k < |es| ==> es[k].id != id }

  /** What deduplication means: the result has each id once, and no missing id; an entry is
      the last one given for its id, and entries stand in the order in which their ids first
      occurred. */
  ghost predicate Deduped(es: seq<Entry>, r: seq<Entry>) {
    && DistinctIds(r)
    && (forall i :: 0 <= i < |r| ==> r[i].id != 0)
    && (forall k :: 0 <= k < |es| && es[k].id != 0 ==> Has(r, es[k].id))
    && (forall i :: 0 <= i < |r| ==> exists j :: LastAt(es, r[i].id, j) && es[j] == r[i])
    && (forall i, j, a, b :: 0 <= i < j < |r| && FirstAt(es, r[i].id, a) && FirstAt(es, r[j].id, b) ==> a < b)
  }

  lemma {:induction false} DedupeMeaning(es: seq<Entry>)
    ensures Deduped(es, Dedupe(es))
    decreases |es|
  {
    if es != [] {
      DedupeMeaning(es[..|es| - 1]);
      EnterMeaning(es[..|es| - 1], Dedupe(es[..|es| - 1]), es[|es| - 1]);
      assert es[..|es| - 1] + [es[|es| - 1]] == es;
    }
  }

  lemma EnterMeaning(es: seq<Entry>, r: seq<Entry>, e: Entry)
    requires Deduped(es, r)
    ensures Deduped(es + [e], Enter(r, e))
  {
    var r' := Enter(r, e);
    EnterIds(es, r, e);
    forall i | 0 <= i < |r'| ensures exists j :: LastAt(es + [e], r'[i].id, j) && (es + [e])[j] == r'[i] {
      if r'[i].id == e.id {
        EnterPlaces(es, r, e, i);
        assert LastAt(es + [e], e.id, |es|);
      } else {
        assert i < |r| && r[i] == r'[i];
        var j :| LastAt(es, r[i].id, j) && es[j] == r[i];
        assert LastAt(es + [e], r[i].id, j);
      }
    }
    forall i, j, a, b | 0 <= i < j < |r'| && FirstAt(es + [e], r'[i].id, a) && FirstAt(es + [e], r'[j].id, b) ensures a < b {
      EnterOrder(es, r, e, i, j, a, b);
    }
  }

  lemma EnterIds(es: seq<Entry>, r: seq<Entry>, e: Entry)
    requires Deduped(es, r)
    ensures var r' := Enter(r, e);
            && DistinctIds(r') && (forall i :: 0 <= i < |r'| ==> r'[i].id != 0)
            && (forall i :: 0 <= i < |r| ==> r'[i].id == r[i].id) && |r| <= |r'|
            && (forall k :: 0 <= k < |es + [e]| && (es + [e])[k].id != 0 ==> Has(r', (es + [e])[k].id))
  {
    var r' := Enter(r, e);
    assert |r| <= |r'| && forall i :: 0 <= i < |r| ==> r'[i].id == r[i].id;
    forall k | 0 <= k < |es + [e]| && (es + [e])[k].id != 0 ensures Has(r', (es + [e])[k].id) {
      if k < |es| {
        var i :| 0 <= i < |r| && r[i].id == es[k].id;
        assert r'[i].id == es[k].id;
      } else if Position(r, e.id).Some? {
        assert r'[Position(r, e.id).value].id == e.id;
      } else {
        assert r'[|r|].id == e.id;
      }
    }
  }

  /** The new entry is the only one of its id, and nothing else moves. */
  lemma EnterPlaces(es: seq<Entry>, r: seq<Entry>, e: Entry, i: nat)
    requires Deduped(es, r) && i < |Enter(r, e)| && Enter(r, e)[i].id == e.id
    ensures Enter(r, e)[i] == e
  {
    if e.id != 0 && Position(r, e.id).Some? { assert r[Position(r, e.id).value].id == e.id; }
  }

  lemma EnterOrder(es: seq<Entry>, r: seq<Entry>, e: Entry, i: nat, j: nat, a: int, b: int)
    requires Deduped(es, r) && i < j < |Enter(r, e)|
    requires FirstAt(es + [e], Enter(r, e)[i].id, a) && FirstAt(es + [e], Enter(r, e)[j].id, b)
    ensures a < b
  {
    EnterIds(es, r, e);
    FirstStays(es, r, e, i, a);
    if j < |r| { FirstStays(es, r, e, j, b); }
  }

  /** An id that was there keeps its first occurrence. */
  lemma FirstStays(es: seq<Entry>, r: seq<Entry>, e: Entry, i: nat, a: int)
    requires Deduped(es, r) && i < |r| && FirstAt(es + [e], r[i].id, a)
    ensures FirstAt(es, r[i].id, a)
  {
    var x :| LastAt(es, r[i].id, x) && es[x] == r[i];
    assert (es + [e])[x].id == r[i].id;
    assert a <= x;
    assert forall k :: 0 <= k <= a ==> (es + [e])[k] == es[k];
  }

  /** The table says where each id stands. */
  ghost predicate Indexes(positions: map<Id, nat>, r: seq<Entry>) {
    && DistinctIds(r)
    && (forall id :: id in positions ==> positions[id] < |r| && r[positions[id]].id == id)
    && (forall i :: 0 <= i < |r| ==> r[i].id in positions)
  }

  lemma EnterByTable(positions: map<Id, nat>, r: seq<Entry>, e: Entry)
    requires Indexes(positions, r)
    ensures e.id == 0 ==> Enter(r, e) == r
    ensures e.id != 0 && e.id in positions ==> positions[e.id] < |r| && Enter(r, e) == r[positions[e.id] := e] && Indexes(positions, Enter(r, e))
    ensures e.id != 0 && e.id !in positions ==> Enter(r, e) == r + [e] && Indexes(positions[e.id := |r|], Enter(r, e))
  {
    if e.id != 0 && e.id in positions {
      assert Position(r, e.id).Some?;
      assert r[Position(r, e.id).value].id == e.id == r[positions[e.id]].id;
    }
  }

  lemma DedupeStep(entries: seq<Entry>, n: nat)
    requires n < |entries|
    ensures Dedupe(entries[..n + 1]) == Enter(Dedupe(entries[..n]), entries[n])
  {
    assert entries[..n + 1][..n] == entries[..n];
  }

  /** The loop keeps a table of positions instead of searching. */
  method DedupePending(entries: seq<Entry>) returns (result: seq<Entry>)
    ensures result == Dedupe(entries)
    ensures Deduped(entries, result)
  {
    hide Indexes, Enter, Deduped, Dedupe;
    result := [];
    var positions: map<Id, nat> := map[];
    NothingIndexed();
    var n := 0;
    while n < |entries|
      invariant 0 <= n <= |entries|
      invariant result == Dedupe(entries[..n]) && Indexes(positions, result)
    {
      var e := entries[n];
      DedupeStep(entries, n);
      EnterByTable(positions, result, e);
      if e.id != 0 {
        if e.id in positions {
          result := result[positions[e.id] := e];
        } else {
          positions := positions[e.id := |result|];
          result := result + [e];
        }
      }
      n := n + 1;
    }
    assert entries[..n] == entries;
    DedupeMeaning(entries);
  }

  lemma NothingIndexed()
    ensures Indexes(map[], []) && forall es: seq<Entry> :: es == [] ==> Dedupe(es) == []
  {
  }
}
