/** The current version of a report, read twice without a lock
    (scripts/cwk_canonical_version_provider.py:421-589).

    SHA-256 is taken as injective: the head names the log it was made from, and a digest is
    the thing it digests.  Grammar checks of one entry are its field `wellFormed`. */
module CatalogProvider {
  import opened Wrappers

  datatype Entry = Entry(reportKey: nat, canonical: nat, object_: nat, wellFormed: bool)

  /** The log file: its records, and whether the last one ends with a newline. */
  datatype Log = Log(entries: seq<Entry>, terminated: bool)

  datatype Head = Head(
    reportKey: nat, revision: nat, count: nat, latestCanonical: nat, latestObject: nat, log: Log, wellFormed: bool)

  datatype Snapshot = Snapshot(reportKey: nat, canonical: nat, revision: nat, head: Head)

  // ---------------------------------------------------------------------
  // One observation
  // ---------------------------------------------------------------------

  predicate HeadOk(h: Head, key: nat) { h.wellFormed && h.reportKey == key && h.count == h.revision && h.revision >= 1 }

  predicate EntryOk(e: Entry, key: nat) { e.wellFormed && e.reportKey == key }

  ghost predicate NoDuplicates(es: seq<Entry>) {
    forall i, j :: 0 <= i < j < |es| ==> es[i].canonical != es[j].canonical && es[i].object_ != es[j].object_
  }

  ghost predicate LogOk(l: Log, key: nat) {
    l.terminated && l.entries != [] && (forall i :: 0 <= i < |l.entries| ==> EntryOk(l.entries[i], key)) && NoDuplicates(l.entries)
  }

  /** Parses record by record and remembers both identities of every version. */
  method ParseEntries(l: Log, key: nat) returns (entries: Option<seq<Entry>>)
    ensures entries.Some? <==> LogOk(l, key)
    ensures entries.Some? ==> entries.value == l.entries
  {
    if !l.terminated || l.entries == [] { return None; }
    var parsed: seq<Entry> := [];
    var canonicalSeen: set<nat>, objectSeen: set<nat> := {}, {};
    while |parsed| < |l.entries|
      invariant |parsed| <= |l.entries| && parsed == l.entries[..|parsed|]
      invariant forall i :: 0 <= i < |parsed| ==> EntryOk(parsed[i], key)
      invariant NoDuplicates(parsed)
      invariant forall c :: c in canonicalSeen <==> exists i :: 0 <= i < |parsed| && parsed[i].canonical == c
      invariant forall o :: o in objectSeen <==> exists i :: 0 <= i < |parsed| && parsed[i].object_ == o
      decreases |l.entries| - |parsed|
    {
      var e := l.entries[|parsed|];
      if !EntryOk(e, key) { return None; }
      if e.canonical in canonicalSeen || e.object_ in objectSeen {
        var i :| 0 <= i < |parsed| && (parsed[i].canonical == e.canonical || parsed[i].object_ == e.object_);
        assert l.entries[i] == parsed[i];
        return None;
      }
      canonicalSeen, objectSeen := canonicalSeen + {e.canonical}, objectSeen + {e.object_};
      ghost var before := parsed;
      parsed := parsed + [e];
      assert forall i :: 0 <= i < |before| ==> parsed[i] == before[i];
      assert parsed[|before|] == e;
    }
    return Some(parsed);
  }

  /** A head and a log that belong together. */
  ghost predicate ObservationOk(h: Head, l: Log, key: nat) {
    && HeadOk(h, key) && LogOk(l, key)
    && |l.entries| == h.count && h.log == l
    && l.entries[|l.entries| - 1].canonical == h.latestCanonical
    && l.entries[|l.entries| - 1].object_ == h.latestObject
  }

  method Observe(h: Head, l: Log, key: nat) returns (s: Option<Snapshot>)
    ensures s.Some? <==>
              && h.wellFormed && h.reportKey == key && h.revision >= 1 && h.count == h.revision
              && l.terminated && h.log == l && |l.entries| == h.count
              && (forall i :: 0 <= i < |l.entries| ==> l.entries[i].wellFormed && l.entries[i].reportKey == key)
              && (forall i, j :: 0 <= i < j < |l.entries| ==> l.entries[i].canonical != l.entries[j].canonical && l.entries[i].object_ != l.entries[j].object_)
              && l.entries[|l.entries| - 1].canonical == h.latestCanonical && l.entries[|l.entries| - 1].object_ == h.latestObject
    ensures s.Some? <==> ObservationOk(h, l, key)
    ensures s.Some? ==> s.value == Snapshot(key, h.latestCanonical, h.revision, h)
  {
    if !HeadOk(h, key) { return None; }
    var entries := ParseEntries(l, key);
    if entries.None? || |entries.value| != h.count || h.log != l { return None; }
    var latest := entries.value[|entries.value| - 1];
    if latest.canonical != h.latestCanonical || latest.object_ != h.latestObject { return None; }
    return Some(Snapshot(key, h.latestCanonical, h.revision, h));
  }

  /** The four reads of one resolution, and what the object store says in between. */
  datatype Reads = Reads(head1: Head, log1: Log, objectOk: bool, head2: Head, log2: Log)

  ghost predicate Resolves(r: Reads, key: nat) {
    ObservationOk(r.head1, r.log1, key) && r.objectOk && r.head2 == r.head1 && r.log2 == r.log1
  }

  method ResolveCurrent(r: Reads, key: nat) returns (s: Option<Snapshot>)
    ensures s.Some? <==> Resolves(r, key)
    ensures s.Some? ==> r.objectOk && r.head2 == r.head1 && r.log2 == r.log1 && r.head1.log == r.log1 && r.head1.reportKey == key
    ensures !r.objectOk || r.head2 != r.head1 || r.log2 != r.log1 ==> s == None
    ensures s.Some? ==> s.value == Snapshot(key, r.head1.latestCanonical, r.head1.revision, r.head1)
  {
    var first := Observe(r.head1, r.log1, key);
    if first.None? || !r.objectOk { return None; }
    var second := Observe(r.head2, r.log2, key);
    if second.None? || r.head1 != r.head2 || r.log1 != r.log2 { return None; }
    return first;
  }

  // ---------------------------------------------------------------------
  // Against a concurrent writer
  // ---------------------------------------------------------------------

  datatype Disk = Disk(head: Head, log: Log)

  /** The writer appends a version to the log, or publishes a head with a larger revision, in
      whichever order; each is one atomic replacement of a file. */
  ghost predicate WriterStep(d: Disk, d': Disk) {
    || d' == d
    || (d'.head == d.head && |d.log.entries| < |d'.log.entries| && d.log.entries <= d'.log.entries)
    || (d'.log == d.log && d.head.revision < d'.head.revision)
  }

  ghost predicate AppendOnly(trace: seq<Disk>) { forall t :: 0 < t < |trace| ==> WriterStep(trace[t - 1], trace[t]) }

  lemma {:induction false} RevisionsGrow(trace: seq<Disk>, a: nat, b: nat)
    requires AppendOnly(trace) && a <= b < |trace|
    ensures trace[a].head == trace[b].head || trace[a].head.revision < trace[b].head.revision
    ensures trace[a].log == trace[b].log || |trace[a].log.entries| < |trace[b].log.entries|
    decreases b - a
  {
    if a < b { RevisionsGrow(trace, a, b - 1); assert WriterStep(trace[b - 1], trace[b]); }
  }

  /** The files do not change between two moments at which they are equal. */
  lemma NothingHappened(trace: seq<Disk>, a: nat, t: nat, b: nat)
    requires AppendOnly(trace) && a <= t <= b < |trace|
    ensures trace[a].head == trace[b].head ==> trace[t].head == trace[a].head
    ensures trace[a].log == trace[b].log ==> trace[t].log == trace[a].log
  {
    RevisionsGrow(trace, a, t);
    RevisionsGrow(trace, t, b);
  }

  /** Every head on disk was made from a log that was on disk at some moment, and names what
      it was made from correctly. */
  ghost predicate MadeFrom(trace: seq<Disk>, key: nat) {
    forall t :: 0 <= t < |trace| ==> ObservationOk(trace[t].head, trace[t].head.log, key) && OnDisk(trace, trace[t].head.log)
  }

  ghost predicate OnDisk(trace: seq<Disk>, l: Log) { exists u :: 0 <= u < |trace| && trace[u].log == l }

  /** Of an append-only log two versions of the same length are the same version. */
  lemma LengthsTellLogsApart(trace: seq<Disk>, a: nat, b: nat)
    requires AppendOnly(trace) && a < |trace| && b < |trace|
    ensures trace[a].log == trace[b].log <==> |trace[a].log.entries| == |trace[b].log.entries|
  {
    if a <= b { RevisionsGrow(trace, a, b); } else { RevisionsGrow(trace, b, a); }
  }

  /** A head read at one moment and a log read at another are accepted exactly when that log is
      the one the head was made from, that is, exactly when the head's revision is the number
      of versions in the log, whatever the writer did in between and in whichever order the
      reads happened.  Files of different revisions are never accepted. */
  lemma AcceptedExactlyWhenUntorn(trace: seq<Disk>, t1: nat, t2: nat, key: nat)
    requires AppendOnly(trace) && MadeFrom(trace, key) && t1 < |trace| && t2 < |trace|
    ensures ObservationOk(trace[t1].head, trace[t2].log, key) <==> trace[t2].log == trace[t1].head.log
    ensures ObservationOk(trace[t1].head, trace[t2].log, key) <==> |trace[t2].log.entries| == trace[t1].head.revision
  {
    hide AppendOnly, MadeFrom, ObservationOk;
    var u := MadeAt(trace, t1, key);
    LengthsTellLogsApart(trace, u, t2);
    BelongTogether(trace[t1].head, trace[t2].log, key);
  }

  lemma MadeAt(trace: seq<Disk>, t: nat, key: nat) returns (u: nat)
    requires MadeFrom(trace, key) && t < |trace|
    ensures u < |trace| && trace[u].log == trace[t].head.log && ObservationOk(trace[t].head, trace[t].head.log, key)
  {
    hide ObservationOk;
    assert OnDisk(trace, trace[t].head.log);
    u :| 0 <= u < |trace| && trace[u].log == trace[t].head.log;
  }

  lemma BelongTogether(h: Head, l: Log, key: nat)
    requires ObservationOk(h, h.log, key)
    ensures ObservationOk(h, l, key) <==> l == h.log
    ensures |h.log.entries| == h.revision
  {
  }

  /** What `resolve_current` returns was the current head at every moment between its two head
      reads, and the version it names was the last of the log at every moment between its two
      log reads, whatever the writer did around them. */
  lemma SnapshotWasCurrentThroughout(trace: seq<Disk>, t1: nat, t2: nat, t3: nat, t4: nat, objectOk: bool, key: nat, t: nat)
    requires AppendOnly(trace) && t1 <= t2 <= t3 <= t4 < |trace|
    requires Resolves(Reads(trace[t1].head, trace[t2].log, objectOk, trace[t3].head, trace[t4].log), key)
    ensures objectOk
    ensures t1 <= t <= t3 ==> trace[t].head == trace[t1].head
    ensures t2 <= t <= t4 ==> trace[t].log == trace[t2].log && trace[t].log.entries != []
                              && trace[t].log.entries[|trace[t].log.entries| - 1].canonical == trace[t1].head.latestCanonical
    ensures t2 <= t <= t3 ==> ObservationOk(trace[t].head, trace[t].log, key)
  {
    if t1 <= t <= t3 { NothingHappened(trace, t1, t, t3); }
    if t2 <= t <= t4 { NothingHappened(trace, t2, t, t4); }
  }

  /** And it does resolve when the writer is quiet and the files belong together. */
  lemma QuietCatalogResolves(trace: seq<Disk>, t1: nat, t2: nat, t3: nat, t4: nat, key: nat)
    requires AppendOnly(trace) && t1 <= t2 <= t3 <= t4 < |trace|
    requires trace[t1] == trace[t4] && ObservationOk(trace[t1].head, trace[t1].log, key)
    ensures Resolves(Reads(trace[t1].head, trace[t2].log, true, trace[t3].head, trace[t4].log), key)
  {
    NothingHappened(trace, t1, t2, t4);
    NothingHappened(trace, t1, t3, t4);
  }
}
