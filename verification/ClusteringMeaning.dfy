/** What a merge of batches means, told from the events alone
    (scripts/cwk_ai_event_clustering.py:41-50 and 278-342; scripts/cwk_ai_common.py:718-755). */
module ClusteringMeaning {
  import opened Wrappers
  import opened Clustering

  // ---------------------------------------------------------------------
  // Groups
  // ---------------------------------------------------------------------

  /** The events of one anchor, in their order. */
  function OfAnchor(events: seq<Event>, anchor: nat): seq<Event>
    decreases |events|
  {
    if events == [] then []
    else OfAnchor(events[..|events| - 1], anchor) + (if events[|events| - 1].anchor == anchor then [events[|events| - 1]] else [])
  }

  ghost predicate Partition(events: seq<Event>, groups: seq<Group>) {
    && (forall g :: 0 <= g < |groups| ==> groups[g].members == OfAnchor(events, groups[g].anchor) && groups[g].members != [])
    && (forall g, h :: 0 <= g < h < |groups| ==> groups[g].anchor != groups[h].anchor)
    && (forall i :: 0 <= i < |events| ==> HasGroup(groups, events[i].anchor))
  }

  ghost predicate HasGroup(groups: seq<Group>, anchor: nat) { exists g :: 0 <= g < |groups| && groups[g].anchor == anchor }

  /** Where a placed event goes. */
  lemma {:induction false} PlaceMeans(groups: seq<Group>, e: Event)
    requires forall g, h :: 0 <= g < h < |groups| ==> groups[g].anchor != groups[h].anchor
    ensures var r := Place(groups, e);
            && |r| == |groups| + (if HasGroup(groups, e.anchor) then 0 else 1)
            && (forall g :: 0 <= g < |groups| ==>
                  r[g] == if groups[g].anchor == e.anchor then Group(e.anchor, groups[g].members + [e]) else groups[g])
            && (!HasGroup(groups, e.anchor) ==> r[|groups|] == Group(e.anchor, [e]))
    decreases |groups|
  {
    if groups != [] && groups[0].anchor != e.anchor {
      var rest := groups[1..];
      assert forall g :: 0 <= g < |rest| ==> rest[g] == groups[g + 1];
      PlaceMeans(rest, e);
      assert HasGroup(rest, e.anchor) <==> HasGroup(groups, e.anchor) by {
        if g :| 0 <= g < |groups| && groups[g].anchor == e.anchor { assert rest[g - 1].anchor == e.anchor; }
      }
      var r := Place(groups, e);
      assert r == [groups[0]] + Place(rest, e);
      forall g | 0 <= g < |groups| ensures r[g] == if groups[g].anchor == e.anchor then Group(e.anchor, groups[g].members + [e]) else groups[g] {
        if g > 0 { assert r[g] == Place(rest, e)[g - 1]; }
      }
    } else if groups != [] {
      assert groups[0].anchor == e.anchor && HasGroup(groups, e.anchor);
    }
  }

  /** Grouping gives each anchor one group, of exactly its events in their order. */
  lemma {:induction false} GroupedMeans(events: seq<Event>)
    ensures Partition(events, Grouped(events))
    decreases |events|
  {
    if events != [] {
      var rest, e := events[..|events| - 1], events[|events| - 1];
      GroupedMeans(rest);
      PlaceMeans(Grouped(rest), e);
      GroupsGrow(rest, Grouped(rest), e, Grouped(events));
      assert rest + [e] == events;
    }
  }

  lemma GroupsGrow(events: seq<Event>, groups: seq<Group>, e: Event, r: seq<Group>)
    requires Partition(events, groups)
    requires |r| == |groups| + (if HasGroup(groups, e.anchor) then 0 else 1)
    requires forall g :: 0 <= g < |groups| ==> r[g] == if groups[g].anchor == e.anchor then Group(e.anchor, groups[g].members + [e]) else groups[g]
    requires !HasGroup(groups, e.anchor) ==> r[|groups|] == Group(e.anchor, [e])
    ensures Partition(events + [e], r)
  {
    assert (events + [e])[..|events|] == events;
    if !HasGroup(groups, e.anchor) { NoneOfAnchor(events, groups, e.anchor); }
    forall i | 0 <= i < |events + [e]| ensures HasGroup(r, (events + [e])[i].anchor) {
      if i < |events| {
        assert HasGroup(groups, events[i].anchor);
        var g :| 0 <= g < |groups| && groups[g].anchor == events[i].anchor;
        assert r[g].anchor == events[i].anchor;
      } else if HasGroup(groups, e.anchor) {
        var g :| 0 <= g < |groups| && groups[g].anchor == e.anchor;
        assert r[g].anchor == e.anchor;
      } else {
        assert r[|groups|].anchor == e.anchor;
      }
    }
  }

  lemma NoneOfAnchor(events: seq<Event>, groups: seq<Group>, anchor: nat)
    requires Partition(events, groups) && !HasGroup(groups, anchor)
    ensures OfAnchor(events, anchor) == []
  {
    forall i | 0 <= i < |events| ensures events[i].anchor != anchor { assert HasGroup(groups, events[i].anchor); }
    NothingOfAnchor(events, anchor);
  }

  lemma {:induction false} NothingOfAnchor(events: seq<Event>, anchor: nat)
    requires forall i :: 0 <= i < |events| ==> events[i].anchor != anchor
    ensures OfAnchor(events, anchor) == []
    decreases |events|
  {
    if events != [] { NothingOfAnchor(events[..|events| - 1], anchor); }
  }

  // ---------------------------------------------------------------------
  // One merged event
  // ---------------------------------------------------------------------

  /** The most urgent priority of the members, and the status that most asks for attention. */
  lemma {:induction false} TopsMean(es: seq<Event>)
    requires es != [] && forall e :: e in es ==> e.priority != BadPriority && e.status != BadStatus && e.status != NoStatus
    ensures TopPriority(es) == P0 <==> exists e :: e in es && e.priority == P0
    ensures TopPriority(es) == FYI <==> forall e :: e in es ==> e.priority == FYI
    ensures TopPriority(es) == P1 <==> (exists e :: e in es && e.priority == P1) && forall e :: e in es ==> e.priority != P0
    ensures TopPriority(es) == P2 <==> (exists e :: e in es && e.priority == P2) && forall e :: e in es ==> e.priority == P2 || e.priority == FYI
    ensures TopStatus(es) == Blocked <==> exists e :: e in es && e.status == Blocked
    ensures TopStatus(es) == Updated <==> (exists e :: e in es && e.status == Updated) && forall e :: e in es ==> e.status != Blocked
    ensures TopStatus(es) == Continuing <==> (exists e :: e in es && e.status == Continuing) && forall e :: e in es ==> e.status != Blocked && e.status != Updated
    ensures TopStatus(es) == New <==> (exists e :: e in es && e.status == New) && forall e :: e in es ==> e.status == New || e.status == Unknown || e.status == Closed
    ensures TopStatus(es) == Closed <==> forall e :: e in es ==> e.status == Closed
    ensures TopStatus(es) == Unknown <==> (exists e :: e in es && e.status == Unknown) && forall e :: e in es ==> e.status == Unknown || e.status == Closed
  {
    TopsAreMembers(es);
    var i :| 0 <= i < |es| && es[i].priority == TopPriority(es);
    var j :| 0 <= j < |es| && es[j].status == TopStatus(es);
    assert es[i] in es && es[j] in es;
    forall e | e in es ensures PriorityRank(TopPriority(es)) <= PriorityRank(e.priority) && StatusRank(TopStatus(es)) <= StatusRank(e.status) {
      var k :| 0 <= k < |es| && es[k] == e;
    }
  }

  ghost predicate Mentions(items: seq<Item>, t: nat) { exists i :: 0 <= i < |items| && items[i].text == t }

  /** The items of a kind are those of the members, in their order. */
  lemma ItemsGrow(es: seq<Event>, e: Event)
    ensures AllItems([], DecisionsPart) == AllItems([], ActionsPart) == AllItems([], RisksPart) == []
    ensures AllItems(es + [e], DecisionsPart) == AllItems(es, DecisionsPart) + e.decisions
    ensures AllItems(es + [e], ActionsPart) == AllItems(es, ActionsPart) + e.actions
    ensures AllItems(es + [e], RisksPart) == AllItems(es, RisksPart) + e.risks
  {
    assert (es + [e])[..|es|] == es;
  }

  /** An item is kept exactly when it has a text that no item before it had. */
  lemma DedupeGrows(items: seq<Item>, x: Item)
    ensures DedupeItems([]) == []
    ensures DedupeItems(items + [x]) == DedupeItems(items) + (if x.text != 0 && !Mentions(items, x.text) then [x] else [])
  {
    assert (items + [x])[..|items|] == items;
    SameTexts(items, x.text);
  }

  lemma {:induction false} SameTexts(items: seq<Item>, t: nat)
    ensures t != 0 ==> (HasText(DedupeItems(items), t) <==> Mentions(items, t))
    decreases |items|
  {
    if items != [] {
      var rest, last := items[..|items| - 1], items[|items| - 1];
      SameTexts(rest, t);
      assert items == rest + [last];
      assert Mentions(items, t) <==> Mentions(rest, t) || last.text == t;
      assert (DedupeItems(rest) + [last])[..|DedupeItems(rest)|] == DedupeItems(rest);
    }
  }

  ghost predicate Says(es: seq<Event>, why: bool, text: string) { exists i :: 0 <= i < |es| && (if why then es[i].why else es[i].summary) == text }

  /** A summary or reason is quoted exactly when it is not empty and no member before said it. */
  lemma TextsGrow(es: seq<Event>, e: Event, why: bool)
    ensures Texts([], why) == []
    ensures var text := if why then e.why else e.summary;
            Texts(es + [e], why) == Texts(es, why) + (if text != "" && !Says(es, why, text) then [text] else [])
    ensures Join(Texts([], why)) == ""
    ensures var text := if why then e.why else e.summary;
            Join(Texts(es + [e], why)) ==
              if text == "" || Says(es, why, text) then Join(Texts(es, why))
              else if Texts(es, why) == [] then text else Join(Texts(es, why)) + "；" + text
  {
    var text := if why then e.why else e.summary;
    assert (es + [e])[..|es|] == es;
    SameSayings(es, why, text);
    assert (Texts(es, why) + [text])[..|Texts(es, why)|] == Texts(es, why);
  }

  lemma {:induction false} SameSayings(es: seq<Event>, why: bool, text: string)
    ensures text != "" ==> (text in Texts(es, why) <==> Says(es, why, text))
    decreases |es|
  {
    if es != [] {
      var rest, last := es[..|es| - 1], es[|es| - 1];
      SameSayings(rest, why, text);
      assert es == rest + [last];
      assert Says(es, why, text) <==> Says(rest, why, text) || (if why then last.why else last.summary) == text;
    }
  }

  /** The merged event of a group: title and kind of its first event; the most urgent priority,
      which is the highest only while something is blocked; every record of every member; the
      members' texts joined and cut, with a stock reason where nobody gave one; and of each kind the
      first few items with different texts. */
  lemma WhatAMergeIs(g: Group)
    requires g.members != []
    ensures var m := Merged(g);
            && m.anchor == g.anchor && m.id == StableId(g.anchor) && m.title == g.members[0].title && m.kind == g.members[0].kind
            && m.status == TopStatus(g.members)
            && m.priority == (if TopPriority(g.members) == P0 && m.status != Blocked then P1 else TopPriority(g.members))
            && (forall id :: id in m.records <==> exists i :: 0 <= i < |g.members| && id in g.members[i].records)
            && m.summary <= Join(Texts(g.members, false)) && |m.summary| == Least(|Join(Texts(g.members, false))|, 800)
            && (Join(Texts(g.members, true)) != "" ==> m.why <= Join(Texts(g.members, true)) && |m.why| == Least(|Join(Texts(g.members, true))|, 500))
            && (Join(Texts(g.members, true)) == "" ==> m.why == "需结合原文判断。")
            && m.decisions <= DedupeItems(AllItems(g.members, DecisionsPart)) && |m.decisions| == Least(|DedupeItems(AllItems(g.members, DecisionsPart))|, 8)
            && m.actions <= DedupeItems(AllItems(g.members, ActionsPart)) && |m.actions| == Least(|DedupeItems(AllItems(g.members, ActionsPart))|, 10)
            && m.risks <= DedupeItems(AllItems(g.members, RisksPart)) && |m.risks| == Least(|DedupeItems(AllItems(g.members, RisksPart))|, 8)
  {
    RecordsOfAll(g.members);
    hide AllRecords, TopStatus, TopPriority, Join, Texts, DedupeItems, AllItems;
    CutMeans(Join(Texts(g.members, false)), 800);
    CutMeans(Join(Texts(g.members, true)), 500);
    CutItemsMeans(DedupeItems(AllItems(g.members, DecisionsPart)), 8);
    CutItemsMeans(DedupeItems(AllItems(g.members, ActionsPart)), 10);
    CutItemsMeans(DedupeItems(AllItems(g.members, RisksPart)), 8);
    hide Cut, CutItems;
    assert Merged(g).summary == Cut(Join(Texts(g.members, false)), 800);
  }

  lemma RecordsOfAll(es: seq<Event>)
    ensures forall id :: id in AllRecords(es) <==> exists i :: 0 <= i < |es| && id in es[i].records
  {
    forall id ensures id in AllRecords(es) <==> exists i :: 0 <= i < |es| && id in es[i].records {
      if i :| 0 <= i < |es| && id in es[i].records { assert es[i] in es; }
      if id in AllRecords(es) {
        var e :| e in es && id in e.records;
        var i :| 0 <= i < |es| && es[i] == e;
      }
    }
  }

  lemma CutMeans(s: string, n: nat)
    ensures Cut(s, n) <= s && |Cut(s, n)| == Least(|s|, n)
    ensures s != "" && n > 0 ==> Cut(s, n) != ""
    ensures s == "" ==> Cut(s, n) == ""
  {
  }

  lemma CutItemsMeans(items: seq<Item>, n: nat)
    ensures CutItems(items, n) <= items && |CutItems(items, n)| == Least(|items|, n)
  {
  }

  function Least(a: nat, b: nat): nat { if a < b then a else b }

  /** Different anchors have different ids. */
  lemma IdsAreStable(a: nat, b: nat)
    ensures StableId(a) == StableId(b) <==> a == b
    ensures StableId(a) != 0
  {
  }

  // ---------------------------------------------------------------------
  // The list and the picks
  // ---------------------------------------------------------------------

  function Urgency(p: Priority): int { match p case P0 => 0 case P1 => 1 case P2 => 2 case FYI => 3 case BadPriority => 2 }

  function Attention(s: Status): int { match s case Blocked => 0 case Updated => 1 case Continuing => 2 case New => 3 case Closed => 5 case _ => 4 }

  /** By priority, then status, then title. */
  predicate InOrder(a: Event, b: Event) {
    || Urgency(a.priority) < Urgency(b.priority)
    || (Urgency(a.priority) == Urgency(b.priority) && Attention(a.status) < Attention(b.status))
    || (Urgency(a.priority) == Urgency(b.priority) && Attention(a.status) == Attention(b.status) && a.title.order <= b.title.order)
  }

  ghost predicate Ordered(es: seq<Event>) { forall i, j :: 0 <= i < j < |es| ==> InOrder(es[i], es[j]) }

  lemma BeforeMeans(a: Event, b: Event)
    ensures Before(a, b) <==> InOrder(a, b)
    ensures InOrder(a, b) || InOrder(b, a)
  {
  }

  lemma Chains(a: Event, b: Event, c: Event)
    requires InOrder(a, b) && InOrder(b, c)
    ensures InOrder(a, c)
  {
  }

  lemma {:induction false} InsertOrders(es: seq<Event>, e: Event)
    requires Ordered(es)
    ensures Ordered(Insert(es, e)) && multiset(Insert(es, e)) == multiset(es) + multiset{e}
    decreases |es|
  {
    hide InOrder, Before;
    if es != [] {
      var rest, last := es[..|es| - 1], es[|es| - 1];
      assert es == rest + [last];
      BeforeMeans(last, e);
      if Before(last, e) {
        forall i | 0 <= i < |es| ensures InOrder(es[i], e) { if i < |rest| { Chains(es[i], last, e); } }
      } else {
        InsertOrders(rest, e);
        var r := Insert(rest, e);
        forall i | 0 <= i < |r| ensures InOrder(r[i], last) {
          assert r[i] in multiset(r);
          if r[i] != e {
            assert r[i] in multiset(rest);
            assert r[i] in rest;
          } else {
            BeforeMeans(e, last);
          }
        }
      }
    }
  }

  /** The merged list is sorted, and a rearrangement of the merged groups. */
  lemma {:induction false} SortOrders(es: seq<Event>)
    ensures Ordered(Sort(es)) && multiset(Sort(es)) == multiset(es)
    decreases |es|
  {
    if es != [] {
      assert es == es[..|es| - 1] + [es[|es| - 1]];
      SortOrders(es[..|es| - 1]);
      InsertOrders(Sort(es[..|es| - 1]), es[|es| - 1]);
    }
  }

  /** Two titles are of one topic when they are equal in the order, or both of the shared topic. */
  predicate SameTopic(a: Title, b: Title) { (a.shared && b.shared) || (!a.shared && !b.shared && a.order == b.order) }

  function OnTopic(es: seq<Event>, t: Title): nat
    decreases |es|
  {
    if es == [] then 0 else OnTopic(es[..|es| - 1], t) + (if SameTopic(es[|es| - 1].title, t) then 1 else 0)
  }

  lemma {:induction false} TopicsMean(es: seq<Event>, t: Title)
    ensures CountTopic(es, Topic(t)) == OnTopic(es, t)
    decreases |es|
  {
    if es != [] { TopicsMean(es[..|es| - 1], t); }
  }

  /** The next event of the sorted list is chosen exactly when fewer than ten are, and fewer than two
      of its topic. */
  lemma ChosenGrows(es: seq<Event>, e: Event)
    ensures Chosen([]) == []
    ensures Chosen(es + [e]) == Chosen(es) + (if |Chosen(es)| < 10 && OnTopic(Chosen(es), e.title) < 2 then [e] else [])
  {
    assert (es + [e])[..|es|] == es;
    TopicsMean(Chosen(es), e.title);
  }

  /** A pick repeats its event, at its rank from one on. */
  lemma PicksMean(chosen: seq<Event>, i: nat)
    requires i < |chosen|
    ensures |Picks(chosen)| == |chosen|
    ensures var p, e := Picks(chosen)[i], chosen[i];
            p.rank == i + 1 && p.event == e.id && p.title == e.title && p.priority == e.priority && p.status == e.status
            && p.summary == e.summary && p.why == e.why && p.records == e.records
  {
  }

  /** So the output of a run is: one event for each anchor, made of exactly that anchor's events, with an
      id of its own, in the order of urgency. */
  lemma TheOutput(batch: seq<Event>) returns (groups: seq<Group>)
    ensures Partition(batch, groups)
    ensures forall g :: 0 <= g < |groups| ==> groups[g].members != []
    ensures forall g, h :: 0 <= g < h < |groups| ==> Merged(groups[g]).id != Merged(groups[h]).id
    ensures Ordered(MergedEvents(batch)) && |MergedEvents(batch)| == |groups|
    ensures forall x :: x in MergedEvents(batch) <==> exists g :: 0 <= g < |groups| && groups[g].members != [] && x == Merged(groups[g])
  {
    groups := Grouped(batch);
    GroupedOk(batch);
    GroupedMeans(batch);
    forall g, h | 0 <= g < h < |groups| ensures Merged(groups[g]).id != Merged(groups[h]).id { IdsAreStable(groups[g].anchor, groups[h].anchor); }
    var merged := MergeAll(groups);
    SortOrders(merged);
    SameSize(MergedEvents(batch), merged);
    hide Merged, Sort, Partition, Ordered;
    forall x ensures x in MergedEvents(batch) <==> exists g :: 0 <= g < |groups| && groups[g].members != [] && x == Merged(groups[g]) {
      SortKeeps(merged, x);
      if x in merged {
        var g :| 0 <= g < |merged| && merged[g] == x;
        assert x == Merged(groups[g]);
      }
      if g :| 0 <= g < |groups| && groups[g].members != [] && x == Merged(groups[g]) { assert merged[g] == x; }
    }
  }

  lemma SameSize(a: seq<Event>, b: seq<Event>)
    requires multiset(a) == multiset(b)
    ensures |a| == |b|
  {
    assert |multiset(a)| == |a| && |multiset(b)| == |b|;
  }

  // ---------------------------------------------------------------------
  // The checks
  // ---------------------------------------------------------------------

  predicate EventPasses(e: Event, ids: set<Id>) {
    && e.id != 0 && e.title.order != 0 && e.kind != 0 && e.summary != "" && e.why != ""
    && (exists id :: id in e.records) && (forall id :: id in e.records ==> id in ids)
    && e.status in {Blocked, Updated, Continuing, New, Unknown, Closed} && e.priority in {P0, P1, P2, FYI}
  }

  predicate PickPasses(p: Pick, ids: set<Id>) {
    && p.rank != 0 && p.event != 0 && p.title.order != 0 && p.summary != "" && p.why != "" && p.status != NoStatus
    && (exists id :: id in p.records) && (forall id :: id in p.records ==> id in ids) && p.priority in {P0, P1, P2, FYI}
  }

  /** Every item's evidence is quoted from a record that its event names. */
  predicate Quoted(e: Event, records: seq<Record>) {
    forall part, i ::
      0 <= i < |ItemsOf(e, part)| ==>
        ItemsOf(e, part)[i].evidence != 0 && exists id :: id in e.records && ItemsOf(e, part)[i].evidence in QuotesOf(records, id)
  }

  lemma WhatPasses(records: seq<Record>, b: Bundle, events: seq<Event>, picks: seq<Pick>)
    ensures BatchOk(records, b) <==>
              && b.events != []
              && (forall e :: e in b.events ==> EventPasses(e, IdsOf(records)) && Quoted(e, records))
              && (forall r :: r in records ==> exists e :: e in b.events && r.id in e.records)
              && (forall p :: p in b.picks ==> PickPasses(p, IdsOf(records)))
  {
    forall e ensures ValidEvent(e, IdsOf(records)) <==> EventPasses(e, IdsOf(records)) {}
    forall p ensures ValidPick(p, IdsOf(records)) <==> PickPasses(p, IdsOf(records)) {}
    forall e ensures Traceable(e, records) <==> Quoted(e, records) { TraceableMeans(e, records); }
    CoverageMeans(records, b.events);
  }

  lemma TraceableMeans(e: Event, records: seq<Record>)
    ensures Traceable(e, records) <==> Quoted(e, records)
    ensures ItemsOf(e, DecisionsPart) == e.decisions && ItemsOf(e, ActionsPart) == e.actions && ItemsOf(e, RisksPart) == e.risks
  {
    if Traceable(e, records) {
      forall part, i | 0 <= i < |ItemsOf(e, part)|
        ensures ItemsOf(e, part)[i].evidence != 0 && exists id :: id in e.records && ItemsOf(e, part)[i].evidence in QuotesOf(records, id)
      {
        assert MayQuote(records, e.records, ItemsOf(e, part)[i].evidence);
      }
    }
    if Quoted(e, records) {
      forall i | 0 <= i < |e.decisions| ensures MayQuote(records, e.records, e.decisions[i].evidence) { assert ItemsOf(e, DecisionsPart)[i] == e.decisions[i]; }
      forall i | 0 <= i < |e.actions| ensures MayQuote(records, e.records, e.actions[i].evidence) { assert ItemsOf(e, ActionsPart)[i] == e.actions[i]; }
      forall i | 0 <= i < |e.risks| ensures MayQuote(records, e.records, e.risks[i].evidence) { assert ItemsOf(e, RisksPart)[i] == e.risks[i]; }
    }
  }

  lemma CoverageMeans(records: seq<Record>, events: seq<Event>)
    ensures IdsOf(records) <= Covered(events) <==> forall r :: r in records ==> exists e :: e in events && r.id in e.records
  {
    if IdsOf(records) <= Covered(events) {
      forall r | r in records ensures exists e :: e in events && r.id in e.records { assert r.id in IdsOf(records); }
    }
    if forall r :: r in records ==> exists e :: e in events && r.id in e.records {
      forall id | id in IdsOf(records) ensures id in Covered(events) {
        var r :| r in records && r.id == id;
      }
    }
  }

  /** The first of answer, repair and fallback that passes is taken. */
  lemma WhichIsTaken(records: seq<Record>, a: Attempts)
    ensures Accepted(records, a) ==
              if BatchOk(records, a.answer) then Some(a.answer.events)
              else if BatchOk(records, a.repaired) then Some(a.repaired.events)
              else if BatchOk(records, a.fallback) then Some(a.fallback.events) else None
  {
  }

  /** The whole output passes when there is something to cluster and something came of it, every event
      and pick passes, at least 95 of every 100 records are covered, and each pick is of an event. */
  lemma WhatTheOutputPasses(records: seq<Record>, events: seq<Event>, picks: seq<Pick>)
    ensures FinalOk(records, events, picks) <==>
              && events != [] && records != []
              && (forall e :: e in events ==> EventPasses(e, IdsOf(records)) && Quoted(e, records))
              && 100 * |Covered(events) * IdsOf(records)| >= 95 * |IdsOf(records)|
              && (forall p :: p in picks ==> PickPasses(p, IdsOf(records)) && exists e :: e in events && e.id == p.event)
    ensures forall id :: id in Covered(events) <==> exists e :: e in events && id in e.records
    ensures forall id :: id in IdsOf(records) <==> exists r :: r in records && r.id == id
  {
    forall e ensures ValidEvent(e, IdsOf(records)) <==> EventPasses(e, IdsOf(records)) {}
    forall p ensures ValidPick(p, IdsOf(records)) <==> PickPasses(p, IdsOf(records)) {}
    forall e ensures Traceable(e, records) <==> Quoted(e, records) { TraceableMeans(e, records); }
    if records != [] { assert records[0] in records && records[0].id in IdsOf(records); }
    hide ValidEvent, ValidPick, Traceable, EventPasses, PickPasses, Quoted;
  }
}
