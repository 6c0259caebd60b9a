/** Merging batches of clustered events (scripts/cwk_ai_event_clustering.py:36-50, 244-275,
    278-342 and 413-480; scripts/cwk_ai_common.py:718-755): a merge of valid batches is valid.

    Ids, anchors and item texts are numbers, and 0 stands for a missing one; a title carries
    its place in the sort order and whether it belongs to the one shared topic; `BadStatus` is a
    status outside the vocabulary and `NoStatus` a missing one.  Each event
    carries its normalized anchor. */
module Clustering {
  import opened Wrappers

  type Id = nat

  datatype Status = Blocked | Updated | Continuing | New | Unknown | Closed | BadStatus | NoStatus

  datatype Priority = P0 | P1 | P2 | FYI | BadPriority

  datatype Title = Title(order: nat, shared: bool)

  datatype Item = Item(text: nat, evidence: nat)

  datatype Event = Event(
    id: nat, title: Title, anchor: nat, kind: nat, status: Status, priority: Priority,
    records: set<Id>, summary: string, why: string, decisions: seq<Item>, actions: seq<Item>, risks: seq<Item>)

  /** A record and the evidence that may be quoted from it. */
  datatype Record = Record(id: Id, quotes: set<nat>)

  datatype Pick = Pick(rank: nat, event: nat, title: Title, priority: Priority, status: Status, summary: string, why: string, records: set<Id>)

  // ---------------------------------------------------------------------
  // Validation
  // ---------------------------------------------------------------------

  predicate ValidEvent(e: Event, ids: set<Id>) {
    && e.id != 0 && e.title.order != 0 && e.kind != 0 && e.summary != "" && e.why != ""
    && e.records != {} && e.records <= ids
    && e.status != BadStatus && e.status != NoStatus && e.priority != BadPriority
  }

  predicate ValidPick(p: Pick, ids: set<Id>) {
    && p.rank != 0 && p.event != 0 && p.title.order != 0 && p.summary != "" && p.why != ""
    && p.records != {} && p.records <= ids && p.priority != BadPriority && p.status != NoStatus
  }

  /** The last record wins when an id occurs twice. */
  function QuotesOf(records: seq<Record>, id: Id): set<nat>
    decreases |records|
  {
    if records == [] then {}
    else if records[|records| - 1].id == id then records[|records| - 1].quotes
    else QuotesOf(records[..|records| - 1], id)
  }

  predicate MayQuote(records: seq<Record>, ids: set<Id>, evidence: nat) {
    evidence != 0 && exists id :: id in ids && evidence in QuotesOf(records, id)
  }

  predicate ItemsTraceable(items: seq<Item>, records: seq<Record>, ids: set<Id>) {
    forall i :: 0 <= i < |items| ==> MayQuote(records, ids, items[i].evidence)
  }

  predicate Traceable(e: Event, records: seq<Record>) {
    ItemsTraceable(e.decisions, records, e.records) && ItemsTraceable(e.actions, records, e.records) && ItemsTraceable(e.risks, records, e.records)
  }

  function Covered(events: seq<Event>): set<Id> { set e, id | e in events && id in e.records :: id }

  function IdsOf(records: seq<Record>): set<Id> { set r | r in records :: r.id }

  /** What the events of a batch must pass before it is stored. */
  predicate EventsOk(records: seq<Record>, events: seq<Event>) {
    && events != []
    && (forall e :: e in events ==> ValidEvent(e, IdsOf(records)) && Traceable(e, records))
    && IdsOf(records) <= Covered(events)
  }

  /** What the model, or the fallback, gives for a batch.  Its picks are checked and then not
      used: the merge makes its own. */
  datatype Bundle = Bundle(events: seq<Event>, picks: seq<Pick>)

  predicate BatchOk(records: seq<Record>, b: Bundle) {
    EventsOk(records, b.events) && forall p :: p in b.picks ==> ValidPick(p, IdsOf(records))
  }

  /** What the whole output must pass.  Coverage asks for 95 percent: 20 covered in 21. */
  predicate FinalOk(records: seq<Record>, events: seq<Event>, picks: seq<Pick>) {
    && events != [] && IdsOf(records) != {}
    && (forall e :: e in events ==> ValidEvent(e, IdsOf(records)) && Traceable(e, records))
    && 20 * |Covered(events) * IdsOf(records)| >= 19 * |IdsOf(records)|
    && (forall p :: p in picks ==> ValidPick(p, IdsOf(records)) && exists e :: e in events && e.id == p.event)
  }

  // ---------------------------------------------------------------------
  // Grouping
  // ---------------------------------------------------------------------

  datatype Group = Group(anchor: nat, members: seq<Event>)

  function Place(groups: seq<Group>, e: Event): seq<Group>
    decreases |groups|
  {
    if groups == [] then [Group(e.anchor, [e])]
    else if groups[0].anchor == e.anchor then [Group(e.anchor, groups[0].members + [e])] + groups[1..]
    else [groups[0]] + Place(groups[1..], e)
  }

  function Grouped(events: seq<Event>): seq<Group>
    decreases |events|
  {
    if events == [] then [] else Place(Grouped(events[..|events| - 1]), events[|events| - 1])
  }

  ghost predicate InGroup(groups: seq<Group>, e: Event) { exists g :: 0 <= g < |groups| && e in groups[g].members }

  ghost predicate GroupsOk(groups: seq<Group>) {
    forall g :: 0 <= g < |groups| ==> groups[g].members != [] && forall e :: e in groups[g].members ==> e.anchor == groups[g].anchor
  }

  lemma {:induction false} PlaceKeeps(groups: seq<Group>, e: Event, x: Event)
    requires GroupsOk(groups)
    ensures GroupsOk(Place(groups, e))
    ensures InGroup(Place(groups, e), x) <==> InGroup(groups, x) || x == e
    decreases |groups|
  {
    var after := Place(groups, e);
    if groups == [] {
      assert after[0].members == [e];
    } else if groups[0].anchor == e.anchor {
      assert after[0].members == groups[0].members + [e] && forall g :: 1 <= g < |groups| ==> after[g] == groups[g];
      if InGroup(groups, x) {
        var g :| 0 <= g < |groups| && x in groups[g].members;
        assert x in after[g].members;
      }
      if x == e { assert x in after[0].members; }
    } else {
      var rest := groups[1..];
      PlaceKeeps(rest, e, x);
      assert after[0] == groups[0] && after[1..] == Place(rest, e);
      ShiftGroups(groups, x);
      ShiftGroups(after, x);
    }
  }

  lemma ShiftGroups(groups: seq<Group>, x: Event)
    requires groups != []
    ensures InGroup(groups, x) <==> x in groups[0].members || InGroup(groups[1..], x)
  {
    var rest := groups[1..];
    assert forall g :: 0 <= g < |rest| ==> rest[g] == groups[g + 1];
    if InGroup(groups, x) {
      var g :| 0 <= g < |groups| && x in groups[g].members;
      if g > 0 { assert x in rest[g - 1].members; }
    }
    if InGroup(rest, x) {
      var g :| 0 <= g < |rest| && x in rest[g].members;
      assert x in groups[g + 1].members;
    }
  }

  /** Grouping is a partition by anchor: no event is lost and none appears. */
  lemma {:induction false} GroupedKeeps(events: seq<Event>, x: Event)
    ensures GroupsOk(Grouped(events))
    ensures InGroup(Grouped(events), x) <==> x in events
    decreases |events|
  {
    if events != [] {
      var rest, e := events[..|events| - 1], events[|events| - 1];
      assert events == rest + [e];
      GroupedKeeps(rest, x);
      PlaceKeeps(Grouped(rest), e, x);
    }
  }

  // ---------------------------------------------------------------------
  // Merging one group
  // ---------------------------------------------------------------------

  function PriorityRank(p: Priority): nat { match p case P0 => 0 case P1 => 1 case P2 => 2 case FYI => 3 case BadPriority => 2 }

  function StatusRank(s: Status): nat {
    match s case Blocked => 0 case Updated => 1 case Continuing => 2 case New => 3 case Unknown => 4 case Closed => 5 case BadStatus => 4 case NoStatus => 4
  }

  function TopPriority(es: seq<Event>): Priority
    requires es != []
    decreases |es|
  {
    if |es| == 1 then es[0].priority
    else
      var p := TopPriority(es[..|es| - 1]);
      if PriorityRank(es[|es| - 1].priority) < PriorityRank(p) then es[|es| - 1].priority else p
  }

  function TopStatus(es: seq<Event>): Status
    requires es != []
    decreases |es|
  {
    if |es| == 1 then es[0].status
    else
      var s := TopStatus(es[..|es| - 1]);
      if StatusRank(es[|es| - 1].status) < StatusRank(s) then es[|es| - 1].status else s
  }

  function AllRecords(es: seq<Event>): set<Id> { set e, id | e in es && id in e.records :: id }

  /** Distinct non-empty texts in the order of their first occurrence. */
  function Texts(es: seq<Event>, why: bool): seq<string>
    decreases |es|
  {
    if es == [] then []
    else
      var rest, text := Texts(es[..|es| - 1], why), (if why then es[|es| - 1].why else es[|es| - 1].summary);
      if text == "" || text in rest then rest else rest + [text]
  }

  function Join(texts: seq<string>): string
    decreases |texts|
  {
    if texts == [] then ""
    else if |texts| == 1 then texts[0]
    else Join(texts[..|texts| - 1]) + "；" + texts[|texts| - 1]
  }

  function Cut(s: string, n: nat): string { if |s| > n then s[..n] else s }

  function CutItems(items: seq<Item>, n: nat): seq<Item> { if |items| > n then items[..n] else items }

  predicate HasText(items: seq<Item>, t: nat)
    decreases |items|
  {
    items != [] && (items[|items| - 1].text == t || HasText(items[..|items| - 1], t))
  }

  /** The first item of each text; items without text are dropped. */
  function DedupeItems(items: seq<Item>): seq<Item>
    decreases |items|
  {
    if items == [] then []
    else
      var rest, item := DedupeItems(items[..|items| - 1]), items[|items| - 1];
      if item.text == 0 || HasText(rest, item.text) then rest else rest + [item]
  }

  datatype Part = DecisionsPart | ActionsPart | RisksPart

  function ItemsOf(e: Event, part: Part): seq<Item> {
    match part case DecisionsPart => e.decisions case ActionsPart => e.actions case RisksPart => e.risks
  }

  function AllItems(es: seq<Event>, part: Part): seq<Item>
    decreases |es|
  {
    if es == [] then [] else AllItems(es[..|es| - 1], part) + ItemsOf(es[|es| - 1], part)
  }

  const NO_REASON: string := "需结合原文判断。"

  function StableId(anchor: nat): nat { anchor + 1 }

  function Merged(g: Group): Event
    requires g.members != []
  {
    var status := TopStatus(g.members);
    var top := TopPriority(g.members);
    var why := Cut(Join(Texts(g.members, true)), 500);
    Event(StableId(g.anchor), g.members[0].title, g.anchor, g.members[0].kind, status,
          if top == P0 && status != Blocked then P1 else top,
          AllRecords(g.members), Cut(Join(Texts(g.members, false)), 800), if why == "" then NO_REASON else why,
          CutItems(DedupeItems(AllItems(g.members, DecisionsPart)), 8),
          CutItems(DedupeItems(AllItems(g.members, ActionsPart)), 10),
          CutItems(DedupeItems(AllItems(g.members, RisksPart)), 8))
  }

  lemma {:induction false} TopsAreMembers(es: seq<Event>)
    requires es != []
    ensures exists i :: 0 <= i < |es| && es[i].priority == TopPriority(es)
    ensures exists i :: 0 <= i < |es| && es[i].status == TopStatus(es)
    ensures forall i :: 0 <= i < |es| ==> PriorityRank(TopPriority(es)) <= PriorityRank(es[i].priority) && StatusRank(TopStatus(es)) <= StatusRank(es[i].status)
    decreases |es|
  {
    if |es| > 1 {
      var rest := es[..|es| - 1];
      TopsAreMembers(rest);
      var i :| 0 <= i < |rest| && rest[i].priority == TopPriority(rest);
      var j :| 0 <= j < |rest| && rest[j].status == TopStatus(rest);
      assert es[i] == rest[i] && es[j] == rest[j];
      assert forall k :: 0 <= k < |rest| ==> es[k] == rest[k];
      assert es[|es| - 1].priority == TopPriority(es) || es[i].priority == TopPriority(es);
      assert es[|es| - 1].status == TopStatus(es) || es[j].status == TopStatus(es);
    } else {
      assert es[0].priority == TopPriority(es) && es[0].status == TopStatus(es);
    }
  }

  lemma {:induction false} TextsAreNonEmpty(es: seq<Event>, why: bool)
    ensures forall i :: 0 <= i < |Texts(es, why)| ==> Texts(es, why)[i] != ""
    ensures (exists i :: 0 <= i < |es| && (if why then es[i].why else es[i].summary) != "") ==> Texts(es, why) != []
    decreases |es|
  {
    if es != [] {
      var rest := es[..|es| - 1];
      TextsAreNonEmpty(rest, why);
      assert forall i :: 0 <= i < |rest| ==> es[i] == rest[i];
    }
  }

  lemma {:induction false} JoinIsNonEmpty(texts: seq<string>)
    requires texts != [] && forall i :: 0 <= i < |texts| ==> texts[i] != ""
    ensures Join(texts) != ""
    decreases |texts|
  {
    if |texts| > 1 { JoinIsNonEmpty(texts[..|texts| - 1]); }
  }

  lemma {:induction false} HasTextMeans(items: seq<Item>, t: nat)
    ensures HasText(items, t) <==> exists i :: 0 <= i < |items| && items[i].text == t
    decreases |items|
  {
    if items != [] {
      var rest := items[..|items| - 1];
      HasTextMeans(rest, t);
      assert forall i :: 0 <= i < |rest| ==> rest[i] == items[i];
      if HasText(rest, t) {
        var i :| 0 <= i < |rest| && rest[i].text == t;
        assert items[i].text == t;
      }
    }
  }

  lemma {:induction false} DedupedItems(items: seq<Item>)
    ensures forall i :: 0 <= i < |DedupeItems(items)| ==> DedupeItems(items)[i] in items
    ensures forall i, j :: 0 <= i < j < |DedupeItems(items)| ==> DedupeItems(items)[i].text != DedupeItems(items)[j].text
    decreases |items|
  {
    if items != [] {
      assert items == items[..|items| - 1] + [items[|items| - 1]];
      DedupedItems(items[..|items| - 1]);
      HasTextMeans(DedupeItems(items[..|items| - 1]), items[|items| - 1].text);
    }
  }

  lemma {:induction false} ItemsComeFromMembers(es: seq<Event>, part: Part, item: Item)
    requires item in AllItems(es, part)
    ensures exists e :: e in es && item in ItemsOf(e, part)
    decreases |es|
  {
    if es != [] {
      var rest, last := es[..|es| - 1], es[|es| - 1];
      if item in AllItems(rest, part) {
        ItemsComeFromMembers(rest, part, item);
      } else {
        assert last in es;
      }
    }
  }

  lemma WhyMerges(g: Group)
    requires g.members != []
    ensures Merged(g).why != ""
    ensures (forall e :: e in g.members ==> e.summary != "") ==> Merged(g).summary != ""
  {
    TextsAreNonEmpty(g.members, false);
    if forall e :: e in g.members ==> e.summary != "" {
      assert g.members[0] in g.members;
      JoinIsNonEmpty(Texts(g.members, false));
    }
  }

  /** A merged group of valid events is valid. */
  lemma MergedIsValid(g: Group, ids: set<Id>)
    requires g.members != [] && forall e :: e in g.members ==> ValidEvent(e, ids)
    ensures ValidEvent(Merged(g), ids)
  {
    TopsAreMembers(g.members);
    WhyMerges(g);
    assert ValidEvent(g.members[0], ids);
    var i :| 0 <= i < |g.members| && g.members[i].priority == TopPriority(g.members);
    var j :| 0 <= j < |g.members| && g.members[j].status == TopStatus(g.members);
    assert ValidEvent(g.members[i], ids) && ValidEvent(g.members[j], ids);
    assert AllRecords(g.members) != {} by {
      var id :| id in g.members[0].records;
      assert id in AllRecords(g.members);
    }
  }

  lemma PartTraceable(g: Group, part: Part, records: seq<Record>, n: nat)
    requires g.members != [] && forall e :: e in g.members ==> ItemsTraceable(ItemsOf(e, part), records, e.records)
    ensures ItemsTraceable(CutItems(DedupeItems(AllItems(g.members, part)), n), records, AllRecords(g.members))
  {
    var items := DedupeItems(AllItems(g.members, part));
    DedupedItems(AllItems(g.members, part));
    forall i | 0 <= i < |items| ensures MayQuote(records, AllRecords(g.members), items[i].evidence) {
      ItemsComeFromMembers(g.members, part, items[i]);
      var e :| e in g.members && items[i] in ItemsOf(e, part);
      var k :| 0 <= k < |ItemsOf(e, part)| && ItemsOf(e, part)[k] == items[i];
      assert MayQuote(records, e.records, items[i].evidence);
      var id :| id in e.records && items[i].evidence in QuotesOf(records, id);
      assert id in AllRecords(g.members);
    }
  }

  /** Its evidence can still be traced, now to any record of the group. */
  lemma MergedIsTraceable(g: Group, records: seq<Record>)
    requires g.members != [] && forall e :: e in g.members ==> Traceable(e, records)
    ensures Traceable(Merged(g), records)
  {
    PartTraceable(g, DecisionsPart, records, 8);
    PartTraceable(g, ActionsPart, records, 10);
    PartTraceable(g, RisksPart, records, 8);
  }

  // ---------------------------------------------------------------------
  // The merged list
  // ---------------------------------------------------------------------

  function MergeAll(groups: seq<Group>): (r: seq<Event>)
    requires GroupsOk(groups)
    ensures |r| == |groups| && forall g :: 0 <= g < |r| ==> r[g] == Merged(groups[g])
  {
    seq(|groups|, g requires 0 <= g < |groups| => Merged(groups[g]))
  }

  predicate Before(a: Event, b: Event) {
    var pa, pb, sa, sb := PriorityRank(a.priority), PriorityRank(b.priority), StatusRank(a.status), StatusRank(b.status);
    pa < pb || (pa == pb && (sa < sb || (sa == sb && a.title.order <= b.title.order)))
  }

  function Insert(es: seq<Event>, e: Event): seq<Event>
    decreases |es|
  {
    if es == [] || Before(es[|es| - 1], e) then es + [e] else Insert(es[..|es| - 1], e) + [es[|es| - 1]]
  }

  function Sort(es: seq<Event>): seq<Event>
    decreases |es|
  {
    if es == [] then [] else Insert(Sort(es[..|es| - 1]), es[|es| - 1])
  }

  lemma {:induction false} InsertKeeps(es: seq<Event>, e: Event, x: Event)
    ensures x in Insert(es, e) <==> x in es || x == e
    decreases |es|
  {
    if es != [] && !Before(es[|es| - 1], e) {
      assert es == es[..|es| - 1] + [es[|es| - 1]];
      InsertKeeps(es[..|es| - 1], e, x);
    }
  }

  lemma {:induction false} SortKeeps(es: seq<Event>, x: Event)
    ensures x in Sort(es) <==> x in es
    decreases |es|
  {
    if es != [] {
      assert es == es[..|es| - 1] + [es[|es| - 1]];
      SortKeeps(es[..|es| - 1], x);
      InsertKeeps(Sort(es[..|es| - 1]), es[|es| - 1], x);
    }
  }

  /** Topics: all titles of the shared topic count as one. */
  function Topic(t: Title): nat { if t.shared then 0 else t.order + 1 }

  function CountTopic(es: seq<Event>, topic: nat): nat
    decreases |es|
  {
    if es == [] then 0 else CountTopic(es[..|es| - 1], topic) + (if Topic(es[|es| - 1].title) == topic then 1 else 0)
  }

  /** At most ten events, and at most two of a topic, in order. */
  function Chosen(es: seq<Event>): seq<Event>
    decreases |es|
  {
    if es == [] then []
    else
      var rest, e := Chosen(es[..|es| - 1]), es[|es| - 1];
      if |rest| >= 10 || CountTopic(rest, Topic(e.title)) >= 2 then rest else rest + [e]
  }

  lemma {:induction false} ChosenLimits(es: seq<Event>, topic: nat)
    ensures |Chosen(es)| <= 10 && CountTopic(Chosen(es), topic) <= 2
    ensures forall x :: x in Chosen(es) ==> x in es
    decreases |es|
  {
    if es != [] {
      assert es == es[..|es| - 1] + [es[|es| - 1]];
      ChosenLimits(es[..|es| - 1], topic);
    }
  }

  function PickOf(e: Event, rank: nat): Pick { Pick(rank, e.id, e.title, e.priority, e.status, e.summary, e.why, e.records) }

  function Picks(chosen: seq<Event>): (r: seq<Pick>)
    ensures |r| == |chosen| && forall i :: 0 <= i < |r| ==> r[i] == PickOf(chosen[i], i + 1)
  {
    seq(|chosen|, i requires 0 <= i < |chosen| => PickOf(chosen[i], i + 1))
  }

  // The loops of the merge, against the functions above.

  method DedupeDicts(items: seq<Item>) returns (result: seq<Item>)
    ensures result == DedupeItems(items)
  {
    result := [];
    var seen: set<nat> := {};
    var n := 0;
    while n < |items|
      invariant 0 <= n <= |items| && result == DedupeItems(items[..n])
      invariant forall t :: t in seen <==> HasText(result, t)
    {
      assert items[..n + 1][..n] == items[..n];
      var value := items[n].text;
      if value != 0 && value !in seen {
        seen := seen + {value};
        assert (result + [items[n]])[..|result|] == result;
        result := result + [items[n]];
      }
      n := n + 1;
    }
    assert items[..n] == items;
  }

  method GroupByAnchor(events: seq<Event>) returns (groups: seq<Group>)
    ensures groups == Grouped(events)
  {
    groups := [];
    var n := 0;
    while n < |events|
      invariant 0 <= n <= |events| && groups == Grouped(events[..n])
    {
      assert events[..n + 1][..n] == events[..n];
      groups := Place(groups, events[n]);
      n := n + 1;
    }
    assert events[..n] == events;
  }

  /** Walks the sorted events with a counter for each topic and stops at ten. */
  method SelectTop(events: seq<Event>) returns (selected: seq<Event>)
    ensures selected == Chosen(events)
  {
    selected := [];
    var counts: map<nat, nat> := map[];
    var n := 0;
    while n < |events|
      invariant 0 <= n <= |events| && selected == Chosen(events[..n]) && |selected| < 10
      invariant forall t :: CountTopic(selected, t) == if t in counts then counts[t] else 0
    {
      assert events[..n + 1][..n] == events[..n];
      var e := events[n];
      var topic := Topic(e.title);
      var count := if topic in counts then counts[topic] else 0;
      if count < 2 {
        CountAppends(selected, e);
        counts := counts[topic := count + 1];
        selected := selected + [e];
        if |selected| == 10 {
          ChosenStops(events, n + 1);
          return;
        }
      }
      n := n + 1;
    }
    assert events[..n] == events;
  }

  lemma CountAppends(es: seq<Event>, e: Event)
    ensures forall t :: CountTopic(es + [e], t) == CountTopic(es, t) + (if Topic(e.title) == t then 1 else 0)
  {
    assert (es + [e])[..|es|] == es;
  }

  lemma {:induction false} ChosenStops(es: seq<Event>, n: nat)
    requires n <= |es| && |Chosen(es[..n])| == 10
    ensures Chosen(es) == Chosen(es[..n])
    decreases |es|
  {
    if n < |es| {
      assert es[..|es| - 1][..n] == es[..n];
      ChosenStops(es[..|es| - 1], n);
    } else {
      assert es[..n] == es;
    }
  }

  method MergeGroups(groups: seq<Group>) returns (merged: seq<Event>)
    requires GroupsOk(groups)
    ensures merged == MergeAll(groups)
  {
    hide Merged;
    merged := [];
    var n := 0;
    while n < |groups|
      invariant 0 <= n <= |groups| && |merged| == n
      invariant forall g :: 0 <= g < n ==> merged[g] == Merged(groups[g])
    {
      merged := merged + [Merged(groups[n])];
      n := n + 1;
    }
  }

  method MergeEventBatches(batch: seq<Event>) returns (events: seq<Event>, picks: seq<Pick>)
    ensures events == MergedEvents(batch) && picks == Picks(Chosen(events))
  {
    var groups := GroupByAnchor(batch);
    GroupedOk(batch);
    var merged := MergeGroups(groups);
    events := Sort(merged);
    var selected := SelectTop(events);
    picks := Picks(selected);
  }

  function MergedEvents(batch: seq<Event>): seq<Event> {
    GroupedOk(batch);
    Sort(MergeAll(Grouped(batch)))
  }

  lemma GroupedOk(events: seq<Event>)
    ensures GroupsOk(Grouped(events))
  {
    GroupedKeeps(events, Event(0, Title(0, false), 0, 0, New, P0, {}, "", "", [], [], []));
  }

  /** Where a merged event comes from. */
  lemma MergedFrom(batch: seq<Event>, x: Event) returns (g: nat)
    requires x in MergedEvents(batch)
    ensures GroupsOk(Grouped(batch)) && g < |Grouped(batch)| && Merged(Grouped(batch)[g]) == x
    ensures forall e :: e in Grouped(batch)[g].members ==> e in batch
  {
    hide Merged, Sort;
    GroupedOk(batch);
    var groups := Grouped(batch);
    SortKeeps(MergeAll(groups), x);
    g :| 0 <= g < |groups| && MergeAll(groups)[g] == x;
    forall e | e in groups[g].members ensures e in batch {
      GroupedKeeps(batch, e);
      assert InGroup(groups, e);
    }
  }

  /** Where an event of a batch goes. */
  lemma MergedInto(batch: seq<Event>, e: Event) returns (x: Event)
    requires e in batch
    ensures x in MergedEvents(batch) && e.records <= x.records
  {
    hide Sort;
    GroupedOk(batch);
    GroupedKeeps(batch, e);
    var groups := Grouped(batch);
    var g :| 0 <= g < |groups| && e in groups[g].members;
    x := MergeAll(groups)[g];
    SortKeeps(MergeAll(groups), x);
    assert e.records <= AllRecords(groups[g].members);
  }

  /** Merging preserves the union of record ids, in both directions. */
  lemma UnionIsPreserved(batch: seq<Event>, id: Id)
    ensures id in Covered(MergedEvents(batch)) <==> id in Covered(batch)
  {
    hide MergedEvents;
    if id in Covered(batch) {
      var e :| e in batch && id in e.records;
      var x := MergedInto(batch, e);
    }
    if id in Covered(MergedEvents(batch)) {
      var x :| x in MergedEvents(batch) && id in x.records;
      var g := MergedFrom(batch, x);
      var e :| e in Grouped(batch)[g].members && id in e.records;
      assert e in batch;
    }
  }

  lemma MergedOne(records: seq<Record>, batch: seq<Event>, x: Event)
    requires x in MergedEvents(batch)
    requires forall e :: e in batch ==> ValidEvent(e, IdsOf(records)) && Traceable(e, records)
    ensures ValidEvent(x, IdsOf(records)) && Traceable(x, records)
  {
    hide MergedEvents, Merged, Traceable, ValidEvent;
    var g := MergedFrom(batch, x);
    MergedIsValid(Grouped(batch)[g], IdsOf(records));
    MergedIsTraceable(Grouped(batch)[g], records);
  }

  lemma PicksAreOk(records: seq<Record>, events: seq<Event>)
    requires forall e :: e in events ==> ValidEvent(e, IdsOf(records))
    ensures forall p :: p in Picks(Chosen(events)) ==> ValidPick(p, IdsOf(records)) && exists e :: e in events && e.id == p.event
  {
    ChosenLimits(events, 0);
    var picks := Picks(Chosen(events));
    forall p | p in picks ensures ValidPick(p, IdsOf(records)) && exists e :: e in events && e.id == p.event {
      var i :| 0 <= i < |picks| && picks[i] == p;
      assert Chosen(events)[i] in events;
    }
  }

  /** The final checks pass when every event of the batches passes them against all records. */
  lemma MergeIsFinalOk(records: seq<Record>, batch: seq<Event>)
    requires batch != [] && IdsOf(records) <= Covered(batch)
    requires forall e :: e in batch ==> ValidEvent(e, IdsOf(records)) && Traceable(e, records)
    ensures FinalOk(records, MergedEvents(batch), Picks(Chosen(MergedEvents(batch))))
  {
    hide MergedEvents, Picks, Chosen, Traceable, Covered, IdsOf;
    var events, ids := MergedEvents(batch), IdsOf(records);
    forall x | x in events ensures ValidEvent(x, ids) && Traceable(x, records) {
      MergedOne(records, batch, x);
    }
    forall id | id in ids ensures id in Covered(events) { UnionIsPreserved(batch, id); }
    assert Covered(events) * ids == ids;
    var first := MergedInto(batch, batch[0]);
    assert ValidEvent(batch[0], ids);
    PicksAreOk(records, events);
  }

  // ---------------------------------------------------------------------
  // The batches of one run
  // ---------------------------------------------------------------------

  ghost predicate DistinctRecords(records: seq<Record>) { forall i, j :: 0 <= i < j < |records| ==> records[i].id != records[j].id }

  lemma {:induction false} QuotesAt(records: seq<Record>, i: nat)
    requires DistinctRecords(records) && i < |records|
    ensures QuotesOf(records, records[i].id) == records[i].quotes
    decreases |records|
  {
    if i < |records| - 1 {
      assert records[..|records| - 1][i] == records[i];
      QuotesAt(records[..|records| - 1], i);
    }
  }

  lemma {:induction false} NoQuotes(records: seq<Record>, id: Id)
    requires id !in IdsOf(records)
    ensures QuotesOf(records, id) == {}
    decreases |records|
  {
    if records != [] {
      assert records[|records| - 1] in records;
      assert forall r :: r in records[..|records| - 1] ==> r in records;
      NoQuotes(records[..|records| - 1], id);
    }
  }

  /** Evidence found in a batch is found in the whole, when no id occurs twice. */
  lemma QuotesCarryOver(records: seq<Record>, from: nat, to: nat, id: Id, evidence: nat)
    requires DistinctRecords(records) && from <= to <= |records|
    requires evidence in QuotesOf(records[from..to], id)
    ensures evidence in QuotesOf(records, id)
  {
    var batch := records[from..to];
    if id !in IdsOf(batch) {
      NoQuotes(batch, id);
    } else {
      var r :| r in batch && r.id == id;
      var i :| 0 <= i < |batch| && batch[i] == r;
      assert records[from + i] == batch[i];
      assert DistinctRecords(batch) by { assert forall k :: 0 <= k < |batch| ==> batch[k] == records[from + k]; }
      QuotesAt(batch, i);
      QuotesAt(records, from + i);
    }
  }

  lemma ItemsCarryOver(records: seq<Record>, from: nat, to: nat, items: seq<Item>, ids: set<Id>)
    requires DistinctRecords(records) && from <= to <= |records| && ItemsTraceable(items, records[from..to], ids)
    ensures ItemsTraceable(items, records, ids)
  {
    forall i | 0 <= i < |items| ensures MayQuote(records, ids, items[i].evidence) {
      assert MayQuote(records[from..to], ids, items[i].evidence);
      var id :| id in ids && items[i].evidence in QuotesOf(records[from..to], id);
      QuotesCarryOver(records, from, to, id, items[i].evidence);
    }
  }

  lemma BatchCarriesOver(records: seq<Record>, from: nat, to: nat, events: seq<Event>)
    requires DistinctRecords(records) && from <= to <= |records| && EventsOk(records[from..to], events)
    ensures forall e :: e in events ==> ValidEvent(e, IdsOf(records)) && Traceable(e, records)
    ensures IdsOf(records[from..to]) <= Covered(events)
  {
    assert forall r :: r in records[from..to] ==> r in records;
    forall e | e in events ensures ValidEvent(e, IdsOf(records)) && Traceable(e, records) {
      ItemsCarryOver(records, from, to, e.decisions, e.records);
      ItemsCarryOver(records, from, to, e.actions, e.records);
      ItemsCarryOver(records, from, to, e.risks, e.records);
    }
  }

  predicate CoveredSoFar(records: seq<Record>, n: nat, events: seq<Event>)
    requires n <= |records|
  {
    IdsOf(records[..n]) <= Covered(events)
  }

  lemma NothingCovered(records: seq<Record>)
    ensures CoveredSoFar(records, 0, [])
  {
  }

  lemma BatchIsNotEmpty(records: seq<Record>, events: seq<Event>)
    requires EventsOk(records, events)
    ensures events != []
  {
  }

  datatype Outcome = NoRecords | BadBatch(n: nat) | BadOutput | Written(events: seq<Event>, picks: seq<Pick>)

  const NOTHING: Bundle := Bundle([], [])

  /** What each attempt at a batch produced: the model's answer, its repair, and the
      deterministic fallback. */
  datatype Attempts = Attempts(answer: Bundle, repaired: Bundle, fallback: Bundle)

  function Accepted(records: seq<Record>, a: Attempts): Option<seq<Event>> {
    if BatchOk(records, a.answer) then Some(a.answer.events)
    else if BatchOk(records, a.repaired) then Some(a.repaired.events)
    else if BatchOk(records, a.fallback) then Some(a.fallback.events)
    else None
  }

  /** The accepted events of all batches from the one at `from` on, if every batch has some. */
  function Gathered(records: seq<Record>, size: nat, attempts: seq<Attempts>, n: nat, from: nat): Option<seq<Event>>
    requires size > 0 && from <= |records|
    decreases |records| - from
  {
    if from == |records| then Some([])
    else if n >= |attempts| then None
    else
      var to := Min(from + size, |records|);
      var accepted, rest := Accepted(records[from..to], attempts[n]), Gathered(records, size, attempts, n + 1, to);
      if accepted.None? || rest.None? then None else Some(accepted.value + rest.value)
  }

  /** The checks of the last step, on what the batches gave. */
  predicate OutputOk(records: seq<Record>, gathered: seq<Event>) {
    FinalOk(records, MergedEvents(gathered), Picks(Chosen(MergedEvents(gathered))))
  }

  predicate IsPrefixOf(outputs: seq<Event>, rest: Option<seq<Event>>, all: Option<seq<Event>>) {
    all == if rest.None? then None else Some(outputs + rest.value)
  }

  lemma OneBatch(records: seq<Record>, size: nat, attempts: seq<Attempts>, n: nat, from: nat, outputs: seq<Event>, all: Option<seq<Event>>)
    requires size > 0 && from < |records| && n < |attempts|
    requires IsPrefixOf(outputs, Gathered(records, size, attempts, n, from), all)
    ensures var to := Min(from + size, |records|);
            var accepted := Accepted(records[from..to], attempts[n]);
            && (accepted.None? ==> all == None)
            && (accepted.Some? ==> IsPrefixOf(outputs + accepted.value, Gathered(records, size, attempts, n + 1, to), all))
  {
    hide Accepted;
    var to := Min(from + size, |records|);
    var accepted, rest := Accepted(records[from..to], attempts[n]), Gathered(records, size, attempts, n + 1, to);
    if accepted.Some? && rest.Some? {
      assert outputs + (accepted.value + rest.value) == (outputs + accepted.value) + rest.value;
    }
  }

  /** The batch loop.  The last exit is taken exactly when every batch was accepted and their
      merge fails the final checks; when no report id occurs twice it is unreachable. */
  method ClusterRun(records: seq<Record>, requested: int, attempts: seq<Attempts>) returns (o: Outcome)
    requires |attempts| * BatchSize(requested) >= |records|
    ensures o == NoRecords <==> records == []
    ensures var all := Gathered(records, BatchSize(requested), attempts, 0, 0);
            && (o == BadOutput <==> records != [] && all.Some? && !OutputOk(records, all.value))
            && (o.BadBatch? <==> records != [] && all.None?)
            && (o.Written? ==> all.Some? && o.events == MergedEvents(all.value) && o.picks == Picks(Chosen(o.events)))
    ensures DistinctRecords(records) ==> o != BadOutput
    ensures o.Written? ==> FinalOk(records, o.events, o.picks)
    ensures o.BadBatch? ==> var size := BatchSize(requested);
              o.n < |attempts| && o.n * size < |records| && Accepted(records[o.n * size..Min((o.n + 1) * size, |records|)], attempts[o.n]).None?
  {
    hide EventsOk, ValidEvent, Traceable, MergedEvents, FinalOk, Picks, Chosen, Covered, IdsOf, DistinctRecords, Accepted, IsPrefixOf;
    if records == [] { return NoRecords; }
    var size := BatchSize(requested);
    ghost var all := Gathered(records, size, attempts, 0, 0);
    var outputs: seq<Event> := [];
    var n, from := 0, 0;
    NothingCovered(records);
    NothingGathered(all);
    while from < |records|
      invariant 0 <= from <= |records| && from == Min(n * size, |records|) && n <= |attempts|
      invariant IsPrefixOf(outputs, Gathered(records, size, attempts, n, from), all)
      invariant DistinctRecords(records) ==> forall e :: e in outputs ==> ValidEvent(e, IdsOf(records)) && Traceable(e, records)
      invariant DistinctRecords(records) ==> CoveredSoFar(records, from, outputs)
      invariant from > 0 ==> outputs != []
      decreases |records| - from
    {
      BatchIndex(n, size, |records|, |attempts|);
      var to := Min((n + 1) * size, |records|);
      OneBatch(records, size, attempts, n, from, outputs, all);
      var accepted := Accepted(records[from..to], attempts[n]);
      if accepted.None? { return BadBatch(n); }
      AcceptedIsOk(records[from..to], attempts[n]);
      BatchIsNotEmpty(records[from..to], accepted.value);
      if DistinctRecords(records) {
        BatchCarriesOver(records, from, to, accepted.value);
        CoverageGrows(records, from, to, outputs, accepted.value);
      }
      outputs := outputs + accepted.value;
      n, from := n + 1, to;
    }
    assert records[..from] == records;
    AllGathered(outputs, all);
    var events, picks := MergeEventBatches(outputs);
    if DistinctRecords(records) { MergeIsFinalOk(records, outputs); }
    if !FinalOk(records, events, picks) { return BadOutput; }
    return Written(events, picks);
  }

  lemma AcceptedIsOk(records: seq<Record>, a: Attempts)
    ensures Accepted(records, a).Some? ==> EventsOk(records, Accepted(records, a).value)
  {
  }

  lemma NothingGathered(all: Option<seq<Event>>)
    ensures IsPrefixOf([], all, all)
  {
    if all.Some? { assert [] + all.value == all.value; }
  }

  lemma AllGathered(outputs: seq<Event>, all: Option<seq<Event>>)
    requires IsPrefixOf(outputs, Some([]), all)
    ensures all == Some(outputs)
  {
    assert outputs + [] == outputs;
  }

  function BatchSize(requested: int): (size: nat)
    ensures size > 0
  {
    if requested < 1 then 1 else requested
  }

  function Min(a: nat, b: nat): nat { if a < b then a else b }

  lemma BatchIndex(n: nat, size: nat, total: nat, batches: nat)
    requires size > 0 && n * size < total <= batches * size
    ensures n < batches && (n + 1) * size == n * size + size
  {
    Monotone(batches, n, size);
  }

  lemma Monotone(a: nat, b: nat, size: nat)
    ensures a <= b ==> a * size <= b * size
  {
  }

  lemma CoverageGrows(records: seq<Record>, from: nat, to: nat, outputs: seq<Event>, more: seq<Event>)
    requires from <= to <= |records| && CoveredSoFar(records, from, outputs) && IdsOf(records[from..to]) <= Covered(more)
    ensures CoveredSoFar(records, to, outputs + more)
  {
    assert records[..to] == records[..from] + records[from..to];
    assert IdsOf(records[..to]) == IdsOf(records[..from]) + IdsOf(records[from..to]);
    assert Covered(outputs + more) == Covered(outputs) + Covered(more);
  }

  /** With a repeated id the last exit is reachable: each batch is accepted by itself, but the
      whole run knows only the quotes of the id's last record, so the merge of the two batches
      holds evidence that can no longer be traced. */
  lemma RepeatedIdsBreakTheMerge()
    ensures var records := [Record(1, {5}), Record(1, {6})];
            var e1 := Event(1, Title(1, false), 1, 1, New, P2, {1}, "s", "w", [Item(1, 5)], [], []);
            var e2 := Event(2, Title(2, false), 2, 1, New, P2, {1}, "s", "w", [Item(1, 6)], [], []);
            var attempts := [Attempts(Bundle([e1], []), NOTHING, NOTHING), Attempts(Bundle([e2], []), NOTHING, NOTHING)];
            && !DistinctRecords(records)
            && Gathered(records, 1, attempts, 0, 0) == Some([e1, e2])
            && !OutputOk(records, [e1, e2])
  {
    var first, second := [Record(1, {5})], [Record(1, {6})];
    var records := [Record(1, {5}), Record(1, {6})];
    var e1 := Event(1, Title(1, false), 1, 1, New, P2, {1}, "s", "w", [Item(1, 5)], [], []);
    var e2 := Event(2, Title(2, false), 2, 1, New, P2, {1}, "s", "w", [Item(1, 6)], [], []);
    var attempts := [Attempts(Bundle([e1], []), NOTHING, NOTHING), Attempts(Bundle([e2], []), NOTHING, NOTHING)];
    assert records[0].id == records[1].id;
    SmallBatch(1, 5, e1);
    SmallBatch(1, 6, e2);
    assert records[0..1] == first && records[1..2] == second;
    hide EventsOk;
    assert BatchOk(first, Bundle([e1], [])) && BatchOk(second, Bundle([e2], []));
    assert Gathered(records, 1, attempts, 2, 2) == Some([]);
    assert Gathered(records, 1, attempts, 1, 1) == Some([e2]) by { assert [e2] + [] == [e2]; }
    assert [e1] + [e2] == [e1, e2];
    UntraceableMerge(records, e1, e2);
  }

  lemma SmallBatch(id: Id, quote: nat, e: Event)
    requires quote != 0 && e.records == {id} && e.decisions == [Item(1, quote)] && e.actions == [] && e.risks == []
    requires ValidEvent(e, {id})
    ensures EventsOk([Record(id, {quote})], [e])
  {
    var records := [Record(id, {quote})];
    assert IdsOf(records) == {id};
    assert QuotesOf(records, id) == {quote};
    assert MayQuote(records, {id}, quote);
    assert id in Covered([e]) by { assert e in [e]; }
  }

  /** An event alone in its group keeps its first decision, and so an untraceable one. */
  lemma UntraceableMerge(records: seq<Record>, e1: Event, e2: Event)
    requires e1.anchor != e2.anchor && |e1.decisions| == 1 && e1.decisions[0].text != 0
    requires !MayQuote(records, e1.records, e1.decisions[0].evidence)
    ensures !OutputOk(records, [e1, e2])
  {
    var batch := [e1, e2];
    var groups := Grouped(batch);
    assert batch[..1] == [e1] && [e1][..0] == [];
    assert Grouped([]) == [];
    assert Grouped([e1]) == [Group(e1.anchor, [e1])];
    assert groups == Place([Group(e1.anchor, [e1])], e2);
    assert [Group(e1.anchor, [e1])][1..] == [] && Place([], e2) == [Group(e2.anchor, [e2])];
    assert groups == [Group(e1.anchor, [e1])] + [Group(e2.anchor, [e2])];
    GroupedOk(batch);
    var x := MergeAll(groups)[0];
    SortKeeps(MergeAll(groups), x);
    AloneInGroup(e1);
    assert x == Merged(Group(e1.anchor, [e1]));
    assert !MayQuote(records, x.records, x.decisions[0].evidence);
    assert !Traceable(x, records);
  }

  lemma AloneInGroup(e: Event)
    requires |e.decisions| == 1 && e.decisions[0].text != 0
    ensures var x := Merged(Group(e.anchor, [e])); x.records == e.records && x.decisions == e.decisions
  {
    assert AllItems([e], DecisionsPart) == e.decisions;
    assert e.decisions[..0] == [];
    assert DedupeItems(e.decisions) == e.decisions;
    assert AllRecords([e]) == e.records;
  }
}
