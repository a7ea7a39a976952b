/** The client's strategy store (frontend/src/store/useStrategyStore.js):
    the market analysis, the risks and the timeline of the strategy being
    edited, and the actions that replace them. Records are JavaScript
    objects with string fields; the random ids the store draws are passed
    in. */
module StrategyStore {
  import opened Lists

  /** A record of the store: a competitor, trend, segment, risk or phase. */
  type Record = map<string, string>

  /** The `id` field of a record, if it has one. */
  function IdOf(r: Record): Option<string>
  {
    if "id" in r then Some(r["id"]) else None
  }

  predicate HasId(r: Record, id: string)
  {
    IdOf(r) == Some(id)
  }

  datatype MarketAnalysis = MarketAnalysis(
    marketSize: map<string, Record>,
    competitors: seq<Record>,
    trends: seq<Record>,
    customerSegments: seq<Record>)

  /** A section `setMarketAnalysis` can replace, with its new value. */
  datatype Section =
    | MarketSize(sizes: map<string, Record>)
    | Competitors(competitors: seq<Record>)
    | Trends(trends: seq<Record>)
    | CustomerSegments(segments: seq<Record>)

  function SizeRecord(description: string): Record
  {
    map["value" := "", "currency" := "USD", "description" := description]
  }

  /** The market analysis the store starts from and resets to: the three
      market sizes empty in USD, and no competitor, trend or segment. */
  const InitialAnalysis: MarketAnalysis := MarketAnalysis(
    map["tam" := SizeRecord("Total Addressable Market"),
        "sam" := SizeRecord("Serviceable Available Market"),
        "som" := SizeRecord("Serviceable Obtainable Market")],
    [], [], [])

  // ---------------------------------------------------------------------
  // List operations
  // ---------------------------------------------------------------------

  /** `{ ...item, id, ...extra }`: the item with a new id and the extra
      fields, which win over the item's own. */
  function Stamped(item: Record, id: string, extra: Record): (r: Record)
    ensures IdOf(r) == if "id" in extra then Some(extra["id"]) else Some(id)
    ensures forall k :: k in extra ==> k in r && r[k] == extra[k]
    ensures forall k :: k in item && k != "id" && k !in extra ==> k in r && r[k] == item[k]
    ensures r.Keys == item.Keys + extra.Keys + {"id"}
  {
    item["id" := id] + extra
  }

  /** `list.map(x => x.id === id ? { ...x, ...data } : x)`. */
  function Updated(list: seq<Record>, id: string, data: Record): (r: seq<Record>)
    ensures |r| == |list|
    ensures forall i :: 0 <= i < |list| && !HasId(list[i], id) ==> r[i] == list[i]
    ensures forall i :: 0 <= i < |list| && HasId(list[i], id) ==>
      r[i].Keys == list[i].Keys + data.Keys
      && (forall k :: k in data ==> r[i][k] == data[k])
      && (forall k :: k in list[i] && k !in data ==> r[i][k] == list[i][k])
  {
    seq(|list|, i requires 0 <= i < |list| => if HasId(list[i], id) then list[i] + data else list[i])
  }

  function KeepUnless(id: string): Record -> bool
  {
    (r: Record) => !HasId(r, id)
  }

  /** `list.filter(x => x.id !== id)`. */
  function Removed(list: seq<Record>, id: string): (r: seq<Record>)
    ensures IsSubsequence(r, list)
    ensures forall i :: 0 <= i < |r| ==> !HasId(r[i], id)
    ensures forall i :: 0 <= i < |list| && !HasId(list[i], id) ==> list[i] in r
  {
    Filter(list, KeepUnless(id))
  }

  /** Removing an id no record carries changes nothing. */
  lemma RemoveAbsent(list: seq<Record>, id: string)
    requires forall i :: 0 <= i < |list| ==> !HasId(list[i], id)
    ensures Removed(list, id) == list
  {
    FilterAll(list, KeepUnless(id));
  }

  /** Updating an id no record carries changes nothing. */
  lemma UpdateAbsent(list: seq<Record>, id: string, data: Record)
    requires forall i :: 0 <= i < |list| ==> !HasId(list[i], id)
    ensures Updated(list, id, data) == list
  {
  }

  /** Removing the record just added under a fresh id gives back the list
      as it was. */
  lemma RemoveUndoesAdd(list: seq<Record>, item: Record, id: string, extra: Record)
    requires forall i :: 0 <= i < |list| ==> !HasId(list[i], id)
    requires "id" !in extra
    ensures Removed(list + [Stamped(item, id, extra)], id) == list
  {
    FilterSnoc(list, Stamped(item, id, extra), KeepUnless(id));
    RemoveAbsent(list, id);
  }

  /** Applying the same update twice is applying it once, as long as the
      update leaves the id alone. */
  lemma UpdateIdempotent(list: seq<Record>, id: string, data: Record)
    requires "id" !in data
    ensures Updated(Updated(list, id, data), id, data) == Updated(list, id, data)
  {
    var once := Updated(list, id, data);
    forall i | 0 <= i < |list|
      ensures Updated(once, id, data)[i] == once[i]
    {
      if HasId(list[i], id) {
        assert HasId(once[i], id);
        assert once[i] + data == once[i];
      }
    }
  }

  /** An update that leaves the id alone does not change what a removal of
      that id leaves. */
  lemma RemoveAfterUpdate(list: seq<Record>, id: string, data: Record)
    requires "id" !in data
    ensures Removed(Updated(list, id, data), id) == Removed(list, id)
    decreases |list|
  {
    if list != [] {
      var u := Updated(list, id, data);
      assert u[1..] == Updated(list[1..], id, data);
      assert HasId(u[0], id) == HasId(list[0], id);
      RemoveAfterUpdate(list[1..], id, data);
      if !HasId(list[0], id) {
        assert u[0] == list[0];
      }
    }
  }

  // ---------------------------------------------------------------------
  // The store
  // ---------------------------------------------------------------------

  class Store {
    var marketAnalysis: MarketAnalysis
    var risks: seq<Record>
    var timeline: seq<Record>

    constructor ()
      ensures marketAnalysis == InitialAnalysis && risks == [] && timeline == []
    {
      marketAnalysis, risks, timeline := InitialAnalysis, [], [];
    }

    /** `setMarketAnalysis`: one section replaced, the others kept. */
    method SetMarketAnalysis(section: Section)
      modifies this
      ensures section.MarketSize? ==> marketAnalysis == old(marketAnalysis).(marketSize := section.sizes)
      ensures section.Competitors? ==> marketAnalysis == old(marketAnalysis).(competitors := section.competitors)
      ensures section.Trends? ==> marketAnalysis == old(marketAnalysis).(trends := section.trends)
      ensures section.CustomerSegments? ==> marketAnalysis == old(marketAnalysis).(customerSegments := section.segments)
      ensures risks == old(risks) && timeline == old(timeline)
    {
      marketAnalysis := match section
        case MarketSize(sizes) => marketAnalysis.(marketSize := sizes)
        case Competitors(cs) => marketAnalysis.(competitors := cs)
        case Trends(ts) => marketAnalysis.(trends := ts)
        case CustomerSegments(ss) => marketAnalysis.(customerSegments := ss);
    }

    /** `updateMarketSize`: the fields of `data` merged into one market size
      (into an empty one when there is none of that kind yet). */
    method UpdateMarketSize(kind: string, data: Record)
      modifies this
      ensures kind in marketAnalysis.marketSize
      ensures marketAnalysis.marketSize ==
        old(marketAnalysis.marketSize)[kind := (if kind in old(marketAnalysis.marketSize) then old(marketAnalysis.marketSize)[kind] else map[]) + data]
      ensures marketAnalysis.competitors == old(marketAnalysis.competitors)
      ensures marketAnalysis.trends == old(marketAnalysis.trends)
      ensures marketAnalysis.customerSegments == old(marketAnalysis.customerSegments)
      ensures risks == old(risks) && timeline == old(timeline)
    {
      var sizes := marketAnalysis.marketSize;
      var current := if kind in sizes then sizes[kind] else map[];
      marketAnalysis := marketAnalysis.(marketSize := sizes[kind := current + data]);
    }

    /** `addCompetitor`: the competitor appended under a fresh id. */
    method AddCompetitor(competitor: Record, freshId: string)
      modifies this
      ensures marketAnalysis == old(marketAnalysis).(competitors := old(marketAnalysis.competitors) + [Stamped(competitor, freshId, map[])])
      ensures risks == old(risks) && timeline == old(timeline)
    {
      marketAnalysis := marketAnalysis.(competitors := marketAnalysis.competitors + [Stamped(competitor, freshId, map[])]);
    }

    /** `removeCompetitor`: every competitor with this id dropped. */
    method RemoveCompetitor(id: string)
      modifies this
      ensures marketAnalysis == old(marketAnalysis).(competitors := Removed(old(marketAnalysis.competitors), id))
      ensures risks == old(risks) && timeline == old(timeline)
    {
      marketAnalysis := marketAnalysis.(competitors := Removed(marketAnalysis.competitors, id));
    }

    /** `addRisk`: the risk appended under a fresh id, as "identified". */
    method AddRisk(risk: Record, freshId: string)
      modifies this
      ensures risks == old(risks) + [Stamped(risk, freshId, map["status" := "identified"])]
      ensures marketAnalysis == old(marketAnalysis) && timeline == old(timeline)
    {
      risks := risks + [Stamped(risk, freshId, map["status" := "identified"])];
    }

    /** `updateRisk`: `data` merged into every risk with this id. */
    method UpdateRisk(id: string, data: Record)
      modifies this
      ensures risks == Updated(old(risks), id, data)
      ensures marketAnalysis == old(marketAnalysis) && timeline == old(timeline)
    {
      risks := Updated(risks, id, data);
    }

    /** `removeRisk`: every risk with this id dropped. */
    method RemoveRisk(id: string)
      modifies this
      ensures risks == Removed(old(risks), id)
      ensures marketAnalysis == old(marketAnalysis) && timeline == old(timeline)
    {
      risks := Removed(risks, id);
    }

    /** `setRisks`: the risks replaced wholesale. */
    method SetRisks(newRisks: seq<Record>)
      modifies this
      ensures risks == newRisks
      ensures marketAnalysis == old(marketAnalysis) && timeline == old(timeline)
    {
      risks := newRisks;
    }

    /** `addTimelinePhase`: the phase appended under a fresh id, as "pending". */
    method AddTimelinePhase(phase: Record, freshId: string)
      modifies this
      ensures timeline == old(timeline) + [Stamped(phase, freshId, map["status" := "pending"])]
      ensures marketAnalysis == old(marketAnalysis) && risks == old(risks)
    {
      timeline := timeline + [Stamped(phase, freshId, map["status" := "pending"])];
    }

    /** `updateTimelinePhase`: `data` merged into every phase with this id. */
    method UpdateTimelinePhase(id: string, data: Record)
      modifies this
      ensures timeline == Updated(old(timeline), id, data)
      ensures marketAnalysis == old(marketAnalysis) && risks == old(risks)
    {
      timeline := Updated(timeline, id, data);
    }

    /** `removeTimelinePhase`: every phase with this id dropped. */
    method RemoveTimelinePhase(id: string)
      modifies this
      ensures timeline == Removed(old(timeline), id)
      ensures marketAnalysis == old(marketAnalysis) && risks == old(risks)
    {
      timeline := Removed(timeline, id);
    }

    /** `setStrategyDetails`: all three parts replaced. */
    method SetStrategyDetails(analysis: MarketAnalysis, newRisks: seq<Record>, newTimeline: seq<Record>)
      modifies this
      ensures marketAnalysis == analysis && risks == newRisks && timeline == newTimeline
    {
      marketAnalysis, risks, timeline := analysis, newRisks, newTimeline;
    }

    /** `reset`: back to the initial state. */
    method Reset()
      modifies this
      ensures marketAnalysis == InitialAnalysis && risks == [] && timeline == []
    {
      marketAnalysis, risks, timeline := InitialAnalysis, [], [];
    }
  }

  /** Adding a risk under a fresh id and removing it again restores the
      risks; the other parts are never touched. */
  method AddThenRemoveRisk(s: Store, risk: Record, freshId: string)
    requires forall i :: 0 <= i < |s.risks| ==> !HasId(s.risks[i], freshId)
    modifies s
    ensures s.risks == old(s.risks) && s.marketAnalysis == old(s.marketAnalysis) && s.timeline == old(s.timeline)
  {
    s.AddRisk(risk, freshId);
    s.RemoveRisk(freshId);
    RemoveUndoesAdd(old(s.risks), risk, freshId, map["status" := "identified"]);
  }
}
