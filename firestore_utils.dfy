/** The dashboard and document helpers of the backend
    (backend/firestore_utils.py): statistics folded over a user's projects,
    the usage meter, the three alert rules, the growth series, the recent
    alerts query, and the create, dismiss, update, delete and get
    operations on the store. Every operation first looks for a configured
    store (`db` not null). */
module FirestoreUtils {
  import opened Lists
  import opened Text
  import opened Store
  import opened Auth

  /** The outcome of a call that may raise: Firestore's `update` raises
      NotFound when the document does not exist. */
  datatype Call<T> = Returned(value: T) | Raised(error: string)

  const NotFound: string := "NotFound"

  // ---------------------------------------------------------------------
  // get_user_stats
  // ---------------------------------------------------------------------

  /** The dashboard statistics. `successRate` is the exact mean score;
      the rounding to one decimal is not modelled. */
  datatype UserStats = UserStats(ideasAnalyzed: nat, revenueStreams: int, successRate: real, activeProjects: nat)

  const NoStats: UserStats := UserStats(0, 0, 0.0, 0)

  function EntryStreams(e: (DocId, ProjectDoc)): int
  {
    e.1.revenueStreamsCount.GetOr(0)
  }

  function EntryScore(e: (DocId, ProjectDoc)): int
  {
    e.1.overallScore.GetOr(0)
  }

  predicate EntryActive(e: (DocId, ProjectDoc))
  {
    e.1.status == Some("active")
  }

  /** The statistics of the projects in a listing. */
  function StatsOf(listing: seq<(DocId, ProjectDoc)>): (r: UserStats)
    ensures r.ideasAnalyzed == |listing|
    ensures r.activeProjects <= r.ideasAnalyzed
    ensures r.activeProjects == 0 <==> forall i :: 0 <= i < |listing| ==> listing[i].1.status != Some("active")
    ensures listing == [] ==> r == NoStats
    ensures listing != [] ==> r.successRate * |listing| as real == Sum(listing, EntryScore) as real
  {
    var n := |listing|;
    var rate := if n > 0 then Sum(listing, EntryScore) as real / n as real else 0.0;
    UserStats(n, Sum(listing, EntryStreams), rate, Count(listing, EntryActive))
  }

  /** `get_user_stats`: one pass over the user's projects accumulating the
      count, the stream total, the score total and the active count. The
      ghost `listing` is the order in which the store streamed them. */
  method GetUserStats(db: Firestore?, uid: Uid) returns (stats: UserStats, ghost listing: seq<(DocId, ProjectDoc)>)
    ensures db == null ==> stats == NoStats
    ensures db != null ==> IsListing(listing, db.ProjectsOf(uid)) && stats == StatsOf(listing)
  {
    if db == null {
      return NoStats, [];
    }
    var projects := StreamDocs(db.ProjectsOf(uid));
    listing := projects;
    var totalProjects, totalStreams, totalScore, activeCount := Totals(projects);
    var successRate := if totalProjects > 0 then totalScore as real / totalProjects as real else 0.0;
    stats := UserStats(totalProjects, totalStreams, successRate, activeCount);
  }

  /** The accumulation loop of `get_user_stats`: the project count, the
      stream total, the score total and the number of active projects. */
  method Totals(projects: seq<(DocId, ProjectDoc)>) returns (totalProjects: nat, totalStreams: int, totalScore: int, activeCount: nat)
    ensures totalProjects == |projects|
    ensures totalStreams == Sum(projects, EntryStreams) && totalScore == Sum(projects, EntryScore)
    ensures activeCount == Count(projects, EntryActive)
  {
    totalProjects, totalStreams, totalScore, activeCount := 0, 0, 0, 0;
    for i := 0 to |projects|
      invariant totalProjects == i
      invariant totalStreams == Sum(projects[..i], EntryStreams)
      invariant totalScore == Sum(projects[..i], EntryScore)
      invariant activeCount == Count(projects[..i], EntryActive)
    {
      var data := projects[i].1;
      assert projects[..i + 1] == projects[..i] + [projects[i]];
      SumAppend(projects[..i], [projects[i]], EntryStreams);
      SumAppend(projects[..i], [projects[i]], EntryScore);
      CountAppend(projects[..i], [projects[i]], EntryActive);
      totalProjects := totalProjects + 1;
      totalStreams := totalStreams + data.revenueStreamsCount.GetOr(0);
      totalScore := totalScore + data.overallScore.GetOr(0);
      if data.status == Some("active") {
        activeCount := activeCount + 1;
      }
    }
    assert projects[..|projects|] == projects;
  }

  /** The statistics do not depend on the order of the stream, and
      `ideasAnalyzed` is the number of project documents. */
  lemma StatsDependOnDocumentsOnly(a: seq<(DocId, ProjectDoc)>, b: seq<(DocId, ProjectDoc)>, m: map<DocId, ProjectDoc>)
    requires IsListing(a, m) && IsListing(b, m)
    ensures StatsOf(a) == StatsOf(b)
    ensures StatsOf(a).ideasAnalyzed == |m|
  {
    ListingsArePermutations(a, b, m);
    ListingLength(a, m);
    ListingLength(b, m);
    SumPermutation(a, b, EntryStreams);
    SumPermutation(a, b, EntryScore);
    CountPermutation(a, b, EntryActive);
  }

  // ---------------------------------------------------------------------
  // get_user_usage_stats
  // ---------------------------------------------------------------------

  /** The usage meter; `percentage` is exact (the rounding is not modelled). */
  datatype UsageStats = UsageStats(plan: string, currentUsage: int, limit: nat, percentage: real)

  const NoUsage: UsageStats := UsageStats("starter", 0, 10, 0.0)

  /** The meter on a snapshot of the users and usage documents. A user
      without a document is shown on the starter plan. */
  function UsageStatsOf(users: map<Uid, UserDoc>, usage: map<Uid, UsageDoc>, uid: Uid): (r: UsageStats)
    ensures r.plan == if uid in users then PlanOf(users[uid]) else "starter"
    ensures r.currentUsage == CurrentUsage(usage, uid)
    ensures r.limit == PlanLimit(r.plan) && r.limit >= 10
    ensures r.percentage * r.limit as real == r.currentUsage as real * 100.0
  {
    var plan := if uid in users then PlanOf(users[uid]) else "starter";
    var current := CurrentUsage(usage, uid);
    var limit := PlanLimit(plan);
    var percentage := if limit > 0 then current as real / limit as real * 100.0 else 0.0;
    UsageStats(plan, current, limit, percentage)
  }

  /** `get_user_usage_stats`. */
  function GetUserUsageStats(db: Firestore?, uid: Uid): (r: UsageStats)
    reads db
    ensures db == null ==> r == NoUsage
    ensures db != null ==> r == UsageStatsOf(db.users, db.usage, uid)
  {
    if db == null then NoUsage else UsageStatsOf(db.users, db.usage, uid)
  }

  /** For a user with a document the exact meter agrees with the quota
      gate: the gate admits exactly while the meter is below 100%. The
      server rounds the percentage to one decimal, which this does not
      capture: just below the limit the rounded meter already reads 100. */
  lemma UsageMeterAgreesWithGate(users: map<Uid, UserDoc>, usage: map<Uid, UsageDoc>, uid: Uid)
    requires uid in users
    ensures Admits(users, usage, uid) <==> UsageStatsOf(users, usage, uid).percentage < 100.0
  {
    var r := UsageStatsOf(users, usage, uid);
    var l := r.limit as real;
    assert r.percentage * l == r.currentUsage as real * 100.0;
    if r.percentage < 100.0 {
      assert r.percentage * l < 100.0 * l;
    } else {
      assert r.percentage * l >= 100.0 * l;
    }
  }

  /** A user without a document is shown the starter meter although the
      gate rejects every request of theirs. */
  lemma UsageMeterOfUnknownUser(users: map<Uid, UserDoc>, usage: map<Uid, UsageDoc>, uid: Uid)
    requires uid !in users
    ensures UsageStatsOf(users, usage, uid).plan == "starter"
    ensures UsageStatsOf(users, usage, uid).limit == 10
    ensures !Admits(users, usage, uid)
  {
  }

  // ---------------------------------------------------------------------
  // Alerts: rules and creation
  // ---------------------------------------------------------------------

  /** A stream that reads as a distribution channel (case folded on ASCII
      letters only, as `Lower` does). */
  predicate IsDistributionStream(s: Stream)
  {
    var name := Lower(s.name.GetOr(""));
    Contains(name, "marketplace") || Contains(name, "platform")
  }

  /** A stream scoring below 50; a missing score counts as 100. */
  predicate IsLowScoring(s: Stream)
  {
    s.strengthScore.GetOr(100) < 50
  }

  /** The rank of an alert kind in the order the rules run. */
  function KindRank(kind: string): nat
  {
    if kind == "warning" then 0 else if kind == "info" then 1 else 2
  }

  predicate HasKind(alerts: seq<AlertDoc>, kind: string)
  {
    exists i :: 0 <= i < |alerts| && alerts[i].kind == kind
  }

  function ProjectName(p: ProjectDoc): string
  {
    p.name.GetOr("Your idea")
  }

  const WarningTitle: string := "Distribution Strategy Needed"
  const WarningText: string := "\" may be weak on distribution channels. Consider adding marketplace or platform strategies."
  const InfoTitle: string := "Revenue Model Optimization"
  const InfoText: string := "\" scored below 50. Focus on your strongest 2-3 streams for better results."
  const SuccessTitle: string := "Strong Business Model Detected"
  const SuccessText: string := "% viability score."

  function WarningAlert(p: ProjectDoc): AlertDoc
  {
    AlertDoc("warning", WarningTitle, "Your idea \"" + ProjectName(p) + WarningText, p.id, None, false)
  }

  function InfoAlert(p: ProjectDoc): AlertDoc
  {
    AlertDoc("info", InfoTitle, "Several revenue streams in \"" + ProjectName(p) + InfoText, p.id, None, false)
  }

  function SuccessAlert(p: ProjectDoc): AlertDoc
  {
    AlertDoc("success", SuccessTitle,
      "Excellent! \"" + ProjectName(p) + "\" has a robust revenue model with " + IntToString(p.overallScore.GetOr(0)) + SuccessText,
      p.id, None, false)
  }

  predicate NeedsWarning(p: ProjectDoc)
  {
    Count(p.revenueStreams, IsDistributionStream) == 0
  }

  predicate NeedsInfo(p: ProjectDoc)
  {
    Count(p.revenueStreams, IsLowScoring) > 3
  }

  predicate NeedsSuccess(p: ProjectDoc)
  {
    p.overallScore.GetOr(0) >= 85
  }

  /** The alerts `generate_ai_alerts` asks for, in the order its rules run
      (warning, info, success), each about the given project. Which rule
      fires when is stated by `WarningRule`, `InfoRule` and `SuccessRule`. */
  function AlertsFor(p: ProjectDoc): (r: seq<AlertDoc>)
    ensures |r| <= 3
    ensures forall i, j :: 0 <= i < j < |r| ==> KindRank(r[i].kind) < KindRank(r[j].kind)
    ensures forall i :: 0 <= i < |r| ==> r[i].projectId == p.id
  {
    var (w, i, s) := RuleAlerts(p);
    RuleAlertsShape(p);
    w + i + s
  }

  /** Each rule gives at most one alert, of its own kind, about the project. */
  lemma RuleAlertsShape(p: ProjectDoc)
    ensures var (w, i, s) := RuleAlerts(p);
      && |w| <= 1 && |i| <= 1 && |s| <= 1
      && (forall k :: 0 <= k < |w| ==> KindRank(w[k].kind) == 0 && w[k].projectId == p.id)
      && (forall k :: 0 <= k < |i| ==> KindRank(i[k].kind) == 1 && i[k].projectId == p.id)
      && (forall k :: 0 <= k < |s| ==> KindRank(s[k].kind) == 2 && s[k].projectId == p.id)
  {
    KindsDistinct();
  }

  /** The alert each rule contributes: none, or one. */
  function RuleAlerts(p: ProjectDoc): (seq<AlertDoc>, seq<AlertDoc>, seq<AlertDoc>)
  {
    (if NeedsWarning(p) then [WarningAlert(p)] else [],
     if NeedsInfo(p) then [InfoAlert(p)] else [],
     if NeedsSuccess(p) then [SuccessAlert(p)] else [])
  }

  lemma HasKindOfRules(p: ProjectDoc, kind: string)
    ensures HasKind(AlertsFor(p), kind) <==>
      HasKind(RuleAlerts(p).0, kind) || HasKind(RuleAlerts(p).1, kind) || HasKind(RuleAlerts(p).2, kind)
  {
    var (w, i, s) := RuleAlerts(p);
    HasKindAppend(w, i, kind);
    HasKindAppend(w + i, s, kind);
  }

  /** A warning exactly when no stream is a distribution channel. */
  lemma WarningRule(p: ProjectDoc)
    ensures HasKind(AlertsFor(p), "warning") <==>
      forall i :: 0 <= i < |p.revenueStreams| ==> !IsDistributionStream(p.revenueStreams[i])
  {
    HasKindOfRules(p, "warning");
    KindsDistinct();
    var (w, i, s) := RuleAlerts(p);
    if NeedsWarning(p) { assert w[0].kind == "warning"; }
  }

  /** An info exactly when more than three streams score below 50. */
  lemma InfoRule(p: ProjectDoc)
    ensures HasKind(AlertsFor(p), "info") <==> Count(p.revenueStreams, IsLowScoring) > 3
  {
    HasKindOfRules(p, "info");
    KindsDistinct();
    var (w, i, s) := RuleAlerts(p);
    if NeedsInfo(p) { assert i[0].kind == "info"; }
  }

  /** A success exactly when the overall score (0 when missing) is at least 85. */
  lemma SuccessRule(p: ProjectDoc)
    ensures HasKind(AlertsFor(p), "success") <==> p.overallScore.GetOr(0) >= 85
  {
    HasKindOfRules(p, "success");
    KindsDistinct();
    var (w, i, s) := RuleAlerts(p);
    if NeedsSuccess(p) { assert s[0].kind == "success"; }
  }

  lemma KindsDistinct()
    ensures "warning" != "info" && "warning" != "success" && "info" != "success"
  {
    assert "warning"[0] != "info"[0] && "warning"[0] != "success"[0] && "info"[0] != "success"[0];
  }

  lemma HasKindAppend(a: seq<AlertDoc>, b: seq<AlertDoc>, kind: string)
    ensures HasKind(a + b, kind) <==> HasKind(a, kind) || HasKind(b, kind)
  {
    if HasKind(a + b, kind) {
      var k :| 0 <= k < |a + b| && (a + b)[k].kind == kind;
      if k >= |a| {
        assert b[k - |a|].kind == kind;
      }
    }
    if HasKind(a, kind) {
      var k :| 0 <= k < |a| && a[k].kind == kind;
      assert (a + b)[k].kind == kind;
    }
    if HasKind(b, kind) {
      var k :| 0 <= k < |b| && b[k].kind == kind;
      assert (a + b)[|a| + k].kind == kind;
    }
  }

  /** An alert as `create_alert` stores it: created now, not dismissed. */
  function StampedAlert(a: AlertDoc, now: int): (r: AlertDoc)
    ensures r.createdAt == Some(now) && !r.dismissed
    ensures r.kind == a.kind && r.title == a.title && r.message == a.message && r.projectId == a.projectId
  {
    a.(createdAt := Some(now), dismissed := false)
  }

  const MockAlertId: DocId := "mock-alert-id"

  /** `create_alert`: without a store the fixed mock id, the caller's data
      left alone; otherwise the data is stamped (in the caller's dict too,
      returned as `stamped`) and stored as a new document `newId`, which
      stands for the id the store generates. */
  method CreateAlert(db: Firestore?, uid: Uid, alert: AlertDoc, newId: DocId, now: int)
    returns (id: DocId, stamped: AlertDoc)
    requires db != null ==> newId !in db.AlertsOf(uid)
    modifies db
    ensures db == null ==> id == MockAlertId && stamped == alert
    ensures db != null ==>
      && id == newId && stamped == StampedAlert(alert, now)
      && db.alerts == old(db.alerts)[uid := old(db.AlertsOf(uid))[newId := stamped]]
    ensures db != null ==> db.users == old(db.users) && db.usage == old(db.usage)
    ensures db != null ==> db.projects == old(db.projects) && db.pivots == old(db.pivots)
  {
    if db == null {
      return MockAlertId, alert;
    }
    stamped := StampedAlert(alert, now);
    db.alerts := db.alerts[uid := db.AlertsOf(uid)[newId := stamped]];
    id := newId;
  }

  /** The alerts collection after storing `docs` (stamped) as `ids`, in order. */
  function AddedAlerts(m: map<DocId, AlertDoc>, ids: seq<DocId>, docs: seq<AlertDoc>, now: int): (r: map<DocId, AlertDoc>)
    requires |ids| == |docs|
    ensures forall id :: id in r <==> id in m || id in ids
  {
    if ids == [] then m
    else
      var n := |ids| - 1;
      assert ids == ids[..n] + [ids[n]];
      AddedAlerts(m, ids[..n], docs[..n], now)[ids[n] := StampedAlert(docs[n], now)]
  }

  /** With distinct ids new to `m`, every created alert is stored as asked
      and every earlier alert is left as it was. */
  lemma {:induction false} AddedAlertsContents(m: map<DocId, AlertDoc>, ids: seq<DocId>, docs: seq<AlertDoc>, now: int)
    requires |ids| == |docs|
    requires forall i, j :: 0 <= i < j < |ids| ==> ids[i] != ids[j]
    requires forall i :: 0 <= i < |ids| ==> ids[i] !in m
    ensures forall i :: 0 <= i < |ids| ==> AddedAlerts(m, ids, docs, now)[ids[i]] == StampedAlert(docs[i], now)
    ensures forall id :: id in m ==> AddedAlerts(m, ids, docs, now)[id] == m[id]
  {
    if ids != [] {
      var n := |ids| - 1;
      AddedAlertsContents(m, ids[..n], docs[..n], now);
      forall i | 0 <= i < n
        ensures AddedAlerts(m, ids, docs, now)[ids[i]] == StampedAlert(docs[i], now)
      {
        assert ids[..n][i] == ids[i] && docs[..n][i] == docs[i];
      }
    }
  }

  /** One rule firing: create its alert under the next fresh id. */
  method CreateNext(db: Firestore?, uid: Uid, alert: AlertDoc, newIds: seq<DocId>, ids: seq<DocId>,
                    ghost docs: seq<AlertDoc>, ghost before: map<DocId, AlertDoc>, now: int)
    returns (ids': seq<DocId>, ghost docs': seq<AlertDoc>)
    requires |ids| < |newIds| && |ids| == |docs|
    requires forall i, j :: 0 <= i < j < |newIds| ==> newIds[i] != newIds[j]
    requires db != null ==> forall i :: 0 <= i < |newIds| ==> newIds[i] !in before
    requires db != null ==> ids == newIds[..|ids|] && db.AlertsOf(uid) == AddedAlerts(before, ids, docs, now)
    requires db == null ==> forall i :: 0 <= i < |ids| ==> ids[i] == MockAlertId
    modifies db
    ensures |ids'| == |ids| + 1 && ids'[..|ids|] == ids && docs' == docs + [alert]
    ensures db != null ==> ids' == newIds[..|ids'|] && db.AlertsOf(uid) == AddedAlerts(before, ids', docs', now)
    ensures db == null ==> forall i :: 0 <= i < |ids'| ==> ids'[i] == MockAlertId
    ensures db != null ==> forall u :: u != uid ==> db.AlertsOf(u) == old(db.AlertsOf(u))
    ensures db != null ==> db.users == old(db.users) && db.usage == old(db.usage)
    ensures db != null ==> db.projects == old(db.projects) && db.pivots == old(db.pivots)
  {
    if db != null {
      var next := newIds[|ids|];
      assert next !in before;
      forall i | 0 <= i < |ids|
        ensures ids[i] != next
      {
        assert ids[i] == newIds[i];
      }
    }
    var id, _ := CreateAlert(db, uid, alert, newIds[|ids|], now);
    ids' := ids + [id];
    docs' := docs + [alert];
    assert ids'[..|ids|] == ids;
    if db != null {
      AddedAlertsSnoc(before, ids, docs, id, alert, now);
      assert newIds[..|ids'|] == newIds[..|ids|] + [newIds[|ids|]];
    }
  }

  /** Storing one more alert is one more map update. */
  lemma AddedAlertsSnoc(m: map<DocId, AlertDoc>, ids: seq<DocId>, docs: seq<AlertDoc>, id: DocId, d: AlertDoc, now: int)
    requires |ids| == |docs|
    ensures AddedAlerts(m, ids + [id], docs + [d], now) == AddedAlerts(m, ids, docs, now)[id := StampedAlert(d, now)]
  {
    assert (ids + [id])[..|ids|] == ids && (docs + [d])[..|docs|] == docs;
  }

  /** `generate_ai_alerts`: one `create_alert` per rule that fires, in rule
      order. `newIds` are the ids the store generates, distinct and new. */
  method GenerateAiAlerts(db: Firestore?, uid: Uid, project: ProjectDoc, newIds: seq<DocId>, now: int)
    returns (ids: seq<DocId>)
    requires |newIds| >= 3
    requires forall i, j :: 0 <= i < j < |newIds| ==> newIds[i] != newIds[j]
    requires db != null ==> forall i :: 0 <= i < |newIds| ==> newIds[i] !in db.AlertsOf(uid)
    modifies db
    ensures |ids| == |AlertsFor(project)|
    ensures db == null ==> forall i :: 0 <= i < |ids| ==> ids[i] == MockAlertId
    ensures db != null ==> ids == newIds[..|ids|]
    ensures db != null ==> db.AlertsOf(uid) == AddedAlerts(old(db.AlertsOf(uid)), ids, AlertsFor(project), now)
    ensures db != null ==> forall u :: u != uid ==> db.AlertsOf(u) == old(db.AlertsOf(u))
    ensures db != null ==> db.users == old(db.users) && db.usage == old(db.usage)
    ensures db != null ==> db.projects == old(db.projects) && db.pivots == old(db.pivots)
  {
    ids := [];
    ghost var docs: seq<AlertDoc> := [];
    ghost var before := if db != null then db.AlertsOf(uid) else map[];
    ghost var (w, i, s) := RuleAlerts(project);
    assert ids == newIds[..0];
    if NeedsWarning(project) {
      ids, docs := CreateNext(db, uid, WarningAlert(project), newIds, ids, docs, before, now);
    }
    assert docs == w;
    if NeedsInfo(project) {
      ids, docs := CreateNext(db, uid, InfoAlert(project), newIds, ids, docs, before, now);
    }
    assert docs == w + i;
    if NeedsSuccess(project) {
      ids, docs := CreateNext(db, uid, SuccessAlert(project), newIds, ids, docs, before, now);
    }
    assert docs == w + i + s == AlertsFor(project);
  }

  /** Each alert `generate_ai_alerts` created is stored as its rule asked,
      stamped and undismissed, and the earlier alerts are untouched. */
  lemma GeneratedAlertsStored(before: map<DocId, AlertDoc>, project: ProjectDoc, newIds: seq<DocId>, now: int)
    requires |newIds| >= 3
    requires forall i, j :: 0 <= i < j < |newIds| ==> newIds[i] != newIds[j]
    requires forall i :: 0 <= i < |newIds| ==> newIds[i] !in before
    ensures var wanted := AlertsFor(project);
            var after := AddedAlerts(before, newIds[..|wanted|], wanted, now);
            && (forall i :: 0 <= i < |wanted| ==> after[newIds[i]] == StampedAlert(wanted[i], now) && !after[newIds[i]].dismissed)
            && (forall id :: id in before ==> after[id] == before[id])
  {
    var wanted := AlertsFor(project);
    AddedAlertsContents(before, newIds[..|wanted|], wanted, now);
  }

  // ---------------------------------------------------------------------
  // Projects and pivots: create, update, delete, get
  // ---------------------------------------------------------------------

  const MockProjectId: DocId := "mock-project-id"
  const MockPivotId: DocId := "mock-pivot-id"

  /** A project as `create_project` stores it: both stamps set to the
      server time and the status forced to "active". */
  function StampedProject(p: ProjectDoc, now: Stamp): (r: ProjectDoc)
    ensures r.createdAt == Some(now) && r.updatedAt == Some(now) && r.status == Some("active")
    ensures r.name == p.name && r.overallScore == p.overallScore && r.revenueStreams == p.revenueStreams
    ensures r.revenueStreamsCount == p.revenueStreamsCount && r.id == p.id
  {
    p.(createdAt := Some(now), updatedAt := Some(now), status := Some("active"))
  }

  /** `create_project`: the fixed mock id without a store; otherwise the
      stamped data (also what the caller's dict now holds) stored as the
      new document `newId`. `nowDate` and `nowMillis` stand for the server
      time. */
  method CreateProject(db: Firestore?, uid: Uid, project: ProjectDoc, newId: DocId, nowDate: string, nowMillis: int)
    returns (id: DocId, stamped: ProjectDoc)
    requires db != null ==> newId !in db.ProjectsOf(uid)
    modifies db
    ensures db == null ==> id == MockProjectId && stamped == project
    ensures db != null ==>
      && id == newId && stamped == StampedProject(project, ServerTime(nowDate, nowMillis))
      && db.projects == old(db.projects)[uid := old(db.ProjectsOf(uid))[newId := stamped]]
      && GetProject(db, uid, id) == Some(stamped.(id := Some(id)))
    ensures db != null ==> db.users == old(db.users) && db.usage == old(db.usage)
    ensures db != null ==> db.alerts == old(db.alerts) && db.pivots == old(db.pivots)
  {
    if db == null {
      return MockProjectId, project;
    }
    stamped := StampedProject(project, ServerTime(nowDate, nowMillis));
    db.projects := db.projects[uid := db.ProjectsOf(uid)[newId := stamped]];
    id := newId;
  }

  /** A pivot as `create_pivot` stores it. */
  function StampedPivot(p: PivotDoc, now: int): (r: PivotDoc)
    ensures r.createdAt == Some(now) && r.status == Some("active")
    ensures r.pivotName == p.pivotName && r.projectId == p.projectId && r.analysis == p.analysis
  {
    p.(createdAt := Some(now), status := Some("active"))
  }

  /** `create_pivot`: as `create_project`, with only the creation stamp. */
  method CreatePivot(db: Firestore?, uid: Uid, pivot: PivotDoc, newId: DocId, now: int)
    returns (id: DocId, stamped: PivotDoc)
    requires db != null ==> newId !in db.PivotsOf(uid)
    modifies db
    ensures db == null ==> id == MockPivotId && stamped == pivot
    ensures db != null ==>
      && id == newId && stamped == StampedPivot(pivot, now)
      && db.pivots == old(db.pivots)[uid := old(db.PivotsOf(uid))[newId := stamped]]
    ensures db != null ==> db.users == old(db.users) && db.usage == old(db.usage)
    ensures db != null ==> db.alerts == old(db.alerts) && db.projects == old(db.projects)
  {
    if db == null {
      return MockPivotId, pivot;
    }
    stamped := StampedPivot(pivot, now);
    db.pivots := db.pivots[uid := db.PivotsOf(uid)[newId := stamped]];
    id := newId;
  }

  /** `dismiss_alert`: set `dismissed` and nothing else, answering true; the
      update raises NotFound for a missing alert. */
  method DismissAlert(db: Firestore?, uid: Uid, alertId: DocId) returns (r: Call<bool>)
    modifies db
    ensures db == null ==> r == Returned(true)
    ensures db != null && alertId !in old(db.AlertsOf(uid)) ==> r == Raised(NotFound) && db.alerts == old(db.alerts)
    ensures db != null && alertId in old(db.AlertsOf(uid)) ==>
      && r == Returned(true)
      && db.alerts == old(db.alerts)[uid := old(db.AlertsOf(uid))[alertId := old(db.AlertsOf(uid))[alertId].(dismissed := true)]]
    ensures db != null ==> db.users == old(db.users) && db.usage == old(db.usage)
    ensures db != null ==> db.projects == old(db.projects) && db.pivots == old(db.pivots)
  {
    if db == null {
      return Returned(true);
    }
    var alerts := db.AlertsOf(uid);
    if alertId !in alerts {
      return Raised(NotFound);
    }
    db.alerts := db.alerts[uid := alerts[alertId := alerts[alertId].(dismissed := true)]];
    return Returned(true);
  }

  /** `update_project_status`: set the status and the update stamp; the
      update raises NotFound for a missing project. Any status string is
      accepted. */
  method UpdateProjectStatus(db: Firestore?, uid: Uid, projectId: DocId, status: string, nowDate: string, nowMillis: int)
    returns (r: Call<bool>)
    modifies db
    ensures db == null ==> r == Returned(true)
    ensures db != null && projectId !in old(db.ProjectsOf(uid)) ==> r == Raised(NotFound) && db.projects == old(db.projects)
    ensures db != null && projectId in old(db.ProjectsOf(uid)) ==>
      && r == Returned(true)
      && db.projects == old(db.projects)[uid := old(db.ProjectsOf(uid))[projectId :=
           old(db.ProjectsOf(uid))[projectId].(status := Some(status), updatedAt := Some(ServerTime(nowDate, nowMillis)))]]
    ensures db != null ==> db.users == old(db.users) && db.usage == old(db.usage)
    ensures db != null ==> db.alerts == old(db.alerts) && db.pivots == old(db.pivots)
  {
    if db == null {
      return Returned(true);
    }
    var projects := db.ProjectsOf(uid);
    if projectId !in projects {
      return Raised(NotFound);
    }
    var updated := projects[projectId].(status := Some(status), updatedAt := Some(ServerTime(nowDate, nowMillis)));
    db.projects := db.projects[uid := projects[projectId := updated]];
    return Returned(true);
  }

  /** `delete_project`: remove the document if it is there; always true. */
  method DeleteProject(db: Firestore?, uid: Uid, projectId: DocId) returns (r: bool)
    modifies db
    ensures r
    ensures db != null ==> projectId !in db.ProjectsOf(uid)
    ensures db != null ==> db.ProjectsOf(uid) == old(db.ProjectsOf(uid)) - {projectId}
    ensures db != null ==> forall u :: u != uid ==> db.ProjectsOf(u) == old(db.ProjectsOf(u))
    ensures db != null ==> db.users == old(db.users) && db.usage == old(db.usage)
    ensures db != null ==> db.alerts == old(db.alerts) && db.pivots == old(db.pivots)
  {
    if db == null {
      return true;
    }
    if uid in db.projects {
      db.projects := db.projects[uid := db.projects[uid] - {projectId}];
    }
    return true;
  }

  /** `get_project`: None without a store or for a missing document,
      otherwise the document with its id added. The conversion of the
      stamps to ISO strings is not modelled. */
  function GetProject(db: Firestore?, uid: Uid, projectId: DocId): (r: Option<ProjectDoc>)
    reads db
    ensures db == null ==> r.None?
    ensures db != null ==> (r.Some? <==> projectId in db.ProjectsOf(uid))
    ensures r.Some? ==> r.value == db.ProjectsOf(uid)[projectId].(id := Some(projectId))
  {
    if db == null then None
    else
      var projects := db.ProjectsOf(uid);
      if projectId !in projects then None
      else Some(projects[projectId].(id := Some(projectId)))
  }
}
