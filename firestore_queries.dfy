/** The two ordered read queries of backend/firestore_utils.py: the recent
    alerts of the dashboard (filtered, newest first, limited) and the
    cumulative project-growth series (projects per calendar day, days in
    ascending order, counts accumulated). */
module FirestoreQueries {
  import opened Lists
  import opened Text
  import opened Store

  // ---------------------------------------------------------------------
  // get_user_alerts
  // ---------------------------------------------------------------------

  /** What the query keeps: `dismissed == False`, and a `created_at` value
      to order by (Firestore drops documents without the ordering field). */
  predicate Eligible(e: (DocId, AlertDoc))
  {
    !e.1.dismissed && e.1.createdAt.Some?
  }

  function Time(e: (DocId, AlertDoc)): int
  {
    e.1.createdAt.GetOr(0)
  }

  /** Newest first. */
  predicate NewestFirst(s: seq<(DocId, AlertDoc)>)
  {
    forall i, j :: 0 <= i < j < |s| ==> Time(s[i]) >= Time(s[j])
  }

  predicate DistinctIds<D>(s: seq<(DocId, D)>)
  {
    forall i, j :: 0 <= i < j < |s| ==> s[i].0 != s[j].0
  }

  /** Place one alert into a newest-first sequence. */
  function Insert(e: (DocId, AlertDoc), s: seq<(DocId, AlertDoc)>): (r: seq<(DocId, AlertDoc)>)
    requires NewestFirst(s)
    ensures NewestFirst(r)
    ensures |r| == |s| + 1 && (r[0] == e || (s != [] && r[0] == s[0]))
    ensures multiset(r) == multiset(s) + multiset{e}
  {
    if s == [] then [e]
    else if Time(e) >= Time(s[0]) then
      ConsNewestFirst(e, s);
      [e] + s
    else
      var tail := Insert(e, s[1..]);
      assert s == [s[0]] + s[1..];
      ConsNewestFirst(s[0], tail);
      [s[0]] + tail
  }

  /** An alert no older than the head of a newest-first sequence can go in
      front of it. */
  lemma ConsNewestFirst(x: (DocId, AlertDoc), s: seq<(DocId, AlertDoc)>)
    requires NewestFirst(s) && (s == [] || Time(x) >= Time(s[0]))
    ensures NewestFirst([x] + s)
  {
    var r := [x] + s;
    forall i, j | 0 <= i < j < |r|
      ensures Time(r[i]) >= Time(r[j])
    {
      if i == 0 {
        assert r[j] == s[j - 1];
        assert Time(s[0]) >= Time(s[j - 1]);
      } else {
        assert r[i] == s[i - 1] && r[j] == s[j - 1];
      }
    }
  }

  /** The query's ordering: the same alerts, newest first. */
  function SortNewestFirst(s: seq<(DocId, AlertDoc)>): (r: seq<(DocId, AlertDoc)>)
    ensures NewestFirst(r)
    ensures multiset(r) == multiset(s)
  {
    if s == [] then []
    else
      assert s == [s[0]] + s[1..];
      Insert(s[0], SortNewestFirst(s[1..]))
  }

  /** What the dashboard can expect of `get_user_alerts(uid, limit)` on the
      collection `m`: stored, undismissed, dated alerts, each at most once,
      newest first, at most `limit` of them, and no eligible alert left out
      unless the limit is reached and it is no newer than the last one
      shown. Alerts with equal stamps may come in any order. */
  ghost predicate IsRecentAlerts(r: seq<(DocId, AlertDoc)>, m: map<DocId, AlertDoc>, limit: nat)
  {
    && (forall i :: 0 <= i < |r| ==> r[i].0 in m && m[r[i].0] == r[i].1 && Eligible(r[i]))
    && DistinctIds(r)
    && NewestFirst(r)
    && |r| <= limit
    && (forall id :: id in m && Eligible((id, m[id])) && id !in ListedIds(r) ==>
          |r| == limit && (limit > 0 ==> m[id].createdAt.value <= Time(r[limit - 1])))
  }

  /** `get_user_alerts`: the empty list without a store, otherwise the
      query's answer. The conversion of the stamps to ISO strings is not
      modelled; the id travels with each document. */
  method GetUserAlerts(db: Firestore?, uid: Uid, limit: nat) returns (alerts: seq<(DocId, AlertDoc)>)
    ensures db == null ==> alerts == []
    ensures db != null ==> IsRecentAlerts(alerts, db.AlertsOf(uid), limit)
  {
    if db == null {
      return [];
    }
    var m := db.AlertsOf(uid);
    var listing := StreamDocs(m);
    var kept := Filter(listing, Eligible);
    var ranked := SortNewestFirst(kept);
    var n := if limit < |ranked| then limit else |ranked|;
    alerts := ranked[..n];
    RankedIsRecent(m, listing, kept, ranked, limit, alerts);
  }

  lemma RankedIsRecent(
    m: map<DocId, AlertDoc>, listing: seq<(DocId, AlertDoc)>, kept: seq<(DocId, AlertDoc)>,
    ranked: seq<(DocId, AlertDoc)>, limit: nat, alerts: seq<(DocId, AlertDoc)>)
    requires IsListing(listing, m)
    requires kept == Filter(listing, Eligible)
    requires multiset(ranked) == multiset(kept) && NewestFirst(ranked)
    requires alerts == ranked[..if limit < |ranked| then limit else |ranked|]
    ensures IsRecentAlerts(alerts, m, limit)
  {
    SubsequenceDistinct(kept, listing);
    PermutationDistinct(kept, ranked);
    RankedEntries(m, listing, kept, ranked);
    forall i | 0 <= i < |alerts|
      ensures alerts[i].0 in m && m[alerts[i].0] == alerts[i].1 && Eligible(alerts[i])
    {
      assert alerts[i] == ranked[i];
    }
    forall i, j | 0 <= i < j < |alerts|
      ensures alerts[i].0 != alerts[j].0 && Time(alerts[i]) >= Time(alerts[j])
    {
      assert alerts[i] == ranked[i] && alerts[j] == ranked[j];
    }
    forall id | id in m && Eligible((id, m[id])) && id !in ListedIds(alerts)
      ensures |alerts| == limit && (limit > 0 ==> m[id].createdAt.value <= Time(alerts[limit - 1]))
    {
      RankedMissing(m, listing, kept, ranked, limit, alerts, id);
    }
  }

  /** Every ranked entry is an eligible stored document. */
  lemma RankedEntries(
    m: map<DocId, AlertDoc>, listing: seq<(DocId, AlertDoc)>, kept: seq<(DocId, AlertDoc)>,
    ranked: seq<(DocId, AlertDoc)>)
    requires IsListing(listing, m)
    requires kept == Filter(listing, Eligible)
    requires multiset(ranked) == multiset(kept)
    ensures forall i :: 0 <= i < |ranked| ==> ranked[i].0 in m && m[ranked[i].0] == ranked[i].1 && Eligible(ranked[i])
  {
    forall i | 0 <= i < |ranked|
      ensures ranked[i].0 in m && m[ranked[i].0] == ranked[i].1 && Eligible(ranked[i])
    {
      assert ranked[i] in multiset(kept);
      var k :| 0 <= k < |kept| && kept[k] == ranked[i];
      var l :| 0 <= l < |listing| && listing[l] == kept[k];
    }
  }

  /** An eligible document the cut-off leaves out is ranked after it. */
  lemma RankedMissing(
    m: map<DocId, AlertDoc>, listing: seq<(DocId, AlertDoc)>, kept: seq<(DocId, AlertDoc)>,
    ranked: seq<(DocId, AlertDoc)>, limit: nat, alerts: seq<(DocId, AlertDoc)>, id: DocId)
    requires IsListing(listing, m)
    requires kept == Filter(listing, Eligible)
    requires multiset(ranked) == multiset(kept) && NewestFirst(ranked)
    requires alerts == ranked[..if limit < |ranked| then limit else |ranked|]
    requires id in m && Eligible((id, m[id])) && id !in ListedIds(alerts)
    ensures |alerts| == limit && (limit > 0 ==> m[id].createdAt.value <= Time(alerts[limit - 1]))
  {
    var k :| 0 <= k < |listing| && listing[k].0 == id;
    assert listing[k] == (id, m[id]);
    assert (id, m[id]) in kept;
    assert (id, m[id]) in multiset(ranked);
    var j :| 0 <= j < |ranked| && ranked[j] == (id, m[id]);
    assert forall i :: 0 <= i < |alerts| ==> alerts[i].0 != id;
    assert forall i :: 0 <= i < |alerts| ==> alerts[i] == ranked[i];
    assert j >= |alerts|;
    if limit > 0 {
      assert Time(ranked[limit - 1]) >= Time(ranked[j]);
    }
  }

  /** A subsequence of a listing with distinct ids has distinct ids. */
  lemma {:induction false} SubsequenceDistinct<D>(a: seq<(DocId, D)>, b: seq<(DocId, D)>)
    requires IsSubsequence(a, b) && DistinctIds(b)
    ensures DistinctIds(a)
  {
    if a != [] {
      if a[0] == b[0] && IsSubsequence(a[1..], b[1..]) {
        SubsequenceDistinct(a[1..], b[1..]);
        forall j | 0 < j < |a|
          ensures a[0].0 != a[j].0
        {
          SubsequenceMember(a[1..], b[1..], j - 1);
          var k :| 0 <= k < |b[1..]| && b[1..][k] == a[j];
          assert b[k + 1] == a[j];
        }
      } else {
        SubsequenceDistinct(a, b[1..]);
      }
    }
  }

  lemma {:induction false} SubsequenceMember<T>(a: seq<T>, b: seq<T>, j: nat)
    requires IsSubsequence(a, b) && j < |a|
    ensures a[j] in b
  {
    if a[0] == b[0] && IsSubsequence(a[1..], b[1..]) {
      if j > 0 {
        SubsequenceMember(a[1..], b[1..], j - 1);
      }
    } else {
      SubsequenceMember(a, b[1..], j);
    }
  }

  /** Reordering keeps the ids distinct. */
  lemma PermutationDistinct<D>(a: seq<(DocId, D)>, b: seq<(DocId, D)>)
    requires multiset(a) == multiset(b) && DistinctIds(a)
    ensures DistinctIds(b)
  {
    forall i, j | 0 <= i < j < |b|
      ensures b[i].0 != b[j].0
    {
      if b[i] == b[j] {
        TwiceInMultiset(b, i, j);
        DistinctMultiplicity(a, b[i]);
        assert false;
      } else if b[i].0 == b[j].0 {
        SameIdSameEntry(a, b[i], b[j]);
        assert false;
      }
    }
  }

  /** In a sequence with distinct ids an id names one entry. */
  lemma SameIdSameEntry<D>(a: seq<(DocId, D)>, x: (DocId, D), y: (DocId, D))
    requires DistinctIds(a) && x in a && y in a && x.0 == y.0
    ensures x == y
  {
    var p :| 0 <= p < |a| && a[p] == x;
    var q :| 0 <= q < |a| && a[q] == y;
  }

  lemma TwiceInMultiset<T>(s: seq<T>, i: nat, j: nat)
    requires i < j < |s| && s[i] == s[j]
    ensures multiset(s)[s[i]] >= 2
  {
    assert s == s[..j] + s[j..];
    assert s[i] in s[..j];
    assert s[j] in s[j..];
    assert multiset(s) == multiset(s[..j]) + multiset(s[j..]);
  }

  /** After `dismiss_alert(uid, id)` the alert can no longer be shown. */
  lemma DismissedAlertHidden(m: map<DocId, AlertDoc>, id: DocId, r: seq<(DocId, AlertDoc)>, limit: nat)
    requires id in m
    requires IsRecentAlerts(r, m[id := m[id].(dismissed := true)], limit)
    ensures id !in ListedIds(r)
  {
    if id in ListedIds(r) {
      assert false;
    }
  }

  // ---------------------------------------------------------------------
  // get_project_growth
  // ---------------------------------------------------------------------

  /** The calendar day of a creation stamp: `ts.date().isoformat()` for a
      server time, `ts.split('T')[0]` for a string. A falsy result (an
      empty string) is not counted. */
  function DateOf(stamp: Stamp): (r: Option<string>)
    ensures r.Some? ==> r.value != []
    ensures r.Some? && stamp.Text? ==> StartsWith(stamp.text, r.value) && 'T' !in r.value
  {
    match stamp
    case ServerTime(date, _) => if date == [] then None else Some(date)
    case Text(text) =>
      var day := Before(text, 'T');
      if day == [] then None else Some(day)
  }

  /** An ISO timestamp string is counted under its date part. */
  lemma DateOfIsoText(date: string, time: string)
    requires date != [] && forall i :: 0 <= i < |date| ==> date[i] != 'T'
    ensures DateOf(Text(date + "T" + time)) == Some(date)
  {
    assert date + "T" + time == date + ("T" + time);
    BeforeOf(date, "T" + time, 'T');
  }

  /** The day a listed project is counted under, if any. */
  function ProjectDate(e: (DocId, ProjectDoc)): Option<string>
  {
    if e.1.createdAt.Some? then DateOf(e.1.createdAt.value) else None
  }

  /** The projects created on day `d`. */
  function CreatedOn(d: string): ((DocId, ProjectDoc)) -> bool
  {
    e => ProjectDate(e) == Some(d)
  }

  predicate OnOrBefore(a: string, b: string)
  {
    a == b || Less(a, b)
  }

  /** The projects created on day `d` or earlier. */
  function CreatedBy(d: string): ((DocId, ProjectDoc)) -> bool
  {
    e => ProjectDate(e).Some? && OnOrBefore(ProjectDate(e).value, d)
  }

  /** `date_counts` after the grouping loop has seen `listing`. */
  function DateCounts(listing: seq<(DocId, ProjectDoc)>): (r: map<string, nat>)
    ensures forall d :: d in r <==> exists i :: 0 <= i < |listing| && ProjectDate(listing[i]) == Some(d)
  {
    if listing == [] then map[]
    else
      var n := |listing| - 1;
      var front := DateCounts(listing[..n]);
      assert forall i :: 0 <= i < n ==> listing[..n][i] == listing[i];
      Tally(front, listing[n])
  }

  /** One step of the grouping loop: the project's day, if it has one,
      gets one more. */
  function Tally(counts: map<string, nat>, e: (DocId, ProjectDoc)): map<string, nat>
  {
    match ProjectDate(e)
    case None => counts
    case Some(d) => counts[d := (if d in counts then counts[d] else 0) + 1]
  }

  /** Each day's tally is the number of projects created that day. */
  lemma {:induction false} DateCountsAreCounts(listing: seq<(DocId, ProjectDoc)>, d: string)
    requires d in DateCounts(listing)
    ensures DateCounts(listing)[d] == Count(listing, CreatedOn(d))
  {
    var n := |listing| - 1;
    var front := listing[..n];
    assert listing == front + [listing[n]];
    CountAppend(front, [listing[n]], CreatedOn(d));
    if d in DateCounts(front) {
      DateCountsAreCounts(front, d);
    } else {
      assert Count(front, CreatedOn(d)) == 0;
    }
  }

  predicate Ascending(s: seq<string>)
  {
    forall i, j :: 0 <= i < j < |s| ==> Less(s[i], s[j])
  }

  /** `m` is the least element of `s`. */
  predicate IsLeast(m: string, s: set<string>)
  {
    m in s && forall d :: d in s && d != m ==> Less(m, d)
  }

  /** A non-empty set of strings has a least element. */
  lemma {:induction false} MinExists(s: set<string>)
    requires s != {}
    ensures exists m :: IsLeast(m, s)
  {
    var x :| x in s;
    var rest := s - {x};
    assert s == rest + {x};
    if rest == {} {
      assert IsLeast(x, s);
    } else {
      MinExists(rest);
      var m :| IsLeast(m, rest);
      LessTotal(x, m);
      if Less(x, m) {
        LeastAddSmaller(x, m, rest);
      } else {
        LeastAddLarger(x, m, rest);
      }
    }
  }

  lemma LeastAddSmaller(x: string, m: string, rest: set<string>)
    requires IsLeast(m, rest) && Less(x, m)
    ensures IsLeast(x, rest + {x})
  {
    forall d | d in rest && d != x && d != m
      ensures Less(x, d)
    {
      LessTrans(x, m, d);
    }
  }

  lemma LeastAddLarger(x: string, m: string, rest: set<string>)
    requires IsLeast(m, rest) && x !in rest && (x == m || Less(x, m) || Less(m, x)) && !Less(x, m)
    ensures IsLeast(m, rest + {x})
  {
  }

  /** `sorted(date_counts.keys())`. */
  method SortedDays(keys: set<string>) returns (days: seq<string>)
    ensures Ascending(days)
    ensures forall d :: d in keys <==> d in days
  {
    days := [];
    var rest := keys;
    while rest != {}
      invariant rest <= keys
      invariant Ascending(days)
      invariant forall d :: d in keys <==> d in days || d in rest
      invariant forall i, d :: 0 <= i < |days| && d in rest ==> Less(days[i], d)
      decreases rest
    {
      MinExists(rest);
      var m :| IsLeast(m, rest);
      days := days + [m];
      rest := rest - {m};
    }
    forall d | d in keys
      ensures d in days
    {
      LessIrreflexive(d);
    }
  }

  /** One point of the growth chart. */
  datatype GrowthPoint = GrowthPoint(date: string, count: nat)

  /** The running total of the tallies of `days`. */
  function Running(days: seq<string>, counts: map<string, nat>): nat
  {
    if days == [] then 0
    else
      var n := |days| - 1;
      Running(days[..n], counts) + (if days[n] in counts then counts[days[n]] else 0)
  }

  /** `get_project_growth`: the empty series without a store; otherwise one
      point per day on which a project was created, days ascending, each
      with the number of projects created on that day or before. The
      store's ordering of the listing plays no part. `listing` is the
      one the computation saw. */
  method GetProjectGrowth(db: Firestore?, uid: Uid)
    returns (growth: seq<GrowthPoint>, ghost listing: seq<(DocId, ProjectDoc)>)
    ensures db == null ==> growth == []
    ensures db != null ==> IsListing(listing, db.ProjectsOf(uid))
    ensures IsGrowthOf(listing, growth)
    ensures forall i, j :: 0 <= i < j < |growth| ==> growth[i].count < growth[j].count
    ensures growth != [] ==> growth[|growth| - 1].count == Count(listing, Dated)
    ensures growth == [] ==> Count(listing, Dated) == 0
  {
    if db == null {
      return [], [];
    }
    var docs := StreamDocs(db.ProjectsOf(uid));
    listing := docs;
    var dateCounts := GroupByDay(docs);
    var days := SortedDays(dateCounts.Keys);
    growth := Accumulate(days, dateCounts);
    GrowthMeaning(listing, days, growth);
    GrowthIncreasing(listing, growth);
    GrowthTotal(listing, growth);
  }

  /** The projects counted under some day: those with a usable `created_at`. */
  predicate Dated(e: (DocId, ProjectDoc))
  {
    ProjectDate(e).Some?
  }

  /** What the growth series states about the listing it was built from. */
  ghost predicate IsGrowthOf(listing: seq<(DocId, ProjectDoc)>, growth: seq<GrowthPoint>)
  {
    && (forall i, j :: 0 <= i < j < |growth| ==> Less(growth[i].date, growth[j].date))
    && (forall d :: (exists i :: 0 <= i < |listing| && ProjectDate(listing[i]) == Some(d)) <==>
          (exists k :: 0 <= k < |growth| && growth[k].date == d))
    && (forall k :: 0 <= k < |growth| ==> growth[k].count == Count(listing, CreatedBy(growth[k].date)))
  }

  /** Every later point of the series counts strictly more projects: each
      day shown has at least one project of its own. */
  lemma GrowthIncreasing(listing: seq<(DocId, ProjectDoc)>, growth: seq<GrowthPoint>)
    requires IsGrowthOf(listing, growth)
    ensures forall i, j :: 0 <= i < j < |growth| ==> growth[i].count < growth[j].count
  {
    forall i, j | 0 <= i < j < |growth|
      ensures growth[i].count < growth[j].count
    {
      var di, dj := growth[i].date, growth[j].date;
      assert exists k :: 0 <= k < |growth| && growth[k].date == dj;
      var n :| 0 <= n < |listing| && ProjectDate(listing[n]) == Some(dj);
      LessAsym(di, dj);
      LessIrreflexive(di);
      forall m | 0 <= m < |listing| && CreatedBy(di)(listing[m])
        ensures CreatedBy(dj)(listing[m])
      {
        if ProjectDate(listing[m]).value != di {
          LessTrans(ProjectDate(listing[m]).value, di, dj);
        }
      }
      CountStrictlyMonotone(listing, CreatedBy(di), CreatedBy(dj), n);
    }
  }

  /** The last point counts every project with a usable creation date; an
      empty series means there is none. */
  lemma GrowthTotal(listing: seq<(DocId, ProjectDoc)>, growth: seq<GrowthPoint>)
    requires IsGrowthOf(listing, growth)
    ensures growth != [] ==> growth[|growth| - 1].count == Count(listing, Dated)
    ensures growth == [] ==> Count(listing, Dated) == 0
  {
    if growth == [] {
      forall m | 0 <= m < |listing|
        ensures !Dated(listing[m])
      {
        if Dated(listing[m]) {
          assert false;
        }
      }
    } else {
      var last := growth[|growth| - 1].date;
      forall m | 0 <= m < |listing|
        ensures CreatedBy(last)(listing[m]) == Dated(listing[m])
      {
        if Dated(listing[m]) {
          var d := ProjectDate(listing[m]).value;
          assert exists i :: 0 <= i < |listing| && ProjectDate(listing[i]) == Some(d);
          var k :| 0 <= k < |growth| && growth[k].date == d;
          assert k < |growth| - 1 ==> Less(d, last);
        }
      }
      CountCongruent(listing, CreatedBy(last), Dated);
    }
  }

  /** The grouping loop: `date_counts[day] = date_counts.get(day, 0) + 1`. */
  method GroupByDay(docs: seq<(DocId, ProjectDoc)>) returns (dateCounts: map<string, nat>)
    ensures dateCounts == DateCounts(docs)
  {
    dateCounts := map[];
    for i := 0 to |docs|
      invariant dateCounts == DateCounts(docs[..i])
    {
      DateCountsStep(docs, i);
      match ProjectDate(docs[i]) {
        case None =>
        case Some(d) =>
          dateCounts := dateCounts[d := (if d in dateCounts then dateCounts[d] else 0) + 1];
      }
    }
    assert docs[..|docs|] == docs;
  }

  /** One more document is one more step of the tally. */
  lemma DateCountsStep(docs: seq<(DocId, ProjectDoc)>, i: nat)
    requires i < |docs|
    ensures DateCounts(docs[..i + 1]) == Tally(DateCounts(docs[..i]), docs[i])
  {
    var s := docs[..i + 1];
    assert s[..|s| - 1] == docs[..i];
  }

  /** The accumulation loop over the sorted days. */
  method Accumulate(days: seq<string>, dateCounts: map<string, nat>) returns (growth: seq<GrowthPoint>)
    ensures |growth| == |days|
    ensures forall k :: 0 <= k < |days| ==> growth[k] == GrowthPoint(days[k], Running(days[..k + 1], dateCounts))
  {
    growth := [];
    var cumulative := 0;
    for i := 0 to |days|
      invariant |growth| == i
      invariant cumulative == Running(days[..i], dateCounts)
      invariant forall k :: 0 <= k < i ==> growth[k] == GrowthPoint(days[k], Running(days[..k + 1], dateCounts))
    {
      assert days[..i + 1][..i] == days[..i];
      cumulative := cumulative + (if days[i] in dateCounts then dateCounts[days[i]] else 0);
      growth := growth + [GrowthPoint(days[i], cumulative)];
    }
  }

  /** The series built from the sorted days means what the chart shows. */
  lemma GrowthMeaning(listing: seq<(DocId, ProjectDoc)>, days: seq<string>, growth: seq<GrowthPoint>)
    requires Ascending(days)
    requires forall d :: d in DateCounts(listing) <==> d in days
    requires |growth| == |days|
    requires forall k :: 0 <= k < |days| ==> growth[k] == GrowthPoint(days[k], Running(days[..k + 1], DateCounts(listing)))
    ensures IsGrowthOf(listing, growth)
  {
    forall k | 0 <= k < |growth|
      ensures growth[k].date == days[k]
      ensures growth[k].count == Count(listing, CreatedBy(growth[k].date))
    {
      RunningIsCumulative(listing, days, k);
    }
    forall i, j | 0 <= i < j < |growth|
      ensures Less(growth[i].date, growth[j].date)
    {
      assert growth[i].date == days[i] && growth[j].date == days[j];
    }
    forall d
      ensures (exists i :: 0 <= i < |listing| && ProjectDate(listing[i]) == Some(d)) <==>
        (exists k :: 0 <= k < |growth| && growth[k].date == d)
    {
      if exists k :: 0 <= k < |growth| && growth[k].date == d {
        var k :| 0 <= k < |growth| && growth[k].date == d;
        assert days[k] == d;
        assert d in DateCounts(listing);
      }
      if d in DateCounts(listing) {
        var k :| 0 <= k < |days| && days[k] == d;
        assert growth[k].date == d;
      }
    }
  }

  /** The running total up to day `days[k]` counts the projects created on
      that day or before. */
  lemma {:induction false} RunningIsCumulative(listing: seq<(DocId, ProjectDoc)>, days: seq<string>, k: nat)
    requires Ascending(days)
    requires forall d :: d in DateCounts(listing) <==> d in days
    requires k < |days|
    ensures Running(days[..k + 1], DateCounts(listing)) == Count(listing, CreatedBy(days[k]))
  {
    assert days[..k + 1][..k] == days[..k];
    DateCountsAreCounts(listing, days[k]);
    if k == 0 {
      assert days[..0] == [];
      FirstDayCount(listing, days);
    } else {
      RunningIsCumulative(listing, days, k - 1);
      NextDayCount(listing, days, k);
    }
  }

  /** Every day a project is counted under is one of the days. */
  lemma DayIsListed(listing: seq<(DocId, ProjectDoc)>, days: seq<string>, i: nat)
    requires forall d :: d in DateCounts(listing) <==> d in days
    requires i < |listing| && ProjectDate(listing[i]).Some?
    ensures ProjectDate(listing[i]).value in days
  {
    assert ProjectDate(listing[i]).value in DateCounts(listing);
  }

  lemma FirstDayCount(listing: seq<(DocId, ProjectDoc)>, days: seq<string>)
    requires Ascending(days) && |days| > 0
    requires forall d :: d in DateCounts(listing) <==> d in days
    ensures Count(listing, CreatedBy(days[0])) == Count(listing, CreatedOn(days[0]))
  {
    forall i | 0 <= i < |listing|
      ensures CreatedBy(days[0])(listing[i]) == CreatedOn(days[0])(listing[i])
    {
      if ProjectDate(listing[i]).Some? {
        DayIsListed(listing, days, i);
        DayAtOrBeforeFirst(days, ProjectDate(listing[i]).value);
      }
    }
    CountCongruent(listing, CreatedBy(days[0]), CreatedOn(days[0]));
  }

  lemma NextDayCount(listing: seq<(DocId, ProjectDoc)>, days: seq<string>, k: nat)
    requires Ascending(days) && 0 < k < |days|
    requires forall d :: d in DateCounts(listing) <==> d in days
    ensures Count(listing, CreatedBy(days[k])) == Count(listing, CreatedBy(days[k - 1])) + Count(listing, CreatedOn(days[k]))
  {
    forall i | 0 <= i < |listing|
      ensures (CreatedBy(days[k])(listing[i]) <==> CreatedBy(days[k - 1])(listing[i]) || CreatedOn(days[k])(listing[i]))
           && !(CreatedBy(days[k - 1])(listing[i]) && CreatedOn(days[k])(listing[i]))
    {
      if ProjectDate(listing[i]).Some? {
        DayIsListed(listing, days, i);
        DayAtOrBeforeStep(days, k, ProjectDate(listing[i]).value);
      }
    }
    CountSplit(listing, CreatedBy(days[k]), CreatedBy(days[k - 1]), CreatedOn(days[k]));
  }

  /** In ascending days, only the first is on or before the first. */
  lemma DayAtOrBeforeFirst(days: seq<string>, x: string)
    requires Ascending(days) && |days| > 0 && x in days
    ensures OnOrBefore(x, days[0]) <==> x == days[0]
  {
    var j :| 0 <= j < |days| && days[j] == x;
    if j > 0 {
      LessAsym(days[0], x);
    }
  }

  /** Between consecutive ascending days there is no other day. */
  lemma DayAtOrBeforeStep(days: seq<string>, k: nat, x: string)
    requires Ascending(days) && 0 < k < |days| && x in days
    ensures OnOrBefore(x, days[k]) <==> OnOrBefore(x, days[k - 1]) || x == days[k]
    ensures !(OnOrBefore(x, days[k - 1]) && x == days[k])
  {
    var j :| 0 <= j < |days| && days[j] == x;
    LessAsym(days[k - 1], days[k]);
    if j > k {
      LessAsym(days[k], x);
    } else if j < k - 1 {
      assert Less(x, days[k - 1]);
    } else if j == k - 1 {
    }
    if Less(x, days[k - 1]) {
      LessTrans(x, days[k - 1], days[k]);
    }
  }
}
