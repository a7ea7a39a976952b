/** The document store the backend writes to, as the backend sees it: one
    `users/{uid}` document per user and, under it, the
    `usage/ai_generations` document and the `projects`, `alerts` and
    `pivots` sub-collections. Each document kind is a record whose optional
    fields mirror the keys the code reads with a default. */
module Store {
  import opened Lists

  type Uid = string
  type DocId = string

  /** `users/{uid}`: profile fields written at sign-in, and the billing plan. */
  datatype UserDoc = UserDoc(
    email: Option<string>,
    displayName: Option<string>,
    photoUrl: Option<string>,
    lastLogin: Option<int>,
    plan: Option<string>)

  /** `users/{uid}/usage/ai_generations`, holding the AI generation counter. */
  datatype UsageDoc = UsageDoc(count: Option<int>)

  /** A stored `created_at` value: a server timestamp (with its calendar date
      in ISO `YYYY-MM-DD` form) or a plain string. */
  datatype Stamp = ServerTime(date: string, millis: int) | Text(text: string)

  /** One revenue stream of an analysed idea. */
  datatype Stream = Stream(name: Option<string>, strengthScore: Option<int>)

  /** `users/{uid}/projects/{id}`. */
  datatype ProjectDoc = ProjectDoc(
    id: Option<string>,
    name: Option<string>,
    status: Option<string>,
    overallScore: Option<int>,
    revenueStreamsCount: Option<int>,
    revenueStreams: seq<Stream>,
    createdAt: Option<Stamp>,
    updatedAt: Option<Stamp>)

  /** `users/{uid}/alerts/{id}`; `createdAt` is a server time in milliseconds. */
  datatype AlertDoc = AlertDoc(
    kind: string,
    title: string,
    message: string,
    projectId: Option<string>,
    createdAt: Option<int>,
    dismissed: bool)

  /** The analysis stored with a pivot, every field optional. */
  datatype PivotAnalysis = PivotAnalysis(
    marketFit: Option<string>,
    viabilityScore: Option<int>,
    marketFitScore: Option<int>,
    progressPercentage: Option<int>,
    riskLevel: Option<string>,
    actionsCompleted: Option<int>,
    actionsTotal: Option<int>,
    estimatedInvestment: Option<string>,
    estimatedTimelineWeeks: Option<int>)

  /** `users/{uid}/pivots/{id}`, as the client receives it (with its id). */
  datatype PivotDoc = PivotDoc(
    id: DocId,
    projectId: Option<string>,
    pivotName: string,
    analysis: Option<PivotAnalysis>,
    status: Option<string>,
    createdAt: Option<int>)

  /** The document store. A `null` reference stands for the unconfigured
      store (`db is None`) that every backend function tests first. */
  class Firestore {
    var users: map<Uid, UserDoc>
    var usage: map<Uid, UsageDoc>
    var projects: map<Uid, map<DocId, ProjectDoc>>
    var alerts: map<Uid, map<DocId, AlertDoc>>
    var pivots: map<Uid, map<DocId, PivotDoc>>

    constructor ()
      ensures users == map[] && usage == map[]
      ensures projects == map[] && alerts == map[] && pivots == map[]
    {
      users, usage := map[], map[];
      projects, alerts, pivots := map[], map[], map[];
    }

    /** The `projects` sub-collection of `uid` (empty until something is written). */
    function ProjectsOf(uid: Uid): map<DocId, ProjectDoc>
      reads this
    {
      if uid in projects then projects[uid] else map[]
    }

    function AlertsOf(uid: Uid): map<DocId, AlertDoc>
      reads this
    {
      if uid in alerts then alerts[uid] else map[]
    }

    function PivotsOf(uid: Uid): map<DocId, PivotDoc>
      reads this
    {
      if uid in pivots then pivots[uid] else map[]
    }
  }

  // ---------------------------------------------------------------------
  // Streaming a collection
  // ---------------------------------------------------------------------

  /** `listing` yields every document of `m` exactly once, in some order. */
  ghost predicate IsListing<D>(listing: seq<(DocId, D)>, m: map<DocId, D>)
  {
    && (forall i :: 0 <= i < |listing| ==> listing[i].0 in m && m[listing[i].0] == listing[i].1)
    && (forall i, j :: 0 <= i < j < |listing| ==> listing[i].0 != listing[j].0)
    && (forall id :: id in m ==> exists i :: 0 <= i < |listing| && listing[i].0 == id)
  }

  /** `collection.stream()`: the documents of a collection, in an order the
      store chooses. */
  method StreamDocs<D>(m: map<DocId, D>) returns (listing: seq<(DocId, D)>)
    ensures IsListing(listing, m)
  {
    listing := [];
    var rest := m.Keys;
    while rest != {}
      invariant rest <= m.Keys
      invariant forall i :: 0 <= i < |listing| ==> listing[i].0 in m && listing[i].0 !in rest && m[listing[i].0] == listing[i].1
      invariant forall i, j :: 0 <= i < j < |listing| ==> listing[i].0 != listing[j].0
      invariant forall id :: id in m && id !in rest ==> exists i :: 0 <= i < |listing| && listing[i].0 == id
      decreases rest
    {
      var id :| id in rest;
      ghost var before := listing;
      listing := listing + [(id, m[id])];
      rest := rest - {id};
      forall id' | id' in m && id' !in rest
        ensures exists i :: 0 <= i < |listing| && listing[i].0 == id'
      {
        if id' == id {
          assert listing[|before|].0 == id;
        } else {
          var i :| 0 <= i < |before| && before[i].0 == id';
          assert listing[i] == before[i];
        }
      }
    }
  }

  /** Two listings of the same collection hold the same documents, each as
      often: they differ at most in order. */
  lemma ListingsArePermutations<D>(a: seq<(DocId, D)>, b: seq<(DocId, D)>, m: map<DocId, D>)
    requires IsListing(a, m) && IsListing(b, m)
    ensures multiset(a) == multiset(b)
  {
    forall x
      ensures multiset(a)[x] == multiset(b)[x]
    {
      DistinctMultiplicity(a, x);
      DistinctMultiplicity(b, x);
      if x in a {
        var i :| 0 <= i < |a| && a[i] == x;
        var j :| 0 <= j < |b| && b[j].0 == x.0;
        assert b[j] == x;
      }
      if x in b {
        var j :| 0 <= j < |b| && b[j] == x;
        var i :| 0 <= i < |a| && a[i].0 == x.0;
        assert a[i] == x;
      }
    }
  }

  /** In a listing whose ids are distinct, an entry occurs at most once. */
  lemma {:induction false} DistinctMultiplicity<D>(a: seq<(DocId, D)>, x: (DocId, D))
    requires forall i, j :: 0 <= i < j < |a| ==> a[i].0 != a[j].0
    ensures multiset(a)[x] == if x in a then 1 else 0
  {
    if a != [] {
      assert a == [a[0]] + a[1..];
      DistinctMultiplicity(a[1..], x);
      if a[0] == x {
        assert x !in a[1..];
      }
    }
  }

  /** The ids a listing yields. */
  ghost function ListedIds<D>(listing: seq<(DocId, D)>): set<DocId>
  {
    set i | 0 <= i < |listing| :: listing[i].0
  }

  /** A listing yields as many entries as the collection has documents. */
  lemma ListingLength<D>(listing: seq<(DocId, D)>, m: map<DocId, D>)
    requires IsListing(listing, m)
    ensures |listing| == |m|
  {
    assert ListedIds(listing) == m.Keys by {
      forall id | id in m
        ensures id in ListedIds(listing)
      {
        var i :| 0 <= i < |listing| && listing[i].0 == id;
      }
    }
    DistinctIdsCount(listing);
    assert |m.Keys| == |m|;
  }

  lemma {:induction false} DistinctIdsCount<D>(listing: seq<(DocId, D)>)
    requires forall i, j :: 0 <= i < j < |listing| ==> listing[i].0 != listing[j].0
    ensures |ListedIds(listing)| == |listing|
  {
    if listing != [] {
      var n := |listing| - 1;
      var front := listing[..n];
      DistinctIdsCount(front);
      assert ListedIds(listing) == ListedIds(front) + {listing[n].0} by {
        forall id | id in ListedIds(listing)
          ensures id in ListedIds(front) + {listing[n].0}
        {
          var i :| 0 <= i < |listing| && listing[i].0 == id;
          if i < n {
            assert front[i] == listing[i];
          }
        }
      }
      assert listing[n].0 !in ListedIds(front);
    }
  }
}
