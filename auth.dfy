/** Identity and the AI-usage quota gate: token verification, the sign-in
    sync that assigns a default plan, the per-plan admission check and the
    usage counter (backend/auth.py). */
module Auth {
  import opened Lists
  import opened Store

  /** A decoded identity token: claim name to value. */
  type Claims = map<string, string>

  // ---------------------------------------------------------------------
  // Plans and their ceilings
  // ---------------------------------------------------------------------

  const StarterLimit: nat := 10
  const ProLimit: nat := 150
  const EmpireLimit: nat := 999999

  /** The limit table of the quota gate and of the dashboard. */
  const Limits: map<string, nat> := map["starter" := StarterLimit, "pro" := ProLimit, "empire" := EmpireLimit]

  /** `limits.get(plan, 10)`: the ceiling of a plan, the starter ceiling for
      any name the table does not know. */
  function PlanLimit(plan: string): (limit: nat)
    ensures plan == "starter" ==> limit == 10
    ensures plan == "pro" ==> limit == 150
    ensures plan == "empire" ==> limit == 999999
    ensures plan !in {"starter", "pro", "empire"} ==> limit == 10
  {
    if plan in Limits then Limits[plan] else StarterLimit
  }

  /** `user_data.get('plan', 'starter')`. */
  function PlanOf(user: UserDoc): string
  {
    user.plan.GetOr("starter")
  }

  /** The stored count of AI generations; a missing document or field is 0. */
  function CurrentUsage(usage: map<Uid, UsageDoc>, uid: Uid): int
  {
    if uid in usage then usage[uid].count.GetOr(0) else 0
  }

  /** The quota decision on a snapshot of the users and usage documents. */
  function Admits(users: map<Uid, UserDoc>, usage: map<Uid, UsageDoc>, uid: Uid): (admit: bool)
    ensures uid !in users ==> !admit
    ensures uid in users ==> (admit <==> CurrentUsage(usage, uid) < PlanLimit(PlanOf(users[uid])))
  {
    if uid !in users then false
    else
      var limit := PlanLimit(PlanOf(users[uid]));
      CurrentUsage(usage, uid) < limit
  }

  /** `check_ai_limit`: admit everyone when no store is configured, reject a
      uid without a user document, otherwise compare usage with the plan's
      ceiling. Reads the store and changes nothing. */
  function CheckAiLimit(db: Firestore?, uid: Uid): (admit: bool)
    reads db
    ensures db == null ==> admit
    ensures db != null ==> admit == Admits(db.users, db.usage, uid)
  {
    db == null || Admits(db.users, db.usage, uid)
  }

  /** The usage documents after one charged generation. */
  function Incremented(usage: map<Uid, UsageDoc>, uid: Uid): (r: map<Uid, UsageDoc>)
    ensures uid in r && r[uid].count.Some?
    ensures CurrentUsage(r, uid) == CurrentUsage(usage, uid) + 1
    ensures uid !in usage ==> r[uid] == UsageDoc(Some(1))
    ensures r.Keys == usage.Keys + {uid}
    ensures forall other :: other in usage && other != uid ==> r[other] == usage[other]
  {
    if uid !in usage then usage[uid := UsageDoc(Some(1))]
    else usage[uid := UsageDoc(Some(usage[uid].count.GetOr(0) + 1))]
  }

  /** `increment_ai_usage`: create the counter at 1, or add 1 to it. Without a
      store nothing happens. */
  method IncrementAiUsage(db: Firestore?, uid: Uid)
    modifies db
    ensures db != null ==> db.usage == Incremented(old(db.usage), uid)
    ensures db != null ==> db.users == old(db.users) && db.projects == old(db.projects)
    ensures db != null ==> db.alerts == old(db.alerts) && db.pivots == old(db.pivots)
  {
    if db == null {
      return;
    }
    if uid !in db.usage {
      db.usage := db.usage[uid := UsageDoc(Some(1))];
    } else {
      // Firestore's increment treats a missing field as 0.
      var count := db.usage[uid].count.GetOr(0);
      db.usage := db.usage[uid := UsageDoc(Some(count + 1))];
    }
  }

  // ---------------------------------------------------------------------
  // Properties of the gate
  // ---------------------------------------------------------------------

  /** One below the ceiling admits; one charged request later the same user
      is turned away. */
  lemma AdmitsUntilLimit(users: map<Uid, UserDoc>, usage: map<Uid, UsageDoc>, uid: Uid)
    requires uid in users
    requires CurrentUsage(usage, uid) == PlanLimit(PlanOf(users[uid])) - 1
    ensures Admits(users, usage, uid)
    ensures !Admits(users, Incremented(usage, uid), uid)
  {
  }

  /** Charging one user leaves every other user's admission unchanged. */
  lemma IncrementIsolated(users: map<Uid, UserDoc>, usage: map<Uid, UsageDoc>, uid: Uid, other: Uid)
    requires other != uid
    ensures Admits(users, Incremented(usage, uid), other) == Admits(users, usage, other)
  {
    assert CurrentUsage(Incremented(usage, uid), other) == CurrentUsage(usage, other);
  }

  /** The usage documents after `n` requests of one user, each charged only
      when the gate admits it (the order `deconstruct` follows). */
  function ServeRequests(users: map<Uid, UserDoc>, usage: map<Uid, UsageDoc>, uid: Uid, n: nat): map<Uid, UsageDoc>
  {
    if n == 0 then usage
    else
      var before := ServeRequests(users, usage, uid, n - 1);
      if Admits(users, before, uid) then Incremented(before, uid) else before
  }

  /** From a count at or below the ceiling, `n` requests raise the count to
      the ceiling and never beyond: exactly min(count + n, limit). */
  lemma {:induction false} ServeRequestsReachesLimit(users: map<Uid, UserDoc>, usage: map<Uid, UsageDoc>, uid: Uid, n: nat)
    requires uid in users
    requires CurrentUsage(usage, uid) <= PlanLimit(PlanOf(users[uid]))
    ensures var limit := PlanLimit(PlanOf(users[uid]));
            var count := CurrentUsage(usage, uid);
            CurrentUsage(ServeRequests(users, usage, uid, n), uid) == if count + n <= limit then count + n else limit
  {
    if n > 0 {
      ServeRequestsReachesLimit(users, usage, uid, n - 1);
    }
  }

  /** A uid without a user document is never charged, however often it asks. */
  lemma {:induction false} ServeRequestsUnknownUser(users: map<Uid, UserDoc>, usage: map<Uid, UsageDoc>, uid: Uid, n: nat)
    requires uid !in users
    ensures ServeRequests(users, usage, uid, n) == usage
  {
    if n > 0 {
      ServeRequestsUnknownUser(users, usage, uid, n - 1);
    }
  }

  // ---------------------------------------------------------------------
  // Token verification and sign-in sync
  // ---------------------------------------------------------------------

  /** The identity used when no store is configured. */
  const MockClaims: Claims := map["uid" := "mock-uid", "email" := "mock@example.com", "name" := "Mock User"]

  /** `verify_token`: the fixed mock identity without a store; otherwise what
      the identity provider decodes, `None` when it rejects the token.
      `verifyIdToken` stands for the provider's check. */
  function VerifyToken(db: Firestore?, token: string, verifyIdToken: string -> Option<Claims>): (r: Option<Claims>)
    ensures db == null ==> r == Some(MockClaims) && r.value["uid"] == "mock-uid"
    ensures db != null ==> r == verifyIdToken(token)
  {
    if db == null then Some(MockClaims) else verifyIdToken(token)
  }

  /** What `sync_user_to_firestore` returns. */
  datatype SyncOutcome =
    | Unsynced(claims: Claims)     // no store: the claims come back as they are
    | Synced(user: UserDoc)        // the user document as stored afterwards
    | MissingUid                   // `user_data['uid']` raised KeyError

  function ClaimOr(claims: Claims, key: string, default: string): string
  {
    if key in claims then claims[key] else default
  }

  function ClaimOpt(claims: Claims, key: string): Option<string>
  {
    if key in claims then Some(claims[key]) else None
  }

  /** `sync_user_to_firestore`: merge the profile fields into the user
      document, then give it the starter plan if it has none. The server
      timestamp is the parameter `now`. */
  method SyncUserToFirestore(db: Firestore?, claims: Claims, now: int) returns (r: SyncOutcome)
    modifies db
    ensures db == null ==> r == Unsynced(claims)
    ensures db != null && "uid" !in claims ==> r == MissingUid && db.users == old(db.users)
    ensures db != null && "uid" in claims ==>
      var uid := claims["uid"];
      && uid in db.users
      && r == Synced(db.users[uid])
      && db.users[uid].email == Some(ClaimOr(claims, "email", "N/A"))
      && db.users[uid].displayName == Some(ClaimOr(claims, "name", "N/A"))
      && db.users[uid].photoUrl == ClaimOpt(claims, "picture")
      && db.users[uid].lastLogin == Some(now)
      && (uid in old(db.users) && old(db.users)[uid].plan.Some? ==> db.users[uid].plan == old(db.users)[uid].plan)
      && (uid !in old(db.users) || old(db.users)[uid].plan.None? ==> db.users[uid].plan == Some("starter"))
      && db.users == old(db.users)[uid := db.users[uid]]
    ensures db != null ==> db.usage == old(db.usage) && db.projects == old(db.projects)
    ensures db != null ==> db.alerts == old(db.alerts) && db.pivots == old(db.pivots)
  {
    if db == null {
      return Unsynced(claims);
    }
    if "uid" !in claims {
      return MissingUid;
    }
    var uid := claims["uid"];
    var email := ClaimOr(claims, "email", "N/A");
    var displayName := ClaimOr(claims, "name", "N/A");
    // set(..., merge=True): the four profile fields, keeping the plan.
    var plan := if uid in db.users then db.users[uid].plan else None;
    db.users := db.users[uid := UserDoc(Some(email), Some(displayName), ClaimOpt(claims, "picture"), Some(now), plan)];
    var doc := db.users[uid];
    if doc.plan.None? {
      db.users := db.users[uid := doc.(plan := Some("starter"))];
    }
    return Synced(db.users[uid]);
  }
}
