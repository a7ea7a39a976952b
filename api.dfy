/** The HTTP layer of the backend (backend/main.py): the bearer-token
    dependency shared by every protected endpoint and the `/deconstruct`
    endpoint, which runs the quota gate, the engine and the usage counter
    in that order. */
module Api {
  import opened Lists
  import opened Text
  import opened Store
  import opened Auth
  import opened Engine

  /** An endpoint's answer: a value, or an HTTP error with its detail text. */
  datatype Response<T> = Ok(value: T) | HttpError(status: nat, detail: string)

  const BearerPrefix: string := "Bearer "

  /** `authorization.split(" ")[1]` for a header that starts with
      "Bearer ": the second space-separated field, which runs from just
      after the first space to the next space. */
  function BearerToken(header: string): (token: string)
    requires StartsWith(header, BearerPrefix)
    ensures forall i :: 0 <= i < |token| ==> token[i] != ' '
    ensures StartsWith(header[|BearerPrefix|..], token)
  {
    Before(header[|BearerPrefix|..], ' ')
  }

  /** "Bearer " followed by a token without spaces, and perhaps more fields,
      hands exactly that token to the verifier. */
  lemma {:induction false} BearerTokenOfHeader(token: string, rest: string)
    requires forall i :: 0 <= i < |token| ==> token[i] != ' '
    requires rest == [] || rest[0] == ' '
    ensures StartsWith(BearerPrefix + token + rest, BearerPrefix)
    ensures BearerToken(BearerPrefix + token + rest) == token
  {
    var header := BearerPrefix + token + rest;
    assert header[..|BearerPrefix|] == BearerPrefix;
    assert header[|BearerPrefix|..] == token + rest;
    BeforeOf(token, rest, ' ');
  }

  /** `get_token`: 401 for a header without the "Bearer " prefix, 401 when
      verification gives nothing or an empty (falsy) token, otherwise the
      decoded claims unchanged. */
  function GetToken(db: Firestore?, header: string, verifyIdToken: string -> Option<Claims>): (r: Response<Claims>)
    reads db
    ensures !StartsWith(header, BearerPrefix) ==> r == HttpError(401, "Invalid authentication credentials")
    ensures StartsWith(header, BearerPrefix) ==>
      var decoded := VerifyToken(db, BearerToken(header), verifyIdToken);
      if decoded.None? || decoded.value == map[] then r == HttpError(401, "Invalid token")
      else r == Ok(decoded.value)
    ensures r.Ok? ==> r.value != map[]
  {
    if !StartsWith(header, BearerPrefix) then HttpError(401, "Invalid authentication credentials")
    else
      var decoded := VerifyToken(db, BearerToken(header), verifyIdToken);
      if decoded.None? || decoded.value == map[] then HttpError(401, "Invalid token")
      else Ok(decoded.value)
  }

  /** Without a configured store any "Bearer " header is accepted, as the
      mock identity. */
  lemma GetTokenWithoutStore(header: string, verifyIdToken: string -> Option<Claims>)
    requires StartsWith(header, BearerPrefix)
    ensures GetToken(null, header, verifyIdToken) == Ok(MockClaims)
  {
    assert "uid" in MockClaims;
  }

  /** With a store, a well-formed header whose token the provider accepts
      yields exactly the provider's claims; a rejected token yields 401. */
  lemma GetTokenWithStore(db: Firestore, token: string, verifyIdToken: string -> Option<Claims>)
    requires forall i :: 0 <= i < |token| ==> token[i] != ' '
    ensures verifyIdToken(token).Some? && verifyIdToken(token).value != map[] ==>
      GetToken(db, BearerPrefix + token, verifyIdToken) == Ok(verifyIdToken(token).value)
    ensures verifyIdToken(token).None? ==>
      GetToken(db, BearerPrefix + token, verifyIdToken) == HttpError(401, "Invalid token")
  {
    BearerTokenOfHeader(token, []);
    assert BearerPrefix + token + [] == BearerPrefix + token;
  }

  const LimitDetail: string := "AI generation limit reached for your plan. Upgrade to Pro for more."

  /** The currency `deconstruct_business_idea` defaults to; the endpoint
      passes only the idea. */
  const DefaultCurrency: string := "USD"

  /** `POST /deconstruct`: authenticate, run the quota gate, run the engine
      (with the default currency) and then charge one generation. A
      rejected request calls neither the engine nor the counter; an
      admitted one is charged once, even when the engine fell back to its
      canned result. `calls` is the number of provider calls the engine
      made. The `uid` claim missing is the `KeyError` that surfaces as a
      500 response. */
  method Deconstruct(
    db: Firestore?, header: string, verifyIdToken: string -> Option<Claims>, idea: string,
    hasClient: bool, reply: nat -> Reply, parse: string -> Option<DeconstructionResult>)
    returns (resp: Response<DeconstructionResult>, calls: nat)
    modifies db
    ensures var auth := old(GetToken(db, header, verifyIdToken));
      && (auth.HttpError? ==> resp == HttpError(auth.status, auth.detail))
      && (auth.Ok? && "uid" !in auth.value ==> resp == HttpError(500, "Internal Server Error"))
      && (auth.Ok? && "uid" in auth.value && !old(CheckAiLimit(db, auth.value["uid"])) ==>
            resp == HttpError(403, LimitDetail))
      && (!(auth.Ok? && "uid" in auth.value && old(CheckAiLimit(db, auth.value["uid"]))) ==>
            calls == 0 && (db != null ==> db.usage == old(db.usage)))
      && (auth.Ok? && "uid" in auth.value && old(CheckAiLimit(db, auth.value["uid"])) ==>
            && resp == Ok(AnalysisResult(hasClient, Outcomes(reply, parse), MockData(idea, DefaultCurrency)))
            && calls == ProviderCalls(hasClient, Outcomes(reply, parse))
            && (db != null ==> db.usage == Incremented(old(db.usage), auth.value["uid"])))
    ensures db != null ==> db.users == old(db.users) && db.projects == old(db.projects)
    ensures db != null ==> db.alerts == old(db.alerts) && db.pivots == old(db.pivots)
  {
    var auth := GetToken(db, header, verifyIdToken);
    if auth.HttpError? {
      return HttpError(auth.status, auth.detail), 0;
    }
    var claims := auth.value;
    if "uid" !in claims {
      return HttpError(500, "Internal Server Error"), 0;
    }
    var uid := claims["uid"];
    if !CheckAiLimit(db, uid) {
      return HttpError(403, LimitDetail), 0;
    }
    var result, pauses;
    result, calls, pauses := DeconstructBusinessIdea(idea, DefaultCurrency, hasClient, reply, parse);
    ghost var admitted := old(CheckAiLimit(db, uid));
    assert admitted;
    IncrementAiUsage(db, uid);
    return Ok(result), calls;
  }
}
