/**
 * The profile service (taskapp/frontendd/lambda-functions/user-profile.py):
 * a profile lives in the DynamoDB `UserProfiles` table and in the RDS `users`
 * table. Every request except POST and DELETE first makes sure a profile
 * exists, creating one with a derived name when neither store has it; a read
 * prefers DynamoDB and falls back to RDS.
 *
 * Each operation is specified by a function from the stores before to the
 * answer and the stores after; `ProfileBackend` holds the two tables and its
 * methods perform the same puts, updates and deletes in place.
 */
module ProfileApi {
  import opened Wrappers
  import opened Text

  /** An item of `UserProfiles`; `createdAt` is missing on an item the update created. */
  datatype ProfileItem = ProfileItem(email: Option<string>, name: string, createdAt: Option<nat>, updatedAt: nat)

  /** A row of the RDS `users` table. */
  datatype UserRow = UserRow(email: Option<string>, firstName: Option<string>, createdAt: nat, updatedAt: nat)

  /** Both tables, by user id. */
  datatype Stores = Stores(dynamo: map<string, ProfileItem>, rds: map<string, UserRow>)

  /** The fields of a PUT body; a body without them is `ProfileInput(None, None)`. */
  datatype ProfileInput = ProfileInput(name: Option<string>, email: Option<string>)

  /** `requestContext.authorizer.jwt.claims`: `sub`, `email` and `cognito:username`. */
  datatype ProfileClaims = ProfileClaims(sub: Option<string>, email: Option<string>, username: Option<string>)

  /**
   * The parts of an API Gateway event the handler reads: the top-level
   * `httpMethod`, `requestContext.http.method`, the claims and the body
   * (`None` when it is not a JSON object).
   */
  datatype ProfileRequest = ProfileRequest(
    httpMethod: Option<string>, contextMethod: Option<string>,
    claims: ProfileClaims, body: Option<ProfileInput>)

  /**
   * A JSON answer. `Failure` stands for the 500 bodies, which carry the
   * given context followed by the exception text; `DynamoProfile` and
   * `RdsProfile` are the two shapes a profile is returned in (the RDS one
   * has the keys `user_id`, `email` and `name`).
   */
  datatype Body =
    | Empty
    | Message(text: string)
    | Error(text: string)
    | Failure(context: string)
    | DynamoProfile(userId: string, item: ProfileItem)
    | RdsProfile(userId: string, email: Option<string>, name: Option<string>)

  datatype Response = Response(statusCode: int, body: Body)

  /** An answer together with the stores it leaves behind. */
  datatype Outcome = Outcome(response: Response, after: Stores)

  /** The user has a profile in at least one store. */
  predicate Present(s: Stores, userId: string)
  {
    userId in s.dynamo || userId in s.rds
  }

  /** `b` differs from `a` at most at key `k`. */
  ghost predicate ElsewhereSame<V>(a: map<string, V>, b: map<string, V>, k: string)
  {
    forall j :: j != k ==> (j in a <==> j in b) && (j in a ==> j in b && a[j] == b[j])
  }

  /**
   * The name of a new profile: `username or user_email.split('@')[0]`. It is
   * `None` where Python raises, which is when there is no username and no
   * email.
   */
  function DefaultName(username: Option<string>, email: Option<string>): (r: Option<string>)
    ensures Truthy(username) ==> r == Some(username.value)
    ensures !Truthy(username) ==> (r.None? <==> email.None?)
    ensures !Truthy(username) && email.Some? ==>
      && '@' !in r.value && |r.value| <= |email.value| && email.value[..|r.value|] == r.value
      && (|r.value| < |email.value| ==> email.value[|r.value|] == '@')
  {
    if Truthy(username) then username
    else if email.None? then None
    else Some(UpTo(email.value, '@'))
  }

  /** Without a username, a profile is named after the local part of the address. */
  lemma DefaultNameIsLocalPart(local: string, domain: string, username: Option<string>)
    requires '@' !in local && !Truthy(username)
    ensures DefaultName(username, Some(local + "@" + domain)) == Some(local)
  {
    UpToPrefix(local, '@', domain);
    assert local + "@" + domain == local + ['@'] + domain;
  }

  /** The RDS row and the DynamoDB item `ensure_profile_exists` writes hold the same profile. */
  predicate SameProfile(item: ProfileItem, row: UserRow)
  {
    && item.email == row.email
    && row.firstName == Some(item.name)
    && item.createdAt == Some(row.createdAt)
    && item.updatedAt == row.updatedAt
  }

  /**
   * `ensure_profile_exists`: `None` where it raises (the database cannot be
   * reached after a DynamoDB miss, or there is no name to give), otherwise
   * the stores after it. A profile present in either store is left alone;
   * an absent one is created in both, with the derived name, the email of
   * the token and `now` as both times.
   */
  function Ensured(s: Stores, userId: string, email: Option<string>, username: Option<string>,
                   now: nat, dbAvailable: bool): (r: Option<Stores>)
    ensures r.Some? ==> Present(r.value, userId)
    ensures Present(s, userId) ==> (r.Some? <==> userId in s.dynamo || dbAvailable)
    ensures Present(s, userId) && r.Some? ==> r.value == s
    ensures !Present(s, userId) ==> (r.Some? <==> dbAvailable && DefaultName(username, email).Some?)
    ensures r.Some? && !Present(s, userId) ==>
      && userId in r.value.dynamo && userId in r.value.rds
      && SameProfile(r.value.dynamo[userId], r.value.rds[userId])
      && r.value.dynamo[userId] == ProfileItem(email, DefaultName(username, email).value, Some(now), now)
      && ElsewhereSame(s.dynamo, r.value.dynamo, userId) && ElsewhereSame(s.rds, r.value.rds, userId)
  {
    if userId in s.dynamo then Some(s)
    else if !dbAvailable then None
    else if userId in s.rds then Some(s)
    else
      match DefaultName(username, email)
      case None => None
      case Some(name) =>
        Some(Stores(s.dynamo[userId := ProfileItem(email, name, Some(now), now)],
                    s.rds[userId := UserRow(email, Some(name), now, now)]))
  }

  /**
   * A second ensure creates nothing, whatever token it carries: it succeeds
   * with the same stores, and needs the database only when the profile is
   * in RDS alone.
   */
  lemma EnsureIdempotent(s: Stores, userId: string, email: Option<string>, username: Option<string>,
                         now: nat, dbAvailable: bool,
                         email2: Option<string>, username2: Option<string>, now2: nat, dbAvailable2: bool)
    requires Ensured(s, userId, email, username, now, dbAvailable).Some?
    ensures var s1 := Ensured(s, userId, email, username, now, dbAvailable).value;
            Ensured(s1, userId, email2, username2, now2, dbAvailable2) ==
              if userId in s1.dynamo || dbAvailable2 then Some(s1) else None
  {
  }

  /**
   * `get_user_profile`: the DynamoDB item when there is one; otherwise,
   * when the database answers, the RDS row in its own shape, or 404. It
   * changes nothing.
   */
  function GetUserProfile(s: Stores, userId: string, dbAvailable: bool): (r: Response)
    ensures r.statusCode in {200, 404, 500}
    ensures userId in s.dynamo ==> r == Response(200, DynamoProfile(userId, s.dynamo[userId]))
    ensures r.statusCode == 404 <==> dbAvailable && !Present(s, userId)
    ensures r.statusCode == 500 <==> !dbAvailable && userId !in s.dynamo
    ensures r.statusCode == 404 ==> r.body == Error("Profile not found")
    ensures r.statusCode == 500 ==> r.body == Failure("Failed to get profile")
    ensures userId !in s.dynamo && userId in s.rds && dbAvailable ==>
      r.body == RdsProfile(userId, s.rds[userId].email, s.rds[userId].firstName)
  {
    if userId in s.dynamo then Response(200, DynamoProfile(userId, s.dynamo[userId]))
    else if !dbAvailable then Response(500, Failure("Failed to get profile"))
    else if userId in s.rds then
      var row := s.rds[userId];
      Response(200, RdsProfile(userId, row.email, row.firstName))
    else Response(404, Error("Profile not found"))
  }

  /** After a successful ensure a read never answers 404. */
  lemma EnsuredProfileIsFound(s: Stores, userId: string, email: Option<string>, username: Option<string>,
                              now: nat, dbAvailable: bool)
    requires Ensured(s, userId, email, username, now, dbAvailable).Some?
    ensures GetUserProfile(Ensured(s, userId, email, username, now, dbAvailable).value, userId, dbAvailable).statusCode == 200
  {
  }

  /**
   * `update_user_profile`. Another user's id is a 403, a body that is not
   * an object a 500, a missing or empty name or email a 400, and an
   * unreachable database a 500; none of them changes anything. Otherwise the
   * DynamoDB item takes the name, the email and the time (it is created when
   * missing, without a creation time), the RDS row takes the name and the
   * email only when it exists, and nothing else changes.
   */
  function UpdateOutcome(s: Stores, userId: string, requestingUserId: string, body: Option<ProfileInput>,
                         now: nat, dbAvailable: bool): (o: Outcome)
    ensures userId != requestingUserId ==> o == Outcome(Response(403, Error("Unauthorized")), s)
    ensures userId == requestingUserId && body.None? ==>
      o == Outcome(Response(500, Failure("Failed to update profile")), s)
    ensures userId == requestingUserId && body.Some? && (!Truthy(body.value.name) || !Truthy(body.value.email)) ==>
      o == Outcome(Response(400, Error("Name and email are required")), s)
    ensures o.response.statusCode == 200 <==>
      userId == requestingUserId && body.Some? && Truthy(body.value.name) && Truthy(body.value.email) && dbAvailable
    ensures userId == requestingUserId && body.Some? && Truthy(body.value.name) && Truthy(body.value.email) && !dbAvailable ==>
      o == Outcome(Response(500, Failure("Failed to update profile")), s)
    ensures o.response.statusCode != 200 ==> o.after == s
    ensures o.response.statusCode == 200 ==>
      && o.response.body == Message("Profile updated successfully")
      && userId in o.after.dynamo
      && o.after.dynamo[userId].name == body.value.name.value
      && o.after.dynamo[userId].email == body.value.email
      && o.after.dynamo[userId].updatedAt == now
      && (userId in s.dynamo ==> o.after.dynamo[userId].createdAt == s.dynamo[userId].createdAt)
      && (userId !in s.dynamo ==> o.after.dynamo[userId].createdAt.None?)
      && (userId in o.after.rds <==> userId in s.rds)
      && (userId in s.rds ==> o.after.rds[userId] == s.rds[userId].(email := body.value.email,
                                                                    firstName := body.value.name))
      && ElsewhereSame(s.dynamo, o.after.dynamo, userId) && ElsewhereSame(s.rds, o.after.rds, userId)
  {
    if userId != requestingUserId then Outcome(Response(403, Error("Unauthorized")), s)
    else if body.None? then Outcome(Response(500, Failure("Failed to update profile")), s)
    else if !Truthy(body.value.name) || !Truthy(body.value.email) then
      Outcome(Response(400, Error("Name and email are required")), s)
    else if !dbAvailable then Outcome(Response(500, Failure("Failed to update profile")), s)
    else
      var name, email := body.value.name, body.value.email;
      var rds := if userId in s.rds then s.rds[userId := s.rds[userId].(email := email, firstName := name)] else s.rds;
      var item := if userId in s.dynamo then s.dynamo[userId].(name := name.value, email := email, updatedAt := now)
                  else ProfileItem(email, name.value, None, now);
      Outcome(Response(200, Message("Profile updated successfully")), Stores(s.dynamo[userId := item], rds))
  }

  /** After a successful update a read returns the new name and email. */
  lemma UpdateThenGet(s: Stores, userId: string, body: Option<ProfileInput>, now: nat, dbAvailable: bool,
                      dbAvailable2: bool)
    requires UpdateOutcome(s, userId, userId, body, now, dbAvailable).response.statusCode == 200
    ensures var r := GetUserProfile(UpdateOutcome(s, userId, userId, body, now, dbAvailable).after, userId, dbAvailable2);
            && r.statusCode == 200 && r.body.DynamoProfile?
            && r.body.item.name == body.value.name.value && r.body.item.email == body.value.email
  {
  }

  /**
   * `delete_user_profile`: with the database reachable the user leaves both
   * stores and the answer is 200; otherwise 500 and nothing changes.
   */
  function DeleteOutcome(s: Stores, userId: string, dbAvailable: bool): (o: Outcome)
    ensures o.response.statusCode == 200 <==> dbAvailable
    ensures !dbAvailable ==> o == Outcome(Response(500, Failure("Failed to delete profile")), s)
    ensures dbAvailable ==>
      && o.response.body == Message("Profile deleted successfully")
      && !Present(o.after, userId)
      && ElsewhereSame(s.dynamo, o.after.dynamo, userId) && ElsewhereSame(s.rds, o.after.rds, userId)
  {
    if !dbAvailable then Outcome(Response(500, Failure("Failed to delete profile")), s)
    else Outcome(Response(200, Message("Profile deleted successfully")), Stores(s.dynamo - {userId}, s.rds - {userId}))
  }

  /** The method the handler dispatches on: `requestContext.http.method`, not upper-cased. */
  function RequestMethod(req: ProfileRequest): (verb: string)
    ensures req.contextMethod.Some? ==> verb == req.contextMethod.value
    ensures req.contextMethod.None? ==> verb == ""
  {
    req.contextMethod.GetOr("")
  }

  /**
   * `lambda_handler`. A preflight (recognised by the top-level `httpMethod`)
   * is 200 with an empty body and a request without `sub` a 401, before
   * anything else. Unless the method is POST or DELETE the profile is
   * ensured first, and a failure there is a 500. Then GET reads, PUT
   * updates the caller's own profile, DELETE deletes it, and anything else
   * is a 405.
   */
  function HandleOutcome(s: Stores, req: ProfileRequest, now: nat, dbAvailable: bool): (o: Outcome)
    ensures o.response.statusCode in {200, 400, 401, 404, 405, 500}
    ensures req.httpMethod == Some("OPTIONS") ==> o == Outcome(Response(200, Empty), s)
    ensures req.httpMethod != Some("OPTIONS") && !Truthy(req.claims.sub) ==>
      o == Outcome(Response(401, Error("Unauthorized: Missing user ID")), s)
    ensures req.httpMethod != Some("OPTIONS") && Truthy(req.claims.sub) ==>
      var verb, userId := RequestMethod(req), req.claims.sub.value;
      var e := if verb in {"POST", "DELETE"} then Some(s)
               else Ensured(s, userId, req.claims.email, req.claims.username, now, dbAvailable);
      && (e.None? ==> o == Outcome(Response(500, Failure("Internal server error")), s))
      && (e.Some? && verb == "GET" ==> o == Outcome(GetUserProfile(e.value, userId, dbAvailable), e.value))
      && (e.Some? && verb == "PUT" ==> o == UpdateOutcome(e.value, userId, userId, req.body, now, dbAvailable))
      && (verb == "DELETE" ==> o == DeleteOutcome(s, userId, dbAvailable))
      && (e.Some? && verb !in {"GET", "PUT", "DELETE"} ==>
            o == Outcome(Response(405, Error("Method not allowed")), e.value))
  {
    if req.httpMethod == Some("OPTIONS") then Outcome(Response(200, Empty), s)
    else
      var verb := RequestMethod(req);
      var claims := req.claims;
      if !Truthy(claims.sub) then Outcome(Response(401, Error("Unauthorized: Missing user ID")), s)
      else
        var userId := claims.sub.value;
        var ensured := if verb in {"POST", "DELETE"} then Some(s)
                       else Ensured(s, userId, claims.email, claims.username, now, dbAvailable);
        if ensured.None? then Outcome(Response(500, Failure("Internal server error")), s)
        else
          var s1 := ensured.value;
          if verb == "GET" then Outcome(GetUserProfile(s1, userId, dbAvailable), s1)
          else if verb == "PUT" then UpdateOutcome(s1, userId, userId, req.body, now, dbAvailable)
          else if verb == "DELETE" then DeleteOutcome(s1, userId, dbAvailable)
          else Outcome(Response(405, Error("Method not allowed")), s1)
  }

  /** A POST is refused before a profile is ensured: nothing is created. */
  lemma PostIsRefused(s: Stores, req: ProfileRequest, now: nat, dbAvailable: bool)
    requires req.httpMethod != Some("OPTIONS") && Truthy(req.claims.sub) && req.contextMethod == Some("POST")
    ensures HandleOutcome(s, req, now, dbAvailable) == Outcome(Response(405, Error("Method not allowed")), s)
  {
  }

  /**
   * Any method other than POST and DELETE leaves a profile behind when the
   * database is reachable and a name can be derived, even one that is then
   * refused with 405 (such as a lower-case `get`).
   */
  lemma OtherMethodsEnsureProfile(s: Stores, req: ProfileRequest, now: nat)
    requires req.httpMethod != Some("OPTIONS") && Truthy(req.claims.sub)
    requires RequestMethod(req) !in {"POST", "DELETE"}
    requires DefaultName(req.claims.username, req.claims.email).Some?
    ensures Present(HandleOutcome(s, req, now, true).after, req.claims.sub.value)
  {
  }

  /**
   * A deleted profile comes back on the next GET: the handler ensures the
   * profile before reading, so the read finds a fresh one with the derived
   * name instead of answering 404.
   */
  lemma DeletedProfileReturns(s: Stores, del: ProfileRequest, get: ProfileRequest, now: nat, now2: nat)
    requires del.httpMethod != Some("OPTIONS") && Truthy(del.claims.sub) && del.contextMethod == Some("DELETE")
    requires get.httpMethod != Some("OPTIONS") && get.claims.sub == del.claims.sub && get.contextMethod == Some("GET")
    requires DefaultName(get.claims.username, get.claims.email).Some?
    ensures var after := HandleOutcome(s, del, now, true).after;
            HandleOutcome(after, get, now2, true).response ==
              Response(200, DynamoProfile(del.claims.sub.value,
                ProfileItem(get.claims.email, DefaultName(get.claims.username, get.claims.email).value, Some(now2), now2)))
  {
    var userId := del.claims.sub.value;
    var after := HandleOutcome(s, del, now, true).after;
    assert after == DeleteOutcome(s, userId, true).after;
    assert !Present(after, userId);
  }

  /** The handler updates only the caller's own profile, so it never answers 403. */
  lemma HandleNeverForbids(s: Stores, req: ProfileRequest, now: nat, dbAvailable: bool)
    ensures HandleOutcome(s, req, now, dbAvailable).response.statusCode != 403
  {
  }

  class ProfileBackend {
    /** The DynamoDB `UserProfiles` table. */
    var dynamo: map<string, ProfileItem>
    /** The RDS `users` table. */
    var rds: map<string, UserRow>

    function State(): Stores
      reads this
    {
      Stores(dynamo, rds)
    }

    constructor ()
      ensures State() == Stores(map[], map[])
    {
      dynamo := map[];
      rds := map[];
    }

    /** `ensure_profile_exists`; `ok` is false where it raises. */
    method EnsureProfileExists(userId: string, email: Option<string>, username: Option<string>,
                               now: nat, dbAvailable: bool)
      returns (ok: bool)
      modifies this
      ensures var e := Ensured(old(State()), userId, email, username, now, dbAvailable);
              ok == e.Some? && State() == if e.Some? then e.value else old(State())
    {
      if userId in dynamo {
        return true;
      }
      if !dbAvailable {
        return false;
      }
      if userId in rds {
        return true;
      }
      var name := DefaultName(username, email);
      if name.None? {
        return false;
      }
      rds := rds[userId := UserRow(email, name, now, now)];
      dynamo := dynamo[userId := ProfileItem(email, name.value, Some(now), now)];
      ok := true;
    }

    /** `update_user_profile`: the RDS update, then the DynamoDB upsert. */
    method UpdateUserProfile(userId: string, requestingUserId: string, body: Option<ProfileInput>,
                             now: nat, dbAvailable: bool)
      returns (r: Response)
      modifies this
      ensures Outcome(r, State()) == UpdateOutcome(old(State()), userId, requestingUserId, body, now, dbAvailable)
    {
      if userId != requestingUserId {
        return Response(403, Error("Unauthorized"));
      }
      if body.None? {
        return Response(500, Failure("Failed to update profile"));
      }
      var name, email := body.value.name, body.value.email;
      if !Truthy(name) || !Truthy(email) {
        return Response(400, Error("Name and email are required"));
      }
      if !dbAvailable {
        return Response(500, Failure("Failed to update profile"));
      }
      if userId in rds {
        rds := rds[userId := rds[userId].(email := email, firstName := name)];
      }
      if userId in dynamo {
        dynamo := dynamo[userId := dynamo[userId].(name := name.value, email := email, updatedAt := now)];
      } else {
        dynamo := dynamo[userId := ProfileItem(email, name.value, None, now)];
      }
      r := Response(200, Message("Profile updated successfully"));
    }

    /** `delete_user_profile`: the RDS delete, then the DynamoDB delete. */
    method DeleteUserProfile(userId: string, dbAvailable: bool) returns (r: Response)
      modifies this
      ensures Outcome(r, State()) == DeleteOutcome(old(State()), userId, dbAvailable)
    {
      if !dbAvailable {
        return Response(500, Failure("Failed to delete profile"));
      }
      rds := rds - {userId};
      dynamo := dynamo - {userId};
      r := Response(200, Message("Profile deleted successfully"));
    }

    /** `lambda_handler`. */
    method Handle(req: ProfileRequest, now: nat, dbAvailable: bool) returns (r: Response)
      modifies this
      ensures Outcome(r, State()) == HandleOutcome(old(State()), req, now, dbAvailable)
    {
      if req.httpMethod == Some("OPTIONS") {
        return Response(200, Empty);
      }
      var verb := RequestMethod(req);
      var claims := req.claims;
      if !Truthy(claims.sub) {
        return Response(401, Error("Unauthorized: Missing user ID"));
      }
      var userId := claims.sub.value;
      if verb !in {"POST", "DELETE"} {
        var ok := EnsureProfileExists(userId, claims.email, claims.username, now, dbAvailable);
        if !ok {
          return Response(500, Failure("Internal server error"));
        }
      }
      if verb == "GET" {
        r := GetUserProfile(State(), userId, dbAvailable);
      } else if verb == "PUT" {
        r := UpdateUserProfile(userId, userId, req.body, now, dbAvailable);
      } else if verb == "DELETE" {
        r := DeleteUserProfile(userId, dbAvailable);
      } else {
        r := Response(405, Error("Method not allowed"));
      }
    }
  }
}
