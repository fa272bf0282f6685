/**
 * The users router, mounted at `/api/users`: reading the requester's profile
 * behind the cache and updating its `username` and `name`.
 */
module UserRoutes {
  import opened Wrappers
  import opened Json
  import opened Http
  import opened RedisClient
  import opened Cache
  import opened Store
  import opened Consistency

  /** `cacheMiddleware(600)` on GET `/profile`. */
  const ProfileTtl := 600

  /** What the profile handler answers: the user without `googleId`, or 404. */
  function ProfileResponse(users: map<Id, User>, userId: Id): (r: Response)
    ensures Success(r.status) <==> userId in users
    ensures Success(r.status) ==> !HasKey(r.body, "googleId")
    ensures !Success(r.status) ==> r == Response(404, ErrorBody("User not found"))
  {
    if userId in users then Response(200, ProfileJson(userId, users[userId]))
    else Response(404, ErrorBody("User not found"))
  }

  /**
   * GET `/profile` behind the cache; `path` is the spelling that reached the
   * handler. The 404 answer is never stored and the cache stays fresh; with a
   * fresh cache the canonical spelling always answers the live profile. The
   * `/profile/` spelling is keyed apart from it and escapes every profile
   * invalidation (`TrailingSlashProfileSurvives`).
   */
  method GetProfile(db: Database, client: Client, userId: Id, path: string, query: string, getFault: bool, setFault: bool)
    returns (resp: Response, handlerRan: bool)
    requires IsObjectIdText(userId)
    requires Routes("/profile", path)
    modifies client`store
    ensures var live := ProfileResponse(db.users, userId);
            var key := GeneratedKey(Request(GET, "/api/users", path, Some(userId), query));
            var hit := client.Ready() && !getFault && key in old(client.store);
            && (!client.connected ==> handlerRan && resp == live && client.store == old(client.store))
            && (client.connected && hit ==>
                  !handlerRan && resp == Response(200, old(client.store)[key].payload) && client.store == old(client.store))
            && (client.connected && !hit ==>
                  handlerRan && resp == live &&
                  client.store == if client.Ready() && !setFault && userId in db.users
                                  then old(client.store)[key := Entry(live.body, ProfileTtl)]
                                  else old(client.store))
            && (old(Fresh(client.store, db.recordings, db.users)) ==> Fresh(client.store, db.recordings, db.users))
            && (path == "/profile" && old(Fresh(client.store, db.recordings, db.users)) ==> resp == live)
  {
    var req := Request(GET, "/api/users", path, Some(userId), query);
    var live := ProfileResponse(db.users, userId);
    if Fresh(client.store, db.recordings, db.users) {
      ProfileSpellingServed(client.store, db.recordings, db.users, userId, path, query, ProfileTtl);
    }
    resp, handlerRan := Middleware(client, Some(ProfileTtl), req, live, getFault, setFault);
  }

  /**
   * MongoDB's equality match of a stored field against a plain query value:
   * the field equals it, or the field is an array holding it.
   */
  predicate FieldMatches(field: Json, value: Json) {
    field == value || (field.JArr? && value in field.items)
  }

  /** Another user than `self` already holds `username`. */
  predicate UsernameTaken(users: map<Id, User>, username: Json, self: Id) {
    exists v :: v in users && v != self && FieldMatches(users[v].username, username)
  }

  /** The conflict check of PUT `/profile`, which only runs for a truthy `username`. */
  predicate Conflict(users: map<Id, User>, body: Json, self: Id) {
    TruthyField(Get(body, "username")) && UsernameTaken(users, Get(body, "username").value, self)
  }

  /** `$set` of the truthy ones among `username` and `name`. */
  function ApplyProfileUpdate(u: User, username: Option<Json>, name: Option<Json>): (r: User)
    ensures r.username == if TruthyField(username) then username.value else u.username
    ensures r.name == if TruthyField(name) then name.value else u.name
    ensures r.(username := u.username, name := u.name) == u
  {
    var u1 := if TruthyField(username) then u.(username := username.value) else u;
    if TruthyField(name) then u1.(name := name.value) else u1
  }

  /** PUT `/profile`. */
  method UpdateProfile(db: Database, client: Client, userId: Id, body: Json, faulty: set<nat>)
    returns (resp: Response)
    requires db.Valid() && IsObjectIdText(userId)
    modifies db, client`store
    ensures db.Valid() && db.recordings == old(db.recordings)
    ensures Conflict(old(db.users), body, userId) ==>
              && resp == Response(400, ErrorBody("Username already taken"))
              && db.users == old(db.users) && client.store == old(client.store)
    ensures !Conflict(old(db.users), body, userId) && userId !in old(db.users) ==>
              && resp == Response(404, ErrorBody("User not found"))
              && db.users == old(db.users) && client.store == old(client.store)
    ensures !Conflict(old(db.users), body, userId) && userId in old(db.users) ==>
              && db.users == old(db.users)[userId := ApplyProfileUpdate(old(db.users)[userId], Get(body, "username"), Get(body, "name"))]
              && resp == Response(200, MessageBody("Profile updated successfully"))
              && client.store == if client.Ready() then Purge(old(client.store), ProfilePatterns(userId), faulty)
                                 else old(client.store)
    ensures old(Fresh(client.store, db.recordings, db.users)) && client.Ready() && faulty == {} ==>
              Fresh(client.store, db.recordings, db.users)
  {
    ghost var users0, store0 := db.users, client.store;
    ghost var wasFresh := Fresh(client.store, db.recordings, db.users);
    var username := Get(body, "username");
    var name := Get(body, "name");
    if TruthyField(username) && UsernameTaken(db.users, username.value, userId) {
      return Response(400, ErrorBody("Username already taken"));
    }
    if userId !in db.users {
      return Response(404, ErrorBody("User not found"));
    }
    db.users := db.users[userId := ApplyProfileUpdate(db.users[userId], username, name)];
    InvalidateProfileCache(client, userId, faulty);
    resp := Response(200, MessageBody("Profile updated successfully"));

    if wasFresh && client.Ready() && faulty == {} {
      ProfileWriteKeepsFresh(store0, db.recordings, users0, db.users, userId);
    }
  }
}
