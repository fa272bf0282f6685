/**
 * The recordings router, mounted at `/api/recordings`: create, list own, list
 * public, publish/unpublish and delete. Each request is one atomic step; a
 * write changes one document, then runs its invalidations, then answers.
 * `userId` is the identifier token authentication put on the request.
 */
module RecordingRoutes {
  import opened Wrappers
  import opened Json
  import opened Http
  import opened RedisClient
  import opened Cache
  import opened Store
  import opened Consistency

  /** `cacheMiddleware(600)` on both list routes. */
  const ListTtl := 600

  /** The check of POST `/`: a truthy `title` and an array `notes`. */
  predicate ValidPayload(body: Json) {
    TruthyField(Get(body, "title")) && Get(body, "notes").Some? && Get(body, "notes").value.JArr?
  }

  /** The visibility a new recording gets: the body's `isPublic`, `false` when absent. */
  function NewVisibility(body: Json): (v: Json)
    ensures Get(body, "isPublic").None? ==> v == JBool(false)
    ensures Get(body, "isPublic").Some? ==> v == Get(body, "isPublic").value
  {
    Get(body, "isPublic").GetOr(JBool(false))
  }

  /** The document POST inserts. */
  function NewRecording(body: Json, id: Id, owner: Id, now: nat): Recording
    requires ValidPayload(body)
  {
    Recording(id, Get(body, "title").value, Get(body, "notes").value.items, NewVisibility(body), owner, now)
  }

  /** POST `/`; `newId` is the id the driver generates and `now` the clock reading. */
  method Create(db: Database, client: Client, userId: Id, body: Json, newId: Id, now: nat, userFaulty: set<nat>, publicFaulty: set<nat>)
    returns (resp: Response)
    requires db.Valid() && IsObjectIdText(userId)
    requires forall r :: r in db.recordings ==> r.id != newId
    modifies db, client`store
    ensures db.Valid() && db.users == old(db.users)
    ensures !ValidPayload(body) ==>
              && resp == Response(400, ErrorBody("Invalid payload"))
              && db.recordings == old(db.recordings)
              && client.store == old(client.store)
    ensures ValidPayload(body) ==>
              var rec := NewRecording(body, newId, userId, now);
              && db.recordings == old(db.recordings) + [rec]
              && resp == Response(201, JObj([("insertedId", JStr(newId))]))
              && client.store == if client.Ready()
                                 then AfterRecordingWrite(old(client.store), userId, Truthy(rec.isPublic), userFaulty, publicFaulty)
                                 else old(client.store)
    ensures old(Fresh(client.store, db.recordings, db.users)) && client.Ready() && userFaulty == {} && publicFaulty == {} ==>
              Fresh(client.store, db.recordings, db.users)
  {
    ghost var recs0, store0 := db.recordings, client.store;
    ghost var wasFresh := Fresh(client.store, db.recordings, db.users);
    if !ValidPayload(body) {
      return Response(400, ErrorBody("Invalid payload"));
    }
    var rec := NewRecording(body, newId, userId, now);
    db.recordings := db.recordings + [rec];
    InvalidateUserCache(client, userId, userFaulty);
    if Truthy(rec.isPublic) {
      InvalidatePublicCache(client, publicFaulty);
    }
    resp := Response(201, JObj([("insertedId", JStr(newId))]));

    if wasFresh && client.Ready() && userFaulty == {} && publicFaulty == {} {
      forall v | v != userId
        ensures Select(recs0 + [rec], OwnedBy(v)) == Select(recs0, OwnedBy(v))
      {
        SelectAppend(recs0, rec, OwnedBy(v));
      }
      SelectAppend(recs0, rec, PublicOnly);
      RecordingWriteKeepsFresh(store0, recs0, recs0 + [rec], db.users, userId, Truthy(rec.isPublic));
    }
  }

  /**
   * GET `/` behind the cache. With a fresh cache the answer is always the
   * requester's recordings, whether it came from the cache or the database.
   */
  method ListOwn(db: Database, client: Client, userId: Id, query: string, getFault: bool, setFault: bool)
    returns (resp: Response, handlerRan: bool)
    requires IsObjectIdText(userId)
    modifies client`store
    ensures var live := Response(200, OwnListJson(db.recordings, userId));
            var key := Assemble(KeyParts(OwnListRoute, userId, query));
            var hit := client.Ready() && !getFault && key in old(client.store);
            && (!client.connected ==> handlerRan && resp == live && client.store == old(client.store))
            && (client.connected && hit ==>
                  !handlerRan && resp == Response(200, old(client.store)[key].payload) && client.store == old(client.store))
            && (client.connected && !hit ==>
                  handlerRan && resp == live &&
                  client.store == if client.Ready() && !setFault
                                  then old(client.store)[key := Entry(live.body, ListTtl)]
                                  else old(client.store))
            && (old(Fresh(client.store, db.recordings, db.users)) ==>
                  resp == live && Fresh(client.store, db.recordings, db.users))
  {
    var req := Request(GET, "/api/recordings", "/", Some(userId), query);
    var live := Response(200, OwnListJson(db.recordings, userId));
    assert GeneratedKey(req) == Assemble(KeyParts(OwnListRoute, userId, query));
    if Fresh(client.store, db.recordings, db.users) {
      OwnListServed(client.store, db.recordings, db.users, userId, query, ListTtl);
    }
    resp, handlerRan := Middleware(client, Some(ListTtl), req, live, getFault, setFault);
  }

  /**
   * GET `/public` behind the cache (no authentication, so the key's user is
   * `anonymous`); `path` is the spelling that reached the handler. The cache
   * stays fresh, and with a fresh cache the canonical spelling always answers
   * the current feed. The `/public/` spelling is keyed apart from it and may be
   * answered stale (`TrailingSlashFeedServedStale`).
   */
  method ListPublic(db: Database, client: Client, path: string, query: string, getFault: bool, setFault: bool)
    returns (resp: Response, handlerRan: bool)
    requires Routes("/public", path)
    modifies client`store
    ensures var live := Response(200, PublicFeedJson(db.recordings, db.users));
            var key := GeneratedKey(Request(GET, "/api/recordings", path, None, query));
            var hit := client.Ready() && !getFault && key in old(client.store);
            && (!client.connected ==> handlerRan && resp == live && client.store == old(client.store))
            && (client.connected && hit ==>
                  !handlerRan && resp == Response(200, old(client.store)[key].payload) && client.store == old(client.store))
            && (client.connected && !hit ==>
                  handlerRan && resp == live &&
                  client.store == if client.Ready() && !setFault
                                  then old(client.store)[key := Entry(live.body, ListTtl)]
                                  else old(client.store))
            && (old(Fresh(client.store, db.recordings, db.users)) ==> Fresh(client.store, db.recordings, db.users))
            && (path == "/public" && old(Fresh(client.store, db.recordings, db.users)) ==> resp == live)
  {
    var req := Request(GET, "/api/recordings", path, None, query);
    var live := Response(200, PublicFeedJson(db.recordings, db.users));
    if Fresh(client.store, db.recordings, db.users) {
      FeedSpellingServed(client.store, db.recordings, db.users, path, query, ListTtl);
    }
    resp, handlerRan := Middleware(client, Some(ListTtl), req, live, getFault, setFault);
  }

  /** The visibility PUT stores: the body's `isPublic`; an absent one is written as null. */
  function UpdatedVisibility(body: Json): (v: Json)
    ensures Truthy(v) <==> TruthyField(Get(body, "isPublic"))
  {
    Get(body, "isPublic").GetOr(JNull)
  }

  /** PUT `/:id`: sets `isPublic` on the requester's recording `idText`. */
  method SetVisibility(db: Database, client: Client, userId: Id, idText: string, body: Json, userFaulty: set<nat>, publicFaulty: set<nat>)
    returns (resp: Response)
    requires db.Valid() && IsObjectIdText(userId)
    modifies db, client`store
    ensures db.Valid() && db.users == old(db.users)
    ensures ParseObjectId(idText).None? ==>
              && resp == Response(500, ErrorBody("Internal server error"))
              && db.recordings == old(db.recordings) && client.store == old(client.store)
    ensures ParseObjectId(idText).Some? && FindOwned(old(db.recordings), ParseObjectId(idText).value, userId).None? ==>
              && resp == Response(404, ErrorBody("Recording not found"))
              && db.recordings == old(db.recordings) && client.store == old(client.store)
    ensures ParseObjectId(idText).Some? && FindOwned(old(db.recordings), ParseObjectId(idText).value, userId).Some? ==>
              var i := FindOwned(old(db.recordings), ParseObjectId(idText).value, userId).value;
              var was := old(db.recordings)[i];
              && db.recordings == old(db.recordings)[i := was.(isPublic := UpdatedVisibility(body))]
              && resp == Response(200, MessageBody("Recording updated successfully"))
              && client.store == if client.Ready()
                                 then AfterRecordingWrite(old(client.store), userId,
                                        Truthy(was.isPublic) || TruthyField(Get(body, "isPublic")), userFaulty, publicFaulty)
                                 else old(client.store)
    ensures old(Fresh(client.store, db.recordings, db.users)) && client.Ready() && userFaulty == {} && publicFaulty == {} ==>
              Fresh(client.store, db.recordings, db.users)
  {
    ghost var recs0, store0 := db.recordings, client.store;
    ghost var wasFresh := Fresh(client.store, db.recordings, db.users);
    var id := ParseObjectId(idText);
    if id.None? {
      return Response(500, ErrorBody("Internal server error"));
    }
    var found := FindOwned(db.recordings, id.value, userId);
    if found.None? {
      return Response(404, ErrorBody("Recording not found"));
    }
    var i := found.value;
    var was := db.recordings[i];
    var updated := was.(isPublic := UpdatedVisibility(body));
    db.recordings := db.recordings[i := updated];
    InvalidateUserCache(client, userId, userFaulty);
    var purgePublic := Truthy(was.isPublic) || TruthyField(Get(body, "isPublic"));
    if purgePublic {
      InvalidatePublicCache(client, publicFaulty);
    }
    resp := Response(200, MessageBody("Recording updated successfully"));

    if wasFresh && client.Ready() && userFaulty == {} && publicFaulty == {} {
      forall v | v != userId
        ensures Select(recs0[i := updated], OwnedBy(v)) == Select(recs0, OwnedBy(v))
      {
        SelectUpdate(recs0, i, updated, OwnedBy(v));
      }
      if !purgePublic {
        SelectUpdate(recs0, i, updated, PublicOnly);
      }
      RecordingWriteKeepsFresh(store0, recs0, recs0[i := updated], db.users, userId, purgePublic);
    }
  }

  /** DELETE `/:id`: removes the requester's recording `idText`. */
  method Delete(db: Database, client: Client, userId: Id, idText: string, userFaulty: set<nat>, publicFaulty: set<nat>)
    returns (resp: Response)
    requires db.Valid() && IsObjectIdText(userId)
    modifies db, client`store
    ensures db.Valid() && db.users == old(db.users)
    ensures ParseObjectId(idText).None? ==>
              && resp == Response(500, ErrorBody("Internal server error"))
              && db.recordings == old(db.recordings) && client.store == old(client.store)
    ensures ParseObjectId(idText).Some? && FindOwned(old(db.recordings), ParseObjectId(idText).value, userId).None? ==>
              && resp == Response(404, ErrorBody("Recording not found"))
              && db.recordings == old(db.recordings) && client.store == old(client.store)
    ensures ParseObjectId(idText).Some? && FindOwned(old(db.recordings), ParseObjectId(idText).value, userId).Some? ==>
              var i := FindOwned(old(db.recordings), ParseObjectId(idText).value, userId).value;
              var was := old(db.recordings)[i];
              && db.recordings == RemoveAt(old(db.recordings), i)
              && resp == Response(200, MessageBody("Recording deleted successfully"))
              && client.store == if client.Ready()
                                 then AfterRecordingWrite(old(client.store), userId, Truthy(was.isPublic), userFaulty, publicFaulty)
                                 else old(client.store)
    ensures old(Fresh(client.store, db.recordings, db.users)) && client.Ready() && userFaulty == {} && publicFaulty == {} ==>
              Fresh(client.store, db.recordings, db.users)
  {
    ghost var recs0, store0 := db.recordings, client.store;
    ghost var wasFresh := Fresh(client.store, db.recordings, db.users);
    var id := ParseObjectId(idText);
    if id.None? {
      return Response(500, ErrorBody("Internal server error"));
    }
    var found := FindOwned(db.recordings, id.value, userId);
    if found.None? {
      return Response(404, ErrorBody("Recording not found"));
    }
    var i := found.value;
    var was := db.recordings[i];
    db.recordings := RemoveAt(db.recordings, i);
    InvalidateUserCache(client, userId, userFaulty);
    if Truthy(was.isPublic) {
      InvalidatePublicCache(client, publicFaulty);
    }
    resp := Response(200, MessageBody("Recording deleted successfully"));

    if wasFresh && client.Ready() && userFaulty == {} && publicFaulty == {} {
      forall v | v != userId
        ensures Select(RemoveAt(recs0, i), OwnedBy(v)) == Select(recs0, OwnedBy(v))
      {
        SelectRemove(recs0, i, OwnedBy(v));
      }
      if !Truthy(was.isPublic) {
        SelectRemove(recs0, i, PublicOnly);
      }
      RecordingWriteKeepsFresh(store0, recs0, RemoveAt(recs0, i), db.users, userId, Truthy(was.isPublic));
    }
  }
}
