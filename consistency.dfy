/**
 * Cache freshness: every cached response under a recognised key equals what its
 * handler would answer now. Each write handler's invalidations, run on a ready
 * client whose commands succeed, keep this invariant; a write whose invalidation
 * is skipped (client down) does not.
 */
module Consistency {
  import opened Wrappers
  import opened Json
  import opened Http
  import Glob
  import opened RedisClient
  import opened Cache
  import opened Store

  /**
   * The entry under key `k` agrees with the live answer of the route the key
   * names: a user's list, the public feed, or an existing user's profile (a
   * missing user's 404 is never cached). Keys of other shapes are unconstrained.
   */
  predicate EntryFresh(k: string, e: Entry, recs: seq<Recording>, users: map<Id, User>) {
    match ParseKey(k)
    case None => true
    case Some(p) =>
      && (p.route == OwnListRoute ==> e.payload == OwnListJson(recs, p.user))
      && (p.route == PublicRoute ==> e.payload == PublicFeedJson(recs, users))
      && (p.route == ProfileRoute ==> p.user in users && e.payload == ProfileJson(p.user, users[p.user]))
  }

  predicate Fresh(store: map<string, Entry>, recs: seq<Recording>, users: map<Id, User>) {
    forall k :: k in store ==> EntryFresh(k, store[k], recs, users)
  }

  /** A canonical ObjectId contains neither `:` nor `*`, so it is safe inside keys and patterns. */
  lemma ObjectIdIsKeySafe(id: Id)
    requires IsObjectIdText(id)
    ensures ColonFree(id) && Glob.StarFree(id)
  {
    assert forall i :: 0 <= i < |id| ==> IsLowerHexDigit(id[i]);
  }

  /**
   * The cache after a recording write by `userId`: its lists, then, when asked,
   * the public feed. The two are separate `invalidateCache` calls, so each has
   * its own set of failing pattern positions.
   */
  function AfterRecordingWrite(
    store: map<string, Entry>, userId: Id, purgePublic: bool, userFaulty: set<nat>, publicFaulty: set<nat>)
    : map<string, Entry>
  {
    var afterUser := Purge(store, UserPatterns(userId), userFaulty);
    if purgePublic then Purge(afterUser, PublicPatterns(), publicFaulty) else afterUser
  }

  /**
   * A write to `userId`'s recordings that leaves every other user's list as it
   * was, and leaves the public selection as it was unless the public feed is
   * purged, keeps the cache fresh.
   */
  lemma RecordingWriteKeepsFresh(
    store: map<string, Entry>, recs: seq<Recording>, recs': seq<Recording>, users: map<Id, User>,
    userId: Id, purgePublic: bool)
    requires Fresh(store, recs, users)
    requires IsObjectIdText(userId)
    requires forall v :: v != userId ==> Select(recs', OwnedBy(v)) == Select(recs, OwnedBy(v))
    requires !purgePublic ==> Select(recs', PublicOnly) == Select(recs, PublicOnly)
    ensures Fresh(AfterRecordingWrite(store, userId, purgePublic, {}, {}), recs', users)
  {
    ObjectIdIsKeySafe(userId);
    var afterUser := Purge(store, UserPatterns(userId), {});
    var result := AfterRecordingWrite(store, userId, purgePublic, {}, {});
    forall k | k in result
      ensures EntryFresh(k, result[k], recs', users)
    {
      PurgeSpec(store, UserPatterns(userId), {}, k);
      if purgePublic {
        PurgeSpec(afterUser, PublicPatterns(), {}, k);
      }
      assert k in store && result[k] == store[k];
      assert EntryFresh(k, store[k], recs, users);
      match ParseKey(k)
      case None =>
      case Some(p) =>
        UserPatternReach(userId, p);
        PublicPatternReach(p);
        assert !Doomed(k, UserPatterns(userId), {});
        assert !Glob.Match(UserPatterns(userId)[0], k);
        if purgePublic {
          assert !Doomed(k, PublicPatterns(), {});
          assert !Glob.Match(PublicPatterns()[0], k);
        }
    }
  }

  /**
   * A write to `userId`'s profile that leaves every other user as they were
   * keeps the cache fresh once the profile patterns are purged; the purge of the
   * public feed is what makes this hold, since feed entries embed author fields.
   */
  lemma ProfileWriteKeepsFresh(
    store: map<string, Entry>, recs: seq<Recording>, users: map<Id, User>, users': map<Id, User>, userId: Id)
    requires Fresh(store, recs, users)
    requires IsObjectIdText(userId)
    requires users'.Keys == users.Keys
    requires forall v :: v in users && v != userId ==> users'[v] == users[v]
    ensures Fresh(Purge(store, ProfilePatterns(userId), {}), recs, users')
  {
    ObjectIdIsKeySafe(userId);
    var result := Purge(store, ProfilePatterns(userId), {});
    forall k | k in result
      ensures EntryFresh(k, result[k], recs, users')
    {
      PurgeSpec(store, ProfilePatterns(userId), {}, k);
      assert k in store && result[k] == store[k];
      assert EntryFresh(k, store[k], recs, users);
      match ParseKey(k)
      case None =>
      case Some(p) =>
        ProfilePatternsReach(userId, p);
        assert !Doomed(k, ProfilePatterns(userId), {});
        assert p.route != PublicRoute;
        assert p.route == ProfileRoute ==> p.user != userId;
    }
  }

  /** Storing a response that equals the live answer for its key keeps the cache fresh. */
  lemma StoreLiveKeepsFresh(store: map<string, Entry>, recs: seq<Recording>, users: map<Id, User>, k: string, e: Entry)
    requires Fresh(store, recs, users)
    requires EntryFresh(k, e, recs, users)
    ensures Fresh(store[k := e], recs, users)
  {
  }

  /**
   * Best effort, not more: when a user's list is cached and a recording of theirs
   * is created while invalidation cannot run (client down), the entry is stale,
   * and it is served again as soon as the flag comes back up.
   */
  lemma MissedInvalidationLeavesStaleList(
    store: map<string, Entry>, recs: seq<Recording>, users: map<Id, User>, userId: Id, query: string, x: Recording)
    requires IsObjectIdText(userId) && x.owner == userId
    requires Fresh(store, recs, users)
    requires Assemble(KeyParts(OwnListRoute, userId, query)) in store
    ensures !Fresh(store, recs + [x], users)
  {
    ObjectIdIsKeySafe(userId);
    var k := Assemble(KeyParts(OwnListRoute, userId, query));
    assert ColonFree(OwnListRoute);
    ParseAssembled(KeyParts(OwnListRoute, userId, query));
    SelectAppend(recs, x, OwnedBy(userId));
    assert |OwnListJson(recs + [x], userId).items| == |OwnListJson(recs, userId).items| + 1;
    assert !EntryFresh(k, store[k], recs + [x], users);
  }

  // ----- Reads through the cache ---------------------------------------------------

  /** With a fresh cache, a cached own list is the live one, and storing the live one keeps the cache fresh. */
  lemma OwnListServed(store: map<string, Entry>, recs: seq<Recording>, users: map<Id, User>, userId: Id, query: string, ttl: int)
    requires Fresh(store, recs, users)
    requires IsObjectIdText(userId)
    ensures var key := Assemble(KeyParts(OwnListRoute, userId, query));
            && (key in store ==> store[key].payload == OwnListJson(recs, userId))
            && Fresh(store[key := Entry(OwnListJson(recs, userId), ttl)], recs, users)
  {
    var p := KeyParts(OwnListRoute, userId, query);
    ObjectIdIsKeySafe(userId);
    assert ColonFree(OwnListRoute);
    ParseAssembled(p);
    assert p.route != PublicRoute && p.route != ProfileRoute;
    var key := Assemble(p);
    if key in store {
      assert EntryFresh(key, store[key], recs, users);
    }
    StoreLiveKeepsFresh(store, recs, users, key, Entry(OwnListJson(recs, userId), ttl));
  }

  /** With a fresh cache, a cached public feed is the live one, and storing the live one keeps the cache fresh. */
  lemma PublicFeedServed(store: map<string, Entry>, recs: seq<Recording>, users: map<Id, User>, query: string, ttl: int)
    requires Fresh(store, recs, users)
    ensures var key := Assemble(KeyParts(PublicRoute, Anonymous, query));
            && (key in store ==> store[key].payload == PublicFeedJson(recs, users))
            && Fresh(store[key := Entry(PublicFeedJson(recs, users), ttl)], recs, users)
  {
    var p := KeyParts(PublicRoute, Anonymous, query);
    assert ColonFree(PublicRoute) && ColonFree(Anonymous);
    ParseAssembled(p);
    assert |PublicRoute| != |OwnListRoute| && |PublicRoute| != |ProfileRoute|;
    var key := Assemble(p);
    if key in store {
      assert EntryFresh(key, store[key], recs, users);
    }
    StoreLiveKeepsFresh(store, recs, users, key, Entry(PublicFeedJson(recs, users), ttl));
  }

  /**
   * With a fresh cache, a cached profile belongs to an existing user and is the
   * live one, and storing the live one keeps the cache fresh.
   */
  lemma ProfileServed(store: map<string, Entry>, recs: seq<Recording>, users: map<Id, User>, userId: Id, query: string, ttl: int)
    requires Fresh(store, recs, users)
    requires IsObjectIdText(userId)
    ensures var key := Assemble(KeyParts(ProfileRoute, userId, query));
            && (key in store ==> userId in users && store[key].payload == ProfileJson(userId, users[userId]))
            && (userId in users ==> Fresh(store[key := Entry(ProfileJson(userId, users[userId]), ttl)], recs, users))
  {
    var p := KeyParts(ProfileRoute, userId, query);
    ObjectIdIsKeySafe(userId);
    assert ColonFree(ProfileRoute);
    ParseAssembled(p);
    assert p.route != PublicRoute && p.route != OwnListRoute;
    var key := Assemble(p);
    if key in store {
      assert EntryFresh(key, store[key], recs, users);
    }
    if userId in users {
      StoreLiveKeepsFresh(store, recs, users, key, Entry(ProfileJson(userId, users[userId]), ttl));
    }
  }

  // ----- Spellings outside the invalidation patterns -------------------------------

  /** An entry under a key whose route is none of the cached routes' canonical paths is outside `Fresh`. */
  lemma OffRouteEntryKeepsFresh(store: map<string, Entry>, recs: seq<Recording>, users: map<Id, User>, p: KeyParts, e: Entry)
    requires Fresh(store, recs, users)
    requires ColonFree(p.route) && ColonFree(p.user)
    requires p.route != OwnListRoute && p.route != PublicRoute && p.route != ProfileRoute
    ensures Fresh(store[Assemble(p) := e], recs, users)
  {
    ParseAssembled(p);
    StoreLiveKeepsFresh(store, recs, users, Assemble(p), e);
  }

  /** Any entry stored under the `/public/` spelling's key is outside `Fresh`. */
  lemma SlashFeedStoreKeepsFresh(store: map<string, Entry>, recs: seq<Recording>, users: map<Id, User>, query: string, e: Entry)
    requires Fresh(store, recs, users)
    ensures Fresh(store[GeneratedKey(Request(GET, "/api/recordings", "/public/", None, query)) := e], recs, users)
  {
    var p := KeyParts("/api/recordings/public/", Anonymous, query);
    SlashFeedKey(None, query);
    assert ColonFree(p.user);
    OffRouteEntryKeepsFresh(store, recs, users, p, e);
  }

  /**
   * Whichever spelling reached the feed handler, storing the live feed under its
   * key keeps the cache fresh; under the canonical spelling a cached feed is the
   * live one.
   */
  lemma FeedSpellingServed(store: map<string, Entry>, recs: seq<Recording>, users: map<Id, User>, path: string, query: string, ttl: int)
    requires Fresh(store, recs, users)
    requires Routes("/public", path)
    ensures var key := GeneratedKey(Request(GET, "/api/recordings", path, None, query));
            && (path == "/public" && key in store ==> store[key].payload == PublicFeedJson(recs, users))
            && Fresh(store[key := Entry(PublicFeedJson(recs, users), ttl)], recs, users)
  {
    var req := Request(GET, "/api/recordings", path, None, query);
    if path == "/public" {
      FeedKey(None, query);
      assert GeneratedKey(req) == Assemble(KeyParts(PublicRoute, Anonymous, query));
      PublicFeedServed(store, recs, users, query, ttl);
    } else {
      assert req == Request(GET, "/api/recordings", "/public/", None, query);
      SlashFeedStoreKeepsFresh(store, recs, users, query, Entry(PublicFeedJson(recs, users), ttl));
    }
  }

  /**
   * Whichever spelling reached the profile handler, storing the live profile of
   * an existing user under its key keeps the cache fresh; under the canonical
   * spelling a cached profile is the live one.
   */
  lemma ProfileSpellingServed(
    store: map<string, Entry>, recs: seq<Recording>, users: map<Id, User>, userId: Id, path: string, query: string, ttl: int)
    requires Fresh(store, recs, users)
    requires IsObjectIdText(userId)
    requires Routes("/profile", path)
    ensures var key := GeneratedKey(Request(GET, "/api/users", path, Some(userId), query));
            && (path == "/profile" && key in store ==> userId in users && store[key].payload == ProfileJson(userId, users[userId]))
            && (userId in users ==> Fresh(store[key := Entry(ProfileJson(userId, users[userId]), ttl)], recs, users))
  {
    assert |userId| == 24;
    var segment := UserSegment(Some(userId));
    assert segment == userId;
    var key := GeneratedKey(Request(GET, "/api/users", path, Some(userId), query));
    if path == "/profile" {
      ProfileKey(Some(userId), query);
      assert key == Assemble(KeyParts(ProfileRoute, userId, query));
      ProfileServed(store, recs, users, userId, query, ttl);
    } else {
      var p := KeyParts("/api/users/profile/", userId, query);
      SlashProfileKey(Some(userId), query);
      assert key == Assemble(p);
      if userId in users {
        ObjectIdIsKeySafe(userId);
        OffRouteEntryKeepsFresh(store, recs, users, p, Entry(ProfileJson(userId, users[userId]), ttl));
      }
    }
  }

  /** Publishing a new recording whose author exists changes the public feed. */
  lemma PublicWriteChangesFeed(recs: seq<Recording>, users: map<Id, User>, x: Recording)
    requires forall r :: r in recs ==> r.id != x.id
    requires MatchesTrue(x.isPublic) && x.owner in users
    ensures PublicFeedJson(recs + [x], users) != PublicFeedJson(recs, users)
  {
    FeedRowsSpec(recs + [x], users);
    FeedRowsSpec(recs, users);
    assert x in recs + [x];
    var e := FeedEntryJson(FeedRow(x, users[x.owner]));
    var rows', rows := FeedRows(recs + [x], users), FeedRows(recs, users);
    var i :| 0 <= i < |rows'| && rows'[i] == FeedRow(x, users[x.owner]);
    assert PublicFeedJson(recs + [x], users).items[i] == e;
    forall j | 0 <= j < |rows|
      ensures PublicFeedJson(recs, users).items[j] != e
    {
      assert rows[j].rec in recs;
      assert FeedEntryJson(rows[j]).fields[0].1 == JStr(rows[j].rec.id);
    }
  }

  /** As written, the `/public/` feed entry outlives every recording write, the feed purge included. */
  lemma SlashFeedSurvivesRecordingWrite(store: map<string, Entry>, userId: Id, purgePublic: bool, query: string)
    requires IsObjectIdText(userId)
    ensures var k := GeneratedKey(Request(GET, "/api/recordings", "/public/", None, query));
            var after := AfterRecordingWrite(store, userId, purgePublic, {}, {});
            k in store ==> k in after && after[k] == store[k]
  {
    ObjectIdIsKeySafe(userId);
    var p := KeyParts("/api/recordings/public/", Anonymous, query);
    var k := Assemble(p);
    SlashFeedKey(None, query);
    assert ColonFree(p.user);
    UserPatternReach(userId, p);
    var afterUser := Purge(store, UserPatterns(userId), {});
    PurgeSpec(store, UserPatterns(userId), {}, k);
    if purgePublic {
      TrailingSlashFeedSurvives(afterUser, None, query);
    }
  }

  /** Appending a recording of `x.owner` leaves every other user's recordings as they were. */
  lemma AppendKeepsOthers(recs: seq<Recording>, x: Recording)
    ensures forall v :: v != x.owner ==> Select(recs + [x], OwnedBy(v)) == Select(recs, OwnedBy(v))
  {
    forall v | v != x.owner
      ensures Select(recs + [x], OwnedBy(v)) == Select(recs, OwnedBy(v))
    {
      SelectAppend(recs, x, OwnedBy(v));
    }
  }

  /**
   * As written, a feed cached under the `/public/` spelling outlives a public
   * create: the cache stays `Fresh` (the invariant only speaks about the
   * canonical keys), yet the entry under that spelling is no longer the feed.
   */
  lemma TrailingSlashFeedServedStale(store: map<string, Entry>, recs: seq<Recording>, users: map<Id, User>, query: string, x: Recording)
    requires Fresh(store, recs, users)
    requires IsObjectIdText(x.owner) && forall r :: r in recs ==> r.id != x.id
    requires MatchesTrue(x.isPublic) && x.owner in users
    requires var k := GeneratedKey(Request(GET, "/api/recordings", "/public/", None, query));
             k in store && store[k].payload == PublicFeedJson(recs, users)
    ensures var k := GeneratedKey(Request(GET, "/api/recordings", "/public/", None, query));
            var after := AfterRecordingWrite(store, x.owner, true, {}, {});
            && Fresh(after, recs + [x], users)
            && k in after && after[k].payload != PublicFeedJson(recs + [x], users)
  {
    AppendKeepsOthers(recs, x);
    RecordingWriteKeepsFresh(store, recs, recs + [x], users, x.owner, true);
    SlashFeedSurvivesRecordingWrite(store, x.owner, true, query);
    PublicWriteChangesFeed(recs, users, x);
  }
}
