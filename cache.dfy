/**
 * The response cache: how a request is turned into a cache key, the read-through
 * middleware (hit, miss, store-on-2xx), and pattern-based invalidation with its
 * three fixed pattern lists.
 */
module Cache {
  import opened Wrappers
  import opened Json
  import opened Http
  import Glob
  import opened RedisClient

  const KeyPrefix := "api_cache:"
  const Anonymous := "anonymous"

  /** The routes whose responses are cached, as `req.baseUrl + req.path`. */
  const OwnListRoute := "/api/recordings/"
  const PublicRoute := "/api/recordings/public"
  const ProfileRoute := "/api/users/profile"

  /** `req.user?.userId || 'anonymous'`: an empty identifier is falsy, too. */
  function UserSegment(userId: Option<string>): (s: string)
    ensures userId.None? || userId == Some("") ==> s == Anonymous
    ensures userId.Some? && userId.value != "" ==> s == userId.value
  {
    if userId.Some? && userId.value != "" then userId.value else Anonymous
  }

  /** The three fields a key is built from. */
  datatype KeyParts = KeyParts(route: string, user: string, query: string)

  /** `api_cache:<route>:<user>:<query>` */
  function Assemble(p: KeyParts): string {
    KeyPrefix + p.route + ":" + p.user + ":" + p.query
  }

  /**
   * `generateCacheKey(req)`: the path exactly as the request spelled it. When
   * the route and the user segment are colon-free, the key can be read back
   * into them and the query.
   */
  function GeneratedKey(req: Request): (k: string)
    ensures ColonFree(req.baseUrl + req.path) && ColonFree(UserSegment(req.userId)) ==>
              ParseKey(k) == Some(KeyParts(req.baseUrl + req.path, UserSegment(req.userId), req.query))
  {
    var p := KeyParts(req.baseUrl + req.path, UserSegment(req.userId), req.query);
    if ColonFree(p.route) && ColonFree(p.user) then ParseAssembled(p); Assemble(p) else Assemble(p)
  }

  /** The path without the one trailing `/` non-strict routing tolerates; the root path `/` is kept. */
  function CanonicalPath(path: string): string {
    if |path| > 1 && path[|path| - 1] == '/' then path[..|path| - 1] else path
  }

  /**
   * The corrected key: `generateCacheKey` applied to the path in its canonical
   * spelling, so that every spelling routed to a handler shares the key its
   * invalidation pattern names (see `RoutedFeedKeyPurged`). On a path already
   * in canonical spelling it is the program's key.
   */
  function CacheKey(req: Request): (k: string)
    ensures k == GeneratedKey(req.(path := CanonicalPath(req.path)))
    ensures !(|req.path| > 1 && req.path[|req.path| - 1] == '/') ==> k == GeneratedKey(req)
  {
    Assemble(KeyParts(req.baseUrl + CanonicalPath(req.path), UserSegment(req.userId), req.query))
  }

  predicate ColonFree(s: string) {
    forall i :: 0 <= i < |s| ==> s[i] != ':'
  }

  /** Splits `s` at its first `:` into the part before and the part after. */
  function SplitAtFirstColon(s: string): (r: Option<(string, string)>)
    ensures r.Some? ==> s == r.value.0 + ":" + r.value.1 && ColonFree(r.value.0)
    ensures r.None? ==> ColonFree(s)
    decreases |s|
  {
    if |s| == 0 then None
    else if s[0] == ':' then Some(("", s[1..]))
    else
      match SplitAtFirstColon(s[1..])
      case None => None
      case Some((before, after)) =>
        assert s == [s[0]] + s[1..];
        Some(([s[0]] + before, after))
  }

  /**
   * Reads a key back into route, user and query, splitting at the first two
   * colons after the prefix. Whatever it accepts reassembles into the same key.
   */
  function ParseKey(k: string): (r: Option<KeyParts>)
    ensures r.Some? ==> Assemble(r.value) == k
    ensures r.Some? ==> ColonFree(r.value.route) && ColonFree(r.value.user)
  {
    if !(KeyPrefix <= k) then None
    else
      var rest := k[|KeyPrefix|..];
      assert k == KeyPrefix + rest;
      match SplitAtFirstColon(rest)
      case None => None
      case Some((route, tail)) =>
        match SplitAtFirstColon(tail)
        case None => None
        case Some((user, query)) =>
          AssembleNested(KeyParts(route, user, query));
          Some(KeyParts(route, user, query))
  }

  /** A key is the prefix followed by the route, then the user and the query, each after a colon. */
  lemma AssembleNested(p: KeyParts)
    ensures Assemble(p) == KeyPrefix + (p.route + ":" + (p.user + ":" + p.query))
  {
  }

  /** A colon-free head is exactly what `SplitAtFirstColon` cuts off. */
  lemma {:induction false} SplitColonFreeHead(a: string, x: string)
    requires ColonFree(a)
    ensures SplitAtFirstColon(a + ":" + x) == Some((a, x))
    decreases |a|
  {
    var s := a + ":" + x;
    if |a| == 0 {
      assert s == ":" + x;
      assert s[1..] == x;
    } else {
      assert s[1..] == a[1..] + ":" + x;
      SplitColonFreeHead(a[1..], x);
      assert [s[0]] + a[1..] == a;
    }
  }

  /**
   * Keys are unambiguous: when route and user are colon-free (user identifiers
   * are hexadecimal ObjectIds), parsing a key gives back exactly its parts, so
   * requests that differ in route, user or query never share a key.
   */
  lemma ParseAssembled(p: KeyParts)
    requires ColonFree(p.route) && ColonFree(p.user)
    ensures ParseKey(Assemble(p)) == Some(p)
  {
    var k := Assemble(p);
    var rest := p.route + ":" + (p.user + ":" + p.query);
    assert k == KeyPrefix + rest;
    assert k[|KeyPrefix|..] == rest;
    SplitColonFreeHead(p.route, p.user + ":" + p.query);
    SplitColonFreeHead(p.user, p.query);
  }

  /** Distinct keys come from distinct parts, and every field is recovered. */
  lemma KeyInjective(p: KeyParts, q: KeyParts)
    requires ColonFree(p.route) && ColonFree(p.user)
    requires ColonFree(q.route) && ColonFree(q.user)
    requires Assemble(p) == Assemble(q)
    ensures p == q
  {
    ParseAssembled(p);
    ParseAssembled(q);
  }

  /** The key of a request with no user, or with an empty user id, names the anonymous user. */
  lemma AnonymousRequestsShareKey(req: Request)
    requires req.userId.None? || req.userId == Some("")
    ensures GeneratedKey(req) == KeyPrefix + req.baseUrl + req.path + ":anonymous:" + req.query
  {
    assert UserSegment(req.userId) == "anonymous";
  }

  // ----- Invalidation ----------------------------------------------------------

  /** Key `k` matches pattern number `i` and that pattern's KEYS/DEL round trip did not fail. */
  ghost predicate Doomed(k: string, patterns: seq<string>, faulty: set<nat>) {
    exists i :: 0 <= i < |patterns| && i !in faulty && Glob.Match(patterns[i], k)
  }

  /**
   * The store after `invalidateCache(patterns)` on a ready client: pattern by
   * pattern, the keys KEYS reports are deleted, except at the positions in
   * `faulty`, whose backend commands throw and are absorbed.
   */
  function Purge(store: map<string, Entry>, patterns: seq<string>, faulty: set<nat>): (r: map<string, Entry>)
    ensures r.Keys <= store.Keys
    ensures forall k :: k in r ==> r[k] == store[k]
    decreases |patterns|
  {
    if |patterns| == 0 then store
    else
      var n := |patterns| - 1;
      var before := Purge(store, patterns[..n], faulty);
      if n in faulty then before else before - MatchingKeys(before, patterns[n])
  }

  /**
   * After invalidation no key matching a pattern remains (unless that pattern's
   * commands failed), and every key matching none of them survives unchanged.
   */
  lemma {:induction false} PurgeSpec(store: map<string, Entry>, patterns: seq<string>, faulty: set<nat>, k: string)
    ensures k in Purge(store, patterns, faulty) <==> k in store && !Doomed(k, patterns, faulty)
    decreases |patterns|
  {
    if |patterns| > 0 {
      var n := |patterns| - 1;
      var front := patterns[..n];
      PurgeSpec(store, front, faulty, k);
      if Doomed(k, front, faulty) {
        var i :| 0 <= i < n && i !in faulty && Glob.Match(front[i], k);
        assert patterns[i] == front[i];
      }
      if Doomed(k, patterns, faulty) {
        var i :| 0 <= i < |patterns| && i !in faulty && Glob.Match(patterns[i], k);
        if i < n {
          assert front[i] == patterns[i];
        }
      }
    }
  }

  /** Positions that all fail change nothing. */
  lemma {:induction false} PurgeAllFaulty(store: map<string, Entry>, patterns: seq<string>, faulty: set<nat>)
    requires forall i :: 0 <= i < |patterns| ==> i in faulty
    ensures Purge(store, patterns, faulty) == store
    decreases |patterns|
  {
    if |patterns| > 0 {
      PurgeAllFaulty(store, patterns[..|patterns| - 1], faulty);
    }
  }

  /** `invalidateCache(patterns)`; `faulty` holds the positions whose backend commands throw. */
  method InvalidateCache(client: Client, patterns: seq<string>, faulty: set<nat>)
    modifies client`store
    ensures client.store == if client.Ready() then Purge(old(client.store), patterns, faulty) else old(client.store)
  {
    if !client.connected {
      return;
    }
    var i := 0;
    while i < |patterns|
      invariant 0 <= i <= |patterns|
      invariant client.store == if client.Ready() then Purge(old(client.store), patterns[..i], faulty) else old(client.store)
    {
      assert patterns[..i + 1][..i] == patterns[..i];
      var keys := client.Keys(patterns[i], i in faulty);
      if |keys| > 0 {
        client.Del(keys, i in faulty);
      }
      i := i + 1;
    }
    assert patterns[..i] == patterns;
  }

  /** `invalidateUserCache(userId)`: every cached list of that user's recordings. */
  function UserPatterns(userId: string): seq<string> {
    ["api_cache:/api/recordings/:" + userId + ":*"]
  }

  /** `invalidatePublicCache()`: every cached public feed, whatever the user or query. */
  function PublicPatterns(): seq<string> {
    ["api_cache:/api/recordings/public:*:*"]
  }

  /** `invalidateProfileCache(userId)`: the profile, the public feed and the user's recordings. */
  function ProfilePatterns(userId: string): seq<string> {
    [
      "api_cache:/api/users/profile:" + userId + ":*",
      "api_cache:/api/recordings/public:*:*",
      "api_cache:/api/recordings/:" + userId + ":*"
    ]
  }

  method InvalidateUserCache(client: Client, userId: string, faulty: set<nat>)
    modifies client`store
    ensures client.store == if client.Ready() then Purge(old(client.store), UserPatterns(userId), faulty) else old(client.store)
  {
    InvalidateCache(client, UserPatterns(userId), faulty);
  }

  method InvalidatePublicCache(client: Client, faulty: set<nat>)
    modifies client`store
    ensures client.store == if client.Ready() then Purge(old(client.store), PublicPatterns(), faulty) else old(client.store)
  {
    InvalidateCache(client, PublicPatterns(), faulty);
  }

  method InvalidateProfileCache(client: Client, userId: string, faulty: set<nat>)
    modifies client`store
    ensures client.store == if client.Ready() then Purge(old(client.store), ProfilePatterns(userId), faulty) else old(client.store)
  {
    InvalidateCache(client, ProfilePatterns(userId), faulty);
  }

  // ----- Which keys each pattern reaches -----------------------------------------

  /** The literal head of a pattern that fixes route and user is a prefix of exactly the keys with that route and user. */
  lemma RouteUserPrefix(route: string, user: string, p: KeyParts)
    requires ColonFree(route) && ColonFree(user)
    requires ColonFree(p.route) && ColonFree(p.user)
    ensures KeyPrefix + route + ":" + user + ":" <= Assemble(p) <==> p.route == route && p.user == user
  {
    var lit := KeyPrefix + route + ":" + user + ":";
    var k := Assemble(p);
    if lit <= k {
      var rest := k[|lit|..];
      assert k == lit + rest;
      assert k == Assemble(KeyParts(route, user, rest));
      KeyInjective(p, KeyParts(route, user, rest));
    }
    if p.route == route && p.user == user {
      assert k == lit + p.query;
    }
  }

  /** The literal head of a pattern that fixes only the route is a prefix of exactly the keys with that route. */
  lemma RoutePrefix(route: string, p: KeyParts)
    requires ColonFree(route) && ColonFree(p.route)
    ensures KeyPrefix + route + ":" <= Assemble(p) <==> p.route == route
  {
    var lit := KeyPrefix + route + ":";
    var k := Assemble(p);
    var body := p.route + ":" + (p.user + ":" + p.query);
    assert k == KeyPrefix + body;
    assert k[|KeyPrefix|..] == body;
    SplitColonFreeHead(p.route, p.user + ":" + p.query);
    if lit <= k {
      var rest := k[|lit|..];
      assert k == KeyPrefix + (route + ":" + rest);
      assert k[|KeyPrefix|..] == route + ":" + rest;
      SplitColonFreeHead(route, rest);
    }
    if p.route == route {
      assert k == lit + (p.user + ":" + p.query);
    }
  }

  /**
   * The user pattern of `userId` reaches exactly the cached lists of that user's
   * recordings: not another user's list, not a public feed, not a profile.
   */
  lemma UserPatternReach(userId: string, p: KeyParts)
    requires Glob.StarFree(userId) && ColonFree(userId)
    requires ColonFree(p.route) && ColonFree(p.user)
    ensures Glob.Match(UserPatterns(userId)[0], Assemble(p)) <==> p.route == OwnListRoute && p.user == userId
  {
    var lit := KeyPrefix + OwnListRoute + ":" + userId + ":";
    assert UserPatterns(userId)[0] == lit + "*";
    Glob.PrefixPattern(lit, Assemble(p));
    RouteUserPrefix(OwnListRoute, userId, p);
  }

  /** The profile part of the profile patterns reaches exactly that user's cached profiles. */
  lemma ProfilePatternReach(userId: string, p: KeyParts)
    requires Glob.StarFree(userId) && ColonFree(userId)
    requires ColonFree(p.route) && ColonFree(p.user)
    ensures Glob.Match(ProfilePatterns(userId)[0], Assemble(p)) <==> p.route == ProfileRoute && p.user == userId
  {
    var lit := KeyPrefix + ProfileRoute + ":" + userId + ":";
    assert ProfilePatterns(userId)[0] == lit + "*";
    Glob.PrefixPattern(lit, Assemble(p));
    RouteUserPrefix(ProfileRoute, userId, p);
  }

  /** The public pattern is the public route's literal head followed by `*:*`. */
  lemma PublicPatternHead()
    ensures Glob.StarFree(KeyPrefix + PublicRoute + ":")
    ensures PublicPatterns()[0] == (KeyPrefix + PublicRoute + ":") + "*:*"
  {
    var lit := KeyPrefix + PublicRoute + ":";
    assert lit == "api_cache:/api/recordings/public:";
  }

  /** The public pattern reaches every cached public feed, whatever its user segment or query, and nothing else. */
  lemma PublicPatternReach(p: KeyParts)
    requires ColonFree(p.route)
    ensures Glob.Match(PublicPatterns()[0], Assemble(p)) <==> p.route == PublicRoute
  {
    var lit := KeyPrefix + PublicRoute + ":";
    var k := Assemble(p);
    PublicPatternHead();
    Glob.LiteralHead(lit, "*:*", k);
    RoutePrefix(PublicRoute, p);
    if p.route == PublicRoute {
      assert k == lit + (p.user + ":" + p.query);
      assert k[|lit|..] == p.user + ":" + p.query;
      Glob.ColonBetweenStars(p.user, p.query);
    }
  }

  /** The profile invalidation reaches the user's profile, every public feed and the user's recordings list. */
  lemma ProfilePatternsReach(userId: string, p: KeyParts)
    requires Glob.StarFree(userId) && ColonFree(userId)
    requires ColonFree(p.route) && ColonFree(p.user)
    ensures (exists i :: 0 <= i < 3 && Glob.Match(ProfilePatterns(userId)[i], Assemble(p))) <==>
            (p.route == ProfileRoute && p.user == userId) || p.route == PublicRoute ||
            (p.route == OwnListRoute && p.user == userId)
  {
    ProfilePatternReach(userId, p);
    PublicPatternReach(p);
    UserPatternReach(userId, p);
    assert ProfilePatterns(userId)[1] == PublicPatterns()[0];
    assert ProfilePatterns(userId)[2] == UserPatterns(userId)[0];
  }

  // ----- Spellings of a route ---------------------------------------------------

  /** Every spelling Express routes to a path other than `/` has that path as its canonical form. */
  lemma CanonicalPathOfRoute(route: string, path: string)
    requires |route| > 0 && route[|route| - 1] != '/'
    requires Routes(route, path)
    ensures CanonicalPath(path) == route
  {
    if path == route + "/" {
      assert path[..|path| - 1] == route;
    }
  }

  /** The key of the canonical feed spelling `/public`. */
  lemma FeedKey(userId: Option<string>, query: string)
    ensures GeneratedKey(Request(GET, "/api/recordings", "/public", userId, query)) ==
            Assemble(KeyParts(PublicRoute, UserSegment(userId), query))
  {
    assert "/api/recordings" + "/public" == PublicRoute;
  }

  /** The key of the feed spelling `/public/`: its route is none of the cached routes' canonical paths. */
  lemma SlashFeedKey(userId: Option<string>, query: string)
    ensures var p := KeyParts("/api/recordings/public/", UserSegment(userId), query);
            && GeneratedKey(Request(GET, "/api/recordings", "/public/", userId, query)) == Assemble(p)
            && ColonFree(p.route)
            && p.route != OwnListRoute && p.route != PublicRoute && p.route != ProfileRoute
  {
    var route := "/api/recordings/public/";
    assert "/api/recordings" + "/public/" == route;
    assert |route| != |OwnListRoute| && |route| != |PublicRoute| && |route| != |ProfileRoute|;
  }

  /** The key of the canonical profile spelling `/profile`. */
  lemma ProfileKey(userId: Option<string>, query: string)
    ensures GeneratedKey(Request(GET, "/api/users", "/profile", userId, query)) ==
            Assemble(KeyParts(ProfileRoute, UserSegment(userId), query))
  {
    assert "/api/users" + "/profile" == ProfileRoute;
  }

  /** The key of the profile spelling `/profile/`: its route is none of the cached routes' canonical paths. */
  lemma SlashProfileKey(userId: Option<string>, query: string)
    ensures var p := KeyParts("/api/users/profile/", UserSegment(userId), query);
            && GeneratedKey(Request(GET, "/api/users", "/profile/", userId, query)) == Assemble(p)
            && ColonFree(p.route)
            && p.route != OwnListRoute && p.route != PublicRoute && p.route != ProfileRoute
  {
    var route := "/api/users/profile/";
    assert "/api/users" + "/profile/" == route;
    assert |route| != |OwnListRoute| && |route| != |PublicRoute| && |route| != |ProfileRoute|;
  }

  /**
   * As written, `generateCacheKey` keeps the trailing `/` of a feed request
   * spelled `/public/`, which Express routes to the feed handler. That key lies
   * outside the public pattern, so a feed cached under it survives every feed
   * invalidation unchanged.
   */
  lemma TrailingSlashFeedSurvives(store: map<string, Entry>, userId: Option<string>, query: string)
    ensures var key := GeneratedKey(Request(GET, "/api/recordings", "/public/", userId, query));
            && !Glob.Match(PublicPatterns()[0], key)
            && (key in store ==> key in Purge(store, PublicPatterns(), {}) && Purge(store, PublicPatterns(), {})[key] == store[key])
  {
    var p := KeyParts("/api/recordings/public/", UserSegment(userId), query);
    SlashFeedKey(userId, query);
    PublicPatternReach(p);
    PurgeSpec(store, PublicPatterns(), {}, Assemble(p));
  }

  /**
   * As written, a profile request spelled `/profile/` is cached under a key that
   * none of the profile patterns reaches, so it survives every profile
   * invalidation unchanged.
   */
  lemma TrailingSlashProfileSurvives(store: map<string, Entry>, userId: string, query: string)
    requires Glob.StarFree(userId) && ColonFree(userId) && userId != ""
    ensures var key := GeneratedKey(Request(GET, "/api/users", "/profile/", Some(userId), query));
            && (forall i :: 0 <= i < |ProfilePatterns(userId)| ==> !Glob.Match(ProfilePatterns(userId)[i], key))
            && (key in store ==> key in Purge(store, ProfilePatterns(userId), {}) &&
                                 Purge(store, ProfilePatterns(userId), {})[key] == store[key])
  {
    var p := KeyParts("/api/users/profile/", userId, query);
    SlashProfileKey(Some(userId), query);
    ProfilePatternsReach(userId, p);
    PurgeSpec(store, ProfilePatterns(userId), {}, Assemble(p));
  }

  /**
   * With the path canonicalised, every spelling Express routes to the feed
   * handler is cached under the feed key, which the public pattern reaches.
   */
  lemma RoutedFeedKeyPurged(path: string, userId: Option<string>, query: string)
    requires Routes("/public", path)
    ensures var key := CacheKey(Request(GET, "/api/recordings", path, userId, query));
            && key == Assemble(KeyParts(PublicRoute, UserSegment(userId), query))
            && Glob.Match(PublicPatterns()[0], key)
  {
    CanonicalPathOfRoute("/public", path);
    assert "/api/recordings" + "/public" == PublicRoute;
    assert ColonFree(PublicRoute);
    PublicPatternReach(KeyParts(PublicRoute, UserSegment(userId), query));
  }

  /**
   * With the path canonicalised, every spelling Express routes to the profile
   * handler is cached under the user's profile key, which the first profile
   * pattern reaches.
   */
  lemma RoutedProfileKeyPurged(path: string, userId: string, query: string)
    requires Routes("/profile", path)
    requires Glob.StarFree(userId) && ColonFree(userId) && userId != ""
    ensures var key := CacheKey(Request(GET, "/api/users", path, Some(userId), query));
            && key == Assemble(KeyParts(ProfileRoute, userId, query))
            && Glob.Match(ProfilePatterns(userId)[0], key)
  {
    CanonicalPathOfRoute("/profile", path);
    assert "/api/users" + "/profile" == ProfileRoute;
    assert ColonFree(ProfileRoute);
    ProfilePatternReach(userId, KeyParts(ProfileRoute, userId, query));
  }

  // ----- The middleware ----------------------------------------------------------

  const DefaultTtl := 300

  /** `cacheMiddleware(ttl = 300)`: the expiry used when the mount gives none. */
  function EffectiveTtl(ttl: Option<int>): (t: int)
    ensures ttl.None? ==> t == DefaultTtl
    ensures ttl.Some? ==> t == ttl.value
  {
    ttl.GetOr(DefaultTtl)
  }

  /**
   * `cacheMiddleware(ttl)` wrapped around a route handler whose response is
   * `live`. Non-GET requests, and every request while the flag is down, go
   * straight to the handler. Otherwise a hit answers with the stored payload
   * (status 200) without running the handler; a miss runs the handler, sends its
   * response unchanged, and stores its body under the request's key when the
   * status is 2xx. `getFault`/`setFault` say whether GET/SETEX throw.
   */
  method Middleware(client: Client, ttl: Option<int>, req: Request, live: Response, getFault: bool, setFault: bool)
    returns (resp: Response, handlerRan: bool)
    modifies client`store
    ensures var key := GeneratedKey(req);
      if req.verb != GET || !client.connected then
        handlerRan && resp == live && client.store == old(client.store)
      else if client.Ready() && !getFault && key in old(client.store) then
        !handlerRan && resp == Response(200, old(client.store)[key].payload) && client.store == old(client.store)
      else
        handlerRan && resp == live &&
        client.store == if client.Ready() && !setFault && Success(live.status) && EffectiveTtl(ttl) > 0
                        then old(client.store)[key := Entry(live.body, EffectiveTtl(ttl))]
                        else old(client.store)
  {
    if req.verb != GET || !client.connected {
      return live, true;
    }
    var key := GeneratedKey(req);
    var cached := client.Get(key, getFault);
    if cached.Some? {
      return Response(200, cached.value), false;
    }
    // the handler runs; the wrapped `res.json` stores a successful body
    resp, handlerRan := live, true;
    if req.verb == GET && Success(live.status) {
      client.SetEx(key, EffectiveTtl(ttl), live.body, setFault);
    }
  }
}
