# STEINWAY response cache and write paths, in Dafny

STEINWAY is a piano-recording web application. Users sign in, play a keyboard in
the browser, save recordings of timestamped notes, publish them and browse a
public feed. On the server, three read routes sit behind a Redis read-through
response cache:

- `GET /api/recordings/` (the requester's recordings);
- `GET /api/recordings/public` (the public feed);
- `GET /api/users/profile` (the requester's profile).

The write routes purge the cache with `KEYS`/`DEL` glob patterns before they
answer. The write routes are:

- create, publish/unpublish and delete a recording;
- update the profile;
- upload a profile image.

This project models that core and proves what it promises.

- **Redis client** (`redis_client.dfy`, module `RedisClient`). The process-wide
  client handle and the `isRedisConnected` flag are a class `Client`, with the
  Redis server's contents as a map `store`. Its members are:
  - the event handlers that drive the flag;
  - the reconnect back-off policy;
  - `safeRedisOperation`, which turns every backend failure into a fallback value;
  - the four commands the cache uses (GET, SETEX, KEYS, DEL). Each goes through
    that wrapper, and each takes a `fault` flag saying whether the command throws.
- **Glob matching** (`glob.dfy`). This is the `KEYS` pattern language, restricted
  to the one metacharacter the patterns use: `*` matches any substring.
- **Cache** (`cache.dfy`). It covers:
  - the key `api_cache:<baseUrl><path>:<userId|anonymous>:<query>` and its parser;
  - the middleware: pass-through, hit, miss and store-on-2xx;
  - `invalidateCache` as a loop over patterns, specified by the pure function `Purge`;
  - the three fixed pattern lists, with lemmas saying exactly which keys each
    pattern reaches.
- **Store** (`store.dfy`). The MongoDB collections are values:
  - `recordings` is a sequence in natural order;
  - `users` is a map.

  The read queries are functions of these values:
  - the own list;
  - the public feed pipeline: `$match` on `isPublic: true`, then `$sort` newest
    first, then `$lookup`/`$unwind` of the author, then `$project`;
  - the profile without `googleId`.
- **Consistency** (`consistency.dfy`). `Fresh` says that every cached response
  under a route's canonical key equals what the route would answer now. The
  canonical keys are the ones whose path is spelled as the router declares it.
  The lemmas show:
  - each write path's invalidations keep `Fresh` when the client is up and its
    commands succeed;
  - serving a read through the middleware keeps `Fresh`;
  - with `Fresh`, a hit answers exactly the live response;
  - a write whose invalidation is skipped leaves a stale entry;
  - a feed cached under the `/public/` spelling is served stale after a public
    create, while `Fresh` still holds.
- **Routes** (`recording_routes.dfy`, `user_routes.dfy`, `upload_routes.dfy`).
  Each handler is a method on the `Database` and the `Client`. Each is one atomic
  step: validate, change one document, invalidate, answer. A write handler's
  contract gives:
  - the exact response on every path;
  - the new collections;
  - the new cache;
  - preservation of `Fresh`.

  A read handler's contract gives:
  - the handler's answer, with the cache untouched, when the flag is down;
  - on a hit, the stored payload without running the handler;
  - on a miss, the handler's answer, with its body stored under the request's
    key when the client is up, SETEX succeeds and the answer is 2xx;
  - the live answer and preservation of `Fresh` when the cache is fresh.

  The upload route includes multer's file filter and size limit, and the
  `data:<type>;base64,<payload>` URL. Base64 (`base64.dfy`) is Node's standard
  padded encoding, with a decoder and a round-trip proof.
- **Piano keys** (`piano_keys.dfy`). This is the client's table of 36 playable
  computer keys and the validator derived from it. The table is proved to be:
  - three whole octaves: 7 white and 5 black keys each;
  - made of pairwise distinct characters;
  - white at both ends, with no two black keys adjacent.

Parameters stand for what the code gets from outside:

- `now` is the clock reading for `createdAt`;
- `newId` is the id the driver generates on insert;
- `userId` is the identifier token authentication puts on the request, a
  canonical ObjectId;
- `query` is the `JSON.stringify(req.query)` text;
- `getFault` and `setFault` say whether GET and SETEX throw. A `faulty` set
  holds the positions, within one `invalidateCache` call's pattern list, whose
  KEYS or DEL throws. The recording write handlers make two separate calls, one
  for the user's lists and one for the feed, so they take two sets:
  `userFaulty` and `publicFaulty`.

`reconnectStrategy` gives up after ten retries, so the 3000 ms cap of
`Math.min(retries * 100, 3000)` never applies and no delay exceeds 1000 ms
(`RedisClient.ReconnectStrategy`).

The middleware keys responses with `generateCacheKey` as written
(`Cache.GeneratedKey`), which keeps the path exactly as the request spelled it.
Express's routing also tolerates one trailing `/`. That spelling gets a key no
invalidation pattern reaches; see "## Findings". `Cache.CacheKey` is the
corrected key, which canonicalises the path. The proofs about it show what the
fix would achieve. The handlers do not use it.

## Model

| member | source | states |
|---|---|---|
| RedisClient.SafeOperation | server/db/redisClient.js:52-63 | With no client or the flag down, the result is the fallback. When connected, it is the operation's value, or the fallback if the operation threw. It is always one of those two: nothing propagates. |
| RedisClient.ReconnectStrategy | server/db/redisClient.js:14-20 | Gives up iff `retries > 10`. Otherwise the delay is `min(retries*100, 3000)`, which equals `retries*100` and is at most 1000 ms. |
| RedisClient.ReconnectDelayMonotone | server/db/redisClient.js:19 | Among accepted retry counts, the delay never decreases. |
| RedisClient.NextConnected | server/db/redisClient.js:24-41 | `error` and `disconnect` lower the flag, `connect` raises it, and `reconnecting` leaves it as it was. |
| RedisClient.ReconnectingKeepsFlag | server/db/redisClient.js:39-41 | Any run of `reconnecting` events leaves the flag unchanged. |
| RedisClient.LastDecisiveEventDecides | server/db/redisClient.js:24-41 | After any event history, the flag is true iff the last event other than `reconnecting` was `connect`. |
| RedisClient.MatchingKeys | server/middleware/cache.js:61-64 | KEYS answers exactly the stored keys that the pattern matches. |
| RedisClient.Client.Initialize | server/db/redisClient.js:9-50 | When the first connect succeeds, the handle is kept and the flag is up. When it throws, the handle is dropped and the flag is down. The store is unchanged. |
| RedisClient.Client.OnEvent | server/db/redisClient.js:24-41 | One handler run sets the flag to `NextConnected` of the old flag and the event, and changes nothing else. |
| RedisClient.Client.Get | server/middleware/cache.js:23-26 | Returns a payload iff the client is ready, GET does not throw and the key is stored; the payload is then the stored one. |
| RedisClient.Client.SetEx | server/middleware/cache.js:38-41 | The key is bound to the payload and expiry iff the client is ready, SETEX does not throw and the expiry is positive. Otherwise the store is unchanged. |
| RedisClient.Client.Keys | server/middleware/cache.js:61-64 | Returns the matching stored keys when ready and not failing, otherwise the empty fallback. |
| RedisClient.Client.Del | server/middleware/cache.js:66-69 | Removes exactly the given keys when ready and not failing, otherwise nothing. |
| Glob.LiteralMatch | server/middleware/cache.js:61-63 | A pattern without `*` matches exactly the key equal to it. |
| Glob.PrefixPattern | server/middleware/cache.js:84-86 | `lit*` matches exactly the keys that start with `lit`. |
| Glob.ColonBetweenStars | server/middleware/cache.js:91-93 | `*:*` matches every key of the form `before:after`. |
| Cache.UserSegment | server/middleware/cache.js:4 | An absent or empty user id becomes `anonymous`; any other id is used as is. |
| Cache.ParseKey | server/middleware/cache.js:3-8 | Every key the parser accepts reassembles into itself, and its route and user fields are colon-free. |
| Cache.ParseAssembled | server/middleware/cache.js:3-8 | For colon-free route and user, parsing a generated key gives back route, user and query. |
| Cache.KeyInjective | server/middleware/cache.js:3-8 | Requests that differ in route, user or query never share a key. |
| Cache.GeneratedKey | server/middleware/cache.js:3-8 | The key of a request whose route and user segment are colon-free reads back into that route, user segment and query. |
| Cache.CacheKey | server/middleware/cache.js:3-8 | The corrected key is `generateCacheKey` of the request with its path canonicalised. On a path already in canonical spelling it equals the program's key. |
| Cache.AnonymousRequestsShareKey | server/middleware/cache.js:4-7 | As written, a request without a user id gets the key `api_cache:<baseUrl><path>:anonymous:<query>`. |
| Cache.Purge | server/middleware/cache.js:59-72 | Invalidation only removes keys and never changes a surviving entry. |
| Cache.PurgeSpec | server/middleware/cache.js:59-72 | A key survives iff it was stored and no pattern whose commands succeeded matches it. No matching key remains; keys matching no pattern are untouched. |
| Cache.PurgeAllFaulty | server/middleware/cache.js:61-69 | When every pattern's commands fail, nothing is deleted and no error escapes. |
| Cache.InvalidateCache | server/middleware/cache.js:53-76 | On a ready client the store becomes `Purge` of the old store. With the flag down it is unchanged. A pattern that matches no key changes nothing. |
| Cache.InvalidateUserCache | server/middleware/cache.js:78-88 | Purges the user pattern `api_cache:/api/recordings/:<uid>:*`. |
| Cache.InvalidatePublicCache | server/middleware/cache.js:90-95 | Purges `api_cache:/api/recordings/public:*:*`. |
| Cache.InvalidateProfileCache | server/middleware/cache.js:97-104 | Purges the profile, public-feed and own-list patterns, in that order. |
| Cache.UserPatternReach | server/middleware/cache.js:84-86 | The user pattern matches a key iff the key is that user's own-list key. It never matches another user's list, the public feed or a profile. |
| Cache.PublicPatternReach | server/middleware/cache.js:91-93 | The public pattern matches a key iff its route is `/api/recordings/public`, whatever the user segment or query. |
| Cache.ProfilePatternReach | server/middleware/cache.js:98-99 | The first profile pattern matches exactly that user's profile keys. |
| Cache.ProfilePatternsReach | server/middleware/cache.js:97-104 | Together, the profile patterns match exactly: the user's profile keys, every public-feed key, and the user's own-list keys. |
| Cache.CanonicalPathOfRoute | server/middleware/cache.js:5 | Both spellings Express routes to a path, with and without one trailing `/`, have that path as their canonical form. |
| Cache.TrailingSlashFeedSurvives | server/middleware/cache.js:5-7 | As written, the key of a feed request spelled `/public/` is not matched by the public pattern, and an entry under it survives the feed invalidation unchanged. |
| Cache.TrailingSlashProfileSurvives | server/middleware/cache.js:5-7 | As written, the key of a profile request spelled `/profile/` is matched by none of the profile patterns, and an entry under it survives the profile invalidation unchanged. |
| Cache.RoutedFeedKeyPurged | server/middleware/cache.js:90-95 | With the canonical path, every spelling routed to the feed handler gets the feed key, and the public pattern matches it. |
| Cache.RoutedProfileKeyPurged | server/middleware/cache.js:97-104 | With the canonical path, every spelling routed to the profile handler gets the user's profile key, and the first profile pattern matches it. |
| Cache.EffectiveTtl | server/middleware/cache.js:10 | Without a TTL argument the expiry is 300 seconds. |
| Cache.Middleware | server/middleware/cache.js:10-51 | A non-GET request, or any request with the flag down, reaches the handler and leaves the store untouched. A hit answers the stored payload with status 200 and skips the handler. A miss answers the handler's response unchanged. On a miss, the body is stored under the key with the TTL iff the status is 2xx and SETEX succeeds. The key is `generateCacheKey` of the request as written. |
| Store.ParseObjectId | server/routes/router.js:91 | Accepts exactly 24 hex digits of either case. The id is canonical, and canonical text parses to itself. |
| Store.MatchesTrue | server/routes/router.js:59 | A value matched by `isPublic: true` is truthy. |
| Store.Select | server/routes/router.js:44-46 | `find(filter)` holds exactly the documents the filter selects, and no more of them than the collection. |
| Store.SelectAppend | server/routes/router.js:27 | An insert extends each selection by the new document exactly when the filter selects it. |
| Store.SelectUpdate | server/routes/router.js:99-105 | Replacing a document that a filter selects neither before nor after leaves that selection unchanged. |
| Store.SelectRemove | server/routes/router.js:139-142 | Deleting a document the filter does not select leaves that selection unchanged. |
| Store.RemoveAt | server/routes/router.js:139-142 | `deleteOne` removes exactly one position and keeps the order of the rest. |
| Store.FindOwned | server/routes/router.js:90-93 | Finds a recording with that id owned by the requester, or reports that none exists. |
| Store.OwnListOnlyOwn | server/routes/router.js:44-48 | Every entry of the own list is a recording owned by the requester. |
| Store.InsertDesc | server/routes/router.js:60 | Inserting into a newest-first list keeps it newest-first and adds exactly one element. |
| Store.SortByCreatedDesc | server/routes/router.js:60 | `$sort: { createdAt: -1 }` gives a newest-first permutation of its input. |
| Store.JoinAuthors | server/routes/router.js:61-67 | `$lookup` plus `$unwind` pairs each recording with its author document. Recordings without an author are dropped, and every recording with an author appears. |
| Store.JoinAuthorsSorted | server/routes/router.js:60-67 | The join keeps the newest-first order of its input. |
| Store.FeedRowsSpec | server/routes/router.js:58-76 | The feed lists only recordings matched by `isPublic: true` whose author exists, newest first, and lists every such recording. |
| Store.FeedEntryJson | server/routes/router.js:68-75 | A feed entry carries neither `userId` nor `isPublic`. |
| Store.ProfileJson | server/routes/userRoutes.js:55-58 | The profile never carries `googleId`, and always carries `_id`, `username` and `name`. |
| Consistency.RecordingWriteKeepsFresh | server/routes/router.js:29-32 | Suppose a write changes only the requester's recordings, and the public selection too only if the public feed is purged. Then purging the user's lists keeps every cached route response equal to the live one. |
| Consistency.ProfileWriteKeepsFresh | server/middleware/cache.js:97-104 | A write to one user's document keeps the cache fresh once the profile patterns are purged. |
| Consistency.StoreLiveKeepsFresh | server/middleware/cache.js:36-42 | Storing the live answer under its own key keeps the cache fresh. |
| Consistency.MissedInvalidationLeavesStaleList | server/middleware/cache.js:54-57 | Suppose the user's list is cached and a recording of theirs is created with the flag down. Then the cache is no longer fresh. |
| Consistency.OwnListServed | server/middleware/cache.js:28-31 | With a fresh cache, a cached own list equals the live one, and storing the live one keeps the cache fresh. |
| Consistency.PublicFeedServed | server/routes/router.js:55-78 | With a fresh cache, a cached public feed equals the live feed, and storing it keeps the cache fresh. |
| Consistency.ProfileServed | server/routes/userRoutes.js:52-63 | With a fresh cache, a cached profile belongs to an existing user and equals the live one, and storing it keeps the cache fresh. |
| Consistency.OffRouteEntryKeepsFresh | server/middleware/cache.js:36-42 | An entry under a key whose route is none of the cached routes' canonical paths is outside `Fresh`. |
| Consistency.SlashFeedStoreKeepsFresh | server/middleware/cache.js:7 | Storing any payload under the `/public/` spelling's key keeps the cache fresh. `Fresh` places no constraint on that key. |
| Consistency.FeedSpellingServed | server/routes/router.js:55 | For either spelling routed to the feed handler, storing the live feed under the request's key keeps the cache fresh. Under `/public`, a cached feed is the live one. |
| Consistency.ProfileSpellingServed | server/routes/userRoutes.js:52 | For either spelling routed to the profile handler, storing an existing user's live profile keeps the cache fresh. Under `/profile`, a cached profile is the live one. |
| Consistency.PublicWriteChangesFeed | server/routes/router.js:58-76 | Adding a new public recording whose author exists changes the public feed. |
| Consistency.SlashFeedSurvivesRecordingWrite | server/routes/router.js:29-32 | As written, the `/public/` feed entry survives every recording write's invalidation unchanged, including the feed purge. |
| Consistency.TrailingSlashFeedServedStale | server/middleware/cache.js:5-7 | As written, suppose the `/public/` entry holds the live feed and a public recording is created. Then the cache stays `Fresh`, yet that entry is no longer the feed. |
| RecordingRoutes.NewVisibility | server/routes/router.js:11 | An absent `isPublic` defaults to `false`; any value sent, even `null`, is kept. |
| RecordingRoutes.Create | server/routes/router.js:9-39 | A falsy `title` or non-array `notes` gives 400, with no insert and no purge. Otherwise exactly one recording owned by the requester is appended and 201 `{insertedId}` is answered. The user's lists are purged, and the public feed too iff the flag is truthy. The two purges fail independently. When neither fails, the cache stays fresh. |
| RecordingRoutes.ListOwn | server/routes/router.js:41-53 | With the flag down, the handler answers and the cache is untouched. A hit answers the stored payload without running the handler. A miss runs the handler and, when the client is up and SETEX succeeds, stores its list under the requester's key with TTL 600. With a fresh cache, the answer is always the requester's current recordings and the cache stays fresh. |
| RecordingRoutes.ListPublic | server/routes/router.js:55-83 | For either spelling routed to the handler, a hit answers the payload stored under `generateCacheKey` of the request without running the handler. A miss runs the handler and, when the client is up and SETEX succeeds, stores the feed under that key with TTL 600. With the flag down, the handler answers and the cache is untouched. The cache stays fresh. With a fresh cache, the `/public` spelling always answers the current feed. |
| RecordingRoutes.UpdatedVisibility | server/routes/router.js:87-104 | The stored visibility is truthy iff the request's `isPublic` is. |
| RecordingRoutes.SetVisibility | server/routes/router.js:85-124 | A malformed id gives 500 and a missing or foreign recording gives 404, both with no change. Otherwise only that recording's `isPublic` is set and the user's lists are purged. The public feed is purged iff the old or new flag is truthy. The two purges fail independently. When neither fails, the cache stays fresh. |
| RecordingRoutes.Delete | server/routes/router.js:126-160 | A malformed id gives 500 and a missing or foreign recording gives 404, both with no change. Otherwise exactly that recording is removed and the user's lists are purged. The public feed is purged iff the deleted recording was public. The two purges fail independently. When neither fails, the cache stays fresh. |
| UserRoutes.ProfileResponse | server/routes/userRoutes.js:54-63 | The profile answer is 2xx iff the user exists; it never carries `googleId`; a missing user gives 404 `User not found`. |
| UserRoutes.GetProfile | server/routes/userRoutes.js:52-69 | For either spelling routed to the handler, a hit answers the payload stored under `generateCacheKey` of the request without running the handler. A miss runs the handler and, when the client is up, SETEX succeeds and the user exists, stores the profile under that key with TTL 600; a 404 is never stored. With the flag down, the handler answers and the cache is untouched. The cache stays fresh. With a fresh cache, the `/profile` spelling always answers the live profile. |
| UserRoutes.ApplyProfileUpdate | server/routes/userRoutes.js:87-94 | Only the truthy ones of `username` and `name` are set; every other field is unchanged. |
| UserRoutes.UpdateProfile | server/routes/userRoutes.js:71-109 | A truthy `username` held by another user gives 400 with no change. Otherwise a missing user gives 404 with no change. Otherwise the partial update is applied and the profile patterns are purged before 200. The cache stays fresh. |
| UploadRoutes.Multer | server/routes/uploadRoutes.js:10-21 | A file passes iff it is an image of at most 5 MiB, and it passes unchanged. A missing file is reported as absent. A non-image type fails with `Only image files are allowed`; an image over the limit fails with `File too large`. |
| UploadRoutes.DataUrlRoundTrip | server/routes/uploadRoutes.js:30-31 | The stored `data:<type>;base64,<payload>` URL gives back the file's type and bytes. |
| UploadRoutes.UploadProfileImage | server/routes/uploadRoutes.js:22-50 | A missing file gives 400 `No image file provided`. A multer error is answered 500 with its message by Express's default handler. Neither of these, nor a missing user, changes anything. Otherwise only `profileImage` is set, to the data URL. The profile patterns are purged before `{imageUrl, message}` is answered. The cache stays fresh. |
| Base64.Encode | server/routes/uploadRoutes.js:30 | The encoding has four characters per started group of three bytes. |
| Base64.RoundTrip | server/routes/uploadRoutes.js:30 | Decoding the encoding of any byte string gives it back. |
| PianoKeys.Keys | client/src/utils/pianoKeys.ts:48 | `validPianoKeys` has the table's length and lists its characters in table order. |
| PianoKeys.TableShape | client/src/utils/pianoKeys.ts:1-46 | The table has 36 entries with pairwise distinct characters, and its colours repeat the octave pattern. |
| PianoKeys.OctaveCounts | client/src/utils/pianoKeys.ts:3-45 | Whole octaves hold 7 white and 5 black keys each. |
| PianoKeys.TableCounts | client/src/utils/pianoKeys.ts:3-45 | The table has 21 white and 15 black keys. |
| PianoKeys.TableBlocks | client/src/utils/pianoKeys.ts:3-45 | Each 12-entry block has 7 white and 5 black keys. |
| PianoKeys.TableNeighbours | client/src/utils/pianoKeys.ts:3-45 | The first and last entries are white, and no two black keys are adjacent. |
| PianoKeys.AcceptedKeys | client/src/utils/pianoKeys.ts:48-49 | The validator accepts exactly the table's characters, 36 of them. |

## Findings

| source | as written | input that shows it | evidently intended | confidence | as-written member | corrected member |
|---|---|---|---|---|---|---|
| server/middleware/cache.js:5-7 | The key embeds `req.path` exactly as the request spelled it. | Express's default routing is not strict, so `GET /api/recordings/public/` reaches the `/public` handler (server/routes/router.js:55). That request is cached under `api_cache:/api/recordings/public/:anonymous:{}`. The pattern `api_cache:/api/recordings/public:*:*` does not match that key, so the feed stays cached for up to 600 s after a write. `GET /api/users/profile/` behaves the same way (server/routes/userRoutes.js:52). | Every response cached for a route is reached by that route's invalidation pattern. | high; not executed | Cache.TrailingSlashFeedSurvives, Cache.TrailingSlashProfileSurvives, Consistency.TrailingSlashFeedServedStale | Cache.RoutedFeedKeyPurged, Cache.RoutedProfileKeyPurged |

## Left out

- Asynchrony is not modelled. Each request is one atomic step, so there are no
  concurrent requests and no race between an invalidation and a concurrent read
  that repopulates the cache. The SETEX on a miss (server/middleware/cache.js:38-41)
  is fire-and-forget in the code; here it completes within the request.
- The second "Recording not found" branches (server/routes/router.js:107-109 and
  144-146) are not modelled. They fire only when another request removes the
  document between `findOne` and the update, which an atomic step excludes.
- Database failures are not modelled. The `catch` blocks that answer 500 on them
  are left out. The exception is a malformed `:id`, which makes `new ObjectId`
  throw and gives 500 `Internal server error`.
- ObjectId text forms other than 24 hex digits are not accepted. Older drivers
  also took a 12-character string.
- The catch block of the middleware (server/middleware/cache.js:46-49) and of
  `invalidateCache` (server/middleware/cache.js:73-75) are not modelled. Every
  Redis call goes through `safeRedisOperation`, which never throws, so both are
  unreachable.
- TTL expiry is not simulated, because time is not modelled. The expiry is only
  recorded with each entry.
- Cached payloads are JSON values. `JSON.stringify` followed by `JSON.parse` is
  taken as the identity.
- Dates and ObjectIds in documents are represented as a natural number and as
  canonical text.
- The serialized query string is opaque.
- Redis glob syntax other than `*` (`?`, `[...]`, escapes) is not modelled. The
  fixed parts of the patterns are routes and hexadecimal ids, which contain none
  of it.
- Bodies are matched as plain JSON values. A body that carries MongoDB query
  operators (for example `username: {"$ne": null}`) is compared as a plain value.
  The operator semantics are not modelled.
- UserRoutes.UpdateProfile: a request with neither `username` nor `name` is
  treated as a matched update that changes nothing. This is how MongoDB 5.0 and
  later handle an empty `$set`; older servers reject it with an error that the
  handler would answer with 500.
- UploadRoutes.Multer: only the `image` field with at most one file is
  modelled. Multer's "Unexpected field" error for other file fields or a second
  file is left out. The default handler's HTML body is represented by the error
  message alone.
- UploadRoutes.DataUrlRoundTrip: the round trip is stated for types without
  `;`. multer reports the part's type without parameters.
- The Google sign-in route (server/routes/userRoutes.js:10-50) is not part of
  this model: it calls the OAuth and JWT libraries and uses `Date.now()`.
  Token authentication (`authenticateToken`) is not modelled; its result is the
  `userId` parameter.
- The browser client apart from the key table is not part of this model. This
  covers audio synthesis, pages, contexts and components.
- Store.SortByCreatedDesc: MongoDB promises neither the order of `$sort` among
  equal `createdAt` values nor the order of a plain `find`. Here ties keep the
  collection's order, and that order is insertion order. The equality of cached
  and live answers in `Fresh` relies on this choice.
- Note times are integers in the model. The client records them from
  `performance.now()`, which is fractional. No property depends on them.
- Express also matches routes case-insensitively by default, for example
  `/api/recordings/PUBLIC`. Such spellings reach the same handlers with yet other
  keys, which no pattern matches either. Only the trailing-slash spelling is
  modelled (`Http.Routes`).
- Piano key colours are the datatype `KeyColor`, not the strings `'white'` and
  `'black'`. Every entry therefore has one of the two colours by construction.
