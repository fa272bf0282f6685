/**
 * The upload router, mounted at `/api/upload`: POST `/profile-image` takes one
 * multipart file in the field `image` through multer's in-memory storage, and
 * stores it on the requester's user as a base64 data URL.
 */
module UploadRoutes {
  import opened Wrappers
  import opened Json
  import opened Http
  import opened RedisClient
  import opened Cache
  import opened Store
  import opened Consistency
  import opened Base64

  /** multer's `limits.fileSize`: 5 MiB. */
  const MaxFileSize := 5 * 1024 * 1024

  /** The file multer hands over as `req.file`. */
  datatype FilePart = FilePart(mimetype: string, buffer: seq<byte>)

  /**
   * How the request ends: answered by the route handler, or failed inside
   * multer and answered by Express's default error handler (status 500, with
   * the error's message).
   */
  datatype UploadOutcome = Answered(resp: Response) | DefaultHandler(status: int, message: string)

  /** The `fileFilter`: only image types pass. */
  predicate FileFilter(mimetype: string) {
    "image/" <= mimetype
  }

  /** The part multer accepts: an image within the size limit (a file of exactly the limit passes). */
  predicate Accepted(f: FilePart) {
    FileFilter(f.mimetype) && |f.buffer| <= MaxFileSize
  }

  /** What multer leaves for the route: the accepted file, no file at all, or the error it raised. */
  datatype MulterResult = Passed(file: FilePart) | NoFile | Failed(message: string)

  /** multer's processing of the optional `image` part: the file filter, then the size limit. */
  function Multer(file: Option<FilePart>): (r: MulterResult)
    ensures r.Passed? <==> file.Some? && Accepted(file.value)
    ensures r.Passed? ==> r.file == file.value
    ensures r.NoFile? <==> file.None?
    ensures file.Some? && !FileFilter(file.value.mimetype) ==> r == Failed("Only image files are allowed")
    ensures file.Some? && FileFilter(file.value.mimetype) && |file.value.buffer| > MaxFileSize ==> r == Failed("File too large")
  {
    match file
    case None => NoFile
    case Some(f) =>
      if !FileFilter(f.mimetype) then Failed("Only image files are allowed")
      else if |f.buffer| > MaxFileSize then Failed("File too large")
      else Passed(f)
  }

  /** The `imageUrl` stored and answered. */
  function DataUrl(f: FilePart): string {
    "data:" + f.mimetype + ";base64," + Encode(f.buffer)
  }

  /** Index of the first `;` in `s`, if any. */
  function FirstSemicolon(s: string): (r: Option<nat>)
    ensures r.Some? ==> r.value < |s| && s[r.value] == ';' && forall i :: 0 <= i < r.value ==> s[i] != ';'
    ensures r.None? ==> forall i :: 0 <= i < |s| ==> s[i] != ';'
  {
    if |s| == 0 then None
    else if s[0] == ';' then Some(0)
    else match FirstSemicolon(s[1..])
      case None => None
      case Some(j) => Some(j + 1)
  }

  /** Reads a `data:<type>;base64,<payload>` URL back into its type and bytes. */
  function ParseDataUrl(url: string): (r: Option<FilePart>)
  {
    if !("data:" <= url) then None
    else
      var rest := url[5..];
      match FirstSemicolon(rest)
      case None => None
      case Some(i) =>
        var tail := rest[i..];
        if !(";base64," <= tail) then None
        else match Decode(tail[8..])
          case None => None
          case Some(bytes) => Some(FilePart(rest[..i], bytes))
  }

  lemma SemicolonAfter(m: string, t: string)
    requires forall i :: 0 <= i < |m| ==> m[i] != ';'
    requires |t| > 0 && t[0] == ';'
    ensures FirstSemicolon(m + t) == Some(|m|)
  {
    var s := m + t;
    assert s[|m|] == ';';
    assert forall j :: 0 <= j < |m| ==> s[j] == m[j];
  }

  /** Reading back a data URL splits it at the end of its type and decodes the payload. */
  lemma ParseDataUrlOf(m: string, payload: string)
    requires forall i :: 0 <= i < |m| ==> m[i] != ';'
    ensures ParseDataUrl("data:" + m + ";base64," + payload) ==
              if Decode(payload).None? then None else Some(FilePart(m, Decode(payload).value))
  {
    var tail := ";base64," + payload;
    var rest := m + tail;
    assert "data:" + m + ";base64," + payload == "data:" + rest;
    assert ("data:" + rest)[5..] == rest;
    assert "data:" <= "data:" + rest;
    SemicolonAfter(m, tail);
    assert rest[..|m|] == m && rest[|m|..] == tail;
    assert ";base64," <= tail;
    assert tail[8..] == payload;
  }

  /** The data URL loses nothing: its type and bytes can be read back (for a type without `;`). */
  lemma DataUrlRoundTrip(f: FilePart)
    requires forall i :: 0 <= i < |f.mimetype| ==> f.mimetype[i] != ';'
    ensures ParseDataUrl(DataUrl(f)) == Some(f)
  {
    ParseDataUrlOf(f.mimetype, Encode(f.buffer));
    RoundTrip(f.buffer);
  }

  /** The success body. */
  function ImageBody(url: string): Json {
    JObj([("imageUrl", JStr(url)), ("message", JStr("Profile image updated successfully"))])
  }

  /** POST `/profile-image`, multer included. */
  method UploadProfileImage(db: Database, client: Client, userId: Id, file: Option<FilePart>, faulty: set<nat>)
    returns (out: UploadOutcome)
    requires db.Valid() && IsObjectIdText(userId)
    modifies db, client`store
    ensures db.Valid() && db.recordings == old(db.recordings)
    ensures file.None? ==>
              && out == Answered(Response(400, ErrorBody("No image file provided")))
              && db.users == old(db.users) && client.store == old(client.store)
    ensures Multer(file).Failed? ==>
              && out == DefaultHandler(500, Multer(file).message)
              && db.users == old(db.users) && client.store == old(client.store)
    ensures file.Some? && Accepted(file.value) && userId !in old(db.users) ==>
              && out == Answered(Response(404, ErrorBody("User not found")))
              && db.users == old(db.users) && client.store == old(client.store)
    ensures file.Some? && Accepted(file.value) && userId in old(db.users) ==>
              var url := DataUrl(file.value);
              && db.users == old(db.users)[userId := old(db.users)[userId].(profileImage := Some(url))]
              && out == Answered(Response(200, ImageBody(url)))
              && client.store == if client.Ready() then Purge(old(client.store), ProfilePatterns(userId), faulty)
                                 else old(client.store)
    ensures old(Fresh(client.store, db.recordings, db.users)) && client.Ready() && faulty == {} ==>
              Fresh(client.store, db.recordings, db.users)
  {
    ghost var users0, store0 := db.users, client.store;
    ghost var wasFresh := Fresh(client.store, db.recordings, db.users);
    var parsed := Multer(file);
    if parsed.NoFile? {
      return Answered(Response(400, ErrorBody("No image file provided")));
    } else if parsed.Failed? {
      return DefaultHandler(500, parsed.message);
    }
    if userId !in db.users {
      return Answered(Response(404, ErrorBody("User not found")));
    }
    var url := DataUrl(parsed.file);
    db.users := db.users[userId := db.users[userId].(profileImage := Some(url))];
    InvalidateProfileCache(client, userId, faulty);
    out := Answered(Response(200, ImageBody(url)));

    if wasFresh && client.Ready() && faulty == {} {
      ProfileWriteKeepsFresh(store0, db.recordings, users0, db.users, userId);
    }
  }
}
