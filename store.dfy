/**
 * The MongoDB collections the handlers use, as in-memory values: `recordings` as
 * a sequence in natural (insertion) order, `users` as a map from id to document.
 * The read queries of the handlers are functions of these values.
 */
module Store {
  import opened Wrappers
  import opened Json

  /** An ObjectId in its text form. */
  type Id = string

  predicate IsHexDigit(c: char) {
    '0' <= c <= '9' || 'a' <= c <= 'f' || 'A' <= c <= 'F'
  }

  predicate IsLowerHexDigit(c: char) {
    '0' <= c <= '9' || 'a' <= c <= 'f'
  }

  /** The canonical text of an ObjectId: 24 lower-case hexadecimal digits. */
  predicate IsObjectIdText(s: string) {
    |s| == 24 && forall i :: 0 <= i < |s| ==> IsLowerHexDigit(s[i])
  }

  function LowerHex(c: char): (d: char)
    requires IsHexDigit(c)
    ensures IsLowerHexDigit(d)
    ensures IsLowerHexDigit(c) ==> d == c
  {
    if 'A' <= c <= 'F' then (c - 'A' + 'a') as char else c
  }

  /**
   * `new ObjectId(text)`: accepted iff the text is 24 hexadecimal digits of
   * either case (anything else throws); the id is their canonical spelling.
   */
  function ParseObjectId(s: string): (r: Option<Id>)
    ensures r.Some? <==> |s| == 24 && forall i :: 0 <= i < |s| ==> IsHexDigit(s[i])
    ensures r.Some? ==> IsObjectIdText(r.value)
    ensures IsObjectIdText(s) ==> r == Some(s)
  {
    if |s| == 24 && forall i :: 0 <= i < |s| ==> IsHexDigit(s[i]) then
      var id := seq(24, i requires 0 <= i < 24 => LowerHex(s[i]));
      assert IsObjectIdText(s) ==> id == s;
      Some(id)
    else None
  }

  /**
   * A recording document. `title` and `isPublic` hold whatever JSON the client
   * sent; `createdAt` is the creation instant (the ISO-8601 text the source
   * stores sorts in the same order).
   */
  datatype Recording = Recording(id: Id, title: Json, notes: seq<Json>, isPublic: Json, owner: Id, createdAt: nat)

  /** A user document, as created at first sign-in and edited through the profile routes. */
  datatype User = User(
    googleId: string, email: Json, name: Json, picture: Json, username: Json,
    createdAt: nat, profileImage: Option<string>)

  predicate UniqueIds(recs: seq<Recording>) {
    forall i, j :: 0 <= i < j < |recs| ==> recs[i].id != recs[j].id
  }

  /** The two collections. */
  class Database {
    var recordings: seq<Recording>
    var users: map<Id, User>

    ghost predicate Valid()
      reads this
    {
      UniqueIds(recordings)
    }

    constructor (recordings: seq<Recording>, users: map<Id, User>)
      requires UniqueIds(recordings)
      ensures Valid() && this.recordings == recordings && this.users == users
    {
      this.recordings := recordings;
      this.users := users;
    }
  }

  // ----- Queries on recordings ---------------------------------------------------

  /** The filters the handlers use: `{ userId }` and `{ isPublic: true }`. */
  datatype Filter = OwnedBy(userId: Id) | PublicOnly

  /**
   * MongoDB's equality match against `true`: the value is `true`, or an array
   * holding `true`. Every such value is truthy in JavaScript.
   */
  predicate MatchesTrue(j: Json)
    ensures MatchesTrue(j) ==> Truthy(j)
  {
    j == JBool(true) || (j.JArr? && JBool(true) in j.items)
  }

  predicate Selects(f: Filter, r: Recording) {
    match f
    case OwnedBy(u) => r.owner == u
    case PublicOnly => MatchesTrue(r.isPublic)
  }

  /** `find(filter)`: the matching documents, in natural order. */
  function Select(recs: seq<Recording>, f: Filter): (r: seq<Recording>)
    ensures forall x :: x in r <==> x in recs && Selects(f, x)
    ensures |r| <= |recs|
    decreases |recs|
  {
    if |recs| == 0 then []
    else (if Selects(f, recs[0]) then [recs[0]] else []) + Select(recs[1..], f)
  }

  /** The selection's part contributed by one document. */
  function Keep(f: Filter, x: Recording): seq<Recording> {
    if Selects(f, x) then [x] else []
  }

  lemma SelectFront(recs: seq<Recording>, f: Filter)
    requires |recs| > 0
    ensures Select(recs, f) == Keep(f, recs[0]) + Select(recs[1..], f)
  {
  }

  /** Appending a document extends a selection by that document exactly when it is selected. */
  lemma {:induction false} SelectAppend(recs: seq<Recording>, x: Recording, f: Filter)
    ensures Select(recs + [x], f) == Select(recs, f) + Keep(f, x)
    decreases |recs|
  {
    if |recs| == 0 {
      assert recs + [x] == [x];
      SelectFront([x], f);
      assert [x][1..] == [];
    } else {
      var s := recs + [x];
      assert s[0] == recs[0];
      assert s[1..] == recs[1..] + [x];
      SelectFront(s, f);
      SelectFront(recs, f);
      SelectAppend(recs[1..], x, f);
      var a, b, c := Keep(f, recs[0]), Select(recs[1..], f), Keep(f, x);
      assert a + (b + c) == (a + b) + c;
    }
  }

  /** Replacing a document that is unselected before and after leaves a selection as it was. */
  lemma {:induction false} SelectUpdate(recs: seq<Recording>, i: nat, x: Recording, f: Filter)
    requires i < |recs|
    requires !Selects(f, recs[i]) && !Selects(f, x)
    ensures Select(recs[i := x], f) == Select(recs, f)
    decreases |recs|
  {
    if i == 0 {
      assert recs[i := x][1..] == recs[1..];
    } else {
      assert recs[i := x][1..] == recs[1..][i - 1 := x];
      SelectUpdate(recs[1..], i - 1, x, f);
    }
  }

  /** `recs` without position `i`. */
  function RemoveAt(recs: seq<Recording>, i: nat): (r: seq<Recording>)
    requires i < |recs|
    ensures |r| == |recs| - 1
    ensures forall j :: 0 <= j < i ==> r[j] == recs[j]
    ensures forall j :: i <= j < |r| ==> r[j] == recs[j + 1]
  {
    recs[..i] + recs[i + 1..]
  }

  /** Removing an unselected document leaves a selection as it was. */
  lemma {:induction false} SelectRemove(recs: seq<Recording>, i: nat, f: Filter)
    requires i < |recs|
    requires !Selects(f, recs[i])
    ensures Select(RemoveAt(recs, i), f) == Select(recs, f)
    decreases |recs|
  {
    if i == 0 {
      assert RemoveAt(recs, i) == recs[1..];
    } else {
      assert RemoveAt(recs, i) == [recs[0]] + RemoveAt(recs[1..], i - 1);
      assert RemoveAt(recs, i)[1..] == RemoveAt(recs[1..], i - 1);
      SelectRemove(recs[1..], i - 1, f);
    }
  }

  /** `findOne({ _id: id, userId: owner })`: the position of the owner's document with that id. */
  function FindOwned(recs: seq<Recording>, id: Id, owner: Id): (r: Option<nat>)
    ensures r.Some? ==> r.value < |recs| && recs[r.value].id == id && recs[r.value].owner == owner
    ensures r.None? ==> forall i :: 0 <= i < |recs| ==> !(recs[i].id == id && recs[i].owner == owner)
    decreases |recs|
  {
    if |recs| == 0 then None
    else if recs[0].id == id && recs[0].owner == owner then Some(0)
    else
      match FindOwned(recs[1..], id, owner)
      case None => None
      case Some(i) => Some(i + 1)
  }

  // ----- Response payloads -------------------------------------------------------

  /** A recording document as `find().toArray()` returns it. */
  function RecordingJson(r: Recording): Json {
    JObj([
      ("_id", JStr(r.id)), ("title", r.title), ("notes", JArr(r.notes)),
      ("isPublic", r.isPublic), ("userId", JStr(r.owner)), ("createdAt", JNum(r.createdAt))
    ])
  }

  /** GET `/api/recordings`: the requester's recordings, in natural order. */
  function OwnListJson(recs: seq<Recording>, userId: Id): Json {
    var mine := Select(recs, OwnedBy(userId));
    JArr(seq(|mine|, i requires 0 <= i < |mine| => RecordingJson(mine[i])))
  }

  /** Every entry of a user's list is one of that user's recordings. */
  lemma OwnListOnlyOwn(recs: seq<Recording>, userId: Id, i: int)
    requires 0 <= i < |OwnListJson(recs, userId).items|
    ensures exists r :: r in recs && r.owner == userId && OwnListJson(recs, userId).items[i] == RecordingJson(r)
  {
    var mine := Select(recs, OwnedBy(userId));
    assert mine[i] in mine;
  }

  predicate SortedDesc(rs: seq<Recording>) {
    forall i, j :: 0 <= i < j < |rs| ==> rs[i].createdAt >= rs[j].createdAt
  }

  /** Places `x` before the first document that is not newer than it. */
  function InsertDesc(x: Recording, rs: seq<Recording>): (r: seq<Recording>)
    ensures multiset(r) == multiset(rs) + multiset{x}
    ensures |r| == |rs| + 1
    ensures r[0] == x || (|rs| > 0 && r[0] == rs[0])
    ensures SortedDesc(rs) ==> SortedDesc(r)
    decreases |rs|
  {
    if |rs| == 0 then [x]
    else if rs[0].createdAt <= x.createdAt then [x] + rs
    else
      var tail := InsertDesc(x, rs[1..]);
      assert rs == [rs[0]] + rs[1..];
      [rs[0]] + tail
  }

  /** `{ $sort: { createdAt: -1 } }`, taken as a stable sort of the natural order. */
  function SortByCreatedDesc(rs: seq<Recording>): (r: seq<Recording>)
    ensures SortedDesc(r)
    ensures multiset(r) == multiset(rs)
    decreases |rs|
  {
    if |rs| == 0 then []
    else
      assert rs == [rs[0]] + rs[1..];
      InsertDesc(rs[0], SortByCreatedDesc(rs[1..]))
  }

  /** A recording of the public feed with its author's document. */
  datatype FeedRow = FeedRow(rec: Recording, author: User)

  /**
   * `$lookup` of the author by `userId` followed by `$unwind`: each recording is
   * paired with its author, and a recording whose author is missing is dropped.
   */
  function JoinAuthors(rs: seq<Recording>, users: map<Id, User>): (rows: seq<FeedRow>)
    ensures forall i :: 0 <= i < |rows| ==>
              rows[i].rec in rs && rows[i].rec.owner in users && rows[i].author == users[rows[i].rec.owner]
    ensures forall x :: x in rs && x.owner in users ==> FeedRow(x, users[x.owner]) in rows
    decreases |rs|
  {
    if |rs| == 0 then []
    else
      var rest := JoinAuthors(rs[1..], users);
      var head := if rs[0].owner in users then [FeedRow(rs[0], users[rs[0].owner])] else [];
      assert forall x :: x in rs ==> x == rs[0] || x in rs[1..];
      head + rest
  }

  predicate SortedRowsDesc(rows: seq<FeedRow>) {
    forall i, j :: 0 <= i < j < |rows| ==> rows[i].rec.createdAt >= rows[j].rec.createdAt
  }

  /** A bound on the input's creation times bounds the rows'. */
  lemma {:induction false} JoinAuthorsBound(rs: seq<Recording>, users: map<Id, User>, t: nat)
    requires forall i :: 0 <= i < |rs| ==> rs[i].createdAt <= t
    ensures forall i :: 0 <= i < |JoinAuthors(rs, users)| ==> JoinAuthors(rs, users)[i].rec.createdAt <= t
    decreases |rs|
  {
    if |rs| > 0 {
      JoinAuthorsBound(rs[1..], users, t);
    }
  }

  /** The join keeps the order of its input, so a sorted input gives sorted rows. */
  lemma {:induction false} JoinAuthorsSorted(rs: seq<Recording>, users: map<Id, User>)
    requires SortedDesc(rs)
    ensures SortedRowsDesc(JoinAuthors(rs, users))
    decreases |rs|
  {
    if |rs| > 0 {
      var tail := rs[1..];
      assert SortedDesc(tail) by {
        forall i, j | 0 <= i < j < |tail| ensures tail[i].createdAt >= tail[j].createdAt {
          assert tail[i] == rs[i + 1] && tail[j] == rs[j + 1];
        }
      }
      assert forall i :: 0 <= i < |tail| ==> tail[i].createdAt <= rs[0].createdAt by {
        forall i | 0 <= i < |tail| ensures tail[i].createdAt <= rs[0].createdAt {
          assert tail[i] == rs[i + 1];
        }
      }
      JoinAuthorsSorted(tail, users);
      JoinAuthorsBound(tail, users, rs[0].createdAt);
      var rest := JoinAuthors(tail, users);
      var head := if rs[0].owner in users then [FeedRow(rs[0], users[rs[0].owner])] else [];
      assert JoinAuthors(rs, users) == head + rest;
      SortedRowsCons(head, rest, rs[0].createdAt);
    }
  }

  lemma SortedRowsCons(head: seq<FeedRow>, rest: seq<FeedRow>, t: nat)
    requires |head| <= 1 && forall i :: 0 <= i < |head| ==> head[i].rec.createdAt == t
    requires forall i :: 0 <= i < |rest| ==> rest[i].rec.createdAt <= t
    requires SortedRowsDesc(rest)
    ensures SortedRowsDesc(head + rest)
  {
    var rows := head + rest;
    forall i, j | 0 <= i < j < |rows|
      ensures rows[i].rec.createdAt >= rows[j].rec.createdAt
    {
      if |head| == 1 && i == 0 {
        assert rows[i] == head[0] && rows[j] == rest[j - 1];
      } else {
        assert rows[i] == rest[i - |head|] && rows[j] == rest[j - |head|];
      }
    }
  }

  /** The rows of the public feed: match, sort, lookup, unwind. */
  function FeedRows(recs: seq<Recording>, users: map<Id, User>): seq<FeedRow> {
    JoinAuthors(SortByCreatedDesc(Select(recs, PublicOnly)), users)
  }

  /**
   * GET `/api/recordings/public` lists only recordings matched by `isPublic: true`
   * whose author exists, newest first, and lists every such recording.
   */
  lemma FeedRowsSpec(recs: seq<Recording>, users: map<Id, User>)
    ensures forall i :: 0 <= i < |FeedRows(recs, users)| ==>
              var row := FeedRows(recs, users)[i];
              row.rec in recs && MatchesTrue(row.rec.isPublic) && row.rec.owner in users && row.author == users[row.rec.owner]
    ensures forall i, j :: 0 <= i < j < |FeedRows(recs, users)| ==>
              FeedRows(recs, users)[i].rec.createdAt >= FeedRows(recs, users)[j].rec.createdAt
    ensures forall x :: x in recs && MatchesTrue(x.isPublic) && x.owner in users ==>
              FeedRow(x, users[x.owner]) in FeedRows(recs, users)
  {
    var selected := Select(recs, PublicOnly);
    var sorted := SortByCreatedDesc(selected);
    JoinAuthorsSorted(sorted, users);
    assert forall x :: x in sorted <==> x in selected by {
      forall x ensures x in sorted <==> x in selected {
        assert x in sorted <==> x in multiset(sorted);
        assert x in selected <==> x in multiset(selected);
      }
    }
  }

  /** The author fields `$project` keeps: `user.username`, `user.name`, `user.profileImage` (when set). */
  function AuthorJson(u: User): Json {
    JObj([("name", u.name), ("username", u.username)] +
         (if u.profileImage.Some? then [("profileImage", JStr(u.profileImage.value))] else []))
  }

  /** One public feed entry as `$project` shapes it: no owner id and no visibility flag. */
  function FeedEntryJson(row: FeedRow): (j: Json)
    ensures !HasKey(j, "userId") && !HasKey(j, "isPublic")
  {
    var r := row.rec;
    JObj([
      ("_id", JStr(r.id)), ("title", r.title), ("notes", JArr(r.notes)),
      ("createdAt", JNum(r.createdAt)), ("user", AuthorJson(row.author))
    ])
  }

  /** GET `/api/recordings/public`. */
  function PublicFeedJson(recs: seq<Recording>, users: map<Id, User>): Json {
    var rows := FeedRows(recs, users);
    JArr(seq(|rows|, i requires 0 <= i < |rows| => FeedEntryJson(rows[i])))
  }

  /** GET `/api/users/profile`: the user document without `googleId`. */
  function ProfileJson(id: Id, u: User): (j: Json)
    ensures !HasKey(j, "googleId")
    ensures HasKey(j, "_id") && HasKey(j, "username") && HasKey(j, "name")
  {
    var document := [
      ("_id", JStr(id)), ("email", u.email), ("name", u.name), ("picture", u.picture),
      ("username", u.username), ("createdAt", JNum(u.createdAt))
    ];
    var image := if u.profileImage.Some? then [("profileImage", JStr(u.profileImage.value))] else [];
    var fields := document + image;
    assert fields[0].0 == "_id" && fields[2].0 == "name" && fields[4].0 == "username";
    assert forall i :: 0 <= i < |fields| ==> fields[i].0 != "googleId" by {
      forall i | 0 <= i < |fields| ensures fields[i].0 != "googleId" {
        if i >= |document| {
          assert fields[i] == image[i - |document|];
        }
      }
    }
    JObj(fields)
  }
}
