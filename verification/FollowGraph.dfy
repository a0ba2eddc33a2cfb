/** The follow graph of services/users/app/routers/users.py and its paginated listings. */
module FollowGraph {
  import opened Sorting

  /** users: the id of each lowercased username. follows: creation time by (follower, followed), the primary key. */
  datatype Db = Db(users: map<string, nat>, follows: map<(nat, nat), int>)

  datatype Row = Row(follower: nat, followed: nat, createdAt: int)

  datatype Response = NoContent | BadRequest | NotFound

  const EMPTY_DB: Db := Db(map[], map[])

  // ----- statements on the tables -----

  /**
   Committing a new row: the foreign keys of both users are checked, and a pair already
   present violates the primary key. The handler answers 404 and 204 for these.
   */
  function InsertFollow(db: Db, follower: nat, followed: nat, now: int): (Db, Response) {
    if follower !in db.users.Values || followed !in db.users.Values then (db, NotFound)
    else if (follower, followed) in db.follows then (db, NoContent)
    else (db.(follows := db.follows[(follower, followed) := now]), NoContent)
  }

  function DeleteFollow(db: Db, follower: nat, followed: nat): Db {
    db.(follows := db.follows - {(follower, followed)})
  }

  /** ON DELETE CASCADE on both foreign keys. */
  function DeleteUser(db: Db, name: string): Db {
    if name !in db.users then db
    else
      var id := db.users[name];
      Db(db.users - {name}, map e | e in db.follows && e.0 != id && e.1 != id :: db.follows[e])
  }

  /**
   One committed change. Follow comes after the lookup of the target and the check that
   it is not the caller, which are made on an earlier state; users may vanish in between.
   */
  datatype Change =
    | AddUser(name: string, id: nat)
    | RemoveUser(name: string)
    | Follow(follower: nat, followed: nat, now: int)
    | Unfollow(follower: nat, followed: nat)

  predicate Possible(db: Db, c: Change) {
    match c
    case AddUser(name, id) => name !in db.users && id !in db.users.Values
    case Follow(follower, followed, _) => follower != followed
    case _ => true
  }

  function Commit(db: Db, c: Change): Db {
    match c
    case AddUser(name, id) => db.(users := db.users[name := id])
    case RemoveUser(name) => DeleteUser(db, name)
    case Follow(follower, followed, now) => InsertFollow(db, follower, followed, now).0
    case Unfollow(follower, followed) => DeleteFollow(db, follower, followed)
  }

  /** The tables after all the changes, in order. */
  function After(log: seq<Change>): Db {
    if log == [] then EMPTY_DB else Commit(After(log[..|log| - 1]), log[|log| - 1])
  }

  ghost predicate AllPossible(log: seq<Change>) {
    forall i :: 0 <= i < |log| ==> Possible(After(log[..i]), log[i])
  }

  /** Ids are unique, every edge joins two existing users, and nobody follows themselves. */
  ghost predicate Consistent(db: Db) {
    && (forall a, b :: a in db.users && b in db.users && db.users[a] == db.users[b] ==> a == b)
    && (forall e :: e in db.follows ==> e.0 != e.1 && e.0 in db.users.Values && e.1 in db.users.Values)
  }

  lemma CommitKeepsConsistent(db: Db, c: Change)
    requires Consistent(db) && Possible(db, c)
    ensures Consistent(Commit(db, c))
  {
    match c
    case AddUser(name, id) =>
      forall i | i in db.users.Values ensures i in Commit(db, c).users.Values {
        var n :| n in db.users && db.users[n] == i;
        assert Commit(db, c).users[n] == i;
      }
    case RemoveUser(name) =>
      if name in db.users {
        forall i | i in db.users.Values && i != db.users[name] ensures i in Commit(db, c).users.Values {
          var n :| n in db.users && db.users[n] == i;
          assert Commit(db, c).users[n] == i;
        }
      }
    case Follow(follower, followed, now) =>
    case Unfollow(follower, followed) =>
  }

  lemma {:induction false} AlwaysConsistent(log: seq<Change>)
    requires AllPossible(log)
    ensures Consistent(After(log))
    decreases |log|
  {
    if log != [] {
      var before, c := log[..|log| - 1], log[|log| - 1];
      assert forall i :: 0 <= i < |before| ==> before[..i] == log[..i] && before[i] == log[i];
      AlwaysConsistent(before);
      CommitKeepsConsistent(After(before), c);
    }
  }

  /** Over every run: no self-edge, no edge to or from a missing user. */
  lemma NoSelfOrDanglingEdge(log: seq<Change>, e: (nat, nat))
    requires AllPossible(log) && e in After(log).follows
    ensures e.0 != e.1 && e.0 in After(log).users.Values && e.1 in After(log).users.Values
  {
    AlwaysConsistent(log);
  }

  // ----- which edges there are -----

  ghost predicate HasEdge(db: Db, e: (nat, nat), at: int) {
    e in db.follows && db.follows[e] == at
  }

  /** The follow that creates the edge; one for an edge that exists, or with a user gone, does not. */
  predicate Opens(db: Db, c: Change, e: (nat, nat), at: int) {
    c == Follow(e.0, e.1, at) && e.0 in db.users.Values && e.1 in db.users.Values && e !in db.follows
  }

  /** Unfollowing, or the deletion of either user. */
  predicate Ends(db: Db, c: Change, e: (nat, nat)) {
    c == Unfollow(e.0, e.1) ||
    (c.RemoveUser? && c.name in db.users && (db.users[c.name] == e.0 || db.users[c.name] == e.1))
  }

  lemma StepEdge(db: Db, c: Change, e: (nat, nat), at: int)
    ensures HasEdge(Commit(db, c), e, at) <==> Opens(db, c, e, at) || (HasEdge(db, e, at) && !Ends(db, c, e))
  {
    assert (e.0, e.1) == e;
  }

  /** Change i created the edge at this time, and nothing ended it since. */
  ghost predicate OpenSince(log: seq<Change>, i: nat, e: (nat, nat), at: int) {
    && i < |log| && Opens(After(log[..i]), log[i], e, at)
    && forall j :: i < j < |log| ==> !Ends(After(log[..j]), log[j], e)
  }

  lemma OpenOneLater(before: seq<Change>, c: Change, i: nat, e: (nat, nat), at: int)
    ensures OpenSince(before + [c], i, e, at) <==>
            || (i == |before| && Opens(After(before), c, e, at))
            || (OpenSince(before, i, e, at) && !Ends(After(before), c, e))
  {
    var log := before + [c];
    assert forall j :: 0 <= j < |before| ==> log[..j] == before[..j] && log[j] == before[j];
    assert log[..|before|] == before && log[|before|] == c;
  }

  /**
   Over every run an edge exists exactly if some follow created it and neither an unfollow
   nor the deletion of one of its users came after; its creation time is that of this
   follow, however often it was repeated.
   */
  lemma {:induction false} EdgeSinceFirstFollow(log: seq<Change>, e: (nat, nat), at: int)
    ensures HasEdge(After(log), e, at) <==> exists i: nat :: OpenSince(log, i, e, at)
    decreases |log|
  {
    if log != [] {
      var before, c := log[..|log| - 1], log[|log| - 1];
      assert log == before + [c];
      EdgeSinceFirstFollow(before, e, at);
      StepEdge(After(before), c, e, at);
      forall i: nat ensures OpenSince(log, i, e, at) <==>
          || (i == |before| && Opens(After(before), c, e, at))
          || (OpenSince(before, i, e, at) && !Ends(After(before), c, e))
      {
        OpenOneLater(before, c, i, e, at);
      }
      assert OpenSince(log, |before|, e, at) <== Opens(After(before), c, e, at);
    }
  }

  // ----- listings -----

  /** Followers: the rows about one followed user; Following: those about one follower. */
  datatype Side = Followers | Following

  function Anchor(side: Side, row: Row): nat {
    if side.Followers? then row.followed else row.follower
  }

  function Other(side: Side, row: Row): nat {
    if side.Followers? then row.follower else row.followed
  }

  /** The rows of the table in the order the database happens to scan them. */
  ghost predicate IsScan(db: Db, scan: seq<Row>) {
    && Distinct(scan)
    && forall r :: r in scan <==>
         (r.follower, r.followed) in db.follows && db.follows[(r.follower, r.followed)] == r.createdAt
  }

  /** WHERE, and the columns of ORDER BY. */
  function SortKeys(side: Side, scan: seq<Row>, id: nat): seq<(int, nat)> {
    if scan == [] then []
    else
      (if Anchor(side, scan[0]) == id then [(scan[0].createdAt, Other(side, scan[0]))] else [])
      + SortKeys(side, scan[1..], id)
  }

  predicate Earlier(a: (int, nat), b: (int, nat)) {
    a.0 < b.0 || (a.0 == b.0 && a.1 < b.1)
  }

  /** The whole list in order. */
  function Listing(side: Side, scan: seq<Row>, id: nat): seq<(int, nat)> {
    Sort(Earlier, SortKeys(side, scan, id))
  }

  function Min(a: nat, b: nat): nat {
    if a <= b then a else b
  }

  /** OFFSET and LIMIT. */
  function Slice<T>(xs: seq<T>, offset: nat, limit: nat): seq<T> {
    xs[Min(offset, |xs|)..Min(offset + limit, |xs|)]
  }

  function Users(keys: seq<(int, nat)>): seq<nat> {
    if keys == [] then [] else [keys[0].1] + Users(keys[1..])
  }

  /** The body of list_followers and list_following for a user with this id. */
  function Page(side: Side, scan: seq<Row>, id: nat, offset: nat, limit: nat): seq<nat> {
    Users(Slice(Listing(side, scan, id), offset, limit))
  }

  /** The set of keys a listing must show. */
  ghost predicate Shows(db: Db, side: Side, id: nat, keys: seq<(int, nat)>) {
    forall k: (int, nat) :: k in keys <==>
      var e := if side.Followers? then (k.1, id) else (id, k.1);
      e in db.follows && db.follows[e] == k.0
  }

  lemma {:induction false} SortKeysFrom(side: Side, scan: seq<Row>, id: nat)
    requires Distinct(scan)
    ensures Distinct(SortKeys(side, scan, id))
    ensures forall k: (int, nat) :: k in SortKeys(side, scan, id) <==>
              (if side.Followers? then Row(k.1, id, k.0) else Row(id, k.1, k.0)) in scan
  {
    if scan != [] {
      SortKeysFrom(side, scan[1..], id);
      assert scan == [scan[0]] + scan[1..];
      assert scan[0] !in scan[1..];
    }
  }

  /** The listing is in the determined order, shows each row of the user once, and depends on no scan order. */
  lemma ListingIsDetermined(db: Db, side: Side, scan: seq<Row>, id: nat)
    requires IsScan(db, scan)
    ensures Ascending(Earlier, Listing(side, scan, id)) && Shows(db, side, id, Listing(side, scan, id))
    ensures forall scan' :: IsScan(db, scan') ==> Listing(side, scan', id) == Listing(side, scan, id)
  {
    ListingAscends(db, side, scan, id);
    forall scan' | IsScan(db, scan') ensures Listing(side, scan', id) == Listing(side, scan, id) {
      ListingAscends(db, side, scan', id);
      AscendingIsUnique(Earlier, Listing(side, scan', id), Listing(side, scan, id));
    }
  }

  lemma ListingAscends(db: Db, side: Side, scan: seq<Row>, id: nat)
    requires IsScan(db, scan)
    ensures Ascending(Earlier, Listing(side, scan, id)) && Shows(db, side, id, Listing(side, scan, id))
    ensures StrictTotalOn(Earlier, Elements(Listing(side, scan, id)))
    ensures Elements(Listing(side, scan, id)) == Elements(SortKeys(side, scan, id))
  {
    SortKeysFrom(side, scan, id);
    var keys := SortKeys(side, scan, id);
    SortAscends(Earlier, keys);
    forall k: (int, nat) ensures k in Listing(side, scan, id) <==> k in keys {
      assert k in Elements(Listing(side, scan, id)) <==> k in Elements(keys);
    }
  }

  lemma {:induction false} UsersOf(keys: seq<(int, nat)>)
    ensures |Users(keys)| == |keys| && forall i :: 0 <= i < |keys| ==> Users(keys)[i] == keys[i].1
  {
    if keys != [] {
      UsersOf(keys[1..]);
    }
  }

  /** Each follower once: the users listed are distinct and exactly those joined to id by an edge. */
  lemma ListingHasEachUserOnce(db: Db, side: Side, scan: seq<Row>, id: nat)
    requires IsScan(db, scan)
    ensures Distinct(Users(Listing(side, scan, id)))
    ensures forall u: nat :: u in Users(Listing(side, scan, id)) <==>
              (if side.Followers? then (u, id) else (id, u)) in db.follows
  {
    var keys := Listing(side, scan, id);
    ListingAscends(db, side, scan, id);
    UsersOf(keys);
    forall i, j | 0 <= i < j < |keys| ensures keys[i].1 != keys[j].1 {
      assert keys[i] in keys && keys[j] in keys;
      assert Earlier(keys[i], keys[j]);
    }
    forall u: nat | (if side.Followers? then (u, id) else (id, u)) in db.follows ensures u in Users(keys) {
      var k := (db.follows[if side.Followers? then (u, id) else (id, u)], u);
      assert k in keys;
      var i :| 0 <= i < |keys| && keys[i] == k;
      assert Users(keys)[i] == u;
    }
    forall u: nat | u in Users(keys) ensures (if side.Followers? then (u, id) else (id, u)) in db.follows {
      var i :| 0 <= i < |keys| && Users(keys)[i] == u;
      assert keys[i] in keys;
    }
  }

  /** Followers and following are converse relations. */
  lemma FollowersAndFollowingConverse(db: Db, scan: seq<Row>, scan': seq<Row>, u: nat, v: nat)
    requires IsScan(db, scan) && IsScan(db, scan')
    ensures u in Users(Listing(Followers, scan, v)) <==> v in Users(Listing(Following, scan', u))
  {
    ListingHasEachUserOnce(db, Followers, scan, v);
    ListingHasEachUserOnce(db, Following, scan', u);
  }

  // ----- pages -----

  /** The offset of page n. */
  function Offset(n: nat, limit: nat): nat {
    if n == 0 then 0 else Offset(n - 1, limit) + limit
  }

  lemma {:induction false} OffsetIsProduct(n: nat, limit: nat)
    ensures Offset(n, limit) == n * limit
  {
    if n > 0 {
      OffsetIsProduct(n - 1, limit);
    }
  }

  /** The pages at offsets 0, limit, 2 * limit, ..., one after the other; query i scans the table as scans[i]. */
  function Pages(side: Side, scans: seq<seq<Row>>, id: nat, limit: nat): seq<nat> {
    if scans == [] then []
    else
      var n := |scans| - 1;
      Pages(side, scans[..n], id, limit) + Page(side, scans[n], id, Offset(n, limit), limit)
  }

  lemma {:induction false} UsersConcat(a: seq<(int, nat)>, b: seq<(int, nat)>)
    ensures Users(a + b) == Users(a) + Users(b)
  {
    if a == [] {
      assert a + b == b;
    } else {
      assert (a + b)[1..] == a[1..] + b;
      UsersConcat(a[1..], b);
    }
  }

  lemma SliceConcat<T>(xs: seq<T>, m: nat, limit: nat)
    ensures Slice(xs, 0, m) + Slice(xs, m, limit) == Slice(xs, 0, m + limit)
    ensures m >= |xs| ==> Slice(xs, 0, m) == xs
  {
  }

  lemma NextPage(all: seq<(int, nat)>, m: nat, limit: nat)
    ensures Users(Slice(all, 0, m)) + Users(Slice(all, m, limit)) == Users(Slice(all, 0, m + limit))
  {
    SliceConcat(all, m, limit);
    UsersConcat(Slice(all, 0, m), Slice(all, m, limit));
  }

  lemma {:induction false} PagesOfOneListing(side: Side, scans: seq<seq<Row>>, id: nat, limit: nat,
                                             all: seq<(int, nat)>)
    requires forall scan :: scan in scans ==> Listing(side, scan, id) == all
    ensures Pages(side, scans, id, limit) == Users(Slice(all, 0, Offset(|scans|, limit)))
    decreases |scans|
  {
    if scans != [] {
      var n := |scans| - 1;
      PagesOfOneListing(side, scans[..n], id, limit, all);
      LastPage(side, scans[n], id, Offset(n, limit), limit, all, Pages(side, scans[..n], id, limit));
    }
  }

  lemma LastPage(side: Side, scan: seq<Row>, id: nat, m: nat, limit: nat, all: seq<(int, nat)>, before: seq<nat>)
    requires Listing(side, scan, id) == all && before == Users(Slice(all, 0, m))
    ensures before + Page(side, scan, id, m, limit) == Users(Slice(all, 0, m + limit))
  {
    NextPage(all, m, limit);
  }

  /**
   On a fixed table the pages partition the list: for every limit and every number of
   pages they make up the list as far as they reach, however the queries scan the table.
   */
  lemma PagesPartitionListing(db: Db, side: Side, scans: seq<seq<Row>>, scan: seq<Row>, id: nat, limit: nat)
    requires IsScan(db, scan) && forall s :: s in scans ==> IsScan(db, s)
    ensures Pages(side, scans, id, limit) == Users(Slice(Listing(side, scan, id), 0, |scans| * limit))
    ensures |scans| * limit >= |Listing(side, scan, id)| ==>
              Pages(side, scans, id, limit) == Users(Listing(side, scan, id))
  {
    ListingIsDetermined(db, side, scan, id);
    PagesOfOneListing(side, scans, id, limit, Listing(side, scan, id));
    OffsetIsProduct(|scans|, limit);
    SliceConcat(Listing(side, scan, id), Offset(|scans|, limit), limit);
  }

  // ----- the endpoints -----

  datatype ListResponse = Listed(ids: seq<nat>) | Missing | Unprocessable

  /** GET /users/{username}/followers and /following, with the bounds of their query parameters. */
  function ListUsers(db: Db, scan: seq<Row>, side: Side, lower: string -> string, username: string,
                     limit: int, offset: int): ListResponse
  {
    if !(1 <= limit <= 200) || offset < 0 then Unprocessable
    else if lower(username) !in db.users then Missing
    else Listed(Page(side, scan, db.users[lower(username)], offset, limit))
  }

  /** Asking for page after page until an empty one shows exactly the edges of the user. */
  lemma EmptyPageMeansAllSeen(db: Db, side: Side, scans: seq<seq<Row>>, last: seq<Row>, scan: seq<Row>,
                              lower: string -> string, username: string, limit: nat)
    requires IsScan(db, scan) && IsScan(db, last) && forall s :: s in scans ==> IsScan(db, s)
    requires ListUsers(db, last, side, lower, username, limit, Offset(|scans|, limit)) == Listed([])
    ensures 1 <= limit <= 200 && lower(username) in db.users
    ensures Pages(side, scans, db.users[lower(username)], limit)
         == Users(Listing(side, scan, db.users[lower(username)]))
  {
    var id := db.users[lower(username)];
    var all := Listing(side, scan, id);
    ListingIsDetermined(db, side, scan, id);
    assert Listing(side, last, id) == all;
    UsersOf(Slice(all, Offset(|scans|, limit), limit));
    OffsetIsProduct(|scans|, limit);
    PagesPartitionListing(db, side, scans, scan, id, limit);
  }

  /** The row about the i-th user of a listing is not later than that about the j-th, and of equals the id is less. */
  lemma ListingByTimeThenId(db: Db, side: Side, scan: seq<Row>, id: nat, i: nat, j: nat)
    requires IsScan(db, scan) && i < j < |Users(Listing(side, scan, id))|
    ensures var us := Users(Listing(side, scan, id));
            var e := if side.Followers? then (us[i], id) else (id, us[i]);
            var f := if side.Followers? then (us[j], id) else (id, us[j]);
            && e in db.follows && f in db.follows
            && (db.follows[e] < db.follows[f] || (db.follows[e] == db.follows[f] && us[i] < us[j]))
  {
    var keys := Listing(side, scan, id);
    ListingAscends(db, side, scan, id);
    UsersOf(keys);
    assert keys[i] in keys && keys[j] in keys && Earlier(keys[i], keys[j]);
  }

  /**
   What the endpoints answer: 422 exactly outside the bounds of limit and offset, 404 exactly
   for an unknown name within them, and otherwise the users of the whole listing from offset
   on, limit of them or as many as there are.
   */
  lemma ListUsersAnswers(db: Db, scan: seq<Row>, side: Side, lower: string -> string, username: string,
                         limit: int, offset: int)
    ensures var answer := ListUsers(db, scan, side, lower, username, limit, offset);
            && (answer == Unprocessable <==> limit < 1 || limit > 200 || offset < 0)
            && (answer == Missing <==> 1 <= limit <= 200 && 0 <= offset && lower(username) !in db.users)
            && (answer.Listed? ==>
                  var all := Users(Listing(side, scan, db.users[lower(username)]));
                  && |answer.ids| == (if offset >= |all| then 0
                                      else if |all| - offset <= limit then |all| - offset
                                      else limit)
                  && forall i :: 0 <= i < |answer.ids| ==> answer.ids[i] == all[offset + i])
  {
    if 1 <= limit <= 200 && 0 <= offset && lower(username) in db.users {
      var all := Listing(side, scan, db.users[lower(username)]);
      UsersOf(all);
      UsersOf(Slice(all, offset, limit));
    }
  }

  /** The bodies of the answers to the requests for the pages at 0, limit, 2 * limit, ..., one after the other. */
  function Answered(db: Db, scans: seq<seq<Row>>, side: Side, lower: string -> string, username: string, limit: nat)
    : seq<nat>
  {
    if scans == [] then []
    else
      var n := |scans| - 1;
      var answer := ListUsers(db, scans[n], side, lower, username, limit, n * limit);
      Answered(db, scans[..n], side, lower, username, limit) + if answer.Listed? then answer.ids else []
  }

  lemma {:induction false} AnsweredIsPages(db: Db, scans: seq<seq<Row>>, side: Side, lower: string -> string,
                                           username: string, limit: nat)
    requires 1 <= limit <= 200 && lower(username) in db.users
    ensures Answered(db, scans, side, lower, username, limit) == Pages(side, scans, db.users[lower(username)], limit)
    decreases |scans|
  {
    if scans != [] {
      var n := |scans| - 1;
      AnsweredIsPages(db, scans[..n], side, lower, username, limit);
      OffsetIsProduct(n, limit);
    }
  }

  /** PagesPartitionListing of the endpoints: enough pages of any permitted size show the whole list, each user once. */
  lemma EndpointsPartitionListing(db: Db, side: Side, scans: seq<seq<Row>>, scan: seq<Row>, lower: string -> string,
                                  username: string, limit: nat)
    requires 1 <= limit <= 200 && lower(username) in db.users
    requires IsScan(db, scan) && forall s :: s in scans ==> IsScan(db, s)
    ensures var all := Users(Listing(side, scan, db.users[lower(username)]));
            |scans| * limit >= |all| ==> Answered(db, scans, side, lower, username, limit) == all && Distinct(all)
  {
    var id := db.users[lower(username)];
    AnsweredIsPages(db, scans, side, lower, username, limit);
    PagesPartitionListing(db, side, scans, scan, id, limit);
    ListingHasEachUserOnce(db, side, scan, id);
    UsersOf(Listing(side, scan, id));
  }

  lemma OneMoreChange(log: seq<Change>, c: Change)
    ensures After(log + [c]) == Commit(After(log), c)
    ensures AllPossible(log) && Possible(After(log), c) ==> AllPossible(log + [c])
  {
    assert (log + [c])[..|log|] == log;
    forall i | 0 <= i < |log + [c]| ensures i < |log| ==> (log + [c])[..i] == log[..i] && (log + [c])[i] == log[i] {
    }
  }

  class Service {
    var db: Db
    /** The changes so far, in the order in which they were committed. */
    ghost var log: seq<Change>

    /** The tables are those of the run model after the same changes: its theorems are about this object. */
    ghost predicate FollowsLog()
      reads this
    {
      db == After(log) && AllPossible(log)
    }

    constructor ()
      ensures db == EMPTY_DB && log == [] && FollowsLog()
    {
      db := EMPTY_DB;
      log := [];
    }

    /** A change that another request, of this service or of another, has committed. */
    method Committed(c: Change)
      requires Possible(db, c)
      modifies this
      ensures db == Commit(old(db), c) && log == old(log) + [c] && (old(FollowsLog()) ==> FollowsLog())
    {
      OneMoreChange(log, c);
      db := Commit(db, c);
      log := log + [c];
    }

    /** EdgeSinceFirstFollow of this object. */
    lemma EdgesAreOpenFollows(e: (nat, nat), at: int)
      requires FollowsLog()
      ensures HasEdge(db, e, at) <==> exists i: nat :: OpenSince(log, i, e, at)
      ensures Consistent(db)
    {
      EdgeSinceFirstFollow(log, e, at);
      AlwaysConsistent(log);
    }

    /** POST /users/{username}/follow by the authenticated user current. */
    method FollowUser(lower: string -> string, username: string, current: nat, now: int) returns (response: Response)
      modifies this
      ensures var name := lower(username);
              if name !in old(db).users then response == NotFound && db == old(db)
              else if old(db).users[name] == current then response == BadRequest && db == old(db)
              else db == InsertFollow(old(db), current, old(db).users[name], now).0
                   && response == InsertFollow(old(db), current, old(db).users[name], now).1
      ensures old(Consistent(db)) ==> Consistent(db)
      ensures response == BadRequest <==> lower(username) in old(db).users && old(db).users[lower(username)] == current
      ensures response == NotFound <==>
                || lower(username) !in old(db).users
                || (old(db).users[lower(username)] != current
                    && (current !in old(db).users.Values || old(db).users[lower(username)] !in old(db).users.Values))
      ensures response == NoContent ==>
                db.users == old(db).users
                && db.follows == if (current, db.users[lower(username)]) in old(db).follows then old(db).follows
                                 else old(db).follows[(current, db.users[lower(username)]) := now]
      ensures response == NoContent ==>
                lower(username) in db.users && (current, db.users[lower(username)]) in db.follows
      ensures old(FollowsLog()) ==> FollowsLog()
      ensures log == if response == BadRequest || lower(username) !in old(db).users then old(log)
                     else old(log) + [Follow(current, old(db).users[lower(username)], now)]
    {
      var name := lower(username);
      if name !in db.users {
        return NotFound;
      }
      var target := db.users[name];
      if target == current {
        return BadRequest;
      }
      response := InsertFollow(db, current, target, now).1;
      Committed(Follow(current, target, now));
    }

    /** DELETE /users/{username}/follow */
    method UnfollowUser(lower: string -> string, username: string, current: nat) returns (response: Response)
      modifies this
      ensures var name := lower(username);
              if name !in old(db).users then response == NotFound && db == old(db)
              else response == NoContent && db == DeleteFollow(old(db), current, old(db).users[name])
      ensures old(Consistent(db)) ==> Consistent(db)
      ensures response == NoContent ==> (current, db.users[lower(username)]) !in db.follows
      ensures old(FollowsLog()) ==> FollowsLog()
      ensures log == if response == NotFound then old(log)
                     else old(log) + [Unfollow(current, old(db).users[lower(username)])]
    {
      var name := lower(username);
      if name !in db.users {
        return NotFound;
      }
      Committed(Unfollow(current, db.users[name]));
      response := NoContent;
    }
  }
}
