/**
 * The three sqlc-generated queries of internal/database/feed_follows.sql.go,
 * given their SQL meaning over an in-memory database: the `feed_follows`
 * table as a sequence of rows (duplicates allowed, since no uniqueness
 * constraint is assumed), and the `feeds` and `users` tables as far as the
 * joins read them, a map from id to name each.
 *
 * What the Postgres driver can do wrong (a failed statement, a failed scan,
 * a failed step of the cursor, a failed close) is passed in as a parameter.
 */
module FeedFollows {
  import opened Wrappers

  /** The sixteen bytes of a `uuid.UUID`. */
  type Bytes16 = b: seq<bv8> | |b| == 16 witness [0, 0, 0, 0, 0, 0, 0, 0, 0, 0, 0, 0, 0, 0, 0, 0]

  /** `uuid.UUID`, compared by value. */
  datatype Uuid = Uuid(bytes: Bytes16)

  /** `time.Time`, stood for by an instant. */
  datatype Time = Time(unixNanos: int)

  /** An error reported by the database driver. */
  datatype DbError = DbError(message: string)

  /** What `Row.Scan` reports when the query produced no row. */
  const ErrNoRows := DbError("sql: no rows in result set")

  /** A `feed_follows` row; also the parameters of `CreateFeedFollow`. */
  datatype FeedFollow = FeedFollow(id: Uuid, createdAt: Time, updatedAt: Time, userId: Uuid, feedId: Uuid)

  /**
   * A follow joined with the names of its feed and its user: both
   * `CreateFeedFollowRow` and `GetFeedFollowsForUserRow` have this shape.
   */
  datatype FollowRow = FollowRow(
    id: Uuid, createdAt: Time, updatedAt: Time, userId: Uuid, feedId: Uuid,
    feedName: string, userName: string)

  /** What `CreateFeedFollow` hands back: the joined row, or the error. */
  datatype Result = Ok(row: FollowRow) | Failed(err: DbError)

  /** The `feed_follows` columns of a joined row. */
  function Follow(j: FollowRow): (r: FeedFollow)
  {
    FeedFollow(j.id, j.createdAt, j.updatedAt, j.userId, j.feedId)
  }

  /**
   * `INNER JOIN feeds ON feeds.id = feed_id INNER JOIN users ON users.id =
   * user_id` for one follow row: a joined row exactly when both its feed and
   * its user exist, carrying the follow's columns and their two names.
   */
  function Join(r: FeedFollow, feeds: map<Uuid, string>, users: map<Uuid, string>): (j: Option<FollowRow>)
    ensures j.Some? <==> r.feedId in feeds && r.userId in users
    ensures j.Some? ==> Follow(j.value) == r
    ensures j.Some? ==> j.value.feedName == feeds[r.feedId] && j.value.userName == users[r.userId]
  {
    if r.feedId in feeds && r.userId in users then
      Some(FollowRow(r.id, r.createdAt, r.updatedAt, r.userId, r.feedId, feeds[r.feedId], users[r.userId]))
    else
      None
  }

  /** `user_id = $1 AND feed_id = $2`. */
  predicate Matches(r: FeedFollow, userId: Uuid, feedId: Uuid)
  {
    r.userId == userId && r.feedId == feedId
  }

  // ---------------------------------------------------------------------
  // Unfollow: DELETE FROM feed_follows WHERE user_id = $1 AND feed_id = $2
  // ---------------------------------------------------------------------

  /** The table left by the DELETE: every matching row gone, the rest in order. */
  function Unfollowed(t: seq<FeedFollow>, userId: Uuid, feedId: Uuid): (r: seq<FeedFollow>)
  {
    if t == [] then []
    else (if Matches(t[0], userId, feedId) then [] else [t[0]]) + Unfollowed(t[1..], userId, feedId)
  }

  /**
   * The DELETE removes every copy of every matching row and keeps every copy
   * of every other row.
   */
  lemma {:induction false} UnfollowedCount(t: seq<FeedFollow>, userId: Uuid, feedId: Uuid, r: FeedFollow)
    ensures multiset(Unfollowed(t, userId, feedId))[r] == if Matches(r, userId, feedId) then 0 else multiset(t)[r]
  {
    if t != [] {
      UnfollowedCount(t[1..], userId, feedId, r);
      assert t == [t[0]] + t[1..];
    }
  }

  /** A DELETE that matches no row leaves the table as it was. */
  lemma {:induction false} UnfollowedNoMatch(t: seq<FeedFollow>, userId: Uuid, feedId: Uuid)
    requires forall i :: 0 <= i < |t| ==> !Matches(t[i], userId, feedId)
    ensures Unfollowed(t, userId, feedId) == t
  {
    if t != [] {
      UnfollowedNoMatch(t[1..], userId, feedId);
      assert t == [t[0]] + t[1..];
    }
  }

  /** The DELETE acts on each part of the table separately. */
  lemma {:induction false} UnfollowedAppend(a: seq<FeedFollow>, b: seq<FeedFollow>, userId: Uuid, feedId: Uuid)
    ensures Unfollowed(a + b, userId, feedId) == Unfollowed(a, userId, feedId) + Unfollowed(b, userId, feedId)
  {
    if a != [] {
      assert (a + b)[1..] == a[1..] + b;
      UnfollowedAppend(a[1..], b, userId, feedId);
    } else {
      assert a + b == b;
    }
  }

  /**
   * Unfollowing a (user, feed) pair right after a follow of that pair was
   * inserted leaves the table the DELETE alone would have left.
   */
  lemma UnfollowAfterCreate(t: seq<FeedFollow>, r: FeedFollow)
    ensures Unfollowed(t + [r], r.userId, r.feedId) == Unfollowed(t, r.userId, r.feedId)
  {
    UnfollowedAppend(t, [r], r.userId, r.feedId);
    assert [r][1..] == [];
  }

  /** When the pair was not followed before, unfollowing it undoes the insert. */
  lemma {:induction false} UnfollowUndoesCreate(t: seq<FeedFollow>, r: FeedFollow)
    requires forall i :: 0 <= i < |t| ==> !Matches(t[i], r.userId, r.feedId)
    ensures Unfollowed(t + [r], r.userId, r.feedId) == t
  {
    UnfollowAfterCreate(t, r);
    UnfollowedNoMatch(t, r.userId, r.feedId);
  }

  // ---------------------------------------------------------------------
  // GetFeedFollowsForUser: the follows of one user joined with both names
  // ---------------------------------------------------------------------

  /**
   * The rows the SELECT produces for user `id`, in table order (the query
   * has no ORDER BY; table order is one order Postgres may produce).
   */
  function FollowsForUser(t: seq<FeedFollow>, feeds: map<Uuid, string>, users: map<Uuid, string>, id: Uuid): (r: seq<FollowRow>)
  {
    if t == [] then []
    else
      (if t[0].userId == id && Join(t[0], feeds, users).Some? then [Join(t[0], feeds, users).value] else [])
      + FollowsForUser(t[1..], feeds, users, id)
  }

  /**
   * Every row the query returns belongs to user `id`, is the join of a row
   * of the table, and so has an existing feed and user and their names.
   */
  lemma {:induction false} FollowsForUserSound(
    t: seq<FeedFollow>, feeds: map<Uuid, string>, users: map<Uuid, string>, id: Uuid, k: nat)
    requires k < |FollowsForUser(t, feeds, users, id)|
    ensures FollowsForUser(t, feeds, users, id)[k].userId == id
    ensures Follow(FollowsForUser(t, feeds, users, id)[k]) in t
    ensures Join(Follow(FollowsForUser(t, feeds, users, id)[k]), feeds, users) == Some(FollowsForUser(t, feeds, users, id)[k])
  {
    var head := if t[0].userId == id && Join(t[0], feeds, users).Some? then [Join(t[0], feeds, users).value] else [];
    if k >= |head| {
      FollowsForUserSound(t[1..], feeds, users, id, k - |head|);
      assert t == [t[0]] + t[1..];
    }
  }

  /**
   * Every follow of user `id` whose feed and user both exist comes back,
   * joined with their names.
   */
  lemma {:induction false} FollowsForUserComplete(
    t: seq<FeedFollow>, feeds: map<Uuid, string>, users: map<Uuid, string>, id: Uuid, i: nat)
    requires i < |t| && t[i].userId == id && t[i].feedId in feeds && id in users
    ensures FollowRow(t[i].id, t[i].createdAt, t[i].updatedAt, id, t[i].feedId, feeds[t[i].feedId], users[id])
              in FollowsForUser(t, feeds, users, id)
  {
    if i > 0 {
      FollowsForUserComplete(t[1..], feeds, users, id, i - 1);
    }
  }

  /** The query over a table with one more row at the end: at most one more result row, at the end. */
  lemma {:induction false} FollowsForUserAppend(
    t: seq<FeedFollow>, r: FeedFollow, feeds: map<Uuid, string>, users: map<Uuid, string>, id: Uuid)
    ensures FollowsForUser(t + [r], feeds, users, id) ==
      FollowsForUser(t, feeds, users, id)
      + (if r.userId == id && Join(r, feeds, users).Some? then [Join(r, feeds, users).value] else [])
  {
    if t == [] {
      assert [] + [r] == [r];
      assert [r][1..] == [];
    } else {
      assert (t + [r])[1..] == t[1..] + [r];
      FollowsForUserAppend(t[1..], r, feeds, users, id);
    }
  }

  /** After unfollowing feed `feedId`, the user's follow list no longer shows that feed. */
  lemma ListAfterUnfollow(
    t: seq<FeedFollow>, feeds: map<Uuid, string>, users: map<Uuid, string>, userId: Uuid, feedId: Uuid, k: nat)
    requires k < |FollowsForUser(Unfollowed(t, userId, feedId), feeds, users, userId)|
    ensures FollowsForUser(Unfollowed(t, userId, feedId), feeds, users, userId)[k].feedId != feedId
  {
    var rest := Unfollowed(t, userId, feedId);
    FollowsForUserSound(rest, feeds, users, userId, k);
    var r := Follow(FollowsForUser(rest, feeds, users, userId)[k]);
    UnfollowedCount(t, userId, feedId, r);
    assert r in multiset(rest);
  }

  // ---------------------------------------------------------------------
  // The scan loop of GetFeedFollowsForUser and what the driver may report
  // ---------------------------------------------------------------------

  /** `rows.Next()` fails, with `err`, on its call number `at` (counting from 0). */
  datatype NextFailure = NextFailure(at: nat, err: DbError)

  /**
   * The driver's behaviour during one `GetFeedFollowsForUser`: an error from
   * `QueryContext`, the row numbers on which `rows.Scan` fails, a failing
   * call of `rows.Next`, and an error from `rows.Close`.
   */
  datatype Faults = Faults(query: Option<DbError>, scan: map<nat, DbError>, next: Option<NextFailure>, close: Option<DbError>)

  /** How many of `n` result rows `rows.Next()` hands out before it stops. */
  function Delivered(f: Faults, n: nat): (d: nat)
    ensures d <= n
    ensures d < n <==> f.next.Some? && f.next.value.at < n
    ensures d < n ==> d == f.next.value.at
  {
    if f.next.Some? && f.next.value.at < n then f.next.value.at else n
  }

  /** The first row number in [lo, hi) on which `rows.Scan` fails, if any. */
  function FirstScanFailure(scan: map<nat, DbError>, lo: nat, hi: nat): (k: Option<nat>)
    decreases hi - lo
    ensures k.None? <==> forall j :: lo <= j < hi ==> j !in scan
    ensures k.Some? ==> lo <= k.value < hi && k.value in scan
    ensures k.Some? ==> forall j :: lo <= j < k.value ==> j !in scan
  {
    if lo >= hi then None
    else if lo in scan then Some(lo)
    else FirstScanFailure(scan, lo + 1, hi)
  }

  /**
   * The error `GetFeedFollowsForUser` returns for a result of `n` rows, in
   * the order the Go code meets them: the query, the first scan that fails
   * among the rows handed out, `rows.Close`, then `rows.Err`.
   */
  function ReadError(f: Faults, n: nat): (e: Option<DbError>)
    ensures e.None? <==>
      f.query.None? && (forall j :: 0 <= j < Delivered(f, n) ==> j !in f.scan) && f.close.None? &&
      !(f.next.Some? && f.next.value.at <= n)
    ensures f.query.Some? ==> e == f.query
  {
    if f.query.Some? then f.query
    else match FirstScanFailure(f.scan, 0, Delivered(f, n))
      case Some(k) => Some(f.scan[k])
      case None =>
        if f.close.Some? then f.close
        else if f.next.Some? && f.next.value.at <= n then Some(f.next.value.err)
        else None
  }

  /** The database a `Queries` value talks to. */
  class Queries {
    var follows: seq<FeedFollow>
    var feeds: map<Uuid, string>
    var users: map<Uuid, string>

    constructor (follows: seq<FeedFollow>, feeds: map<Uuid, string>, users: map<Uuid, string>)
      ensures this.follows == follows && this.feeds == feeds && this.users == users
    {
      this.follows, this.feeds, this.users := follows, feeds, users;
    }

    /**
     * `CreateFeedFollow`: the INSERT in the WITH clause always runs, so the
     * row is added whenever the statement succeeds; the SELECT then joins it
     * with its feed and user, and when either is missing the join is empty
     * and `Scan` reports no rows. A failing statement changes nothing.
     */
    method CreateFeedFollow(arg: FeedFollow, fault: Option<DbError>) returns (r: Result)
      modifies this
      ensures feeds == old(feeds) && users == old(users)
      ensures fault.Some? ==> follows == old(follows) && r == Failed(fault.value)
      ensures fault.None? ==> follows == old(follows) + [arg]
      ensures fault.None? && (arg.feedId !in feeds || arg.userId !in users) ==> r == Failed(ErrNoRows)
      ensures fault.None? && arg.feedId in feeds && arg.userId in users ==>
        r.Ok? && Follow(r.row) == arg && r.row.feedName == feeds[arg.feedId] && r.row.userName == users[arg.userId]
    {
      if fault.Some? {
        return Failed(fault.value);
      }
      follows := follows + [arg];
      var joined := Join(arg, feeds, users);
      if joined.None? {
        return Failed(ErrNoRows);
      }
      r := Ok(joined.value);
    }

    /**
     * `Unfollow`: the DELETE runs and its row count is ignored, so deleting
     * a pair nobody follows is not an error. Only a failing statement is.
     */
    method Unfollow(userId: Uuid, feedId: Uuid, fault: Option<DbError>) returns (err: Option<DbError>)
      modifies this
      ensures err == fault
      ensures feeds == old(feeds) && users == old(users)
      ensures fault.Some? ==> follows == old(follows)
      ensures fault.None? ==> follows == Unfollowed(old(follows), userId, feedId)
    {
      if fault.Some? {
        return fault;
      }
      follows := Unfollowed(follows, userId, feedId);
      err := None;
    }

    /**
     * `GetFeedFollowsForUser`: run the SELECT, then step through its rows,
     * scanning each and appending it; any failure on the way returns no rows
     * and that failure. Without failures the result is exactly the query's
     * rows, each one once, in the order they came.
     */
    method GetFeedFollowsForUser(id: Uuid, faults: Faults) returns (items: seq<FollowRow>, err: Option<DbError>)
      ensures err == ReadError(faults, |FollowsForUser(follows, feeds, users, id)|)
      ensures err.Some? ==> items == []
      ensures err.None? ==> items == FollowsForUser(follows, feeds, users, id)
      ensures forall k :: 0 <= k < |items| ==> items[k].userId == id
    {
      if faults.query.Some? {
        return [], faults.query;
      }
      var rs := FollowsForUser(follows, feeds, users, id);
      items := [];
      var i := 0;
      while i < |rs| && !(faults.next.Some? && faults.next.value.at == i)
        invariant 0 <= i <= |rs|
        invariant faults.next.Some? ==> i <= faults.next.value.at
        invariant items == rs[..i]
        invariant forall j :: 0 <= j < i ==> j !in faults.scan
      {
        if i in faults.scan {
          return [], Some(faults.scan[i]);
        }
        items := items + [rs[i]];
        i := i + 1;
      }
      if faults.close.Some? {
        return [], faults.close;
      }
      if faults.next.Some? && faults.next.value.at == i {
        return [], Some(faults.next.value.err);
      }
      assert items == rs;
      forall k | 0 <= k < |items|
        ensures items[k].userId == id
      {
        FollowsForUserSound(follows, feeds, users, id, k);
      }
      err := None;
    }
  }
}
