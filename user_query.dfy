/** app/queries/user_query.go: user lookups, deletion, and the follow relation. The `users`
    table maps a uid to its row, whose `exp_point` column may be NULL; the `socials` table is
    the set of (follower, followed) pairs. The database's failures are parameters. */
module UserQuery {
  import opened Wrappers
  import opened Numbers
  import opened Models

  /** A `users` row: the user's columns and the nullable `exp_point`. */
  datatype UserRow = UserRow(user: User, expPoint: Option<string>)

  /** The `models.User{}` a failed lookup returns. */
  const ZeroUser := User(NilUuid, "", "", "", "", "", None, 0, 0, None, None)

  const NotFoundMessage := "user not found"
  const DbErrorMessage := "unable to get user, DB error"

  /** The users following `u`. */
  function Followers(follows: set<(Uuid, Uuid)>, u: Uuid): set<Uuid> {
    set p | p in follows && p.1 == u :: p.0
  }

  /** The users `u` follows. */
  function Following(follows: set<(Uuid, Uuid)>, u: Uuid): set<Uuid> {
    set p | p in follows && p.0 == u :: p.1
  }

  /** Lines 56-67: the stored points, "0" when NULL, replaced by the decimal sum of the
      user's scores when that sum could be read. */
  function ExpPoints(stored: Option<string>, scoreSum: Option<int>): string {
    var fromRow := if stored.Some? then stored.value else "0";
    if scoreSum.Some? then Decimal(scoreSum.value) else fromRow
  }

  /** A readable 64-bit score sum is what the points read back as, whatever is stored. */
  lemma ExpPointsReadBack(stored: Option<string>, sum: int)
    requires MinInt64 <= sum <= MaxInt64
    ensures Atoi(ExpPoints(stored, Some(sum))) == Some(sum)
  {
    AtoiDecimal(sum);
  }

  /** A new follow adds exactly one follower to the followed user and one followee to the
      follower, and changes no one else's counts. */
  lemma FollowCounts(follows: set<(Uuid, Uuid)>, a: Uuid, b: Uuid, c: Uuid)
    requires (a, b) !in follows
    ensures |Followers(follows + {(a, b)}, b)| == |Followers(follows, b)| + 1
    ensures |Following(follows + {(a, b)}, a)| == |Following(follows, a)| + 1
    ensures c != b ==> Followers(follows + {(a, b)}, c) == Followers(follows, c)
    ensures c != a ==> Following(follows + {(a, b)}, c) == Following(follows, c)
  {
    assert a !in Followers(follows, b);
    assert Followers(follows + {(a, b)}, b) == Followers(follows, b) + {a};
    assert b !in Following(follows, a);
    assert Following(follows + {(a, b)}, a) == Following(follows, a) + {b};
  }

  class Store {
    /** The `users` table, by uid. */
    var users: map<Uuid, UserRow>
    /** The `socials` table, as (follower, followed) pairs. */
    var follows: set<(Uuid, Uuid)>

    constructor(users: map<Uuid, UserRow>, follows: set<(Uuid, Uuid)>)
      ensures this.users == users && this.follows == follows
    {
      this.users := users;
      this.follows := follows;
    }

    /** Lines 18-70: the user with follower and following counts and the points rule.
        `fault` fails the lookup; `scoreSum` is the sum of the user's attempt scores, or
        `None` when that query fails. */
    method GetUserByID(id: Uuid, fault: Option<string>, scoreSum: Option<int>) returns (user: User, err: Option<string>)
      ensures fault.Some? ==> err == Some(DbErrorMessage)
      ensures fault.None? && id !in users ==> err == Some(NotFoundMessage)
      ensures fault.None? && id in users ==>
        var u := users[id].user;
        && err == None
        && user == u.(expPoints := ExpPoints(users[id].expPoint, scoreSum),
                      followerCount := Some(|Followers(follows, id)|),
                      followingCount := Some(|Following(follows, id)|))
    {
      if fault.Some? {
        return ZeroUser, Some(DbErrorMessage);
      }
      if id !in users {
        return ZeroUser, Some(NotFoundMessage);
      }
      var row := users[id];
      user := row.user.(followerCount := Some(|Followers(follows, id)|), followingCount := Some(|Following(follows, id)|));
      if row.expPoint.Some? {
        user := user.(expPoints := row.expPoint.value);
      } else {
        user := user.(expPoints := "0");
      }
      if scoreSum.Some? {
        user := user.(expPoints := Decimal(scoreSum.value));
      }
      err := None;
    }

    /** Lines 72-95: a user with that email, carrying only the columns the query selects.
        No such user gives exactly "user not found"; any other failure the generic
        message. */
    method GetUserByEmail(email: string, fault: Option<string>) returns (user: User, err: Option<string>)
      ensures fault.Some? ==> err == Some(DbErrorMessage)
      ensures fault.None? && (forall id :: id in users ==> users[id].user.email != email) ==>
        err == Some(NotFoundMessage)
      ensures err.None? ==>
        exists id :: id in users && users[id].user.email == email && user == EmailColumns(users[id].user)
      ensures err.None? <==> fault.None? && exists id :: id in users && users[id].user.email == email
    {
      if fault.Some? {
        return ZeroUser, Some(DbErrorMessage);
      }
      if id :| id in users && users[id].user.email == email {
        return EmailColumns(users[id].user), None;
      }
      return ZeroUser, Some(NotFoundMessage);
    }

    /** Lines 118-135: deletes the user. `execFault` fails the delete, `countFault` fails
        reading the affected-row count after the delete. */
    method DeleteUser(id: Uuid, execFault: Option<string>, countFault: Option<string>) returns (err: Option<string>)
      modifies this
      ensures follows == old(follows)
      ensures execFault.Some? ==> err == Some("unable to delete user, DB error") && users == old(users)
      ensures execFault.None? ==>
        && users == old(users) - {id}
        && (countFault.Some? ==> err == countFault)
        && (countFault.None? ==> (err.None? <==> id in old(users)))
        && (countFault.None? && id !in old(users) ==> err == Some("no user deleted"))
    {
      if execFault.Some? {
        return Some("unable to delete user, DB error");
      }
      var rows := if id in users then 1 else 0;
      users := users - {id};
      if countFault.Some? {
        return countFault;
      }
      if rows == 0 {
        return Some("no user deleted");
      }
      err := None;
    }

    /** Lines 137-150. A unique violation (code 23505) happens exactly when the pair is
        already stored, the unique constraint on (follower, followed) being assumed;
        `fault` is any other failure of the insert. */
    method FollowUser(follower: Uuid, following: Uuid, fault: Option<string>) returns (err: Option<string>)
      modifies this
      ensures users == old(users)
      ensures follower == following ==> err == Some("cannot follow yourself") && follows == old(follows)
      ensures follower != following ==>
        if fault.Some? then err == fault && follows == old(follows)
        else if (follower, following) in old(follows) then err == Some("already following") && follows == old(follows)
        else err == None && follows == old(follows) + {(follower, following)}
    {
      if follower == following {
        return Some("cannot follow yourself");
      }
      if fault.Some? {
        return fault;
      }
      if (follower, following) in follows {
        return Some("already following");
      }
      follows := follows + {(follower, following)};
      err := None;
    }

    /** Lines 152-166: removes the pair; nothing removed gives "not following". */
    method UnfollowUser(follower: Uuid, following: Uuid, execFault: Option<string>, countFault: Option<string>)
      returns (err: Option<string>)
      modifies this
      ensures users == old(users)
      ensures execFault.Some? ==> err == execFault && follows == old(follows)
      ensures execFault.None? ==>
        && follows == old(follows) - {(follower, following)}
        && (countFault.Some? ==> err == countFault)
        && (countFault.None? ==> (err.None? <==> (follower, following) in old(follows)))
        && (countFault.None? && (follower, following) !in old(follows) ==> err == Some("not following"))
    {
      if execFault.Some? {
        return execFault;
      }
      var rows := if (follower, following) in follows then 1 else 0;
      follows := follows - {(follower, following)};
      if countFault.Some? {
        return countFault;
      }
      if rows == 0 {
        return Some("not following");
      }
      err := None;
    }
  }

  /** The columns `GetUserByEmail` selects; the rest keep their zero values. */
  function EmailColumns(u: User): (r: User)
    ensures r.id == u.id && r.username == u.username && r.email == u.email && r.passwordHash == u.passwordHash
    ensures r.createdAt == u.createdAt && r.updatedAt == u.updatedAt
    ensures r.userRole == "" && r.imageUrl == None
    ensures r.expPoints == "" && r.followerCount == None && r.followingCount == None
  {
    ZeroUser.(id := u.id, username := u.username, email := u.email, passwordHash := u.passwordHash,
              createdAt := u.createdAt, updatedAt := u.updatedAt)
  }
}
