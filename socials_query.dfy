/** app/queries/socials_query.go: likes and comments on quizzes. The `likes` table holds at
    most one row per (quiz, user) pair, since a like is only inserted when none exists, so it
    is a set of pairs; `comments` maps a comment id to its row. `uuid.Parse` and the
    database's failures are collaborators given as parameters. */
module SocialsQuery {
  import opened Wrappers
  import opened Numbers
  import opened Models

  type Parse = string -> Result<Uuid>

  /** The likes of `likes` after toggling pair `p`. */
  function Toggled(likes: set<(Uuid, Uuid)>, p: (Uuid, Uuid)): (r: set<(Uuid, Uuid)>)
    ensures p in r <==> p !in likes
    ensures forall x :: x != p ==> (x in r <==> x in likes)
  {
    if p in likes then likes - {p} else likes + {p}
  }

  /** Toggling the same pair twice restores the likes. */
  lemma ToggleTwice(likes: set<(Uuid, Uuid)>, p: (Uuid, Uuid))
    ensures Toggled(Toggled(likes, p), p) == likes
  {
  }

  /** The users who liked quiz `quiz`. */
  function Likers(likes: set<(Uuid, Uuid)>, quiz: Uuid): set<Uuid> {
    set p | p in likes && p.0 == quiz :: p.1
  }

  /** A toggle moves the like count of its own quiz by exactly one and leaves every other
      quiz's count alone. */
  lemma ToggleCount(likes: set<(Uuid, Uuid)>, quiz: Uuid, user: Uuid, other: Uuid)
    ensures |Likers(Toggled(likes, (quiz, user)), quiz)| ==
      if (quiz, user) in likes then |Likers(likes, quiz)| - 1 else |Likers(likes, quiz)| + 1
    ensures other != quiz ==> Likers(Toggled(likes, (quiz, user)), other) == Likers(likes, other)
  {
    var before, after := Likers(likes, quiz), Likers(Toggled(likes, (quiz, user)), quiz);
    if (quiz, user) in likes {
      assert user in before;
      assert after == before - {user};
    } else {
      assert user !in before;
      assert after == before + {user};
    }
  }

  class Store {
    /** The `likes` table, as (quiz, user) pairs. */
    var likes: set<(Uuid, Uuid)>
    /** The `comments` table, by comment id. */
    var comments: map<Uuid, Comment>

    constructor(likes: set<(Uuid, Uuid)>, comments: map<Uuid, Comment>)
      ensures this.likes == likes && this.comments == comments
    {
      this.likes := likes;
      this.comments := comments;
    }

    /** Lines 15-29: whether the user liked the quiz (the count of matching rows is
        positive). `fault` is a failure of the count query. */
    method HasLiked(quizId: string, userId: string, parse: Parse, fault: Option<string>)
      returns (liked: bool, err: Option<string>)
      ensures parse(quizId).Err? ==> err == Some(parse(quizId).error) && !liked
      ensures parse(quizId).Ok? && parse(userId).Err? ==> err == Some(parse(userId).error) && !liked
      ensures parse(quizId).Ok? && parse(userId).Ok? ==>
        if fault.Some? then err == fault && !liked
        else err == None && (liked <==> (parse(quizId).value, parse(userId).value) in likes)
    {
      var quiz := parse(quizId);
      if quiz.Err? {
        return false, Some(quiz.error);
      }
      var user := parse(userId);
      if user.Err? {
        return false, Some(user.error);
      }
      if fault.Some? {
        return false, fault;
      }
      var count := if (quiz.value, user.value) in likes then 1 else 0;
      liked, err := count > 0, None;
    }

    /** Lines 31-56: removes the user's like and answers false, or adds one and answers
        true. `countFault` fails the check, `writeFault` the delete or insert; on any
        failure the likes are as before. */
    method ToggleLike(quizId: string, userId: string, parse: Parse, countFault: Option<string>, writeFault: Option<string>)
      returns (liked: bool, err: Option<string>)
      modifies this
      ensures comments == old(comments)
      ensures err.Some? ==> likes == old(likes) && !liked
      ensures parse(quizId).Err? ==> err == Some(parse(quizId).error)
      ensures parse(quizId).Ok? && parse(userId).Err? ==> err == Some(parse(userId).error)
      ensures parse(quizId).Ok? && parse(userId).Ok? ==>
        var p := (parse(quizId).value, parse(userId).value);
        if countFault.Some? then err == countFault
        else if writeFault.Some? then err == writeFault
        else err == None && likes == Toggled(old(likes), p) && (liked <==> p in likes)
    {
      var quiz := parse(quizId);
      if quiz.Err? {
        return false, Some(quiz.error);
      }
      var user := parse(userId);
      if user.Err? {
        return false, Some(user.error);
      }
      var already, checkErr := HasLiked(quizId, userId, parse, countFault);
      if checkErr.Some? {
        return false, checkErr;
      }
      if writeFault.Some? {
        return false, writeFault;
      }
      if already {
        likes := likes - {(quiz.value, user.value)};
        return false, None;
      }
      likes := likes + {(quiz.value, user.value)};
      liked, err := true, None;
    }

    /** Lines 58-68: the number of likes of the quiz. */
    method CountLikes(quizId: string, parse: Parse, fault: Option<string>) returns (n: int, err: Option<string>)
      ensures parse(quizId).Err? ==> err == Some(parse(quizId).error) && n == 0
      ensures parse(quizId).Ok? && fault.Some? ==> err == fault && n == 0
      ensures parse(quizId).Ok? && fault.None? ==> err == None && n == |Likers(likes, parse(quizId).value)|
    {
      var quiz := parse(quizId);
      if quiz.Err? {
        return 0, Some(quiz.error);
      }
      if fault.Some? {
        return 0, fault;
      }
      n, err := |Likers(likes, quiz.value)|, None;
    }

    /** Lines 87-108: deletes the comment when both its id and its author match.
        `execFault` fails the delete; `countFault` fails reading the affected-row count,
        after the delete has happened. */
    method DeleteComment(commentId: string, userId: string, parse: Parse, execFault: Option<string>, countFault: Option<string>)
      returns (err: Option<string>)
      modifies this
      ensures likes == old(likes)
      ensures parse(commentId).Err? ==> err == Some(parse(commentId).error) && comments == old(comments)
      ensures parse(commentId).Ok? && parse(userId).Err? ==> err == Some(parse(userId).error) && comments == old(comments)
      ensures parse(commentId).Ok? && parse(userId).Ok? ==>
        var id, user := parse(commentId).value, parse(userId).value;
        var owned := id in old(comments) && old(comments)[id].commenterBy == user;
        if execFault.Some? then err == execFault && comments == old(comments)
        else
          && comments == (if owned then old(comments) - {id} else old(comments))
          && (countFault.Some? ==> err == countFault)
          && (countFault.None? ==> (err.None? <==> owned))
          && (countFault.None? && !owned ==> err == Some("not found or not owner"))
    {
      var id := parse(commentId);
      if id.Err? {
        return Some(id.error);
      }
      var user := parse(userId);
      if user.Err? {
        return Some(user.error);
      }
      if execFault.Some? {
        return execFault;
      }
      var rows := 0;
      if id.value in comments && comments[id.value].commenterBy == user.value {
        comments := comments - {id.value};
        rows := 1;
      }
      if countFault.Some? {
        return countFault;
      }
      if rows == 0 {
        return Some("not found or not owner");
      }
      err := None;
    }
  }

  // ------------------------------------------------------------ GetComments

  const CommentsQuery := "SELECT id, quiz_id, content, commenter_by, created_at FROM comments WHERE quiz_id = $1 ORDER BY created_at DESC"

  /** Lines 116-118: the clause appended for a positive limit. */
  function LimitClause(limit: int): (c: string)
    ensures limit <= 0 <==> c == ""
  {
    if limit > 0 then " LIMIT " + Decimal(limit) else ""
  }

  /** A positive limit is written so that it reads back as the same number. */
  lemma LimitClauseRoundTrip(limit: int)
    requires 0 < limit <= MaxInt64
    ensures var c := LimitClause(limit); |c| > 7 && c[..7] == " LIMIT " && Atoi(c[7..]) == Some(limit)
  {
    var c := LimitClause(limit);
    assert c[7..] == Decimal(limit);
    AtoiDecimal(limit);
  }

  /** What the comments query yields: a failure, or the scanned rows and the iteration's
      final error. */
  datatype CommentRows = CommentsFailed(error: string) | CommentRows(rows: seq<Result<Comment>>, iterError: Option<string>)

  /** Lines 110-136: the comments of the quiz, in the order the query returns them (newest
      first, as its ORDER BY asks), stopping at the first row that fails to scan. `sent`
      is the query text, if one was sent. */
  method GetComments(quizId: string, limit: int, parse: Parse, query: (string, Uuid) -> CommentRows)
    returns (r: Result<seq<Comment>>, sent: Option<string>)
    ensures parse(quizId).Err? ==> r == Err(parse(quizId).error) && sent == None
    ensures parse(quizId).Ok? ==> sent == Some(CommentsQuery + LimitClause(limit))
    ensures parse(quizId).Ok? ==>
      match query(CommentsQuery + LimitClause(limit), parse(quizId).value)
      case CommentsFailed(e) => r == Err(e)
      case CommentRows(rows, iterError) =>
        && (r.Ok? <==> (forall k :: 0 <= k < |rows| ==> rows[k].Ok?) && iterError.None?)
        && (r.Ok? ==> |r.value| == |rows| && forall k :: 0 <= k < |rows| ==> rows[k] == Ok(r.value[k]))
        && (r.Err? ==>
              || (exists k :: 0 <= k < |rows| && rows[k] == Err(r.error) && forall j :: 0 <= j < k ==> rows[j].Ok?)
              || ((forall k :: 0 <= k < |rows| ==> rows[k].Ok?) && iterError == Some(r.error)))
  {
    var quiz := parse(quizId);
    if quiz.Err? {
      return Err(quiz.error), None;
    }
    var base := CommentsQuery + LimitClause(limit);
    sent := Some(base);
    var outcome := query(base, quiz.value);
    if outcome.CommentsFailed? {
      return Err(outcome.error), sent;
    }
    var rows := outcome.rows;
    var res: seq<Comment> := [];
    var i := 0;
    while i < |rows|
      invariant 0 <= i <= |rows|
      invariant |res| == i
      invariant forall k :: 0 <= k < i ==> rows[k] == Ok(res[k])
    {
      if rows[i].Err? {
        return Err(rows[i].error), sent;
      }
      res := res + [rows[i].value];
      i := i + 1;
    }
    if outcome.iterError.Some? {
      return Err(outcome.iterError.value), sent;
    }
    r := Ok(res);
  }
}
