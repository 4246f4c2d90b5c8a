/** `src/repository/comment_repository.rs`: the `comments` table, its rows in table order. */
module CommentRepository {
  import opened Uuids
  import opened Errors
  import opened Models

  const NotFoundMessage: string := "Not found."
  const BackendMessage: string := "Something went wrong."

  datatype CommentCommand = SelectForPost(postId: Uuid) | SelectComment(id: Uuid) | InsertComment | UpdateComment(id: Uuid)

  datatype CommentDb = CommentDb(rows: seq<Comment>, refused: set<CommentCommand>)

  /** The id column is the primary key. */
  predicate IdsUnique(rows: seq<Comment>)
  {
    forall i, j | 0 <= i < j < |rows| :: rows[i].id != rows[j].id
  }

  /** Position of the row with that id, or -1. */
  function IndexOf(rows: seq<Comment>, id: Uuid): (k: int)
    ensures -1 <= k < |rows|
    ensures k >= 0 ==> rows[k].id == id && forall i | 0 <= i < k :: rows[i].id != id
    ensures k == -1 <==> forall i | 0 <= i < |rows| :: rows[i].id != id
  {
    if rows == [] then -1
    else if rows[0].id == id then 0
    else
      var k := IndexOf(rows[1..], id);
      if k == -1 then -1 else k + 1
  }

  /** The rows of one post, in table order. */
  function ForPost(rows: seq<Comment>, postId: Uuid): (r: seq<Comment>)
    ensures |r| <= |rows|
    ensures forall c :: c in r <==> c in rows && c.postId == postId
  {
    if rows == [] then []
    else if rows[0].postId == postId then [rows[0]] + ForPost(rows[1..], postId)
    else ForPost(rows[1..], postId)
  }

  /** Filtering keeps order and multiplicity: the rows of a post in a concatenation are
      those of the first part followed by those of the second. */
  lemma {:induction false} ForPostConcat(a: seq<Comment>, b: seq<Comment>, postId: Uuid)
    ensures ForPost(a + b, postId) == ForPost(a, postId) + ForPost(b, postId)
  {
    if a == [] {
      assert a + b == b;
    } else {
      assert (a + b)[1..] == a[1..] + b;
      ForPostConcat(a[1..], b, postId);
    }
  }

  /** A single row is kept exactly when it belongs to the post, so with `ForPostConcat` the
      result is the table's rows of that post in table order. */
  lemma ForPostSingle(c: Comment, postId: Uuid)
    ensures ForPost([c], postId) == if c.postId == postId then [c] else []
  {
  }

  /** `get_all_for_post`: `SELECT * WHERE post_id`. */
  function GetAllForPostSpec(db: CommentDb, postId: Uuid): (r: Result<seq<Comment>>)
    ensures r.Ok? <==> SelectForPost(postId) !in db.refused
    ensures r.Ok? ==> r.value == ForPost(db.rows, postId)
    ensures r.Err? ==> r.error == InternalServerError(BackendMessage)
  {
    if SelectForPost(postId) in db.refused then Err(InternalServerError(BackendMessage))
    else Ok(ForPost(db.rows, postId))
  }

  /** `get_one`: any failure, a missing row included, is `NotFound`. */
  function GetOneSpec(db: CommentDb, id: Uuid): (r: Result<Comment>)
    ensures r.Ok? <==> SelectComment(id) !in db.refused && IndexOf(db.rows, id) >= 0
    ensures r.Ok? ==> r.value == db.rows[IndexOf(db.rows, id)] && r.value.id == id
    ensures r.Err? ==> r.error == NotFound(NotFoundMessage)
  {
    var k := IndexOf(db.rows, id);
    if SelectComment(id) in db.refused || k < 0 then Err(NotFound(NotFoundMessage))
    else Ok(db.rows[k])
  }

  /** `create`: inserts body, author and post; the database assigns the id (`freshId`) and
      both timestamps (`now`). */
  function CreateCommentSpec(db: CommentDb, comment: Comment, freshId: Uuid, now: Timestamp): (out: (Result<Comment>, CommentDb))
    ensures out.1.refused == db.refused
    ensures out.0.Ok? <==> InsertComment !in db.refused && IndexOf(db.rows, freshId) == -1
    ensures out.0.Ok? ==> out.0.value == Comment(freshId, comment.body, comment.userId, comment.postId, now, now)
                          && out.1.rows == db.rows + [out.0.value]
    ensures out.0.Err? ==> out.0.error == InternalServerError(BackendMessage) && out.1 == db
  {
    if InsertComment in db.refused || IndexOf(db.rows, freshId) != -1 then (Err(InternalServerError(BackendMessage)), db)
    else
      var created := Comment(freshId, comment.body, comment.userId, comment.postId, now, now);
      (Ok(created), db.(rows := db.rows + [created]))
  }

  /** `update`: `SET body, user_id, post_id WHERE id`; a missing row is an error. */
  function UpdateCommentSpec(db: CommentDb, comment: Comment): (out: (Result<Comment>, CommentDb))
    ensures out.1.refused == db.refused
    ensures out.0.Ok? <==> UpdateComment(comment.id) !in db.refused && IndexOf(db.rows, comment.id) >= 0
    ensures out.0.Ok? ==>
              var k := IndexOf(db.rows, comment.id);
              && out.0.value == db.rows[k].(body := comment.body, userId := comment.userId, postId := comment.postId)
              && out.1.rows == db.rows[k := out.0.value]
    ensures out.0.Err? ==> out.0.error == InternalServerError(BackendMessage) && out.1 == db
  {
    var k := IndexOf(db.rows, comment.id);
    if UpdateComment(comment.id) in db.refused || k < 0 then (Err(InternalServerError(BackendMessage)), db)
    else
      var updated := db.rows[k].(body := comment.body, userId := comment.userId, postId := comment.postId);
      (Ok(updated), db.(rows := db.rows[k := updated]))
  }

  /** Inserting and updating keep the ids unique. */
  lemma WritesKeepIdsUnique(db: CommentDb, comment: Comment, freshId: Uuid, now: Timestamp)
    requires IdsUnique(db.rows)
    ensures IdsUnique(CreateCommentSpec(db, comment, freshId, now).1.rows)
    ensures IdsUnique(UpdateCommentSpec(db, comment).1.rows)
  {
    var k := IndexOf(db.rows, comment.id);
    if k >= 0 {
      var rows := UpdateCommentSpec(db, comment).1.rows;
      assert forall i | 0 <= i < |rows| :: rows[i].id == db.rows[i].id;
    }
  }

  class CommentRepositoryImpl {
    var rows: seq<Comment>
    const refused: set<CommentCommand>

    function Model(): CommentDb
      reads this
    {
      CommentDb(rows, refused)
    }

    constructor(rows: seq<Comment>, refused: set<CommentCommand>)
      ensures Model() == CommentDb(rows, refused)
    {
      this.rows := rows;
      this.refused := refused;
    }

    method GetAllForPost(postId: Uuid) returns (r: Result<seq<Comment>>)
      ensures r == GetAllForPostSpec(Model(), postId)
    {
      if SelectForPost(postId) in refused {
        return Err(InternalServerError(BackendMessage));
      }
      r := Ok(ForPost(rows, postId));
    }

    method GetOne(id: Uuid) returns (r: Result<Comment>)
      ensures r == GetOneSpec(Model(), id)
    {
      var k := IndexOf(rows, id);
      if SelectComment(id) in refused || k < 0 {
        return Err(NotFound(NotFoundMessage));
      }
      r := Ok(rows[k]);
    }

    method Create(comment: Comment, freshId: Uuid, now: Timestamp) returns (r: Result<Comment>)
      modifies this
      ensures (r, Model()) == CreateCommentSpec(old(Model()), comment, freshId, now)
    {
      if InsertComment in refused || IndexOf(rows, freshId) != -1 {
        return Err(InternalServerError(BackendMessage));
      }
      var created := Comment(freshId, comment.body, comment.userId, comment.postId, now, now);
      rows := rows + [created];
      r := Ok(created);
    }

    method Update(comment: Comment) returns (r: Result<Comment>)
      modifies this
      ensures (r, Model()) == UpdateCommentSpec(old(Model()), comment)
    {
      var k := IndexOf(rows, comment.id);
      if UpdateComment(comment.id) in refused || k < 0 {
        return Err(InternalServerError(BackendMessage));
      }
      var updated := rows[k].(body := comment.body, userId := comment.userId, postId := comment.postId);
      rows := rows[k := updated];
      r := Ok(updated);
    }
  }
}

/** `src/services/comment_service.rs`: comments. An update changes the body and nothing
    else; the other operations go straight to the repository. */
module CommentService {
  import opened Uuids
  import opened Errors
  import opened Models
  import opened Dtos
  import opened CommentMapper
  import opened CommentRepository

  /** `update`: the stored comment with the request's body. */
  function UpdateSpec(db: CommentDb, comment: Comment): (Result<Comment>, CommentDb)
  {
    match GetOneSpec(db, comment.id)
    case Err(e) => (Err(e), db)
    case Ok(stored) => UpdateCommentSpec(db, stored.(body := comment.body))
  }

  /** Updating a comment that cannot be found returns the lookup's `NotFound` and changes
      nothing. */
  lemma UpdateUnknown(db: CommentDb, comment: Comment)
    requires SelectComment(comment.id) in db.refused || forall i | 0 <= i < |db.rows| :: db.rows[i].id != comment.id
    ensures UpdateSpec(db, comment) == (Err(NotFound(NotFoundMessage)), db)
  {
  }

  /** A successful update replaced the body of the stored comment and nothing else: id,
      author, post and timestamps are the stored ones. */
  lemma UpdateSuccess(db: CommentDb, comment: Comment)
    requires UpdateSpec(db, comment).0.Ok?
    ensures IndexOf(db.rows, comment.id) >= 0
    ensures var k := IndexOf(db.rows, comment.id);
            && UpdateSpec(db, comment).0.value == db.rows[k].(body := comment.body)
            && UpdateSpec(db, comment).1 == db.(rows := db.rows[k := db.rows[k].(body := comment.body)])
  {
  }

  /** The request's author, post and timestamps play no part in an update. */
  lemma UpdateIgnoresOtherFields(db: CommentDb, a: Comment, b: Comment)
    requires a.id == b.id && a.body == b.body
    ensures UpdateSpec(db, a) == UpdateSpec(db, b)
  {
  }

  /** Updating twice with the same body leaves the table as updating once does. */
  lemma UpdateIdempotent(db: CommentDb, comment: Comment)
    requires UpdateSpec(db, comment).0.Ok?
    ensures UpdateSpec(UpdateSpec(db, comment).1, comment) == UpdateSpec(db, comment)
  {
    UpdateSuccess(db, comment);
    var k := IndexOf(db.rows, comment.id);
    var rows' := db.rows[k := db.rows[k].(body := comment.body)];
    assert forall i | 0 <= i < |rows'| :: rows'[i].id == db.rows[i].id;
    assert IndexOf(rows', comment.id) == k;
    assert rows'[k := rows'[k].(body := comment.body)] == rows';
  }

  /** A comment created from a request belongs to the request's post and to the user whose
      claims the handler copied in, and has the request's body. */
  lemma CreateFromRequest(db: CommentDb, dto: CommentRequestDto, sub: Uuid, freshId: Uuid, now: Timestamp)
    requires InsertComment !in db.refused && IndexOf(db.rows, freshId) == -1
    ensures CreateCommentSpec(db, FromDtoToComment(dto).(userId := sub), freshId, now).0
         == Ok(Comment(freshId, dto.body, sub, dto.postId, now, now))
  {
  }

  class CommentServiceImpl {
    const repo: CommentRepositoryImpl

    constructor(repo: CommentRepositoryImpl)
      ensures this.repo == repo
    {
      this.repo := repo;
    }

    /** `get_all_for_post`: the repository's answer. */
    method GetAllForPost(postId: Uuid) returns (r: Result<seq<Comment>>)
      ensures r == GetAllForPostSpec(repo.Model(), postId)
    {
      r := repo.GetAllForPost(postId);
    }

    /** `get_one`: the repository's answer. */
    method GetOne(id: Uuid) returns (r: Result<Comment>)
      ensures r == GetOneSpec(repo.Model(), id)
    {
      r := repo.GetOne(id);
    }

    /** `create`: the comment goes to the repository unchanged. */
    method Create(comment: Comment, freshId: Uuid, now: Timestamp) returns (r: Result<Comment>)
      modifies repo
      ensures (r, repo.Model()) == CreateCommentSpec(old(repo.Model()), comment, freshId, now)
    {
      r := repo.Create(comment, freshId, now);
    }

    method Update(comment: Comment) returns (r: Result<Comment>)
      modifies repo
      ensures (r, repo.Model()) == UpdateSpec(old(repo.Model()), comment)
    {
      var found := GetOne(comment.id);
      if found.Err? {
        return Err(found.error);
      }
      var stored := found.value;
      stored := stored.(body := comment.body);
      r := repo.Update(stored);
    }
  }
}
