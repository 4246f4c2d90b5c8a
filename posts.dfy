/** `src/repository/post_repository.rs`: the `posts` table, keyed by id. A backend refuses a
    fixed set of statements, which is how failures enter the model. */
module PostRepository {
  import opened Uuids
  import opened Errors
  import opened Models

  const NotFoundMessage: string := "Not found."
  const BackendMessage: string := "Something went wrong."

  datatype PostCommand = SelectPost(id: Uuid) | InsertPost | UpdatePost(id: Uuid) | DeletePost(id: Uuid)

  datatype PostDb = PostDb(posts: map<Uuid, Post>, refused: set<PostCommand>)

  /** Every row is filed under its own id (the primary key). */
  predicate KeyedById(db: PostDb)
  {
    forall id | id in db.posts :: db.posts[id].id == id
  }

  /** `get_one`: any failure, a missing row included, is `NotFound`. */
  function GetOneSpec(db: PostDb, id: Uuid): (r: Result<Post>)
    ensures r.Ok? <==> SelectPost(id) !in db.refused && id in db.posts
    ensures r.Ok? ==> r.value == db.posts[id]
    ensures r.Err? ==> r.error == NotFound(NotFoundMessage)
  {
    if SelectPost(id) in db.refused || id !in db.posts then Err(NotFound(NotFoundMessage))
    else Ok(db.posts[id])
  }

  /** `create`: inserts title, body, image id and author; the database assigns the id
      (`freshId`) and both timestamps (`now`). */
  function CreatePostSpec(db: PostDb, post: Post, freshId: Uuid, now: Timestamp): (out: (Result<Post>, PostDb))
    ensures out.1.refused == db.refused
    ensures out.0.Ok? <==> InsertPost !in db.refused && freshId !in db.posts
    ensures out.0.Ok? ==> out.0.value == Post(freshId, post.title, post.body, post.imageId, post.userId, now, now)
                          && out.1.posts == db.posts[freshId := out.0.value]
    ensures out.0.Err? ==> out.0.error == InternalServerError(BackendMessage) && out.1 == db
  {
    if InsertPost in db.refused || freshId in db.posts then (Err(InternalServerError(BackendMessage)), db)
    else
      var created := Post(freshId, post.title, post.body, post.imageId, post.userId, now, now);
      (Ok(created), db.(posts := db.posts[freshId := created]))
  }

  /** `update`: `SET title, body, image_id, user_id WHERE id`; the timestamps are left as they
      are, and a missing row is an error. */
  function UpdatePostSpec(db: PostDb, post: Post): (out: (Result<Post>, PostDb))
    ensures out.1.refused == db.refused
    ensures out.0.Ok? <==> UpdatePost(post.id) !in db.refused && post.id in db.posts
    ensures out.0.Ok? ==> out.0.value == db.posts[post.id].(title := post.title, body := post.body,
                                                          imageId := post.imageId, userId := post.userId)
                          && out.1.posts == db.posts[post.id := out.0.value]
    ensures out.0.Err? ==> out.0.error == InternalServerError(BackendMessage) && out.1 == db
  {
    if UpdatePost(post.id) in db.refused || post.id !in db.posts then (Err(InternalServerError(BackendMessage)), db)
    else
      var updated := db.posts[post.id].(title := post.title, body := post.body,
                                        imageId := post.imageId, userId := post.userId);
      (Ok(updated), db.(posts := db.posts[post.id := updated]))
  }

  /** `delete`: `DELETE WHERE id`, which succeeds whether or not the row exists. */
  function DeletePostSpec(db: PostDb, id: Uuid): (out: (Result<()>, PostDb))
    ensures out.1.refused == db.refused
    ensures out.0.Ok? <==> DeletePost(id) !in db.refused
    ensures out.0.Ok? ==> out.1.posts == db.posts - {id}
    ensures out.0.Err? ==> out.0.error == InternalServerError(BackendMessage) && out.1 == db
  {
    if DeletePost(id) in db.refused then (Err(InternalServerError(BackendMessage)), db)
    else (Ok(()), db.(posts := db.posts - {id}))
  }

  class PostRepositoryImpl {
    var posts: map<Uuid, Post>
    const refused: set<PostCommand>

    function Model(): PostDb
      reads this
    {
      PostDb(posts, refused)
    }

    constructor(posts: map<Uuid, Post>, refused: set<PostCommand>)
      ensures Model() == PostDb(posts, refused)
    {
      this.posts := posts;
      this.refused := refused;
    }

    method GetOne(id: Uuid) returns (r: Result<Post>)
      ensures r == GetOneSpec(Model(), id)
    {
      if SelectPost(id) in refused || id !in posts {
        return Err(NotFound(NotFoundMessage));
      }
      r := Ok(posts[id]);
    }

    method Create(post: Post, freshId: Uuid, now: Timestamp) returns (r: Result<Post>)
      modifies this
      ensures (r, Model()) == CreatePostSpec(old(Model()), post, freshId, now)
    {
      if InsertPost in refused || freshId in posts {
        return Err(InternalServerError(BackendMessage));
      }
      var created := Post(freshId, post.title, post.body, post.imageId, post.userId, now, now);
      posts := posts[freshId := created];
      r := Ok(created);
    }

    method Update(post: Post) returns (r: Result<Post>)
      modifies this
      ensures (r, Model()) == UpdatePostSpec(old(Model()), post)
    {
      if UpdatePost(post.id) in refused || post.id !in posts {
        return Err(InternalServerError(BackendMessage));
      }
      var updated := posts[post.id].(title := post.title, body := post.body,
                                     imageId := post.imageId, userId := post.userId);
      posts := posts[post.id := updated];
      r := Ok(updated);
    }

    method Delete(id: Uuid) returns (r: Result<()>)
      modifies this
      ensures (r, Model()) == DeletePostSpec(old(Model()), id)
    {
      if DeletePost(id) in refused {
        return Err(InternalServerError(BackendMessage));
      }
      posts := posts - {id};
      r := Ok(());
    }
  }
}

/** `src/services/store_service.rs`: the S3 bucket of images, keyed by id. */
module StoreService {
  import opened Uuids
  import opened Errors
  import opened Models

  const SaveFailedMessage: string := "Error saving file."
  const DeleteFailedMessage: string := "Error deleting file."

  datatype StoreCommand = PutObject(id: Uuid) | DeleteObject(id: Uuid)

  datatype BlobStore = BlobStore(blobs: map<Uuid, Blob>, refused: set<StoreCommand>)

  /** `save`: the bytes and content type under a new random id (`freshId`), which is
      returned. */
  function SaveObjectSpec(store: BlobStore, content: seq<Byte>, contentType: string, freshId: Uuid): (out: (Result<Uuid>, BlobStore))
    ensures out.1.refused == store.refused
    ensures out.0.Ok? <==> PutObject(freshId) !in store.refused
    ensures out.0.Ok? ==> out.0.value == freshId && out.1.blobs == store.blobs[freshId := Blob(content, contentType)]
    ensures out.0.Err? ==> out.0.error == InternalServerError(SaveFailedMessage) && out.1 == store
  {
    if PutObject(freshId) in store.refused then (Err(InternalServerError(SaveFailedMessage)), store)
    else (Ok(freshId), store.(blobs := store.blobs[freshId := Blob(content, contentType)]))
  }

  /** `delete`: removes the object; deleting an absent object succeeds. */
  function DeleteObjectSpec(store: BlobStore, id: Uuid): (out: (Result<()>, BlobStore))
    ensures out.1.refused == store.refused
    ensures out.0.Ok? <==> DeleteObject(id) !in store.refused
    ensures out.0.Ok? ==> out.1.blobs == store.blobs - {id}
    ensures out.0.Err? ==> out.0.error == InternalServerError(DeleteFailedMessage) && out.1 == store
  {
    if DeleteObject(id) in store.refused then (Err(InternalServerError(DeleteFailedMessage)), store)
    else (Ok(()), store.(blobs := store.blobs - {id}))
  }

  class StoreServiceImpl {
    var blobs: map<Uuid, Blob>
    const refused: set<StoreCommand>

    function Model(): BlobStore
      reads this
    {
      BlobStore(blobs, refused)
    }

    constructor(blobs: map<Uuid, Blob>, refused: set<StoreCommand>)
      ensures Model() == BlobStore(blobs, refused)
    {
      this.blobs := blobs;
      this.refused := refused;
    }

    method Save(content: seq<Byte>, contentType: string, freshId: Uuid) returns (r: Result<Uuid>)
      modifies this
      ensures (r, Model()) == SaveObjectSpec(old(Model()), content, contentType, freshId)
    {
      if PutObject(freshId) in refused {
        return Err(InternalServerError(SaveFailedMessage));
      }
      blobs := blobs[freshId := Blob(content, contentType)];
      r := Ok(freshId);
    }

    method Delete(id: Uuid) returns (r: Result<()>)
      modifies this
      ensures (r, Model()) == DeleteObjectSpec(old(Model()), id)
    {
      if DeleteObject(id) in refused {
        return Err(InternalServerError(DeleteFailedMessage));
      }
      blobs := blobs - {id};
      r := Ok(());
    }
  }
}

/** `src/services/post_service.rs`: posts and their images. The nil id is the "no image"
    value. The service orders its writes to the two stores with early returns and undoes
    nothing. */
module PostService {
  import opened Uuids
  import opened Errors
  import opened Models
  import opened Dtos
  import opened PostMapper
  import opened PostRepository
  import opened StoreService

  /** `update`: the stored post with the request's title and body; its id, image and author
      stay. */
  function UpdateSpec(db: PostDb, post: Post): (Result<Post>, PostDb)
  {
    match GetOneSpec(db, post.id)
    case Err(e) => (Err(e), db)
    case Ok(stored) => UpdatePostSpec(db, stored.(title := post.title, body := post.body))
  }

  /** `add_image`: upload the new image, look the post up, delete its old image if it has one,
      then point the post at the new image. */
  function AddImageSpec(db: PostDb, store: BlobStore, id: Uuid, content: seq<Byte>, contentType: string, freshId: Uuid)
    : (Result<Post>, PostDb, BlobStore)
  {
    var (saved, store1) := SaveObjectSpec(store, content, contentType, freshId);
    if saved.Err? then (Err(saved.error), db, store1)
    else
      match GetOneSpec(db, id)
      case Err(e) => (Err(e), db, store1)
      case Ok(post) =>
        var (deleted, store2) := if post.imageId != Nil then DeleteObjectSpec(store1, post.imageId) else (Ok(()), store1);
        if deleted.Err? then (Err(deleted.error), db, store2)
        else
          var (updated, db') := UpdatePostSpec(db, post.(imageId := saved.value));
          (updated, db', store2)
  }

  /** `delete`: look the post up, delete its image if it has one, then delete the row. */
  function DeleteSpec(db: PostDb, store: BlobStore, id: Uuid): (Result<()>, PostDb, BlobStore)
  {
    match GetOneSpec(db, id)
    case Err(e) => (Err(e), db, store)
    case Ok(post) =>
      var (deleted, store') := if post.imageId != Nil then DeleteObjectSpec(store, post.imageId) else (Ok(()), store);
      if deleted.Err? then (Err(deleted.error), db, store')
      else
        var (removed, db') := DeletePostSpec(db, id);
        (removed, db', store')
  }

  /** Every image a post points at is in the store. */
  predicate ImagesStored(db: PostDb, store: BlobStore)
  {
    forall id | id in db.posts && db.posts[id].imageId != Nil :: db.posts[id].imageId in store.blobs
  }

  /** No two posts point at the same image. */
  predicate ImagesUnshared(db: PostDb)
  {
    forall a, b | a in db.posts && b in db.posts && a != b && db.posts[a].imageId != Nil ::
      db.posts[a].imageId != db.posts[b].imageId
  }

  /** Every operation of the service keeps rows filed under their own ids. */
  lemma OperationsKeepKeying(db: PostDb, store: BlobStore, post: Post, id: Uuid, content: seq<Byte>, contentType: string,
                             freshId: Uuid, now: Timestamp)
    requires KeyedById(db)
    ensures KeyedById(CreatePostSpec(db, post, freshId, now).1)
    ensures KeyedById(UpdateSpec(db, post).1)
    ensures KeyedById(AddImageSpec(db, store, id, content, contentType, freshId).1)
    ensures KeyedById(DeleteSpec(db, store, id).1)
  {
  }

  /** A post created from a request belongs to the user whose claims the handler copied in,
      has the request's title and body, and no image. */
  lemma CreateFromRequest(db: PostDb, dto: PostRequestDto, sub: Uuid, freshId: Uuid, now: Timestamp)
    requires InsertPost !in db.refused && freshId !in db.posts
    ensures CreatePostSpec(db, FromDtoToPost(dto).(userId := sub), freshId, now).0
         == Ok(Post(freshId, dto.title, dto.body, Nil, sub, now, now))
  {
  }

  // ---- update ----

  /** Updating a post that cannot be found is `NotFound` and changes nothing. */
  lemma UpdateUnknown(db: PostDb, post: Post)
    requires SelectPost(post.id) in db.refused || post.id !in db.posts
    ensures UpdateSpec(db, post) == (Err(NotFound(NotFoundMessage)), db)
  {
  }

  /** A successful update changed title and body and nothing else of the stored post. */
  lemma UpdateSuccess(db: PostDb, post: Post)
    requires KeyedById(db)
    requires UpdateSpec(db, post).0.Ok?
    ensures post.id in db.posts
    ensures UpdateSpec(db, post).0.value == db.posts[post.id].(title := post.title, body := post.body)
    ensures UpdateSpec(db, post).1 == db.(posts := db.posts[post.id := UpdateSpec(db, post).0.value])
  {
  }

  /** The request's image, author and timestamps play no part in an update. */
  lemma UpdateIgnoresOtherFields(db: PostDb, p: Post, q: Post)
    requires p.id == q.id && p.title == q.title && p.body == q.body
    ensures UpdateSpec(db, p) == UpdateSpec(db, q)
  {
  }

  // ---- add_image ----

  /** A successful `add_image` points the post at the new image, stores the new image and
      removes the old one, if there was one. */
  lemma AddImageSuccess(db: PostDb, store: BlobStore, id: Uuid, content: seq<Byte>, contentType: string, freshId: Uuid)
    requires KeyedById(db)
    requires AddImageSpec(db, store, id, content, contentType, freshId).0.Ok?
    ensures id in db.posts
    ensures AddImageSpec(db, store, id, content, contentType, freshId).0.value == db.posts[id].(imageId := freshId)
    ensures AddImageSpec(db, store, id, content, contentType, freshId).1.posts
         == db.posts[id := db.posts[id].(imageId := freshId)]
    ensures AddImageSpec(db, store, id, content, contentType, freshId).2.blobs
         == if db.posts[id].imageId != Nil then store.blobs[freshId := Blob(content, contentType)] - {db.posts[id].imageId}
            else store.blobs[freshId := Blob(content, contentType)]
  {
  }

  /** With a fresh id, the new image is in the store after a successful `add_image`. */
  lemma AddImageStoresImage(db: PostDb, store: BlobStore, id: Uuid, content: seq<Byte>, contentType: string, freshId: Uuid)
    requires KeyedById(db)
    requires AddImageSpec(db, store, id, content, contentType, freshId).0.Ok?
    requires ImagesStored(db, store) && freshId !in store.blobs
    ensures AddImageSpec(db, store, id, content, contentType, freshId).2.blobs[freshId] == Blob(content, contentType)
  {
    AddImageSuccess(db, store, id, content, contentType, freshId);
  }

  /** `add_image` on a post that cannot be found fails with `NotFound`; the table is
      unchanged but the image uploaded first stays in the store, pointed at by no post. */
  lemma AddImageMissingPost(db: PostDb, store: BlobStore, id: Uuid, content: seq<Byte>, contentType: string, freshId: Uuid)
    requires PutObject(freshId) !in store.refused
    requires SelectPost(id) in db.refused || id !in db.posts
    ensures AddImageSpec(db, store, id, content, contentType, freshId)
         == (Err(NotFound(NotFoundMessage)), db, store.(blobs := store.blobs[freshId := Blob(content, contentType)]))
  {
  }

  /** When the old image cannot be deleted, the error is returned and the post row is not
      updated (the new image stays in the store). */
  lemma AddImageOldDeleteFails(db: PostDb, store: BlobStore, id: Uuid, content: seq<Byte>, contentType: string, freshId: Uuid)
    requires PutObject(freshId) !in store.refused
    requires SelectPost(id) !in db.refused && id in db.posts
    requires db.posts[id].imageId != Nil && DeleteObject(db.posts[id].imageId) in store.refused
    ensures AddImageSpec(db, store, id, content, contentType, freshId)
         == (Err(InternalServerError(DeleteFailedMessage)), db,
             store.(blobs := store.blobs[freshId := Blob(content, contentType)]))
  {
  }

  /** On a post with no image, `add_image` deletes nothing. */
  lemma AddImageNoOldImage(db: PostDb, store: BlobStore, id: Uuid, content: seq<Byte>, contentType: string, freshId: Uuid)
    requires PutObject(freshId) !in store.refused
    requires SelectPost(id) !in db.refused && id in db.posts && db.posts[id].imageId == Nil
    ensures AddImageSpec(db, store, id, content, contentType, freshId).2
         == store.(blobs := store.blobs[freshId := Blob(content, contentType)])
  {
  }

  /** The old image is deleted before the post is re-pointed, so when that last write fails
      the post still points at an image that is no longer in the store. */
  lemma AddImageUpdateFailureDangles(db: PostDb, store: BlobStore, id: Uuid, content: seq<Byte>, contentType: string,
                                     freshId: Uuid)
    requires KeyedById(db)
    requires PutObject(freshId) !in store.refused
    requires SelectPost(id) !in db.refused && id in db.posts
    requires db.posts[id].imageId != Nil && db.posts[id].imageId != freshId
    requires DeleteObject(db.posts[id].imageId) !in store.refused
    requires UpdatePost(id) in db.refused
    ensures AddImageSpec(db, store, id, content, contentType, freshId).0 == Err(InternalServerError(BackendMessage))
    ensures AddImageSpec(db, store, id, content, contentType, freshId).1 == db
    ensures db.posts[id].imageId !in AddImageSpec(db, store, id, content, contentType, freshId).2.blobs
    ensures !ImagesStored(db, AddImageSpec(db, store, id, content, contentType, freshId).2)
  {
  }

  /** A successful `add_image` with a fresh id keeps every post's image in the store and
      keeps images unshared. */
  lemma AddImagePreservesImages(db: PostDb, store: BlobStore, id: Uuid, content: seq<Byte>, contentType: string, freshId: Uuid)
    requires KeyedById(db)
    requires ImagesStored(db, store) && ImagesUnshared(db) && freshId !in store.blobs
    requires AddImageSpec(db, store, id, content, contentType, freshId).0.Ok?
    ensures ImagesStored(AddImageSpec(db, store, id, content, contentType, freshId).1,
                         AddImageSpec(db, store, id, content, contentType, freshId).2)
    ensures ImagesUnshared(AddImageSpec(db, store, id, content, contentType, freshId).1)
  {
    AddImageSuccess(db, store, id, content, contentType, freshId);
    var (_, db', store') := AddImageSpec(db, store, id, content, contentType, freshId);
    var previous := db.posts[id].imageId;
    forall k | k in db'.posts && db'.posts[k].imageId != Nil
      ensures db'.posts[k].imageId in store'.blobs
    {
      if k != id {
        assert db'.posts[k] == db.posts[k];
        assert db.posts[k].imageId != previous;
        assert db.posts[k].imageId != freshId;
      }
    }
  }

  // ---- delete ----

  /** A successful delete removed the row and, if the post had an image, that image. */
  lemma DeleteSuccess(db: PostDb, store: BlobStore, id: Uuid)
    requires DeleteSpec(db, store, id).0.Ok?
    ensures id in db.posts
    ensures DeleteSpec(db, store, id).1 == db.(posts := db.posts - {id})
    ensures DeleteSpec(db, store, id).2
         == if db.posts[id].imageId != Nil then store.(blobs := store.blobs - {db.posts[id].imageId}) else store
  {
  }

  /** When the image cannot be deleted, the row stays. */
  lemma DeleteImageFailureKeepsRow(db: PostDb, store: BlobStore, id: Uuid)
    requires SelectPost(id) !in db.refused && id in db.posts
    requires db.posts[id].imageId != Nil && DeleteObject(db.posts[id].imageId) in store.refused
    ensures DeleteSpec(db, store, id) == (Err(InternalServerError(DeleteFailedMessage)), db, store)
  {
  }

  /** Deleting a post without an image never touches the store. */
  lemma DeleteWithoutImageKeepsStore(db: PostDb, store: BlobStore, id: Uuid)
    requires id in db.posts ==> db.posts[id].imageId == Nil
    ensures DeleteSpec(db, store, id).2 == store
  {
  }

  /** A successful delete keeps every remaining post's image in the store. */
  lemma DeletePreservesImages(db: PostDb, store: BlobStore, id: Uuid)
    requires ImagesStored(db, store) && ImagesUnshared(db)
    requires DeleteSpec(db, store, id).0.Ok?
    ensures ImagesStored(DeleteSpec(db, store, id).1, DeleteSpec(db, store, id).2)
    ensures ImagesUnshared(DeleteSpec(db, store, id).1)
  {
    DeleteSuccess(db, store, id);
    var (_, db', store') := DeleteSpec(db, store, id);
    forall k | k in db'.posts && db'.posts[k].imageId != Nil
      ensures db'.posts[k].imageId in store'.blobs
    {
      assert k != id && db'.posts[k] == db.posts[k];
    }
  }

  class PostServiceImpl {
    const repo: PostRepositoryImpl
    const store: StoreServiceImpl

    constructor(repo: PostRepositoryImpl, store: StoreServiceImpl)
      ensures this.repo == repo && this.store == store
    {
      this.repo := repo;
      this.store := store;
    }

    /** `get_one`: the repository's answer. */
    method GetOne(id: Uuid) returns (r: Result<Post>)
      ensures r == GetOneSpec(repo.Model(), id)
    {
      r := repo.GetOne(id);
    }

    /** `create`: the post goes to the repository unchanged. */
    method Create(post: Post, freshId: Uuid, now: Timestamp) returns (r: Result<Post>)
      modifies repo
      ensures (r, repo.Model()) == CreatePostSpec(old(repo.Model()), post, freshId, now)
    {
      r := repo.Create(post, freshId, now);
    }

    method Update(post: Post) returns (r: Result<Post>)
      modifies repo
      ensures (r, repo.Model()) == UpdateSpec(old(repo.Model()), post)
    {
      var found := GetOne(post.id);
      if found.Err? {
        return Err(found.error);
      }
      var stored := found.value;
      stored := stored.(title := post.title);
      stored := stored.(body := post.body);
      r := repo.Update(stored);
    }

    method AddImage(id: Uuid, content: seq<Byte>, contentType: string, freshId: Uuid) returns (r: Result<Post>)
      modifies repo, store
      ensures (r, repo.Model(), store.Model())
           == AddImageSpec(old(repo.Model()), old(store.Model()), id, content, contentType, freshId)
    {
      var saved := store.Save(content, contentType, freshId);
      if saved.Err? {
        return Err(saved.error);
      }
      var imageId := saved.value;
      var found := GetOne(id);
      if found.Err? {
        return Err(found.error);
      }
      var post := found.value;
      if post.imageId != Nil {
        var deleted := store.Delete(post.imageId);
        if deleted.Err? {
          return Err(deleted.error);
        }
      }
      post := post.(imageId := imageId);
      r := repo.Update(post);
    }

    method Delete(id: Uuid) returns (r: Result<()>)
      modifies repo, store
      ensures (r, repo.Model(), store.Model()) == DeleteSpec(old(repo.Model()), old(store.Model()), id)
    {
      var found := GetOne(id);
      if found.Err? {
        return Err(found.error);
      }
      var post := found.value;
      if post.imageId != Nil {
        var deleted := store.Delete(post.imageId);
        if deleted.Err? {
          return Err(deleted.error);
        }
      }
      r := repo.Delete(id);
    }
  }
}
