/** `src/mappers/post_mapper.rs`: between the post payloads and the post record. */
module PostMapper {
  import opened Uuids
  import opened Models
  import opened Dtos

  /** Where the image proxy serves an image; the URL is this prefix and the image id. */
  const ImagePathPrefix: string := "/assets/images/"

  /** `from_dto_to_post`: only title and body come from the request; the ids are nil and the
      timestamps the epoch (the store assigns the real ones). */
  function FromDtoToPost(dto: PostRequestDto): (p: Post)
    ensures p.title == dto.title && p.body == dto.body
    ensures p.id == Nil && p.imageId == Nil && p.userId == Nil
    ensures p.createdAt == Epoch && p.updatedAt == Epoch
  {
    Post(Nil, dto.title, dto.body, Nil, Nil, Epoch, Epoch)
  }

  /** The `image_url` rule of `from_post_to_dto`: empty exactly when there is no image. */
  function ImageUrl(imageId: Uuid): (url: string)
    ensures url == [] <==> imageId == Nil
    ensures imageId != Nil ==> url == ImagePathPrefix + ToString(imageId)
  {
    if imageId != Nil then ImagePathPrefix + ToString(imageId) else ""
  }

  /** `from_post_to_dto`: ids as text, text fields and timestamps copied, image as a URL. */
  function FromPostToDto(model: Post): (d: PostResponseDto)
    ensures d.id == ToString(model.id) && d.userId == ToString(model.userId)
    ensures d.title == model.title && d.body == model.body
    ensures d.createdAt == model.createdAt && d.updatedAt == model.updatedAt
    ensures d.imageUrl == [] <==> model.imageId == Nil
    ensures model.imageId != Nil ==> d.imageUrl == ImagePathPrefix + ToString(model.imageId)
  {
    var imageUrl := ImageUrl(model.imageId);
    PostResponseDto(ToString(model.id), model.title, model.body, imageUrl,
                    ToString(model.userId), model.updatedAt, model.createdAt)
  }

  /** Stripping the prefix from an image URL gives back the id's text. */
  lemma ImageUrlStripsToId(imageId: Uuid)
    requires imageId != Nil
    ensures ImageUrl(imageId)[..|ImagePathPrefix|] == ImagePathPrefix
    ensures ImageUrl(imageId)[|ImagePathPrefix|..] == ToString(imageId)
  {
  }

  /** The URL names the image: different images never share a URL. */
  lemma ImageUrlInjective(a: Uuid, b: Uuid)
    requires ImageUrl(a) == ImageUrl(b)
    ensures a == b
  {
    if a != Nil && b != Nil {
      ImageUrlStripsToId(a);
      ImageUrlStripsToId(b);
      ToStringInjective(a, b);
    }
  }

  /** A freshly mapped request, shown back, has the request's title and body, no image URL,
      and nil ids. */
  lemma RequestShownBack(dto: PostRequestDto)
    ensures FromPostToDto(FromDtoToPost(dto)).title == dto.title
    ensures FromPostToDto(FromDtoToPost(dto)).body == dto.body
    ensures FromPostToDto(FromDtoToPost(dto)).imageUrl == ""
    ensures FromPostToDto(FromDtoToPost(dto)).id == NilString
    ensures FromPostToDto(FromDtoToPost(dto)).userId == NilString
  {
    NilToString();
  }
}

/** `src/mappers/comment_mapper.rs`: between the comment payloads and the comment record. */
module CommentMapper {
  import opened Uuids
  import opened Models
  import opened Dtos

  /** `from_dto_to_comment`: body and post id come from the request, the other ids are nil. */
  function FromDtoToComment(dto: CommentRequestDto): (c: Comment)
    ensures c.body == dto.body && c.postId == dto.postId
    ensures c.id == Nil && c.userId == Nil
    ensures c.createdAt == Epoch && c.updatedAt == Epoch
  {
    Comment(Nil, dto.body, Nil, dto.postId, Epoch, Epoch)
  }

  /** `from_comment_to_dto`: ids as text, body and timestamps copied. */
  function FromCommentToDto(model: Comment): (d: CommentResponseDto)
    ensures d.id == ToString(model.id) && d.userId == ToString(model.userId)
    ensures d.postId == ToString(model.postId)
    ensures d.body == model.body
    ensures d.createdAt == model.createdAt && d.updatedAt == model.updatedAt
  {
    CommentResponseDto(ToString(model.id), model.body, ToString(model.userId),
                       ToString(model.postId), model.updatedAt, model.createdAt)
  }

  /** The response names the comment's post: distinct posts give distinct `postId` texts. */
  lemma PostIdTextNamesPost(a: Comment, b: Comment)
    requires FromCommentToDto(a).postId == FromCommentToDto(b).postId
    ensures a.postId == b.postId
  {
    ToStringInjective(a.postId, b.postId);
  }
}

/** `src/mappers/auth_mapper.rs`: the login request as a user record to check. */
module AuthMapper {
  import opened Uuids
  import opened Models
  import opened Dtos

  /** `from_login_dto_to_user`: email and the cleartext password are copied; nothing else
      is known, so the id is nil and the username empty. */
  function FromLoginDtoToUser(dto: LoginRequestDto): (u: User)
    ensures u.email == dto.email && u.password == dto.password
    ensures u.id == Nil && u.username == ""
    ensures u.createdAt == Epoch && u.updatedAt == Epoch
  {
    User(Nil, dto.email, "", dto.password, Epoch, Epoch)
  }
}

/** `src/utils/mapper_util.rs`: mapping a list of records to a list of payloads. */
module MapperUtil {

  /** `from_model_to_dto_list`: `transform` applied to each element, in order. */
  function FromModelToDtoList<M, D>(models: seq<M>, transform: M -> D): (dtos: seq<D>)
    ensures |dtos| == |models|
    ensures forall i | 0 <= i < |models| :: dtos[i] == transform(models[i])
  {
    if models == [] then [] else [transform(models[0])] + FromModelToDtoList(models[1..], transform)
  }

  /** Mapping a concatenation is concatenating the mappings. */
  lemma {:induction false} MapDistributes<M, D>(a: seq<M>, b: seq<M>, transform: M -> D)
    ensures FromModelToDtoList(a + b, transform)
         == FromModelToDtoList(a, transform) + FromModelToDtoList(b, transform)
  {
    if a == [] {
      assert a + b == b;
    } else {
      assert (a + b)[1..] == a[1..] + b;
      MapDistributes(a[1..], b, transform);
    }
  }
}
