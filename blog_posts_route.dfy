/** The blog post creation endpoint (app/api/blog-posts/route.ts). */
module BlogPostsRoute {
  import opened Wrappers
  import opened SharedTypes
  import opened Server

  datatype BlogBody = BlogBody(title: Option<string>, content: Option<string>)

  datatype Body = Error(message: string) | CreatedPost(post: BlogPost)

  datatype Outcome = Outcome(response: Response<Body>, posts: seq<BlogPost>)

  /** POST /api/blog-posts as written: the body is read before the identity is checked, and any
      authenticated caller may create a post. */
  function HandlePost(body: Json<BlogBody>, authUserId: Option<string>, posts: seq<BlogPost>, create: CreateOutcome): (r: Outcome)
    ensures body.Malformed? ==> r == Outcome(Response(INTERNAL_SERVER_ERROR, Error("Failed to create blog post")), posts)
    ensures body.Parsed? && !Truthy(authUserId) ==> r == Outcome(Response(UNAUTHORIZED, Error("Unauthorized")), posts)
    ensures body.Parsed? && Truthy(authUserId) ==>
      match create
      case Threw => r == Outcome(Response(INTERNAL_SERVER_ERROR, Error("Failed to create blog post")), posts)
      case Created(id, _) =>
        var p := BlogPost(id, body.value.title, body.value.content, authUserId.value);
        r == Outcome(Response(OK, CreatedPost(p)), posts + [p])
    ensures r.posts != posts ==> r.response.status == OK && Truthy(authUserId)
  {
    match body
    case Malformed => Outcome(Response(INTERNAL_SERVER_ERROR, Error("Failed to create blog post")), posts)
    case Parsed(b) =>
      if !Truthy(authUserId) then
        Outcome(Response(UNAUTHORIZED, Error("Unauthorized")), posts)
      else match create
        case Threw => Outcome(Response(INTERNAL_SERVER_ERROR, Error("Failed to create blog post")), posts)
        case Created(id, _) =>
          var p := BlogPost(id, b.title, b.content, authUserId.value);
          Outcome(Response(OK, CreatedPost(p)), posts + [p])
  }

  /** A malformed body is reported as a server error even to a caller with no identity. */
  lemma MalformedBeforeUnauthorized(authUserId: Option<string>, posts: seq<BlogPost>, create: CreateOutcome)
    requires !Truthy(authUserId)
    ensures HandlePost(Malformed, authUserId, posts, create).response.status == INTERNAL_SERVER_ERROR
  {
  }

  /** As written the handler never answers 403, although the editor has a branch for it: whatever
      role the caller holds, a successful insert yields 200 and a stored post. */
  lemma NeverForbidden(body: Json<BlogBody>, authUserId: Option<string>, posts: seq<BlogPost>, create: CreateOutcome)
    ensures HandlePost(body, authUserId, posts, create).response.status != FORBIDDEN
  {
  }

  /** The intended endpoint: as written, plus the role check the editor expects, answering 403 to any
      authenticated caller whose role (looked up by the identity) is not ADMIN. */
  function HandlePostAdminOnly(body: Json<BlogBody>, authUserId: Option<string>, roleOf: map<string, Role>,
                               posts: seq<BlogPost>, create: CreateOutcome): (r: Outcome)
    ensures r.posts != posts ==> Truthy(authUserId) && authUserId.value in roleOf && roleOf[authUserId.value] == ADMIN
    ensures body.Parsed? && Truthy(authUserId) && !(authUserId.value in roleOf && roleOf[authUserId.value] == ADMIN) ==>
      r == Outcome(Response(FORBIDDEN, Error("Forbidden")), posts)
    ensures Truthy(authUserId) && authUserId.value in roleOf && roleOf[authUserId.value] == ADMIN ==>
      r == HandlePost(body, authUserId, posts, create)
  {
    match body
    case Malformed => HandlePost(body, authUserId, posts, create)
    case Parsed(_) =>
      if !Truthy(authUserId) then HandlePost(body, authUserId, posts, create)
      else if !(authUserId.value in roleOf && roleOf[authUserId.value] == ADMIN) then
        Outcome(Response(FORBIDDEN, Error("Forbidden")), posts)
      else HandlePost(body, authUserId, posts, create)
  }

  /** A concrete input that shows the gap: a caller whose row says USER gets 200 and a stored post from
      the endpoint as written, and 403 with nothing stored from the intended one. */
  lemma PlainUserCreatesBlogPost()
    ensures
      var body, roles := Parsed(BlogBody(Some("t"), Some("c"))), map["u1" := USER];
      var asWritten := HandlePost(body, Some("u1"), [], Created("p1", 0));
      var intended := HandlePostAdminOnly(body, Some("u1"), roles, [], Created("p1", 0));
      && asWritten.response.status == OK && asWritten.posts == [BlogPost("p1", Some("t"), Some("c"), "u1")]
      && intended.response.status == FORBIDDEN && intended.posts == []
  {
  }
}
