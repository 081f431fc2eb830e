/** The forum post save endpoint (app/api/save-post/route.ts): a single unguarded insert. */
module SavePostRoute {
  import opened Wrappers
  import opened Server

  /** Every field comes from the request body, the author's id included. */
  datatype SaveBody = SaveBody(userId: Option<string>, content: Option<string>, title: Option<string>)

  /** A forum post row as this endpoint writes it: the fields are stored exactly as sent. */
  datatype ForumPost = ForumPost(id: string, userId: Option<string>, content: Option<string>, title: Option<string>)

  datatype Body = Saved(message: string, postId: string) | Failed(message: string)

  datatype Outcome = Outcome(response: Response<Body>, posts: seq<ForumPost>)

  /** POST /api/save-post: no identity is consulted and nothing is validated before the insert; a
      malformed body or a failing insert is the only way to be refused. `create` is the insert's
      outcome, taken as independent of the body. */
  function HandlePost(body: Json<SaveBody>, posts: seq<ForumPost>, create: CreateOutcome): (r: Outcome)
    ensures (body.Malformed? || create.Threw?) ==> r == Outcome(Response(INTERNAL_SERVER_ERROR, Failed("Error saving post")), posts)
    ensures body.Parsed? && create.Created? ==>
      && r.response == Response(OK, Saved("Post saved successfully", create.id))
      && r.posts == posts + [ForumPost(create.id, body.value.userId, body.value.content, body.value.title)]
    ensures r.response.status in {OK, INTERNAL_SERVER_ERROR}
  {
    match body
    case Malformed => Outcome(Response(INTERNAL_SERVER_ERROR, Failed("Error saving post")), posts)
    case Parsed(b) =>
      match create
      case Threw => Outcome(Response(INTERNAL_SERVER_ERROR, Failed("Error saving post")), posts)
      case Created(id, _) =>
        Outcome(Response(OK, Saved("Post saved successfully", id)), posts + [ForumPost(id, b.userId, b.content, b.title)])
  }

  /** Anyone can store a post under any author id they name: the stored author is the claimed one. */
  lemma AuthorIsWhateverTheBodyClaims(claimed: string, content: Option<string>, title: Option<string>,
                                      posts: seq<ForumPost>, id: string, at: int)
    ensures
      var r := HandlePost(Parsed(SaveBody(Some(claimed), content, title)), posts, Created(id, at));
      r.response.status == OK && r.posts[|posts|].userId == Some(claimed) && r.response.body.postId == r.posts[|posts|].id
  {
  }
}
