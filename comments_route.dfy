/** The forum comments endpoint (app/api/comments/route.ts): listing a post's comments with their
    authors' records, and creating a comment as the authenticated user. */
module CommentsRoute {
  import opened Wrappers
  import opened SharedTypes
  import opened Server
  import Seqs

  /** A user row, keyed in the store by its id. */
  datatype UserRow = UserRow(username: Option<string>, imageUrl: Option<string>, role: Role)

  /** The part of the store the endpoint reads and writes. */
  datatype Store = Store(comments: seq<Comment>, users: map<string, UserRow>)

  /** The fields the client sends; `userId` is sent too but the handler ignores it. */
  datatype CommentBody = CommentBody(content: Option<string>, postId: Option<string>, userId: Option<string>)

  datatype Body =
    | Error(message: string)
    | Listing(comments: seq<Comment>, userData: seq<UserData>)
    | CreatedComment(comment: Comment)

  datatype Outcome = Outcome(response: Response<Body>, store: Store)

  /** The author record for one comment: the user row with that id, or a USER-role placeholder. */
  function AuthorData(users: map<string, UserRow>, userId: string): (u: UserData)
    ensures u.id == userId
    ensures userId !in users ==> u.username.None? && u.imageUrl.None? && u.role == USER
    ensures userId in users ==>
      u.username == users[userId].username && u.imageUrl == users[userId].imageUrl && u.role == users[userId].role
  {
    if userId in users then
      var row := users[userId];
      UserData(userId, row.username, row.imageUrl, row.role)
    else
      UserData(userId, None, None, USER)
  }

  /** The post's comments, newest first, as the store's `where` and `orderBy` select them. */
  function NewestFirst(comments: seq<Comment>, postId: string): (r: seq<Comment>)
    ensures multiset(r) == multiset(Seqs.Filter(comments, (c: Comment) => c.postId == postId))
    ensures forall i, j :: 0 <= i < j < |r| ==> r[i].createdAt >= r[j].createdAt
  {
    Seqs.SortBy(Seqs.Filter(comments, (c: Comment) => c.postId == postId), (c: Comment) => -c.createdAt)
  }

  /** The listing holds exactly the stored comments of the post. */
  lemma NewestFirstMembers(comments: seq<Comment>, postId: string)
    ensures forall c :: c in NewestFirst(comments, postId) <==> c in comments && c.postId == postId
  {
    var matching := Seqs.Filter(comments, (c: Comment) => c.postId == postId);
    forall c ensures c in NewestFirst(comments, postId) <==> c in comments && c.postId == postId {
      Seqs.SortByMembers(matching, (c: Comment) => -c.createdAt, c);
      if c in comments && c.postId == postId {
        var k :| 0 <= k < |comments| && comments[k] == c;
      }
      if c in matching {
        var k :| 0 <= k < |matching| && matching[k] == c;
      }
    }
  }

  /** GET /api/comments?postId=…; `readFails` stands for a store query that throws. */
  function HandleGet(postId: Option<string>, store: Store, readFails: bool): (r: Response<Body>)
    ensures !Truthy(postId) ==> r == Response(BAD_REQUEST, Error("Post ID is required"))
    ensures Truthy(postId) && readFails ==> r == Response(INTERNAL_SERVER_ERROR, Error("Internal server error"))
    ensures Truthy(postId) && !readFails ==> r.status == OK && r.body.Listing?
    ensures r.body.Listing? ==>
      && (forall c :: c in r.body.comments <==> c in store.comments && c.postId == postId.value)
      && multiset(r.body.comments) == multiset(Seqs.Filter(store.comments, (c: Comment) => c.postId == postId.value))
      && (forall i, j :: 0 <= i < j < |r.body.comments| ==> r.body.comments[i].createdAt >= r.body.comments[j].createdAt)
      && |r.body.userData| == |r.body.comments|
      && (forall i :: 0 <= i < |r.body.comments| ==>
            r.body.userData[i] == AuthorData(store.users, r.body.comments[i].userId))
  {
    if !Truthy(postId) then
      Response(BAD_REQUEST, Error("Post ID is required"))
    else if readFails then
      Response(INTERNAL_SERVER_ERROR, Error("Internal server error"))
    else
      var newest := NewestFirst(store.comments, postId.value);
      NewestFirstMembers(store.comments, postId.value);
      Response(OK, Listing(newest, seq(|newest|, i requires 0 <= i < |newest| => AuthorData(store.users, newest[i].userId))))
  }

  /** POST /api/comments: `authUserId` is what the identity provider reports for the request. */
  function HandlePost(authUserId: Option<string>, body: Json<CommentBody>, store: Store, create: CreateOutcome): (r: Outcome)
    ensures !Truthy(authUserId) ==> r == Outcome(Response(UNAUTHORIZED, Error("Unauthorized")), store)
    ensures Truthy(authUserId) && body.Malformed? ==>
      r == Outcome(Response(INTERNAL_SERVER_ERROR, Error("Internal server error")), store)
    ensures Truthy(authUserId) && body.Parsed? && !(Truthy(body.value.content) && Truthy(body.value.postId)) ==>
      r == Outcome(Response(BAD_REQUEST, Error("Content and postId are required")), store)
    ensures Truthy(authUserId) && body.Parsed? && Truthy(body.value.content) && Truthy(body.value.postId) ==>
      match create
      case Threw => r == Outcome(Response(INTERNAL_SERVER_ERROR, Error("Internal server error")), store)
      case Created(id, at) =>
        var c := Comment(id, body.value.content.value, authUserId.value, at, body.value.postId.value);
        r == Outcome(Response(CREATED, CreatedComment(c)), store.(comments := store.comments + [c]))
    ensures r.store != store ==> r.response.status == CREATED
    ensures r.response.body.CreatedComment? ==> r.response.body.comment.userId == authUserId.value
  {
    if !Truthy(authUserId) then
      Outcome(Response(UNAUTHORIZED, Error("Unauthorized")), store)
    else match body
      case Malformed => Outcome(Response(INTERNAL_SERVER_ERROR, Error("Internal server error")), store)
      case Parsed(b) =>
        if !Truthy(b.content) || !Truthy(b.postId) then
          Outcome(Response(BAD_REQUEST, Error("Content and postId are required")), store)
        else match create
          case Threw => Outcome(Response(INTERNAL_SERVER_ERROR, Error("Internal server error")), store)
          case Created(id, at) =>
            var c := Comment(id, b.content.value, authUserId.value, at, b.postId.value);
            Outcome(Response(CREATED, CreatedComment(c)), store.(comments := store.comments + [c]))
  }

  /** The author of a created comment never depends on the `userId` the client put in the body. */
  lemma BodyUserIdIgnored(authUserId: Option<string>, b: CommentBody, claimed: Option<string>, store: Store, create: CreateOutcome)
    ensures HandlePost(authUserId, Parsed(b), store, create) == HandlePost(authUserId, Parsed(b.(userId := claimed)), store, create)
  {
  }

  /** Without an identity the body is never looked at: every body gets the same 401. */
  lemma UnauthenticatedIgnoresBody(authUserId: Option<string>, b1: Json<CommentBody>, b2: Json<CommentBody>, store: Store, create: CreateOutcome)
    requires !Truthy(authUserId)
    ensures HandlePost(authUserId, b1, store, create) == HandlePost(authUserId, b2, store, create)
  {
  }
}
