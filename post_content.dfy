/** A forum post's page body (components/PostContent.tsx): the post, its author record, the delete
    control and the delete action. `userData` is the post AUTHOR's record, as the post page passes it. */
module PostContent {
  import opened Wrappers
  import opened SharedTypes
  import opened Server
  import opened Client
  import DeleteRights

  const FORUM_HOME := "/forum"

  /** `canDelete`: a signed-in viewer who wrote the post, or any signed-in viewer when the author's record
      has role ADMIN; a MOD author record grants nothing beyond authorship. */
  function CanDelete(user: Option<SessionUser>, post: Post, userData: Option<UserData>): (r: bool)
    ensures user.None? ==> !r
    ensures user.Some? && user.value.id == post.userId ==> r
    ensures user.Some? && userData.Some? && userData.value.role == ADMIN ==> r
    ensures r ==> user.Some? && (user.value.id == post.userId || (userData.Some? && userData.value.role == ADMIN))
    ensures userData.Some? && userData.value.role == MOD ==> (r <==> user.Some? && user.value.id == post.userId)
  {
    DeleteRights.AuthorRoleRule(user, post.userId, userData)
  }

  /** The path the delete request goes to. */
  function DeletePath(post: Post): string {
    "/api/posts/" + post.id
  }

  /** `handleDeletePost`: one DELETE request; the router goes to the forum home only on an OK reply. */
  method HandleDeletePost(post: Post, reply: Fetched<()>, router: Router) returns (requested: string)
    modifies router
    ensures requested == DeletePath(post)
    ensures reply.Ok() ==> router.history == old(router.history) + [FORUM_HOME]
    ensures !reply.Ok() ==> router.history == old(router.history)
  {
    requested := DeletePath(post);
    if reply.Ok() {
      router.Push(FORUM_HOME);
    }
  }

  /** What the card shows. */
  datatype PostView = PostView(title: string, deleteControl: bool, authorName: string, avatar: string, commentCount: nat)

  function Render(user: Option<SessionUser>, post: Post, userData: Option<UserData>): (v: PostView)
    ensures v.deleteControl <==> CanDelete(user, post, userData)
    ensures v.title == post.title && v.commentCount == |post.comments|
    ensures v.authorName == DisplayName(userData) && v.authorName != ""
    ensures v.avatar == AvatarSource(userData)
  {
    PostView(post.title, CanDelete(user, post, userData), DisplayName(userData), AvatarSource(userData), |post.comments|)
  }
}
