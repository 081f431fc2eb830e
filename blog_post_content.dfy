/** A blog post's page body (components/BlogPostContent.tsx): like the forum post's, but the post may not
    have loaded yet, and a missing title is shown as 'Untitled'. */
module BlogPostContent {
  import opened Wrappers
  import opened SharedTypes
  import opened Server
  import opened Client
  import DeleteRights

  const FORUM_HOME := "/forum"
  const UNTITLED := "Untitled"

  /** `canDelete`: never without a post; with one, the same rule as for forum posts. */
  function CanDelete(user: Option<SessionUser>, post: Option<BlogPost>, userData: Option<UserData>): (r: bool)
    ensures post.None? ==> !r
    ensures post.Some? ==> (r <==> user.Some? && (user.value.id == post.value.userId || (userData.Some? && userData.value.role == ADMIN)))
  {
    match post
    case None => false
    case Some(p) => DeleteRights.AuthorRoleRule(user, p.userId, userData)
  }

  /** `handleDeletePost`: nothing at all without a post; otherwise one DELETE request, and the router goes
      to the forum home only on an OK reply. */
  method HandleDeletePost(post: Option<BlogPost>, reply: Fetched<()>, router: Router) returns (requested: Option<string>)
    modifies router
    ensures post.None? ==> requested.None? && router.history == old(router.history)
    ensures post.Some? ==> requested == Some("/api/blogposts/" + post.value.id)
    ensures post.Some? && reply.Ok() ==> router.history == old(router.history) + [FORUM_HOME]
    ensures !(post.Some? && reply.Ok()) ==> router.history == old(router.history)
  {
    if post.None? {
      return None;
    }
    requested := Some("/api/blogposts/" + post.value.id);
    if reply.Ok() {
      router.Push(FORUM_HOME);
    }
  }

  /** `post.title || 'Untitled'`: the shown title is never empty. */
  function DisplayTitle(title: Option<string>): (shown: string)
    ensures Truthy(title) ==> shown == title.value
    ensures !Truthy(title) ==> shown == UNTITLED
    ensures shown != ""
  {
    if Truthy(title) then title.value else UNTITLED
  }

  datatype BlogView =
    | LoadingPost
    | Article(title: string, deleteControl: bool, authorName: string, avatar: string, content: Option<string>)

  /** Without a post only the loading text is shown; with one, the article. */
  function Render(user: Option<SessionUser>, post: Option<BlogPost>, userData: Option<UserData>): (v: BlogView)
    ensures post.None? <==> v == LoadingPost
    ensures post.Some? ==> && v.Article?
                           && v.title == DisplayTitle(post.value.title)
                           && (v.deleteControl <==> CanDelete(user, post, userData))
                           && v.authorName == DisplayName(userData)
                           && v.avatar == AvatarSource(userData)
                           && v.content == post.value.content
  {
    match post
    case None => LoadingPost
    case Some(p) => Article(DisplayTitle(p.title), CanDelete(user, post, userData), DisplayName(userData), AvatarSource(userData), p.content)
  }
}
