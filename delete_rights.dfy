/** Who sees the delete control on a forum post, a blog post or a comment. All three components decide
    it with the same expression (components/CommentSection.tsx:210, components/PostContent.tsx:28-29,
    components/BlogPostContent.tsx:22): the viewer is signed in and either wrote the item or the user
    record shown beside the item has role ADMIN. That record is the AUTHOR's, so the rule grants the
    control to every signed-in viewer of an administrator's item and withholds it from an administrator
    viewing anyone else's, and from a moderator viewing anyone else's comment. */
module DeleteRights {
  import opened Wrappers
  import opened SharedTypes

  /** The rule as written: `user && (user.id === authorId || shownRow?.role === 'ADMIN')`, where
      `shownRow` is the record displayed with the item, possibly absent. */
  predicate AuthorRoleRule(user: Option<SessionUser>, authorId: string, shownRow: Option<UserData>) {
    match user
    case None => false
    case Some(u) => u.id == authorId || (shownRow.Some? && shownRow.value.role == ADMIN)
  }

  /** The roles whose holders the server lets delete anyone's item: administrators for posts and blog
      posts (app/api/posts/[id]/route.ts:25, app/api/blogposts/[id]/route.ts:26), administrators and
      moderators for comments (app/api/comments/[id]/route.ts:29-36). */
  const POST_DELETERS: set<Role> := {ADMIN}
  const COMMENT_DELETERS: set<Role> := {ADMIN, MOD}

  /** The rule as evidently intended: the VIEWER's own role decides, against the roles `privileged` that
      the matching delete route accepts; `viewerRole` is absent when the viewer has no user record. */
  predicate ViewerRoleRule(user: Option<SessionUser>, viewerRole: Option<Role>, authorId: string, privileged: set<Role>) {
    match user
    case None => false
    case Some(u) => u.id == authorId || (viewerRole.Some? && viewerRole.value in privileged)
  }

  /** The rule as written, stated outright: nobody signed out; the author always; anyone else exactly
      when the shown record is an administrator's; a MOD record grants nothing. */
  lemma AuthorRoleRuleCases(user: Option<SessionUser>, authorId: string, shownRow: Option<UserData>)
    ensures user.None? ==> !AuthorRoleRule(user, authorId, shownRow)
    ensures user.Some? && user.value.id == authorId ==> AuthorRoleRule(user, authorId, shownRow)
    ensures user.Some? && user.value.id != authorId ==>
      (AuthorRoleRule(user, authorId, shownRow) <==> shownRow.Some? && shownRow.value.role == ADMIN)
    ensures shownRow.Some? && shownRow.value.role == MOD ==>
      (AuthorRoleRule(user, authorId, shownRow) <==> user.Some? && user.value.id == authorId)
  {
  }

  /** The two rules agree whenever the record shown beside the item is the viewer's own, except that a
      moderator may delete others' comments only under the intended rule. */
  lemma RulesAgreeOnOwnRecord(user: Option<SessionUser>, authorId: string, shownRow: UserData)
    requires user.Some? && shownRow.id == user.value.id
    ensures AuthorRoleRule(user, authorId, Some(shownRow)) == ViewerRoleRule(user, Some(shownRow.role), authorId, POST_DELETERS)
    ensures shownRow.role != MOD ==>
      AuthorRoleRule(user, authorId, Some(shownRow)) == ViewerRoleRule(user, Some(shownRow.role), authorId, COMMENT_DELETERS)
  {
  }

  /** Under the intended rule the author's record is irrelevant: a viewer without a privileged role may
      delete exactly their own items, and a privileged one may delete any item. For posts and blog posts
      only an administrator is privileged; for comments a moderator is too. */
  lemma ViewerRoleRuleCases(user: Option<SessionUser>, viewerRole: Option<Role>, authorId: string, privileged: set<Role>)
    ensures !(viewerRole.Some? && viewerRole.value in privileged) ==>
      (ViewerRoleRule(user, viewerRole, authorId, privileged) <==> user.Some? && user.value.id == authorId)
    ensures user.Some? && viewerRole.Some? && viewerRole.value in privileged ==> ViewerRoleRule(user, viewerRole, authorId, privileged)
    ensures user.Some? && viewerRole == Some(MOD) ==>
      && ViewerRoleRule(user, viewerRole, authorId, COMMENT_DELETERS)
      && (ViewerRoleRule(user, viewerRole, authorId, POST_DELETERS) <==> user.value.id == authorId)
    ensures user.Some? && viewerRole == Some(ADMIN) ==>
      ViewerRoleRule(user, viewerRole, authorId, POST_DELETERS) && ViewerRoleRule(user, viewerRole, authorId, COMMENT_DELETERS)
  {
  }

  /** The discrepancy on concrete records: a plain user "viewer" sees the delete control on the
      administrator "admin"'s item, the administrator does not see it on the plain user's item, and a
      moderator "mod" does not see it on the plain user's comment; the intended rule decides all three
      the other way. */
  lemma AuthorRoleRuleMisgrants()
    ensures var viewer := SessionUser("viewer", Some("viewer"), "");
            var adminRow := UserData("admin", Some("admin"), None, ADMIN);
            AuthorRoleRule(Some(viewer), "admin", Some(adminRow))
            && !ViewerRoleRule(Some(viewer), Some(USER), "admin", POST_DELETERS)
            && !ViewerRoleRule(Some(viewer), Some(USER), "admin", COMMENT_DELETERS)
    ensures var admin := SessionUser("admin", Some("admin"), "");
            var userRow := UserData("viewer", Some("viewer"), None, USER);
            !AuthorRoleRule(Some(admin), "viewer", Some(userRow))
            && ViewerRoleRule(Some(admin), Some(ADMIN), "viewer", POST_DELETERS)
    ensures var moderator := SessionUser("mod", Some("mod"), "");
            var userRow := UserData("viewer", Some("viewer"), None, USER);
            !AuthorRoleRule(Some(moderator), "viewer", Some(userRow))
            && ViewerRoleRule(Some(moderator), Some(MOD), "viewer", COMMENT_DELETERS)
  {
  }
}
