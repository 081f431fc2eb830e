/** The record shapes the components and routes share (shared/types.ts), with roles as a closed enumeration. */
module SharedTypes {
  import opened Wrappers

  /** The three roles a user row can hold. */
  datatype Role = USER | ADMIN | MOD

  /** A user's public record as the pages and the comments route hand it to components. */
  datatype UserData = UserData(id: string, username: Option<string>, imageUrl: Option<string>, role: Role)

  /** A forum comment; `userId` is the author's identity-provider id, `createdAt` in milliseconds. */
  datatype Comment = Comment(id: string, content: string, userId: string, createdAt: int, postId: string)

  /** A forum post with its comments. */
  datatype Post = Post(id: string, title: string, content: string, userId: string,
                       createdAt: int, updatedAt: int, comments: seq<Comment>)

  /** A blog post row; the title may be missing. (Its declaration is not among the shown type declarations;
      the fields are the ones the blog components and route read and write.) */
  datatype BlogPost = BlogPost(id: string, title: Option<string>, content: Option<string>, userId: string)

  /** The signed-in user as the identity provider's client hook reports it. */
  datatype SessionUser = SessionUser(id: string, username: Option<string>, imageUrl: string)

  /** JavaScript truthiness of an optional string: present and not empty. */
  predicate Truthy(s: Option<string>) {
    s.Some? && s.value != ""
  }
}
