/** The comment section of a forum post (components/CommentSection.tsx): the comment form with its
    length rule and profanity gate, the list of comments with the author record shown beside each, and
    deletion. The two lists `comments` and `commentUserData` are matched by index. */
module CommentSection {
  import opened Wrappers
  import opened SharedTypes
  import opened Server
  import opened Client
  import Seqs
  import DeleteRights

  /** `commentSchema`: the content must be at least 20 characters. */
  const COMMENT_MIN_LENGTH := 20
  const SCHEMA_MESSAGE := "Comment cannot be empty"

  predicate SchemaValid(content: string) {
    |content| >= COMMENT_MIN_LENGTH
  }

  const LOGIN_REQUIRED := "You must be logged in to comment."
  const CHECKING := "Checking content..."
  const INAPPROPRIATE := "Your comment contains inappropriate content. Please revise and try again."
  const SUBMITTING := "Submitting comment..."
  const SUBMITTED := "Comment submitted successfully!"
  const SUBMIT_FAILED := "Failed to submit comment. Please try again."
  const DELETED := "Comment deleted successfully."
  const DELETE_FAILED := "Failed to delete comment. Please try again."
  const CHECK_FAILED := "Failed to check profanity"

  /** The `score` field of the service's reply: missing, JSON `null`, or a number. */
  datatype Score = Absent | Null | Number(value: real)

  /** JavaScript's conversion of the field for a relational comparison: `null` becomes 0, a missing
      field becomes NaN (None here), against which every comparison is false. */
  function ScoreAsNumber(score: Score): (n: Option<real>)
    ensures n.None? <==> score.Absent?
    ensures score.Null? ==> n == Some(0.0)
    ensures score.Number? ==> n == Some(score.value)
  {
    match score
    case Absent => None
    case Null => Some(0.0)
    case Number(v) => Some(v)
  }

  /** `score < 1` in JavaScript. */
  predicate BelowOne(score: Score) {
    var n := ScoreAsNumber(score); n.Some? && n.value < 1.0
  }

  /** `score >= 1` in JavaScript. */
  predicate AtLeastOne(score: Score) {
    var n := ScoreAsNumber(score); n.Some? && n.value >= 1.0
  }

  /** The profanity service's reply body; either field may be missing. */
  datatype ProfanityStatus = ProfanityStatus(score: Score, error: Option<string>)

  /** The requests the section sends, in order. */
  datatype Request =
    | ProfanityCheck(message: string)
    | PostComment(postId: string, content: string, userId: string)
    | DeleteComment(commentId: string)

  /** The check's verdict as written: an OK reply whose body parses and whose score is present and,
      compared the JavaScript way, below 1. */
  predicate ProfanityPasses(reply: Fetched<ProfanityStatus>) {
    if !reply.Ok() then false
    else match reply.json
      case Malformed => false
      case Parsed(data) => !data.score.Absent? && BelowOne(data.score)
  }

  /** What passes as written: an OK, parsed reply whose score is a number below 1, or is `null`. */
  lemma ProfanityPassesCases(reply: Fetched<ProfanityStatus>)
    ensures ProfanityPasses(reply) <==>
      && reply.Ok() && reply.json.Parsed?
      && (reply.json.value.score.Null? || (reply.json.value.score.Number? && reply.json.value.score.value < 1.0))
  {
  }

  /** As written, the check fails open on one reply: `{"score": null}` passes, since `null < 1` holds. */
  lemma NullScorePasses()
    ensures ProfanityPasses(Replied(OK, Parsed(ProfanityStatus(Null, None))))
    ensures !ProfanityPassesStrict(Replied(OK, Parsed(ProfanityStatus(Null, None))))
  {
  }

  /** The verdict the check evidently intends: only a numeric score below 1 passes. */
  predicate ProfanityPassesStrict(reply: Fetched<ProfanityStatus>) {
    reply.Ok() && reply.json.Parsed? && reply.json.value.score.Number? && reply.json.value.score.value < 1.0
  }

  /** The intended check fails closed: a refused request, a non-OK status, an unparsable body, a
      missing or `null` score and a score of 1 or more all refuse the comment. It differs from the check
      as written only on a `null` score. */
  lemma ProfanityFailsClosed(reply: Fetched<ProfanityStatus>)
    ensures reply.NetworkError? ==> !ProfanityPassesStrict(reply)
    ensures reply.Replied? && !reply.Ok() ==> !ProfanityPassesStrict(reply)
    ensures reply.Replied? && reply.json.Malformed? ==> !ProfanityPassesStrict(reply)
    ensures reply.Replied? && reply.json.Parsed? && !reply.json.value.score.Number? ==> !ProfanityPassesStrict(reply)
    ensures reply.Replied? && reply.json.Parsed? && AtLeastOne(reply.json.value.score) ==> !ProfanityPassesStrict(reply)
    ensures ProfanityPassesStrict(reply) <==> ProfanityPasses(reply) && !reply.json.value.score.Null?
  {
  }

  /** What the check records: the parsed body on an OK reply, otherwise a fixed error. */
  function ProfanityStatusAfter(reply: Fetched<ProfanityStatus>): (st: ProfanityStatus)
    ensures reply.Ok() && reply.json.Parsed? ==> st == reply.json.value
    ensures !(reply.Ok() && reply.json.Parsed?) ==> st == ProfanityStatus(Absent, Some(CHECK_FAILED)) && !ProfanityPasses(reply)
  {
    if reply.Ok() && reply.json.Parsed? then reply.json.value else ProfanityStatus(Absent, Some(CHECK_FAILED))
  }

  /** The "High Profanity Score" alert: a recorded status whose score is present and, compared the
      JavaScript way, at least 1; a `null` score never shows it. */
  predicate HighScoreAlert(status: Option<ProfanityStatus>) {
    status.Some? && !status.value.score.Absent? && AtLeastOne(status.value.score)
  }

  /** The alert appears after a check only when that check refused the comment, and a refusal for a
      reason other than the score never shows it. */
  lemma AlertOnlyOnRefusal(reply: Fetched<ProfanityStatus>)
    ensures HighScoreAlert(Some(ProfanityStatusAfter(reply))) ==> !ProfanityPasses(reply)
    ensures !reply.Ok() ==> !HighScoreAlert(Some(ProfanityStatusAfter(reply)))
    ensures reply.Ok() && reply.json.Parsed? && reply.json.value.score.Null? ==>
      !HighScoreAlert(Some(ProfanityStatusAfter(reply))) && ProfanityPasses(reply)
  {
  }

  /** The record prepended for the commenter after a successful post: their id, their username or
      'Unknown User', their image and role USER. */
  function CommenterRow(u: SessionUser): (row: UserData)
    ensures row.id == u.id && row.role == USER && row.imageUrl == Some(u.imageUrl)
    ensures Truthy(u.username) ==> row.username == u.username
    ensures !Truthy(u.username) ==> row.username == Some(UNKNOWN_USER)
  {
    UserData(u.id, Some(if Truthy(u.username) then u.username.value else UNKNOWN_USER), Some(u.imageUrl), USER)
  }

  /** The record shown beside comment `i`: the entry at the same index of `userData`, if any. */
  function ShownRow(userData: seq<UserData>, i: nat): (row: Option<UserData>)
    ensures row.Some? <==> i < |userData|
    ensures row.Some? ==> row.value == userData[i]
  {
    if i < |userData| then Some(userData[i]) else None
  }

  /** The name shown beside comment `i`: the username of the record at the same index, or
      'Unknown User' when there is no such record or it has no username. */
  function ShownName(userData: seq<UserData>, i: nat): (name: string)
    ensures i < |userData| && Truthy(userData[i].username) ==> name == userData[i].username.value
    ensures !(i < |userData| && Truthy(userData[i].username)) ==> name == UNKNOWN_USER
  {
    DisplayName(ShownRow(userData, i))
  }

  /** `canDelete` for comment `i`: a signed-in viewer who wrote it, or any signed-in viewer when the
      record at the same index of `userData` has role ADMIN. */
  function CanDelete(user: Option<SessionUser>, comments: seq<Comment>, userData: seq<UserData>, i: nat): (r: bool)
    requires i < |comments|
    ensures r <==> user.Some? && (user.value.id == comments[i].userId || (i < |userData| && userData[i].role == ADMIN))
  {
    DeleteRights.AuthorRoleRule(user, comments[i].userId, ShownRow(userData, i))
  }

  /** Every comment is shown with its own author's record. */
  predicate Aligned(comments: seq<Comment>, userData: seq<UserData>) {
    |comments| == |userData| && forall i :: 0 <= i < |comments| ==> comments[i].userId == userData[i].id
  }

  /** The predicate that keeps all comments but the deleted one. */
  function Keep(commentId: string): Comment -> bool {
    (c: Comment) => c.id != commentId
  }

  /** The delete as written filters the comments and leaves the records as they were. */
  function DeleteAsWritten(comments: seq<Comment>, userData: seq<UserData>, commentId: string): (r: (seq<Comment>, seq<UserData>))
    ensures r.1 == userData
    ensures forall i :: 0 <= i < |r.0| ==> r.0[i] in comments && r.0[i].id != commentId
    ensures forall i :: 0 <= i < |comments| && comments[i].id != commentId ==> comments[i] in r.0
  {
    (Seqs.Filter(comments, Keep(commentId)), userData)
  }

  /** The discrepancy on concrete lists: before the delete, comment "c2" by the plain user "y" is shown
      with y's record and a third user "z" cannot delete it. After "c1" by the administrator "x" is
      deleted, "c2" moves to index 0 but the records do not move, so "c2" is shown as x's, under x's
      name, and z now sees its delete control. */
  lemma DeleteAsWrittenMisaligns()
    ensures var c1 := Comment("c1", "first", "x", 1, "p");
            var c2 := Comment("c2", "second", "y", 0, "p");
            var rows := [UserData("x", Some("xavier"), None, ADMIN), UserData("y", Some("yvonne"), None, USER)];
            var z := Some(SessionUser("z", Some("zoe"), ""));
            var after := DeleteAsWritten([c1, c2], rows, "c1");
            && Aligned([c1, c2], rows) && !CanDelete(z, [c1, c2], rows, 1) && ShownName(rows, 1) == "yvonne"
            && after.0 == [c2]
            && !Aligned(after.0, after.1) && CanDelete(z, after.0, after.1, 0) && ShownName(after.1, 0) == "xavier"
  {
    var c1 := Comment("c1", "first", "x", 1, "p");
    var c2 := Comment("c2", "second", "y", 0, "p");
    assert [c1, c2][1..] == [c2];
    assert [c2][1..] == [];
    assert Seqs.Filter([c1, c2], Keep("c1")) == [c2];
  }

  /** The delete as intended: each record leaves together with its comment, and the kept comments are
      those the as-written delete keeps. */
  function DeleteAligned(comments: seq<Comment>, userData: seq<UserData>, commentId: string): (r: (seq<Comment>, seq<UserData>))
    requires |comments| == |userData|
    ensures |r.1| == |r.0|
  {
    if |comments| == 0 then ([], [])
    else
      var rest := DeleteAligned(comments[1..], userData[1..], commentId);
      if comments[0].id != commentId then ([comments[0]] + rest.0, [userData[0]] + rest.1) else rest
  }

  /** The intended delete keeps exactly the comments the as-written delete keeps, in the same order. */
  lemma {:induction false} DeleteAlignedKeepsSameComments(comments: seq<Comment>, userData: seq<UserData>, commentId: string)
    requires |comments| == |userData|
    ensures DeleteAligned(comments, userData, commentId).0 == DeleteAsWritten(comments, userData, commentId).0
  {
    if |comments| > 0 {
      DeleteAlignedKeepsSameComments(comments[1..], userData[1..], commentId);
    }
  }

  /** The intended delete keeps every comment shown with its own author's record. */
  lemma {:induction false} DeleteAlignedPreservesAlignment(comments: seq<Comment>, userData: seq<UserData>, commentId: string)
    requires Aligned(comments, userData)
    ensures Aligned(DeleteAligned(comments, userData, commentId).0, DeleteAligned(comments, userData, commentId).1)
  {
    if |comments| > 0 {
      assert Aligned(comments[1..], userData[1..]) by {
        forall i | 0 <= i < |comments| - 1
          ensures comments[1..][i].userId == userData[1..][i].id
        {
          assert comments[i + 1].userId == userData[i + 1].id;
        }
      }
      DeleteAlignedPreservesAlignment(comments[1..], userData[1..], commentId);
    }
  }

  /** The component's state. */
  class CommentSectionState {
    const postId: string
    var comments: seq<Comment>
    var commentUserData: seq<UserData>
    var submitStatus: SubmitStatus
    var profanityStatus: Option<ProfanityStatus>
    var isCheckingProfanity: bool
    /** The form's `content` field, which the editor sets. */
    var formContent: string
    /** The schema's message for `content`, when the last submit failed validation. */
    var formError: Option<string>
    var requests: seq<Request>

    constructor (postId: string, initialComments: seq<Comment>, initialCommentUserData: seq<UserData>)
      ensures this.postId == postId && comments == initialComments && commentUserData == initialCommentUserData
      ensures submitStatus == NO_STATUS && profanityStatus.None? && !isCheckingProfanity
      ensures formContent == "" && formError.None? && requests == []
    {
      this.postId := postId;
      comments, commentUserData := initialComments, initialCommentUserData;
      submitStatus := NO_STATUS;
      profanityStatus, isCheckingProfanity := None, false;
      formContent, formError, requests := "", None, [];
    }

    /** The editor's `setContent`. */
    method SetContent(content: string)
      modifies this
      ensures formContent == content
      ensures comments == old(comments) && commentUserData == old(commentUserData) && submitStatus == old(submitStatus)
      ensures profanityStatus == old(profanityStatus) && isCheckingProfanity == old(isCheckingProfanity)
      ensures formError == old(formError) && requests == old(requests)
    {
      formContent := content;
    }

    /** `checkProfanity`: one request to the service; the verdict is `ProfanityPasses` of its reply. */
    method CheckProfanity(text: string, reply: Fetched<ProfanityStatus>) returns (passed: bool)
      modifies this
      ensures passed == ProfanityPasses(reply)
      ensures profanityStatus == Some(ProfanityStatusAfter(reply)) && !isCheckingProfanity
      ensures requests == old(requests) + [ProfanityCheck(text)]
      ensures comments == old(comments) && commentUserData == old(commentUserData) && submitStatus == old(submitStatus)
      ensures formContent == old(formContent) && formError == old(formError)
    {
      isCheckingProfanity := true;
      requests := requests + [ProfanityCheck(text)];
      if reply.Ok() && reply.json.Parsed? {
        var data := reply.json.value;
        profanityStatus := Some(data);
        passed := !data.score.Absent? && BelowOne(data.score);
      } else {
        profanityStatus := Some(ProfanityStatus(Absent, Some(CHECK_FAILED)));
        passed := false;
      }
      isCheckingProfanity := false;
    }

    /** `onSubmit`: refuse without a user; check the content; post it; on success prepend the returned
        comment and the commenter's record. `post` is the reply to the post request. */
    method OnSubmit(content: string, user: Option<SessionUser>, profanity: Fetched<ProfanityStatus>, post: Fetched<Comment>)
      modifies this
      ensures !isCheckingProfanity || user.None?
      ensures formError == old(formError)
      ensures user.None? ==>
        && submitStatus == SubmitStatus(Error, LOGIN_REQUIRED) && requests == old(requests)
        && profanityStatus == old(profanityStatus) && isCheckingProfanity == old(isCheckingProfanity)
      ensures user.Some? ==> profanityStatus == Some(ProfanityStatusAfter(profanity))
      ensures user.Some? && !ProfanityPasses(profanity) ==>
        && submitStatus == SubmitStatus(Error, INAPPROPRIATE)
        && requests == old(requests) + [ProfanityCheck(content)]
      ensures user.Some? && ProfanityPasses(profanity) ==>
        requests == old(requests) + [ProfanityCheck(content), PostComment(postId, content, user.value.id)]
      ensures user.Some? && ProfanityPasses(profanity) && post.Ok() && post.json.Parsed? ==>
        && comments == [post.json.value] + old(comments)
        && commentUserData == [CommenterRow(user.value)] + old(commentUserData)
        && formContent == "" && submitStatus == SubmitStatus(Success, SUBMITTED)
      ensures !(user.Some? && ProfanityPasses(profanity) && post.Ok() && post.json.Parsed?) ==>
        && comments == old(comments) && commentUserData == old(commentUserData) && formContent == old(formContent)
      ensures user.Some? && ProfanityPasses(profanity) && !(post.Ok() && post.json.Parsed?) ==>
        submitStatus == SubmitStatus(Error, SUBMIT_FAILED)
      ensures |old(comments)| == |old(commentUserData)| ==> |comments| == |commentUserData|
      ensures Aligned(old(comments), old(commentUserData)) && (post.Replied? && post.json.Parsed? && user.Some? ==> post.json.value.userId == user.value.id)
              ==> Aligned(comments, commentUserData)
    {
      if user.None? {
        submitStatus := SubmitStatus(Error, LOGIN_REQUIRED);
        return;
      }
      var u := user.value;
      submitStatus := SubmitStatus(Loading, CHECKING);
      var contentPassed := CheckProfanity(content, profanity);
      if !contentPassed {
        submitStatus := SubmitStatus(Error, INAPPROPRIATE);
        return;
      }
      submitStatus := SubmitStatus(Loading, SUBMITTING);
      requests := requests + [PostComment(postId, content, u.id)];
      if post.Ok() && post.json.Parsed? {
        comments := [post.json.value] + comments;
        commentUserData := [CommenterRow(u)] + commentUserData;
        formContent := "";
        submitStatus := SubmitStatus(Success, SUBMITTED);
      } else {
        submitStatus := SubmitStatus(Error, SUBMIT_FAILED);
      }
    }

    /** The form's submit: the schema is checked first, and `onSubmit` runs only on valid content. */
    method SubmitForm(user: Option<SessionUser>, profanity: Fetched<ProfanityStatus>, post: Fetched<Comment>)
      modifies this
      ensures !SchemaValid(old(formContent)) ==>
        && formError == Some(SCHEMA_MESSAGE) && requests == old(requests)
        && comments == old(comments) && commentUserData == old(commentUserData)
        && submitStatus == old(submitStatus) && formContent == old(formContent)
      ensures !SchemaValid(old(formContent)) ==>
        profanityStatus == old(profanityStatus) && isCheckingProfanity == old(isCheckingProfanity)
      ensures SchemaValid(old(formContent)) ==> formError.None? && (!isCheckingProfanity || user.None?)
      // Valid content: exactly the effects of `OnSubmit` on the content the form held.
      ensures SchemaValid(old(formContent)) && user.None? ==>
        && submitStatus == SubmitStatus(Error, LOGIN_REQUIRED) && requests == old(requests)
        && profanityStatus == old(profanityStatus) && isCheckingProfanity == old(isCheckingProfanity)
      ensures SchemaValid(old(formContent)) && user.Some? ==> profanityStatus == Some(ProfanityStatusAfter(profanity))
      ensures SchemaValid(old(formContent)) && user.Some? && !ProfanityPasses(profanity) ==>
        && submitStatus == SubmitStatus(Error, INAPPROPRIATE)
        && requests == old(requests) + [ProfanityCheck(old(formContent))]
      ensures SchemaValid(old(formContent)) && user.Some? && ProfanityPasses(profanity) ==>
        requests == old(requests) + [ProfanityCheck(old(formContent)), PostComment(postId, old(formContent), user.value.id)]
      ensures SchemaValid(old(formContent)) && user.Some? && ProfanityPasses(profanity) && post.Ok() && post.json.Parsed? ==>
        && comments == [post.json.value] + old(comments)
        && commentUserData == [CommenterRow(user.value)] + old(commentUserData)
        && formContent == "" && submitStatus == SubmitStatus(Success, SUBMITTED)
      ensures !(SchemaValid(old(formContent)) && user.Some? && ProfanityPasses(profanity) && post.Ok() && post.json.Parsed?) ==>
        && comments == old(comments) && commentUserData == old(commentUserData) && formContent == old(formContent)
      ensures SchemaValid(old(formContent)) && user.Some? && ProfanityPasses(profanity) && !(post.Ok() && post.json.Parsed?) ==>
        submitStatus == SubmitStatus(Error, SUBMIT_FAILED)
      ensures |old(comments)| == |old(commentUserData)| ==> |comments| == |commentUserData|
      ensures Aligned(old(comments), old(commentUserData)) && (post.Replied? && post.json.Parsed? && user.Some? ==> post.json.value.userId == user.value.id)
              ==> Aligned(comments, commentUserData)
    {
      if !SchemaValid(formContent) {
        formError := Some(SCHEMA_MESSAGE);
        return;
      }
      formError := None;
      OnSubmit(formContent, user, profanity, post);
    }

    /** `handleDeleteComment` as written: on an OK reply the comment leaves `comments`, but
        `commentUserData` is not touched. */
    method HandleDeleteComment(commentId: string, reply: Fetched<()>)
      modifies this
      ensures requests == old(requests) + [DeleteComment(commentId)]
      ensures commentUserData == old(commentUserData)
      ensures reply.Ok() ==> comments == DeleteAsWritten(old(comments), old(commentUserData), commentId).0
                             && submitStatus == SubmitStatus(Success, DELETED)
      ensures !reply.Ok() ==> comments == old(comments) && submitStatus == SubmitStatus(Error, DELETE_FAILED)
      ensures profanityStatus == old(profanityStatus) && isCheckingProfanity == old(isCheckingProfanity)
      ensures formContent == old(formContent) && formError == old(formError)
    {
      requests := requests + [DeleteComment(commentId)];
      if reply.Ok() {
        comments := Seqs.Filter(comments, Keep(commentId));
        submitStatus := SubmitStatus(Success, DELETED);
      } else {
        submitStatus := SubmitStatus(Error, DELETE_FAILED);
      }
    }

    /** The delete as intended: the comment and its record leave together (`DeleteAligned`), so by
        `DeleteAlignedPreservesAlignment` a section whose comments are shown with their authors' records
        stays that way. */
    method HandleDeleteCommentAligned(commentId: string, reply: Fetched<()>)
      requires |comments| == |commentUserData|
      modifies this
      ensures requests == old(requests) + [DeleteComment(commentId)]
      ensures reply.Ok() ==> comments == DeleteAligned(old(comments), old(commentUserData), commentId).0
      ensures reply.Ok() ==> commentUserData == DeleteAligned(old(comments), old(commentUserData), commentId).1
      ensures reply.Ok() ==> submitStatus == SubmitStatus(Success, DELETED)
      ensures !reply.Ok() ==> comments == old(comments) && commentUserData == old(commentUserData)
                              && submitStatus == SubmitStatus(Error, DELETE_FAILED)
      ensures profanityStatus == old(profanityStatus) && isCheckingProfanity == old(isCheckingProfanity)
      ensures formContent == old(formContent) && formError == old(formError)
    {
      requests := requests + [DeleteComment(commentId)];
      if reply.Ok() {
        var r := DeleteAligned(comments, commentUserData, commentId);
        comments, commentUserData := r.0, r.1;
        submitStatus := SubmitStatus(Success, DELETED);
      } else {
        submitStatus := SubmitStatus(Error, DELETE_FAILED);
      }
    }
  }
}
