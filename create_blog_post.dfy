/** The blog post editor (components/createblogpost.tsx): an admin check on mount decides between a
    spinner, an access-denied notice and the editor; submitting posts the title and the editor's HTML
    and reports the outcome. */
module CreateBlogPost {
  import opened Wrappers
  import opened SharedTypes
  import opened Server
  import opened Client

  const PLACEHOLDER := "Start writing your blog post here..."
  const SAVING := "Saving blog post..."
  const SAVED := "Blog post saved successfully!"
  const NO_PERMISSION := "You do not have permission to create blog posts."
  const SAVE_FAILED := "Failed to save blog post"
  const SAVE_FAILED_RETRY := "Failed to save blog post. Please try again."

  /** A text field of a JSON body: missing, `null`, or a string. */
  datatype TextField = Missing | JsonNull | Text(value: string)

  /** The body of `/api/user`: an error, or the signed-in user's id. */
  datatype ApiUser = ApiUser(error: Option<string>, userId: TextField)

  /** The body of `/api/userdata/{id}`: the user's role as a string, if any. */
  datatype ApiUserData = ApiUserData(role: Option<string>)

  /** The error body of `/api/blog-posts`. */
  datatype ApiError = ApiError(error: Option<string>)

  datatype Request =
    | GetUser
    | GetUserData(path: string)
    | CreatePost(title: string, content: string)

  /** The path of the second request. A template string interpolates a missing id as the text
      "undefined" and a `null` one as "null". */
  function UserDataPath(userId: TextField): string {
    "/api/userdata/" + match userId
      case Missing => "undefined"
      case JsonNull => "null"
      case Text(id) => id
  }

  /** The admin check's verdict: both replies parse, the first carries no error, and the role is
      exactly "ADMIN". The replies' statuses are not consulted. */
  predicate AdminVerdict(userReply: Fetched<ApiUser>, userDataReply: Fetched<ApiUserData>) {
    && userReply.Replied? && userReply.json.Parsed? && !Truthy(userReply.json.value.error)
    && userDataReply.Replied? && userDataReply.json.Parsed?
    && userDataReply.json.value.role == Some("ADMIN")
  }

  /** `error.message || 'Failed to save blog post. Please try again.'` for an error thrown by the
      runtime, whose message is `thrown`. */
  function CaughtMessage(thrown: string): (m: string)
    ensures m != ""
    ensures thrown != "" ==> m == thrown
  {
    if thrown != "" then thrown else SAVE_FAILED_RETRY
  }

  /** The status line after a submit whose reply is `reply`. `thrown` is the message of the error the
      runtime raises when the request fails or the error body does not parse. */
  function SubmitOutcome(reply: Fetched<ApiError>, thrown: string): (st: SubmitStatus)
    ensures reply.Ok() <==> st.kind == Success
    ensures reply.Ok() ==> st.message == SAVED
    ensures !reply.Ok() ==> st.kind == Error && st.message != ""
    ensures reply.Replied? && reply.status == FORBIDDEN ==> st == SubmitStatus(Error, NO_PERMISSION)
    ensures reply.Replied? && !reply.Ok() && reply.status != FORBIDDEN && reply.json.Parsed? ==>
      st.message == (if Truthy(reply.json.value.error) then reply.json.value.error.value else SAVE_FAILED)
  {
    match reply
    case NetworkError => SubmitStatus(Error, CaughtMessage(thrown))
    case Replied(status, json) =>
      if reply.Ok() then SubmitStatus(Success, SAVED)
      else if status == FORBIDDEN then SubmitStatus(Error, NO_PERMISSION)
      else match json
        case Malformed => SubmitStatus(Error, CaughtMessage(thrown))
        case Parsed(body) =>
          SubmitStatus(Error, CaughtMessage(if Truthy(body.error) then body.error.value else SAVE_FAILED))
  }

  datatype View = Spinner | AccessDenied | Editor

  class BlogPostEditor {
    var isLoading: bool
    var isAdmin: bool
    var title: string
    var submitStatus: SubmitStatus
    /** The editor's document, as its text. */
    var document: string
    var requests: seq<Request>

    constructor ()
      ensures isLoading && !isAdmin && title == "" && submitStatus == NO_STATUS
      ensures document == PLACEHOLDER && requests == []
      ensures View() == Spinner
    {
      isLoading, isAdmin, title := true, false, "";
      submitStatus, document, requests := NO_STATUS, PLACEHOLDER, [];
    }

    /** The card shown: a spinner while loading, then the notice for non-administrators, else the editor. */
    function View(): (v: View)
      reads this
      ensures v == Editor <==> !isLoading && isAdmin
      ensures v == AccessDenied <==> !isLoading && !isAdmin
    {
      if isLoading then Spinner else if !isAdmin then AccessDenied else Editor
    }

    /** `checkAdminStatus`, run once on mount. */
    method CheckAdminStatus(userReply: Fetched<ApiUser>, userDataReply: Fetched<ApiUserData>)
      modifies this
      ensures isAdmin == AdminVerdict(userReply, userDataReply) && !isLoading
      ensures !isAdmin ==> View() == AccessDenied
      ensures userReply.Replied? && userReply.json.Parsed? && !Truthy(userReply.json.value.error) ==>
        requests == old(requests) + [GetUser, GetUserData(UserDataPath(userReply.json.value.userId))]
      ensures !(userReply.Replied? && userReply.json.Parsed? && !Truthy(userReply.json.value.error)) ==>
        requests == old(requests) + [GetUser]
      ensures title == old(title) && submitStatus == old(submitStatus) && document == old(document)
    {
      requests := requests + [GetUser];
      if userReply.NetworkError? || userReply.json.Malformed? || Truthy(userReply.json.value.error) {
        isAdmin := false;
      } else {
        requests := requests + [GetUserData(UserDataPath(userReply.json.value.userId))];
        if userDataReply.NetworkError? || userDataReply.json.Malformed? {
          isAdmin := false;
        } else {
          isAdmin := userDataReply.json.value.role == Some("ADMIN");
        }
      }
      isLoading := false;
    }

    /** The title input's `onChange`. */
    method SetTitle(t: string)
      modifies this
      ensures title == t
      ensures isLoading == old(isLoading) && isAdmin == old(isAdmin) && submitStatus == old(submitStatus)
      ensures document == old(document) && requests == old(requests)
    {
      title := t;
    }

    /** `clearEditor`: the placeholder paragraph back in the editor and an empty title. */
    method ClearEditor()
      modifies this
      ensures title == "" && document == PLACEHOLDER
      ensures isLoading == old(isLoading) && isAdmin == old(isAdmin) && submitStatus == old(submitStatus)
      ensures requests == old(requests)
    {
      document := PLACEHOLDER;
      title := "";
    }

    /** `handleSubmit`, reachable only from the editor's button. `html` is the editor's document exported
        as HTML. An OK reply clears the editor; every other outcome keeps the title and the document. */
    method HandleSubmit(html: string, reply: Fetched<ApiError>, thrown: string)
      requires View() == Editor
      modifies this
      ensures requests == old(requests) + [CreatePost(old(title), html)]
      ensures submitStatus == SubmitOutcome(reply, thrown)
      ensures reply.Ok() ==> title == "" && document == PLACEHOLDER
      ensures !reply.Ok() ==> title == old(title) && document == old(document)
      ensures !isLoading && isAdmin == old(isAdmin) && View() == Editor
    {
      isLoading := true;
      submitStatus := SubmitStatus(Loading, SAVING);
      requests := requests + [CreatePost(title, html)];
      if reply.Ok() {
        submitStatus := SubmitStatus(Success, SAVED);
        ClearEditor();
      } else if reply.Replied? && reply.status == FORBIDDEN {
        submitStatus := SubmitStatus(Error, NO_PERMISSION);
      } else {
        submitStatus := SubmitOutcome(reply, thrown);
      }
      isLoading := false;
    }
  }
}
