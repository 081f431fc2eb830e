/** What the client components share: the status line of a form, the router they navigate with, and
    how a user record is displayed beside a post or comment. */
module Client {
  import opened Wrappers
  import opened SharedTypes

  /** The `type` of a form's status line; `Idle` is the empty type, under which no alert is shown. */
  datatype StatusKind = Idle | Loading | Success | Error

  /** `{ type, message }`: the alert a form shows after a submit or delete. */
  datatype SubmitStatus = SubmitStatus(kind: StatusKind, message: string)

  const NO_STATUS := SubmitStatus(Idle, "")

  const UNKNOWN_USER := "Unknown User"

  /** `row?.username || 'Unknown User'`: the shown name is never empty. */
  function DisplayName(row: Option<UserData>): (name: string)
    ensures row.Some? && Truthy(row.value.username) ==> name == row.value.username.value
    ensures !(row.Some? && Truthy(row.value.username)) ==> name == UNKNOWN_USER
    ensures name != ""
  {
    match row
    case Some(r) => if Truthy(r.username) then r.username.value else UNKNOWN_USER
    case None => UNKNOWN_USER
  }

  /** `row?.image_url || ''`: the avatar source, empty when there is no image. */
  function AvatarSource(row: Option<UserData>): (src: string)
    ensures row.Some? && Truthy(row.value.imageUrl) ==> src == row.value.imageUrl.value
    ensures !(row.Some? && Truthy(row.value.imageUrl)) ==> src == ""
  {
    if row.Some? && Truthy(row.value.imageUrl) then row.value.imageUrl.value else ""
  }

  /** The client router; `history` lists the paths pushed, oldest first. */
  class Router {
    var history: seq<string>

    constructor ()
      ensures history == []
    {
      history := [];
    }

    /** `router.push(path)`. */
    method Push(path: string)
      modifies this
      ensures history == old(history) + [path]
    {
      history := history + [path];
    }
  }
}
