/** The file upload endpoint (app/api/upload/route.ts), which hands the request body to blob storage. */
module UploadRoute {
  import opened Wrappers
  import opened SharedTypes
  import opened Server

  /** The descriptor blob storage returns for a stored file. */
  datatype Blob = Blob(url: string, pathname: string, contentType: string, contentDisposition: string)

  /** The outcome of blob storage's `put`. */
  datatype PutOutcome = Stored(blob: Blob) | PutThrew

  datatype Body = Error(message: string) | Uploaded(blob: Blob)

  /** The response, and the file name `put` was called with, if it was called at all. */
  datatype Outcome = Outcome(response: Response<Body>, putCalledWith: Option<string>)

  /** POST /api/upload?filename=…: `hasBody` says whether the request carries a body stream. */
  function HandlePost(filename: Option<string>, hasBody: bool, put: PutOutcome): (r: Outcome)
    ensures !Truthy(filename) ==> r == Outcome(Response(BAD_REQUEST, Error("Filename is required")), None)
    ensures Truthy(filename) && !hasBody ==> r == Outcome(Response(BAD_REQUEST, Error("Request body is required")), None)
    ensures r.putCalledWith.Some? <==> Truthy(filename) && hasBody
    ensures r.putCalledWith.Some? ==> r.putCalledWith == filename
    ensures r.putCalledWith.Some? && put.Stored? ==> r.response == Response(OK, Uploaded(put.blob))
    ensures r.putCalledWith.Some? && put.PutThrew? ==> r.response == Response(INTERNAL_SERVER_ERROR, Error("Failed to upload file"))
  {
    if !Truthy(filename) then
      Outcome(Response(BAD_REQUEST, Error("Filename is required")), None)
    else if !hasBody then
      Outcome(Response(BAD_REQUEST, Error("Request body is required")), None)
    else match put
      case Stored(blob) => Outcome(Response(OK, Uploaded(blob)), filename)
      case PutThrew => Outcome(Response(INTERNAL_SERVER_ERROR, Error("Failed to upload file")), filename)
  }

  /** A request with neither a file name nor a body is refused for the file name. */
  lemma FilenameCheckedFirst(put: PutOutcome)
    ensures HandlePost(None, false, put).response.body == Error("Filename is required")
  {
  }
}
