/**
 How the HydroDS client turns a data-service reply into a payload or an
 exception (`_process_dataservice_response`, `_raise_service_error`), and
 which HTTP verbs `_make_data_service_request` dispatches.
 */
module Responses {

  import opened Errors

  /** The decoded JSON body of a data-service reply: the `success` flag, the `data` mapping of output names to URLs in order, and the `error` text. */
  datatype Body = Body(success: bool, data: seq<(string, string)>, error: string)

  /** An HTTP reply: status code, reason phrase, raw content and decoded body. */
  datatype Response = Response(status: int, reason: string, content: string, body: Body)

  /** A successful classification: the `data` mapping to return, and the download the client then performs, if any. */
  datatype Classified = Classified(data: seq<(string, string)>, download: Option<(string, string)>)

  /** `requests.codes.ok` */
  const HttpOk := 200

  /** The exception raised for a status code other than 200. */
  function StatusError(status: int, message: string): (e: Error)
    requires status != HttpOk
    ensures status == 400 <==> e.BadRequest?
    ensures status == 401 <==> e.NotAuthenticated?
    ensures status == 403 <==> e.NotAuthorized?
    ensures status == 404 <==> e.NotFound?
    ensures status == 500 <==> e.ServerError?
    ensures status !in {400, 401, 403, 404, 500} <==> e.ServiceError?
    ensures e.message == "HydroDS Service Error. " + message
  {
    var m := "HydroDS Service Error. " + message;
    if status == 400 then BadRequest(m)
    else if status == 401 then NotAuthenticated(m)
    else if status == 403 then NotAuthorized(m)
    else if status == 404 then NotFound(m)
    else if status == 500 then ServerError(m)
    else ServiceError(m)
  }

  /** `_raise_service_error`: the server-supplied text surfaced as a generic HydroDS exception. */
  function ServiceFailure(message: string): (e: Error)
    ensures e.ServiceError? && e.message == "Error:" + message
  {
    ServiceError("Error:" + message)
  }

  /**
   `_process_dataservice_response(response, save_as)`. A non-200 status
   raises the exception of that status; a 200 reply whose `success` flag is
   false raises the server's error text; otherwise the `data` mapping is
   returned. With a save-as path, the single output URL is downloaded to
   it, and a mapping of any other size raises `ValueError` before any
   download. An absent save-as path is the empty string.
   */
  function Classify(response: Response, saveAs: string): (r: Result<Classified>)
    ensures response.status != HttpOk ==>
              r.Err? && r.error == StatusError(response.status, response.reason + " " + response.content)
    ensures response.status == HttpOk && !response.body.success ==>
              r == Err(ServiceFailure(response.body.error))
    ensures r.Ok? <==>
              && response.status == HttpOk
              && response.body.success
              && (saveAs != "" ==> |response.body.data| == 1)
    ensures r.Ok? ==> r.value.data == response.body.data
    ensures r.Ok? ==> (r.value.download.Some? <==> saveAs != "")
    ensures r.Ok? && saveAs != "" ==> r.value.download == Some((response.body.data[0].1, saveAs))
    ensures response.status == HttpOk && response.body.success && saveAs != "" && |response.body.data| != 1
            ==> r.Err? && r.error.ValueError?
  {
    if response.status != HttpOk then
      Err(StatusError(response.status, response.reason + " " + response.content))
    else if !response.body.success then
      Err(ServiceFailure(response.body.error))
    else if saveAs != "" then
      if |response.body.data| != 1 then
        Err(ValueError("Multiple output files found. Can't download multiple files."))
      else
        Ok(Classified(response.body.data, Some((response.body.data[0].1, saveAs))))
    else
      Ok(Classified(response.body.data, None))
  }

  /**
   A save-as path changes nothing but the download: a reply accepted with
   a path is accepted without one, with the same data, and its download
   writes the reply's only URL to that path.
   */
  lemma SaveAsOnlyAddsDownload(response: Response, saveAs: string)
    requires saveAs != "" && Classify(response, saveAs).Ok?
    ensures Classify(response, "") == Ok(Classified(Classify(response, saveAs).value.data, None))
    ensures Classify(response, saveAs).value.download == Some((response.body.data[0].1, saveAs))
  {
  }

  /**
   Without a save-as path a reply is refused exactly when the status or
   the `success` flag refuses it; a path refuses, in addition, any reply
   whose `data` does not hold exactly one entry.
   */
  lemma SaveAsRefusesMore(response: Response, saveAs: string)
    requires saveAs != ""
    ensures Classify(response, saveAs).Ok? <==> Classify(response, "").Ok? && |response.body.data| == 1
  {
  }

  /** The HTTP verbs of the data service. */
  datatype Verb = Get | Delete | Post

  /** `_make_data_service_request`: only GET, DELETE and POST are sent; any other method raises. */
  function Dispatch(httpMethod: string): (r: Result<Verb>)
    ensures r.Ok? <==> httpMethod in {"GET", "DELETE", "POST"}
    ensures r.Ok? ==> (r.value == Get <==> httpMethod == "GET")
    ensures r.Ok? ==> (r.value == Delete <==> httpMethod == "DELETE")
    ensures r.Err? ==> r.error.GenericError?
  {
    if httpMethod == "GET" then Ok(Get)
    else if httpMethod == "DELETE" then Ok(Delete)
    else if httpMethod == "POST" then Ok(Post)
    else Err(GenericError(httpMethod + " http method is not supported for the HydroDS API."))
  }

  /** The method name under which `_make_data_service_request` sends a verb. */
  function VerbName(v: Verb): string {
    match v
    case Get => "GET"
    case Delete => "DELETE"
    case Post => "POST"
  }

  /** Dispatch and the verb names are inverse: every verb is dispatched from its own name, and only from it. */
  lemma DispatchVerbName(v: Verb, httpMethod: string)
    ensures Dispatch(VerbName(v)) == Ok(v)
    ensures Dispatch(httpMethod).Ok? ==> VerbName(Dispatch(httpMethod).value) == httpMethod
  {
  }
}
