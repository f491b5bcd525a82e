/**
 * The part of a gin request context the handlers use: writing a response.
 * A Context records, in order, every response written for its request.
 */
module Http {

  const StatusOK: int := 200
  const StatusBadRequest: int := 400
  const StatusNotFound: int := 404
  const StatusInternalServerError: int := 500

  /** A byte of an uploaded file. */
  type Byte = b: int | 0 <= b < 256

  /** The data an HTML template is executed with. */
  datatype View<R> =
    | Content(record: R)
    | ErrorView(title: string, message: string)

  /** A JSON body: `{"url": ...}` or `{"error": ...}`. */
  datatype JsonBody = UrlBody(url: string) | ErrorBody(message: string)

  /** One response: `c.HTML(status, name, data)` or `c.JSON(status, body)`. */
  datatype Response<R> =
    | Html(status: int, template: string, view: View<R>)
    | Json(status: int, body: JsonBody)
  {
    function Status(): int
    {
      match this
      case Html(status, _, _) => status
      case Json(status, _) => status
    }
  }

  class Context<R> {
    /** The responses written for this request, oldest first. */
    var sent: seq<Response<R>>

    constructor ()
      ensures sent == []
    {
      sent := [];
    }

    /** `c.HTML`: executes the named template with `view` under `status`. */
    method HTML(status: int, template: string, view: View<R>)
      modifies this
      ensures sent == old(sent) + [Html(status, template, view)]
    {
      sent := sent + [Html(status, template, view)];
    }

    /** `c.JSON`: writes `body` under `status`. */
    method JSON(status: int, body: JsonBody)
      modifies this
      ensures sent == old(sent) + [Json(status, body)]
    {
      sent := sent + [Json(status, body)];
    }
  }
}
