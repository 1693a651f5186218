/** What a route handler sends back: a status code and a JSON body. */
module Http {
  import opened Js

  datatype Response = Response(status: int, body: Value)

  /** `{ error: msg }` */
  function ErrorBody(msg: Value): Value {
    Obj([("error", msg)])
  }

  /** `{ message: msg }` */
  function MessageBody(msg: string): Value {
    Obj([("message", Str(msg))])
  }

  /** `res.status(status).json({ error: msg })` */
  function Fail(status: int, msg: string): Response {
    Response(status, ErrorBody(Str(msg)))
  }
}
