/** HTTP responses as the Django REST framework views return them: a status code and a JSON body. */
module Http {
  import opened Wrappers
  import opened Json

  datatype Response = Response(code: nat, body: Json)

  const OK: nat := 200
  const CREATED: nat := 201
  const ACCEPTED: nat := 202
  const NO_CONTENT: nat := 204
  const BAD_REQUEST: nat := 400
  const UNAUTHORIZED: nat := 401
  const FORBIDDEN: nat := 403
  const NOT_FOUND: nat := 404
  const SERVER_ERROR: nat := 500

  /** The `{'status': 'fail', 'message': ...}` body the views use for every refusal. */
  function FailBody(message: string): Json
  {
    JObj(map["status" := JStr("fail"), "message" := JStr(message)])
  }

  function Fail(code: nat, message: string): (r: Response)
    ensures r.code == code && Get(r.body, "message") == Some(JStr(message))
    ensures Get(r.body, "status") == Some(JStr("fail"))
  {
    Response(code, FailBody(message))
  }

  /** The message of a refusal, if the body carries one. */
  function MessageOf(r: Response): Option<string>
  {
    match Get(r.body, "message")
    case Some(JStr(m)) => Some(m)
    case _ => None
  }
}
