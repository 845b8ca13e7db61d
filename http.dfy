/** The response envelope every endpoint sends:
    { status, statusCode?, message?, data? }. A property that is undefined
    when the object is sent is dropped from the JSON, hence the options. */
module Http {
  import opened Wrappers
  import opened UserModel

  datatype Envelope = Envelope(
    status: string,
    statusCode: Option<int>,
    message: Option<string>,
    data: Option<UserDoc>)

  /** res.status(status).send(body) */
  datatype Response = Response(status: int, body: Envelope)
}
