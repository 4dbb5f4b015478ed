/** The HTTP side of a handler: the status code and the JSON `message` it answers with. */
module Http {

  datatype Response = Response(status: int, message: string)
}
