/** The parts of an HTTP response the route handlers decide: status, headers and body. */
module Http {

  /** Response headers, in the order the handler writes them. */
  type Headers = seq<(string, string)>

  datatype Response<B> = Response(status: nat, headers: Headers, body: B)
}
