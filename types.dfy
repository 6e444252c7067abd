/** Values shared by the handler, the validator and the fan-out. */
module Types {
  datatype Option<+T> = None | Some(value: T)

  /** The ways one fetch can fail; the fan-out does not tell them apart. */
  datatype FetchError =
    | RequestInvalid   // the request for the URL could not be built
    | TransportFailed  // the client could not complete the exchange, its own timeout included
    | BadResponse      // the response status was not 200
    | BodyUnreadable   // reading the response body failed
    | Canceled         // the fetch's context was done before the fetch completed

  /** What one fetch of one URL yields: the body, or an error. */
  datatype FetchResult = Ok(body: string) | Err(error: FetchError)

  /** One message on the result channel: a URL and the body fetched for it. */
  datatype Pair = Pair(url: string, body: string)

  /** What the fan-out returns: the map from URL to body, or the one error kept. */
  datatype Outcome = Success(output: map<string, string>) | Failure(error: FetchError)

  /** The set of elements of a sequence. */
  function Elements<T>(s: seq<T>): set<T>
  {
    set x | x in s
  }
}
