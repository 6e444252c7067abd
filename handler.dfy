/**
 * The request handler: the method check, the admission gate, the checks on
 * the decoded batch in their fixed order, and then the fan-out. Only the
 * outcome of each branch is kept, not the response text.
 */
module Handler {
  import opened Types
  import opened Admission
  import opened Validation
  import opened WorkerPool
  import Limits

  /**
   * An incoming request: its HTTP method, its body as decoded from JSON
   * (None when the body is not a JSON list of strings), and whether its
   * context may be cancelled (the client goes away, or the deadline fires)
   * while the batch is served.
   */
  datatype Request = Request(verb: string, body: Option<seq<string>>, callerMayCancel: bool)

  /** Why a request was turned down. */
  datatype Rejection =
    | MethodNotAllowed
    | TooManyRequests
    | InvalidJson
    | EmptyRequest
    | TooManyUrls
    | InvalidUrl(url: string)
    | WorkFailed(error: FetchError)

  datatype Response = Rejected(reason: Rejection) | Served(output: map<string, string>)
  {
    /** The HTTP status each branch answers with. */
    function Status(): nat
    {
      match this
      case Served(_) => 200
      case Rejected(MethodNotAllowed) => 405
      case Rejected(TooManyRequests) => 429
      case Rejected(WorkFailed(_)) => 500
      case Rejected(_) => 400
    }
  }

  /** The decoded batch passes every check that comes after admission. */
  ghost predicate Acceptable(body: Option<seq<string>>, parse: Parser)
  {
    body.Some? && 1 <= |body.value| <= Limits.MaxUrlsInQuery && AllValid(body.value, parse)
  }

  /** The handler object: it owns the admission gate shared by all requests. */
  class Server {
    const sem: Gate

    ghost predicate Valid()
      reads this, sem
    {
      sem.Valid() && sem.capacity == Limits.MaxClients
    }

    constructor ()
      ensures Valid() && fresh(sem) && sem.count == 0 && sem.log == []
    {
      sem := new Gate(Limits.MaxClients);
    }

    /**
     * ServeHTTP. `admitted` says whether the request held an admission
     * slot while it was served; the slot is given back on every path.
     */
    method ServeHTTP(req: Request, parse: Parser, fetch: string -> FetchResult)
      returns (resp: Response, ghost admitted: bool)
      requires Valid()
      modifies sem
      ensures Valid() && sem.count == old(sem.count)
      ensures admitted <==> req.verb == "POST" && old(sem.count) < Limits.MaxClients
      // an admitted request takes one slot and gives it back; any other takes none
      ensures sem.log == old(sem.log) + if admitted then [Acquired, Released] else []
      // the status codes of the branches
      ensures req.verb != "POST" ==> resp.Status() == 405
      ensures req.verb == "POST" && !admitted ==> resp.Status() == 429
      ensures admitted && !Acceptable(req.body, parse) ==> resp.Status() == 400
      ensures admitted && Acceptable(req.body, parse) ==> resp.Status() == 200 || resp.Status() == 500
      // the checks, in their order
      ensures req.verb != "POST" ==> resp == Rejected(MethodNotAllowed)
      ensures req.verb == "POST" && !admitted ==> resp == Rejected(TooManyRequests)
      ensures admitted && req.body.None? ==> resp == Rejected(InvalidJson)
      ensures admitted && req.body == Some([]) ==> resp == Rejected(EmptyRequest)
      ensures admitted && req.body.Some? && |req.body.value| > Limits.MaxUrlsInQuery ==>
        resp == Rejected(TooManyUrls)
      ensures admitted && req.body.Some? && 1 <= |req.body.value| <= Limits.MaxUrlsInQuery ==>
        forall i :: 0 <= i < |req.body.value| && !ValidUrl(req.body.value[i], parse) &&
                    (forall j :: 0 <= j < i ==> ValidUrl(req.body.value[j], parse)) ==>
          resp == Rejected(InvalidUrl(req.body.value[i]))
      // the fan-out runs exactly when every check passed
      ensures (resp.Served? || resp.reason.WorkFailed?) <==> admitted && Acceptable(req.body, parse)
      // what the fan-out answers
      ensures resp.Served? ==> forall u :: u in resp.output ==> u in req.body.value && fetch(u) == Ok(resp.output[u])
      ensures resp.Served? && !req.callerMayCancel ==> resp.output.Keys == Elements(req.body.value)
      ensures resp.Rejected? && resp.reason.WorkFailed? ==>
        (exists u :: u in req.body.value && fetch(u) == Err(resp.reason.error)) ||
        (req.callerMayCancel && resp.reason.error == Canceled)
      ensures admitted && Acceptable(req.body, parse) && !req.callerMayCancel ==>
        (resp.Status() == 200 <==> forall u :: u in req.body.value ==> fetch(u).Ok?)
    {
      if req.verb != "POST" {
        return Rejected(MethodNotAllowed), false;
      }
      var ok := sem.TryAdmit();
      admitted := ok;
      if !ok {
        return Rejected(TooManyRequests), false;
      }
      // from here on the deferred release runs on every return path
      if req.body.None? {
        resp := Rejected(InvalidJson);
      } else if |req.body.value| == 0 {
        resp := Rejected(EmptyRequest);
      } else if |req.body.value| > Limits.MaxUrlsInQuery {
        resp := Rejected(TooManyUrls);
      } else {
        var urls := req.body.value;
        var bad := FirstInvalid(urls, parse);
        if bad.Some? {
          resp := Rejected(InvalidUrl(urls[bad.value]));
        } else {
          var outcome;
          ghost var taken;
          outcome, taken := DoAllWork(urls, fetch, req.callerMayCancel);
          match outcome
          case Failure(e) =>
            resp := Rejected(WorkFailed(e));
          case Success(m) =>
            resp := Served(m);
        }
      }
      sem.Release();
    }
  }
}
