# golangTask1 fan-out handler, modelled in Dafny

The repository is a small Go HTTP service. Its handler (`MyHandler.ServeHTTP`)
accepts a POST whose body is a JSON list of URLs, and applies its checks in a
fixed order:

1. a non-POST request is turned away with 405;
2. one of `MaxClients` = 100 admission slots (the buffered channel `h.sem`) is
   claimed without blocking, or the request gets 429;
3. the body must decode as JSON (400);
4. the list must not be empty (400);
5. the list must not hold more than `MaxUrlsInQuery` = 20 URLs (400);
6. every URL must parse with a scheme and a host (400, naming the first bad one).

It then fetches the URLs concurrently in `doAllWork`:

- The URLs are queued on a channel that is seeded and then closed.
- `min(MaxWorker, len(urls))` workers (`MaxWorker` = 4) start.
- Before each job, a worker checks the derived context and leaves if it is done.
- A worker also leaves when the queue is drained, or after its first failed fetch.
- A failure tries to claim a one-slot error channel without blocking, and cancels the context only if it wins the claim.
- A success is written to a result channel sized to the batch.
- After the join, the kept error wins (500). Otherwise the results are folded into a map keyed by URL (200).

The project models this as follows:

- Constants: module `Limits`.
- Value types: module `Types`.
- A Go buffered channel: generic class `Channels.Channel`. A send that would block and a receive that would block are preconditions, so every caller proves that the code never blocks there.
- The semaphore: class `Admission.Gate`.
- The URL check: module `Validation`, over an abstract URL parser. `Validation.ValidUrl` is `validateURL` (func.go:78-85) by definition. What the handler promises about it is stated by `Validation.FirstInvalid` and `Handler.Server.ServeHTTP`.
- The final fold: module `Aggregation`.
- The shared state of one `doAllWork` call:
  - class `WorkerPool.Pool`, whose `Valid()` invariant records what every received job became;
  - the goroutines of the call are one scheduler loop (`Pool.Run`).
- The handler: class `Handler.Server`.

How the scheduler loop works:

- Each iteration lets any live worker take one step, chosen arbitrarily.
- A step is either "check the context and take a job" or "finish the fetch in flight". Several fetches can therefore overlap.
- The request's own context may be cancelled at any step, when the caller allows it.
- A fetch that finishes after the context is done may come back as a cancellation error.

The fetch itself (`getInfo`) is an oracle, `fetch: string -> FetchResult`.

One behaviour is kept exactly as the code has it: the aggregation is all-or-nothing only when a fetch failed. Suppose the request's context is cancelled and no fetch has failed. The workers then leave at `func.go:111-113` without touching the error channel. `<-errChan` on the closed, empty channel yields nil, and `doAllWork` answers with the map of whatever results arrived and no error.

- `WorkerPool.DoAllWork` allows exactly that: without an error, the map covers the URLs received so far.
- `WorkerPool.CancelledBeforeAnyJob` exhibits one schedule that ends in a map missing the batch's URL.
- When a fetch fails, the answer is that error alone and the results are dropped. `WorkerPool.FailureDropsDelivered` exhibits this.

## Model

| member | source | states |
|---|---|---|
| Admission.Gate.constructor | main.go:42-44 | the handler's semaphore starts with capacity for `MaxClients` requests and no slot held |
| Admission.Gate.TryAdmit | func.go:19-28 | the non-blocking send on `h.sem` succeeds exactly when fewer slots than the capacity are held; it then holds one more slot and logs an acquire, otherwise nothing changes |
| Admission.Gate.Release | func.go:21-23 | the deferred receive gives back exactly one held slot and logs a release |
| Channels.Channel.constructor | func.go:89-90 | `make(chan T, n)` is an empty, open channel of capacity n |
| Channels.Channel.Send | func.go:95-97 | a send on an open channel with room appends the value; sends that would block are excluded, so the seeding and result sends never block |
| Channels.Channel.TrySend | func.go:122-128 | the select-with-default send succeeds exactly when the buffer has room, and then appends; otherwise the buffer is unchanged |
| Channels.Channel.Close | func.go:98 | closing marks the channel closed and keeps its buffered values |
| Channels.Channel.Receive | func.go:115-118 | a receive takes the oldest buffered value; on a closed, drained channel it yields "not ok" (None) and the channel stays empty |
| Validation.FirstInvalid | func.go:51-57 | the scan finds nothing exactly when every URL is accepted; otherwise it returns the index of the first URL that is not accepted, all before it being accepted |
| Aggregation.PairsToMap | func.go:146-149 | the folded map's keys are exactly the URLs of the result messages, and each value is a body that arrived with its URL |
| Aggregation.OrderIrrelevant | func.go:146-149 | two arrival orders (or repetitions) of the same consistent messages fold into the same map |
| Aggregation.Aggregate | func.go:142-151 | the answer is an error exactly when one was kept, and it is the kept one; otherwise the map has exactly the delivered URLs as keys, each with a delivered body |
| WorkerPool.WorkerCount | func.go:102-105 | the worker count is MaxWorker or the batch size, whichever is smaller, and at least one for a non-empty batch |
| WorkerPool.AccountedTake | func.go:115-120 | a worker receiving the next job keeps every received URL accounted for (delivered, in flight or failed) and the result buffer within its bound |
| WorkerPool.AccountedLeave | func.go:111-118 | a worker leaving without a job keeps the accounting |
| WorkerPool.AccountedDeliver | func.go:132 | a delivered result keeps the accounting and fits in the result buffer of capacity len(urls) |
| WorkerPool.AccountedFail | func.go:120-129 | a failed job keeps the accounting, and its URL is one the workers received |
| WorkerPool.SlotAfterFailure | func.go:121-129 | after a failure the error slot is non-empty, it is non-empty exactly when cancel() has been called, and the error it keeps came from a received URL's fetch or from the caller's cancellation |
| WorkerPool.Pool.constructor | func.go:90-108 | the pool starts with an empty error slot of capacity 1, an empty result buffer of capacity len(urls), the seeded queue, min(MaxWorker, len(urls)) idle workers and nothing cancelled |
| WorkerPool.Pool.CtxDone | func.go:112 | the derived context is done exactly when its own cancel was called or the request's context is done |
| WorkerPool.Pool.TakeJob | func.go:110-118 | a worker whose context is done, or that finds the closed queue drained, exits; otherwise it receives the head of the queue and starts fetching it; the invariant is kept and the work left shrinks |
| WorkerPool.Pool.FinishFetch | func.go:120-133 | a finished fetch either delivers its URL with the oracle's body and the worker goes back to the queue, or fails: the worker exits, the error claims the slot only if it is empty, and cancel() runs exactly on a successful claim; a fetch may come back cancelled only once the context is done |
| WorkerPool.Pool.Deliver | func.go:132 | the result send appends (url, body) to the result buffer and the worker becomes idle |
| WorkerPool.Pool.Fail | func.go:121-129 | the worker exits; the slot keeps the first error; cancel() runs when the claim succeeds |
| WorkerPool.Pool.CancelByCaller | func.go:92 | cancelling the request's context makes the derived context done, keeping the invariant |
| WorkerPool.Pool.SettledWhenAllExited | func.go:138 | at the join, either a kept error is explained, or every received URL was delivered with its oracle body and, unless the caller cancelled, every URL was received |
| WorkerPool.Pool.Run | func.go:106-138 | under any schedule, all workers exit (no deadlock, no endless loop) and the settled facts hold at the join |
| WorkerPool.Seed | func.go:95-98 | the queue holds the batch in order and is closed |
| WorkerPool.Collect | func.go:139-151 | after closing both channels, the answer is the aggregation of the error slot and the result buffer as they were at the join |
| WorkerPool.SettledOutcome | func.go:138-151 | from the settled facts: a map's keys are the received URLs with their oracle bodies; without caller cancellation the map is complete, an error occurs exactly when some fetch fails, and with no failure the answer is the full map of the batch |
| WorkerPool.DoAllWork | func.go:87-152 | doAllWork's answer: an explained error, or a map of fetched bodies keyed by exactly the URLs the workers received; without caller cancellation, failure exactly when some URL's fetch fails and otherwise the full map |
| WorkerPool.CancelledBeforeAnyJob | func.go:110-151 | the caller cancelling before any job is taken yields a map missing the batch's URL and no error |
| WorkerPool.FailureDropsDelivered | func.go:121-144 | a failure after another URL's result was delivered yields that error alone; the delivered result is dropped |
| Handler.Server.constructor | main.go:42-44 | the handler starts with a semaphore of MaxClients slots, none held |
| Handler.Response.Status | func.go:13-64 | each answer's HTTP status: 405 for a wrong method, 429 when no slot is free, 400 for the four checks on the body, 500 for a failed fan-out, 200 for a served map |
| Handler.Server.ServeHTTP | func.go:13-64 | the checks apply in the source's order with their answers and status codes (405, 429, 400 for bad JSON, empty, more than 20, first invalid URL); the fan-out runs exactly when all pass, and its error (500) or map (200) is passed on; an admitted request's log shows one acquire then one release, any other request's none, so the slot count is back where it was |

## Left out

- `getInfo` (func.go:154-178) is the oracle `fetch`. Its error branches become `RequestInvalid` (the request cannot be built), `TransportFailed` (the client call fails, including the per-fetch timeout `TimeoutGetUrl`), `BadResponse` (a status other than 200) and `BodyUnreadable`. `Canceled` is a fetch cut short because the derived context is done. The oracle answers the same way for the same URL, so a URL listed twice is fetched with the same result.
- `url.Parse` is an abstract parser (`Validation.Parser`) that yields the scheme and host, because the standard library is not part of this model.
- JSON decoding of the body is an `Option<seq<string>>` in the request. `json.Marshal` of the answer, its error branch (func.go:66-71) and `w.Write` (func.go:73-75) are left out: marshalling a `map[string]string` cannot fail, and the write's error is ignored.
- The response texts are left out. Only which branch answered is modelled, with its status code (`Handler.Response.Status`).
- Goroutines, `sync.WaitGroup` and true parallelism are an interleaving of whole worker steps chosen by the scheduler loop. Memory-model effects within a step are not modelled.
- Deadlines (the `http.TimeoutHandler` of main.go and client disconnects) are the flag `callerMayCancel`. When it is set, the request's context may be cancelled at any step of the fan-out.
- The derived context and goroutine at func.go:30-34 have no effect on the answer (the derived context is discarded), so they are not modelled. Neither is `defer cancel()` at func.go:93, which runs after the answer is known.
- Handler.Server.ServeHTTP: the slot count is stated as unchanged from the call's start to its end. That assumes no other request runs at the same time. Concurrent handlers sharing `h.sem` are not modelled.
- main.go's process lifecycle (signal handling, `ListenAndServe`, `Shutdown`) is outside the handler and not modelled. `sync.Mutex` and `count` in `MyHandler` are never used by the handler.
