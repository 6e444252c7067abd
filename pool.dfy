/**
 * doAllWork: a batch's URLs are seeded into a closed job channel, a pool of
 * min(MaxWorker, batch size) workers drains it, the first failure claims a
 * one-slot error channel and cancels the shared context, and the results
 * are folded into a map unless an error was kept.
 *
 * The goroutines are modelled as a scheduler loop that, at each step, lets
 * an arbitrary live worker take its next step, or lets the caller's own
 * context be cancelled. A worker's loop iteration is split in two steps
 * (taking a job, finishing its fetch), so that several fetches can be in
 * flight at once, as with real goroutines.
 */
module WorkerPool {
  import opened Types
  import opened Channels
  import opened Aggregation
  import Limits

  /** Where one worker goroutine is in its loop. */
  datatype Worker = Idle | Fetching(url: string) | Exited

  /** The number of worker goroutines started for a batch of n URLs: the smaller of MaxWorker and n. */
  function WorkerCount(n: nat): (r: nat)
    ensures r <= Limits.MaxWorker && r <= n
    ensures r == Limits.MaxWorker || r == n
    ensures n >= 1 ==> r >= 1
  {
    if Limits.MaxWorker > n then n else Limits.MaxWorker
  }

  /** The total of f over the workers. */
  function Sum(ws: seq<Worker>, f: Worker -> nat): nat
  {
    if ws == [] then 0 else f(ws[0]) + Sum(ws[1..], f)
  }

  /** Replacing one worker's state changes the total by the difference of the two states' values. */
  lemma {:induction false} SumUpdate(ws: seq<Worker>, i: nat, x: Worker, f: Worker -> nat)
    requires i < |ws|
    ensures Sum(ws[i := x], f) + f(ws[i]) == Sum(ws, f) + f(x)
  {
    if i == 0 {
      assert ws[i := x][1..] == ws[1..];
    } else {
      assert ws[i := x][1..] == ws[1..][i - 1 := x];
      SumUpdate(ws[1..], i - 1, x, f);
    }
  }

  function InFlightCount(w: Worker): nat
  {
    if w.Fetching? then 1 else 0
  }

  /** The URLs being fetched at the moment. */
  function InFlight(ws: seq<Worker>): set<string>
  {
    set i | 0 <= i < |ws| && ws[i].Fetching? :: ws[i].url
  }

  /** With nothing being fetched, nothing is counted as in flight. */
  lemma {:induction false} NothingInFlight(ws: seq<Worker>)
    requires forall i :: 0 <= i < |ws| ==> !ws[i].Fetching?
    ensures Sum(ws, InFlightCount) == 0 && InFlight(ws) == {}
  {
    if ws != [] {
      NothingInFlight(ws[1..]);
    }
  }

  /** Replacing one worker's state removes its URL from the in-flight set and adds the new one's. */
  lemma InFlightUpdate(ws: seq<Worker>, i: nat, x: Worker)
    requires i < |ws|
    ensures InFlight(ws[i := x]) + (if ws[i].Fetching? then {ws[i].url} else {})
         == InFlight(ws) + (if x.Fetching? then {x.url} else {})
  {
    var ws' := ws[i := x];
    var lhs := InFlight(ws') + (if ws[i].Fetching? then {ws[i].url} else {});
    var rhs := InFlight(ws) + (if x.Fetching? then {x.url} else {});
    forall u | u in lhs ensures u in rhs {
      if u !in (if ws[i].Fetching? then {ws[i].url} else {}) {
        var j :| 0 <= j < |ws'| && ws'[j].Fetching? && ws'[j].url == u;
        if j != i {
          assert ws[j] == ws'[j];
        }
      }
    }
    forall u | u in rhs ensures u in lhs {
      if x.Fetching? && u == x.url {
        assert ws'[i] == x;
      } else {
        var j :| 0 <= j < |ws| && ws[j].Fetching? && ws[j].url == u;
        if j != i {
          assert ws'[j] == ws[j];
          assert ws'[j].Fetching? && ws'[j].url == u;
        } else {
          assert u == ws[i].url;
        }
      }
    }
  }

  /** A termination measure: an idle worker can still take a job, a fetching one must first finish. */
  function Weight(w: Worker): nat
  {
    match w
    case Idle => 1
    case Fetching(_) => 2
    case Exited => 0
  }

  predicate AllExited(ws: seq<Worker>)
  {
    forall i :: 0 <= i < |ws| ==> ws[i] == Exited
  }

  /**
   * The bookkeeping of the jobs received so far (urls[..taken]): each was
   * delivered as a result message, is being fetched, or failed, and there
   * is at most one result message per finished job.
   */
  ghost predicate Accounted(urls: seq<string>, taken: nat, pairs: seq<Pair>, ws: seq<Worker>, failed: set<string>)
  {
    && taken <= |urls|
    && PairUrls(pairs) + InFlight(ws) + failed == Elements(urls[..taken])
    && |pairs| + Sum(ws, InFlightCount) <= taken
  }

  /** An idle worker receives the next job. */
  lemma AccountedTake(urls: seq<string>, taken: nat, pairs: seq<Pair>, ws: seq<Worker>, failed: set<string>, w: nat)
    requires Accounted(urls, taken, pairs, ws, failed)
    requires taken < |urls| && w < |ws| && ws[w].Idle?
    ensures Accounted(urls, taken + 1, pairs, ws[w := Fetching(urls[taken])], failed)
  {
    assert urls[..taken + 1] == urls[..taken] + [urls[taken]];
    assert Elements(urls[..taken + 1]) == Elements(urls[..taken]) + {urls[taken]};
    InFlightUpdate(ws, w, Fetching(urls[taken]));
    SumUpdate(ws, w, Fetching(urls[taken]), InFlightCount);
  }

  /** An idle worker leaves. */
  lemma AccountedLeave(urls: seq<string>, taken: nat, pairs: seq<Pair>, ws: seq<Worker>, failed: set<string>, w: nat)
    requires Accounted(urls, taken, pairs, ws, failed)
    requires w < |ws| && ws[w].Idle?
    ensures Accounted(urls, taken, pairs, ws[w := Exited], failed)
  {
    InFlightUpdate(ws, w, Exited);
    SumUpdate(ws, w, Exited, InFlightCount);
  }

  /**
   * A fetching worker's job produced a result message, which fits in the
   * result buffer of capacity len(urls); the worker becomes idle.
   */
  lemma AccountedDeliver(urls: seq<string>, taken: nat, pairs: seq<Pair>, ws: seq<Worker>, failed: set<string>, w: nat, body: string)
    requires Accounted(urls, taken, pairs, ws, failed)
    requires w < |ws| && ws[w].Fetching?
    ensures |pairs| < |urls|
    ensures Accounted(urls, taken, pairs + [Pair(ws[w].url, body)], ws[w := Idle], failed)
  {
    InFlightUpdate(ws, w, Idle);
    SumUpdate(ws, w, Idle, InFlightCount);
    assert PairUrls(pairs + [Pair(ws[w].url, body)]) == PairUrls(pairs) + {ws[w].url};
  }

  /** A fetching worker's job failed; the worker leaves. */
  lemma AccountedFail(urls: seq<string>, taken: nat, pairs: seq<Pair>, ws: seq<Worker>, failed: set<string>, w: nat)
    requires Accounted(urls, taken, pairs, ws, failed)
    requires w < |ws| && ws[w].Fetching?
    ensures Accounted(urls, taken, pairs, ws[w := Exited], failed + {ws[w].url})
    ensures ws[w].url in urls[..taken]
  {
    InFlightUpdate(ws, w, Exited);
    SumUpdate(ws, w, Exited, InFlightCount);
    assert ws[w].url in InFlight(ws);
  }

  /** Every result message carries the body its URL's fetch returned. */
  ghost predicate Delivered(pairs: seq<Pair>, fetch: string -> FetchResult)
  {
    forall p :: p in pairs ==> fetch(p.url) == Ok(p.body)
  }

  /** An error is one a fetch of a received URL returned, or a cancellation the caller caused. */
  ghost predicate Explained(e: FetchError, urls: seq<string>, taken: nat, fetch: string -> FetchResult, callerCancelled: bool)
  {
    && taken <= |urls|
    && ((exists u :: u in urls[..taken] && fetch(u) == Err(e)) || (e == Canceled && callerCancelled))
  }

  /**
   * The error slot: the first failure always claims it, claiming it is
   * what cancels the derived context, and what it keeps is explained.
   */
  ghost predicate SlotKept(kept: seq<FetchError>, failed: set<string>, cancelled: bool,
                           urls: seq<string>, taken: nat, fetch: string -> FetchResult, callerCancelled: bool)
  {
    && (failed != {} ==> kept != [])
    && (cancelled <==> kept != [])
    && (kept != [] ==> Explained(kept[0], urls, taken, fetch, callerCancelled))
  }

  /**
   * A failure of a received URL's fetch, or a cancellation error once the
   * context is done, claims the slot only if it is empty, and then cancels.
   */
  lemma SlotAfterFailure(kept: seq<FetchError>, failed: set<string>, cancelled: bool,
                         urls: seq<string>, taken: nat, fetch: string -> FetchResult, callerCancelled: bool,
                         u: string, e: FetchError)
    requires SlotKept(kept, failed, cancelled, urls, taken, fetch, callerCancelled)
    requires taken <= |urls| && u in urls[..taken]
    requires fetch(u) == Err(e) || (e == Canceled && (cancelled || callerCancelled))
    ensures SlotKept(if kept == [] then [e] else kept, failed + {u}, cancelled || kept == [],
                     urls, taken, fetch, callerCancelled)
  {
  }

  /**
   * What holds once every worker has exited: a kept error is explained;
   * without one, every received URL was delivered with its body, and all
   * URLs were received unless the caller cancelled.
   */
  ghost predicate Settled(urls: seq<string>, fetch: string -> FetchResult, taken: nat,
                          kept: seq<FetchError>, pairs: seq<Pair>, callerCancelled: bool)
  {
    && taken <= |urls|
    && Delivered(pairs, fetch)
    && (kept != [] ==> Explained(kept[0], urls, taken, fetch, callerCancelled))
    && (kept == [] ==> PairUrls(pairs) == Elements(urls[..taken]))
    && (kept == [] && !callerCancelled ==> taken == |urls|)
  }

  /** The state the worker goroutines of one doAllWork call share. */
  class Pool {
    const urls: seq<string>
    const fetch: string -> FetchResult
    const jobs: Channel<string>      // urlsChan
    const errs: Channel<FetchError>  // errChan, capacity 1
    const data: Channel<Pair>        // dataChan, capacity len(urls)
    var workers: seq<Worker>
    var cancelled: bool              // cancel() of the derived context was called
    var callerCancelled: bool        // the request's own context is done
    ghost var taken: nat             // jobs received so far: urls[..taken]
    ghost var failed: set<string>    // URLs whose fetch came back with an error

    /** The derived context is done: its cancel was called, or the request's own context is done. */
    predicate CtxDone()
      reads this
    {
      cancelled || callerCancelled
    }

    /** Work not yet done: three steps per queued job, and each worker's weight. */
    ghost function Pending(): nat
      reads this, jobs
    {
      3 * |jobs.buffered| + Sum(workers, Weight)
    }

    ghost predicate Valid()
      reads this, jobs, errs, data
    {
      && jobs.Valid() && errs.Valid() && data.Valid()
      && jobs.closed && !errs.closed && !data.closed
      && jobs.capacity == |urls| && errs.capacity == 1 && data.capacity == |urls|
      && |workers| == WorkerCount(|urls|)
      // the queue hands out the batch in order, each URL once
      && taken <= |urls| && jobs.buffered == urls[taken..]
      // every received URL was delivered, is being fetched, or failed; the result buffer cannot overflow
      && Accounted(urls, taken, data.buffered, workers, failed)
      && Delivered(data.buffered, fetch)
      && SlotKept(errs.buffered, failed, cancelled, urls, taken, fetch, callerCancelled)
      // a worker leaves only once the context is done or the queue is drained
      && ((exists i :: 0 <= i < |workers| && workers[i] == Exited) ==> CtxDone() || jobs.buffered == [])
    }

    /**
     * Makes the one-slot error channel and the result channel of capacity
     * len(urls), and starts min(MaxWorker, len(urls)) workers on the
     * seeded, closed job channel.
     */
    constructor (urls: seq<string>, fetch: string -> FetchResult, jobs: Channel<string>)
      requires jobs.Valid() && jobs.closed && jobs.buffered == urls && jobs.capacity == |urls|
      ensures Valid() && fresh(errs) && fresh(data)
      ensures this.urls == urls && this.fetch == fetch && this.jobs == jobs
      ensures errs.buffered == [] && data.buffered == []
      ensures workers == seq(WorkerCount(|urls|), _ => Idle)
      ensures !cancelled && !callerCancelled && taken == 0 && failed == {}
    {
      this.urls := urls;
      this.fetch := fetch;
      this.jobs := jobs;
      errs := new Channel<FetchError>(1);
      data := new Channel<Pair>(|urls|);
      workers := seq(WorkerCount(|urls|), _ => Idle);
      cancelled := false;
      callerCancelled := false;
      taken := 0;
      failed := {};
      new;
      NothingInFlight(workers);
      assert Elements(urls[..0]) == {};
    }

    /**
     * The first half of one iteration of a worker's loop: leave if the
     * context is done, otherwise receive the next job, leaving if the
     * closed queue is drained.
     */
    method TakeJob(w: nat)
      requires Valid() && w < |workers| && workers[w] == Idle
      modifies this`workers, this`taken, jobs
      ensures Valid() && Pending() < old(Pending())
      ensures old(CtxDone()) || old(jobs.buffered) == [] ==>
        workers == old(workers)[w := Exited] && jobs.buffered == old(jobs.buffered)
      ensures !old(CtxDone()) && old(jobs.buffered) != [] ==>
        workers == old(workers)[w := Fetching(old(jobs.buffered)[0])] && jobs.buffered == old(jobs.buffered)[1..]
    {
      var job: Option<string> := None;
      if !CtxDone() {
        job := jobs.Receive();
      }
      match job
      case None =>
        AccountedLeave(urls, taken, data.buffered, workers, failed, w);
        SumUpdate(workers, w, Exited, Weight);
        workers := workers[w := Exited];
      case Some(u) =>
        AccountedTake(urls, taken, data.buffered, workers, failed, w);
        SumUpdate(workers, w, Fetching(u), Weight);
        workers := workers[w := Fetching(u)];
        taken := taken + 1;
    }

    /**
     * The second half: the fetch of the worker's job completes. A fetch
     * that completes once the context is done may have been interrupted,
     * and then fails with Canceled; otherwise its result is the oracle's.
     */
    method FinishFetch(w: nat, interrupted: bool)
      requires Valid() && w < |workers| && workers[w].Fetching?
      modifies this`workers, this`cancelled, this`failed, errs, data
      ensures Valid() && Pending() < old(Pending())
      ensures var u := old(workers[w]).url;
              var r := if interrupted && old(CtxDone()) then Err(Canceled) else fetch(u);
              if r.Ok? then
                && workers == old(workers)[w := Idle]
                && data.buffered == old(data.buffered) + [Pair(u, r.body)]
                && errs.buffered == old(errs.buffered) && cancelled == old(cancelled)
              else
                && workers == old(workers)[w := Exited]
                && data.buffered == old(data.buffered)
                && errs.buffered == (if old(errs.buffered) == [] then [r.error] else old(errs.buffered))
                && cancelled == (old(cancelled) || old(errs.buffered) == [])
    {
      var u := workers[w].url;
      var r := if interrupted && CtxDone() then Err(Canceled) else fetch(u);
      match r
      case Err(e) => Fail(w, e);
      case Ok(body) => Deliver(w, body);
    }

    /** A successful fetch: the URL and its body go to the result channel, and the worker loops for the next job. */
    method Deliver(w: nat, body: string)
      requires Valid() && w < |workers| && workers[w].Fetching?
      requires fetch(workers[w].url) == Ok(body)
      modifies this`workers, data
      ensures Valid() && Pending() < old(Pending())
      ensures workers == old(workers)[w := Idle]
      ensures data.buffered == old(data.buffered) + [Pair(old(workers[w]).url, body)]
    {
      var u := workers[w].url;
      AccountedDeliver(urls, taken, data.buffered, workers, failed, w, body);
      SumUpdate(workers, w, Idle, Weight);
      data.Send(Pair(u, body));
      workers := workers[w := Idle];
    }

    /** A failed fetch: try to claim the error slot without blocking, cancel if claimed, and leave. */
    method Fail(w: nat, e: FetchError)
      requires Valid() && w < |workers| && workers[w].Fetching?
      requires fetch(workers[w].url) == Err(e) || (e == Canceled && CtxDone())
      modifies this`workers, this`cancelled, this`failed, errs
      ensures Valid() && Pending() < old(Pending())
      ensures workers == old(workers)[w := Exited]
      ensures errs.buffered == if old(errs.buffered) == [] then [e] else old(errs.buffered)
      ensures cancelled == (old(cancelled) || old(errs.buffered) == [])
    {
      var u := workers[w].url;
      AccountedFail(urls, taken, data.buffered, workers, failed, w);
      SlotAfterFailure(errs.buffered, failed, cancelled, urls, taken, fetch, callerCancelled, u, e);
      SumUpdate(workers, w, Exited, Weight);
      var claimed := errs.TrySend(e);
      cancelled := cancelled || claimed;  // cancel() runs only when the claim succeeded
      workers := workers[w := Exited];
      failed := failed + {u};
    }

    /** The request's own context becomes done. */
    method CancelByCaller()
      requires Valid()
      modifies this`callerCancelled
      ensures Valid() && callerCancelled
    {
      callerCancelled := true;
    }

    /** Once every worker has exited, the settled facts hold. */
    lemma SettledWhenAllExited()
      requires Valid() && AllExited(workers)
      ensures Settled(urls, fetch, taken, errs.buffered, data.buffered, callerCancelled)
    {
      NothingInFlight(workers);
      assert |urls| > 0 ==> workers[0] == Exited;
    }

    /**
     * Runs the workers to completion under an arbitrary schedule (the
     * join of wg.Wait). When the caller may cancel, the scheduler may do
     * so at any step.
     */
    method Run(callerMayCancel: bool)
      requires Valid()
      requires !callerMayCancel ==> !callerCancelled
      modifies this`workers, this`taken, this`cancelled, this`failed, this`callerCancelled, jobs, errs, data
      ensures errs.Valid() && !errs.closed && data.Valid() && !data.closed
      ensures AllExited(workers)
      ensures Settled(urls, fetch, taken, errs.buffered, data.buffered, callerCancelled)
      ensures !callerMayCancel ==> !callerCancelled
    {
      while !AllExited(workers)
        invariant Valid()
        invariant !callerMayCancel ==> !callerCancelled
        decreases Pending(), if callerCancelled then 0 else 1
      {
        var w :| 0 <= w < |workers| && workers[w] != Exited;
        var callerNow: bool :| callerNow ==> callerMayCancel && !callerCancelled;
        var interrupted: bool :| true;
        if callerNow {
          CancelByCaller();
        } else if workers[w].Idle? {
          TakeJob(w);
        } else {
          FinishFetch(w, interrupted);
        }
      }
      SettledWhenAllExited();
    }
  }

  /** Seeds a fresh channel of capacity |urls| with the batch in order, then closes it. */
  method Seed(urls: seq<string>) returns (jobs: Channel<string>)
    ensures fresh(jobs) && jobs.Valid() && jobs.capacity == |urls|
    ensures jobs.closed && jobs.buffered == urls
  {
    jobs := new Channel<string>(|urls|);
    for i := 0 to |urls|
      invariant jobs.Valid() && !jobs.closed && jobs.buffered == urls[..i]
    {
      jobs.Send(urls[i]);
    }
    jobs.Close();
  }

  /**
   * After the join: close both channels, answer with the kept error if
   * there is one, otherwise fold the results into the output map.
   */
  method Collect(errs: Channel<FetchError>, data: Channel<Pair>) returns (result: Outcome)
    requires errs.Valid() && !errs.closed && data.Valid() && !data.closed
    modifies errs, data
    ensures result == Aggregate(old(errs.buffered), old(data.buffered))
  {
    errs.Close();
    data.Close();
    var e := errs.Receive();
    if e.Some? {
      return Failure(e.value);
    }
    var output: map<string, string> := map[];
    ghost var received: seq<Pair> := [];
    var next := data.Receive();
    while next.Some?
      invariant data.Valid() && data.closed
      invariant old(data.buffered) == received + (if next.Some? then [next.value] else []) + data.buffered
      invariant output == PairsToMap(received)
      invariant next.None? ==> data.buffered == []
      decreases |data.buffered| + (if next.Some? then 1 else 0)
    {
      var p := next.value;
      assert (received + [p])[..|received|] == received;
      received := received + [p];
      output := output[p.url := p.body];
      next := data.Receive();
    }
    assert received == old(data.buffered);
    result := Success(output);
  }

  /**
   * What the settled state promises about the aggregated answer: the
   * answer doAllWork gives, given how many jobs were received.
   */
  lemma SettledOutcome(urls: seq<string>, fetch: string -> FetchResult, callerMayCancel: bool,
                       callerCancelled: bool, taken: nat, kept: seq<FetchError>, pairs: seq<Pair>)
    requires Settled(urls, fetch, taken, kept, pairs, callerCancelled)
    requires !callerMayCancel ==> !callerCancelled
    ensures var result := Aggregate(kept, pairs);
      && (result.Success? ==> result.output.Keys == Elements(urls[..taken]))
      && (result.Success? ==> forall u :: u in result.output ==> fetch(u) == Ok(result.output[u]))
      && (result.Success? && !callerMayCancel ==> taken == |urls|)
      && (result.Failure? ==>
            (exists u :: u in urls[..taken] && fetch(u) == Err(result.error)) ||
            (callerMayCancel && result.error == Canceled))
      && (!callerMayCancel ==> (result.Failure? <==> exists u :: u in urls && fetch(u).Err?))
      && (!callerMayCancel && (forall u :: u in urls ==> fetch(u).Ok?) ==>
            result == Success(map u | u in Elements(urls) :: fetch(u).body))
  {
    var result := Aggregate(kept, pairs);
    if result.Success? && !callerMayCancel {
      assert urls[..taken] == urls;
    }
    if !callerMayCancel && result.Failure? {
      var u :| u in urls[..taken] && fetch(u) == Err(result.error);
      assert u in urls;
    }
  }

  /**
   * doAllWork against the fetch oracle. `taken` is how many jobs the
   * workers received: all of them unless the caller's context was
   * cancelled or a fetch failed.
   */
  method DoAllWork(urls: seq<string>, fetch: string -> FetchResult, callerMayCancel: bool)
    returns (result: Outcome, ghost taken: nat)
    ensures taken <= |urls|
    ensures result.Success? ==> result.output.Keys == Elements(urls[..taken])
    ensures result.Success? ==> forall u :: u in result.output ==> fetch(u) == Ok(result.output[u])
    ensures result.Success? && !callerMayCancel ==> taken == |urls|
    ensures result.Failure? ==>
      (exists u :: u in urls[..taken] && fetch(u) == Err(result.error)) || (callerMayCancel && result.error == Canceled)
    ensures !callerMayCancel ==> (result.Failure? <==> exists u :: u in urls && fetch(u).Err?)
    ensures !callerMayCancel && (forall u :: u in urls ==> fetch(u).Ok?) ==>
      result == Success(map u | u in Elements(urls) :: fetch(u).body)
  {
    var jobs := Seed(urls);
    var pool := new Pool(urls, fetch, jobs);
    pool.Run(callerMayCancel);
    taken := pool.taken;
    SettledOutcome(urls, fetch, callerMayCancel, pool.callerCancelled, taken, pool.errs.buffered, pool.data.buffered);
    result := Collect(pool.errs, pool.data);
  }

  /**
   * One schedule of a one-URL batch: the caller's context is cancelled
   * before the worker takes the job. The worker leaves, no fetch fails,
   * the error slot stays empty, and the answer is a map without the
   * batch's URL, with no error.
   */
  method CancelledBeforeAnyJob() returns (result: Outcome)
    ensures result == Success(map[])
  {
    var jobs := Seed(["a"]);
    var pool := new Pool(["a"], (u: string) => Ok("body"), jobs);
    pool.CancelByCaller();
    pool.TakeJob(0);
    result := Collect(pool.errs, pool.data);
  }

  /**
   * One schedule of a two-URL batch in which the second fetch succeeds
   * before the first fails: the failure claims the slot and cancels, the
   * idle worker then leaves, and the answer is the error alone; the result
   * already delivered is dropped.
   */
  method FailureDropsDelivered() returns (result: Outcome)
    ensures result == Failure(TransportFailed)
  {
    var urls := ["a", "b"];
    var fetch := (u: string) => if u == "a" then Err(TransportFailed) else Ok("body");
    var jobs := Seed(urls);
    var pool := new Pool(urls, fetch, jobs);
    assert pool.workers == [Idle, Idle];
    pool.TakeJob(0);
    pool.TakeJob(1);
    assert pool.workers == [Fetching("a"), Fetching("b")];
    pool.Deliver(1, "body");
    pool.Fail(0, TransportFailed);
    assert pool.errs.buffered == [TransportFailed] && pool.CtxDone();
    pool.TakeJob(1);
    result := Collect(pool.errs, pool.data);
  }
}
