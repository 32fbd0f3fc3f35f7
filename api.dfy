/**
 * The backend client (src/services/api.ts): the request each endpoint
 * builds, and the bounded status poller. A request's reply is an oracle
 * value; the backend seen by the poller answers attempt `i` with `backend(i)`.
 */
module Api {
  import opened Wrappers
  import Http
  import Chains

  datatype QuoteRequest = QuoteRequest(chainId: Chains.ChainId, userAddress: string, destinationAddress: string)

  datatype Eip712Domain = Eip712Domain(name: string, version: string, chainId: Chains.ChainId, verifyingContract: string)
  datatype TypedField = TypedField(name: string, fieldType: string)
  datatype SweepAuthorization = SweepAuthorization(
    quoteId: string, user: string, destination: string, chainId: Chains.ChainId,
    fee: string, nonce: int, deadline: int)
  datatype Eip712Message = Eip712Message(
    domain: Eip712Domain, sweepAuthorizationType: seq<TypedField>, primaryType: string, message: SweepAuthorization)

  datatype QuoteResponse = QuoteResponse(
    quoteId: string, chainId: Chains.ChainId, userAddress: string, destinationAddress: string,
    estimatedBalance: string, fee: string, feeUsd: string, estimatedReceive: string,
    gasPrice: string, gasLimit: string, expiresAt: string, eip712Message: Eip712Message)

  datatype Eip7702Authorization = Eip7702Authorization(
    chainId: string, address: string, nonce: string, yParity: string, r: string, s: string)
  datatype SweepRequest = SweepRequest(quoteId: string, eip712Signature: string, eip7702Authorization: Eip7702Authorization)

  datatype SweepState = Pending | Processing | Completed | Failed
  datatype SweepResponse = SweepResponse(sweepId: string, status: SweepState, txHash: Option<string>)
  datatype StatusResponse = StatusResponse(
    sweepId: string, status: SweepState, txHash: Option<string>, error: Option<string>, completedAt: Option<string>)

  datatype Verb = Get | Post
  /** The JSON body a request carries (`JSON.stringify` of the request object). */
  datatype Body = QuoteBody(quote: QuoteRequest) | SweepBody(sweep: SweepRequest)
  /** A request as `fetchApi` issues it: method, endpoint path, body. */
  datatype Call = Call(verb: Verb, endpoint: string, body: Option<Body>)

  /** `getQuote`: POST /quote. */
  function QuoteCall(request: QuoteRequest): Call
  {
    Call(Post, "/quote", Some(QuoteBody(request)))
  }

  /** `submitSweep`: POST /sweep. */
  function SubmitCall(request: SweepRequest): Call
  {
    Call(Post, "/sweep", Some(SweepBody(request)))
  }

  /** `getSweepStatus`: GET /sweep/<id>, no body. */
  function StatusCall(sweepId: string): Call
  {
    Call(Get, "/sweep/" + sweepId, None)
  }

  /** The id a status path names, read back from the path. */
  function SweepIdOf(endpoint: string): (id: Option<string>)
    ensures id.Some? ==> "/sweep/" + id.value == endpoint
  {
    if |endpoint| >= 7 && endpoint[..7] == "/sweep/" then Some(endpoint[7..]) else None
  }

  /**
   * The three endpoints never collide: the quote and sweep requests are POSTs
   * to different paths, the status request is a body-less GET whose path
   * gives back the sweep id and so differs for different ids.
   */
  lemma EndpointsAreDistinct(q: QuoteRequest, s: SweepRequest, id: string, other: string)
    ensures QuoteCall(q).verb == Post && QuoteCall(q).endpoint == "/quote" && QuoteCall(q).body == Some(QuoteBody(q))
    ensures SubmitCall(s).verb == Post && SubmitCall(s).endpoint == "/sweep" && SubmitCall(s).body == Some(SweepBody(s))
    ensures StatusCall(id).verb == Get && StatusCall(id).body == None
    ensures SweepIdOf(StatusCall(id).endpoint) == Some(id)
    ensures SweepIdOf("/quote") == None && SweepIdOf("/sweep") == None
    ensures QuoteCall(q).endpoint != SubmitCall(s).endpoint
    ensures StatusCall(id) == StatusCall(other) ==> id == other
  {
    var e := StatusCall(id).endpoint;
    assert e[..7] == "/sweep/" && e[7..] == id;
    var e' := StatusCall(other).endpoint;
    assert e'[..7] == "/sweep/" && e'[7..] == other;
  }

  /** `pollSweepStatus` defaults. */
  const DefaultMaxAttempts: int := 60
  const DefaultIntervalMs: nat := 2000
  const TimeoutMessage: string := "Sweep timed out"

  predicate IsTerminal(s: StatusResponse) { s.status == Completed || s.status == Failed }

  /** What the poller does, in order: a status request, an `onUpdate` call, a wait. */
  datatype PollEvent = Requested(call: Call) | Updated(status: StatusResponse) | Waited(ms: nat)

  /** What `pollSweepStatus` throws: the failing request's error, or the timeout. */
  datatype PollError = RequestFailed(failure: Http.Failure) | TimedOut(message: string)

  datatype PollRun = PollRun(result: Result<StatusResponse, PollError>, events: seq<PollEvent>)

  type Backend = nat -> Http.Exchange<StatusResponse>

  /** What the status request of attempt `i` resolves to. */
  function Reply(backend: Backend, i: nat): Result<StatusResponse, Http.Failure>
  {
    Http.Receive(backend(i))
  }

  /** Attempt `i` ends the polling: its request fails or its status is terminal. */
  predicate StopsAt(backend: Backend, i: nat)
  {
    Reply(backend, i).Failure? || IsTerminal(Reply(backend, i).value)
  }

  /**
   * The reference behaviour of the polling loop from attempt `i` on:
   * request, report, stop on a failure or terminal status, else wait and go on.
   */
  function PollFrom(sweepId: string, backend: Backend, notify: bool, maxAttempts: int, intervalMs: nat, i: nat): PollRun
    decreases maxAttempts - i
  {
    if i >= maxAttempts then PollRun(Failure(TimedOut(TimeoutMessage)), [])
    else
      var asked := [Requested(StatusCall(sweepId))];
      match Reply(backend, i)
      case Failure(e) => PollRun(Failure(RequestFailed(e)), asked)
      case Success(s) =>
        var told := asked + (if notify then [Updated(s)] else []);
        if IsTerminal(s) then PollRun(Success(s), told)
        else
          var rest := PollFrom(sweepId, backend, notify, maxAttempts, intervalMs, i + 1);
          PollRun(rest.result, told + [Waited(intervalMs)] + rest.events)
  }

  /** The first attempt at or after `i` that ends the polling, or the budget. */
  function StopIndex(backend: Backend, maxAttempts: int, i: nat): (k: nat)
    ensures i <= k && (k <= maxAttempts || k == i)
    ensures forall j :: i <= j < k ==> !StopsAt(backend, j)
    ensures k < maxAttempts ==> StopsAt(backend, k)
    decreases maxAttempts - i
  {
    if i >= maxAttempts || StopsAt(backend, i) then i else StopIndex(backend, maxAttempts, i + 1)
  }

  function Requests(events: seq<PollEvent>): nat
  {
    if events == [] then 0 else (if events[0].Requested? then 1 else 0) + Requests(events[1..])
  }

  function Waits(events: seq<PollEvent>): nat
  {
    if events == [] then 0 else (if events[0].Waited? then 1 else 0) + Waits(events[1..])
  }

  /** The statuses handed to `onUpdate`, in call order. */
  function Updates(events: seq<PollEvent>): seq<StatusResponse>
  {
    if events == [] then [] else (if events[0].Updated? then [events[0].status] else []) + Updates(events[1..])
  }

  lemma {:induction false} RequestsAppend(a: seq<PollEvent>, b: seq<PollEvent>)
    ensures Requests(a + b) == Requests(a) + Requests(b)
  {
    if a == [] {
      assert a + b == b;
    } else {
      assert (a + b)[1..] == a[1..] + b;
      RequestsAppend(a[1..], b);
    }
  }

  lemma {:induction false} WaitsAppend(a: seq<PollEvent>, b: seq<PollEvent>)
    ensures Waits(a + b) == Waits(a) + Waits(b)
  {
    if a == [] {
      assert a + b == b;
    } else {
      assert (a + b)[1..] == a[1..] + b;
      WaitsAppend(a[1..], b);
    }
  }

  /** What `Updates` keeps of one event. */
  function UpdateOf(e: PollEvent): seq<StatusResponse>
  {
    if e.Updated? then [e.status] else []
  }

  lemma {:induction false} UpdatesAppend(a: seq<PollEvent>, b: seq<PollEvent>)
    ensures Updates(a + b) == Updates(a) + Updates(b)
  {
    if a == [] {
      assert a + b == b;
    } else {
      var ab := a + b;
      assert ab[0] == a[0] && ab[1..] == a[1..] + b;
      UpdatesAppend(a[1..], b);
      calc {
        Updates(ab);
        UpdateOf(a[0]) + Updates(a[1..] + b);
        UpdateOf(a[0]) + (Updates(a[1..]) + Updates(b));
        (UpdateOf(a[0]) + Updates(a[1..])) + Updates(b);
        Updates(a) + Updates(b);
      }
    }
  }

  /** The events of an attempt up to its terminal check: the request, then the report. */
  function Told(sweepId: string, s: StatusResponse, notify: bool): seq<PollEvent>
  {
    [Requested(StatusCall(sweepId))] + (if notify then [Updated(s)] else [])
  }

  lemma ToldCounts(sweepId: string, s: StatusResponse, notify: bool)
    ensures Requests(Told(sweepId, s, notify)) == 1 && Waits(Told(sweepId, s, notify)) == 0
    ensures Updates(Told(sweepId, s, notify)) == (if notify then [s] else [])
  {
    var told := Told(sweepId, s, notify);
    assert told[0] == Requested(StatusCall(sweepId));
    if notify {
      var last := told[1..];
      assert last == [Updated(s)] && last[1..] == [];
      assert Updates(last) == [s] + Updates(last[1..]);
      assert Updates(told) == [] + Updates(last);
      assert Requests(last) == 0 && Waits(last) == 0;
      assert Requests(told) == 1 + Requests(last) && Waits(told) == Waits(last);
    } else {
      assert told[1..] == [];
    }
  }

  /** The events of one attempt that did not stop the polling. */
  function StepEvents(sweepId: string, s: StatusResponse, notify: bool, intervalMs: nat): seq<PollEvent>
  {
    [Requested(StatusCall(sweepId))] + (if notify then [Updated(s)] else []) + [Waited(intervalMs)]
  }

  lemma StepCounts(sweepId: string, s: StatusResponse, notify: bool, intervalMs: nat)
    ensures Requests(StepEvents(sweepId, s, notify, intervalMs)) == 1
    ensures Waits(StepEvents(sweepId, s, notify, intervalMs)) == 1
    ensures Updates(StepEvents(sweepId, s, notify, intervalMs)) == (if notify then [s] else [])
  {
    var told := Told(sweepId, s, notify);
    assert StepEvents(sweepId, s, notify, intervalMs) == told + [Waited(intervalMs)];
    ToldCounts(sweepId, s, notify);
    RequestsAppend(told, [Waited(intervalMs)]);
    WaitsAppend(told, [Waited(intervalMs)]);
    UpdatesAppend(told, [Waited(intervalMs)]);
  }

  /** One non-stopping attempt followed by the rest of the run. */
  lemma PollUnfold(sweepId: string, backend: Backend, notify: bool, maxAttempts: int, intervalMs: nat, i: nat)
    requires i < maxAttempts && !StopsAt(backend, i)
    ensures var run := PollFrom(sweepId, backend, notify, maxAttempts, intervalMs, i);
      var rest := PollFrom(sweepId, backend, notify, maxAttempts, intervalMs, i + 1);
      run.result == rest.result &&
      run.events == StepEvents(sweepId, Reply(backend, i).value, notify, intervalMs) + rest.events
  {
  }

  /** The attempt that stops the polling is the last one. */
  lemma PollStop(sweepId: string, backend: Backend, notify: bool, maxAttempts: int, intervalMs: nat, i: nat)
    requires i < maxAttempts && StopsAt(backend, i)
    ensures PollFrom(sweepId, backend, notify, maxAttempts, intervalMs, i) ==
      match Reply(backend, i)
      case Failure(e) => PollRun(Failure(RequestFailed(e)), [Requested(StatusCall(sweepId))])
      case Success(s) => PollRun(Success(s), [Requested(StatusCall(sweepId))] + (if notify then [Updated(s)] else []))
  {
  }

  /** Whether the run from `i` ends before the budget is spent. */
  predicate Stopped(backend: Backend, maxAttempts: int, i: nat)
  {
    StopIndex(backend, maxAttempts, i) < maxAttempts
  }

  /**
   * A run from attempt `i` returns the first terminal status, rethrows the
   * first failure unchanged, or throws the timeout if neither occurs within
   * the budget.
   */
  lemma {:induction false} PollResult(sweepId: string, backend: Backend, notify: bool, maxAttempts: int, intervalMs: nat, i: nat)
    ensures var r := PollFrom(sweepId, backend, notify, maxAttempts, intervalMs, i).result;
      var k := StopIndex(backend, maxAttempts, i);
      && (!Stopped(backend, maxAttempts, i) ==> r == Failure(TimedOut(TimeoutMessage)))
      && (Stopped(backend, maxAttempts, i) && Reply(backend, k).Failure? ==> r == Failure(RequestFailed(Reply(backend, k).error)))
      && (Stopped(backend, maxAttempts, i) && Reply(backend, k).Success? ==> r == Success(Reply(backend, k).value))
    decreases maxAttempts - i
  {
    if i < maxAttempts && !StopsAt(backend, i) {
      PollUnfold(sweepId, backend, notify, maxAttempts, intervalMs, i);
      PollResult(sweepId, backend, notify, maxAttempts, intervalMs, i + 1);
    }
  }

  /**
   * Requests go out for attempts i..k, the first stopping one included and
   * none after it (i..k-1 when the budget ran out), and one wait follows
   * each non-terminal status.
   */
  lemma {:induction false} PollCounts(sweepId: string, backend: Backend, notify: bool, maxAttempts: int, intervalMs: nat, i: nat)
    ensures var events := PollFrom(sweepId, backend, notify, maxAttempts, intervalMs, i).events;
      var k := StopIndex(backend, maxAttempts, i);
      && Requests(events) == k - i + (if Stopped(backend, maxAttempts, i) then 1 else 0)
      && Waits(events) == k - i
    decreases maxAttempts - i
  {
    if i < maxAttempts {
      if !StopsAt(backend, i) {
        var s := Reply(backend, i).value;
        var rest := PollFrom(sweepId, backend, notify, maxAttempts, intervalMs, i + 1);
        PollUnfold(sweepId, backend, notify, maxAttempts, intervalMs, i);
        PollCounts(sweepId, backend, notify, maxAttempts, intervalMs, i + 1);
        StepCounts(sweepId, s, notify, intervalMs);
        RequestsAppend(StepEvents(sweepId, s, notify, intervalMs), rest.events);
        WaitsAppend(StepEvents(sweepId, s, notify, intervalMs), rest.events);
      } else if Reply(backend, i).Success? {
        PollStop(sweepId, backend, notify, maxAttempts, intervalMs, i);
        ToldCounts(sweepId, Reply(backend, i).value, notify);
      }
    }
  }

  /**
   * The statuses fetched by `count` attempts from attempt `i` on, in order
   * (cut short at a failing request).
   */
  function Fetched(backend: Backend, i: nat, count: nat): seq<StatusResponse>
    decreases count
  {
    if count == 0 then []
    else match Reply(backend, i)
      case Success(s) => [s] + Fetched(backend, i + 1, count - 1)
      case Failure(_) => []
  }

  /** The number of attempts from `i` on whose status request succeeded. */
  function Successful(backend: Backend, maxAttempts: int, i: nat): nat
  {
    var k := StopIndex(backend, maxAttempts, i);
    k - i + (if Stopped(backend, maxAttempts, i) && Reply(backend, k).Success? then 1 else 0)
  }

  /**
   * `onUpdate` sees exactly the fetched statuses, in fetch order, the
   * terminal one included; without a callback nothing is reported.
   */
  lemma {:induction false} PollUpdates(sweepId: string, backend: Backend, notify: bool, maxAttempts: int, intervalMs: nat, i: nat)
    ensures var updates := Updates(PollFrom(sweepId, backend, notify, maxAttempts, intervalMs, i).events);
      && (!notify ==> updates == [])
      && (notify ==> updates == Fetched(backend, i, Successful(backend, maxAttempts, i)))
    decreases maxAttempts - i
  {
    if i < maxAttempts {
      if !StopsAt(backend, i) {
        var s := Reply(backend, i).value;
        var rest := PollFrom(sweepId, backend, notify, maxAttempts, intervalMs, i + 1);
        PollUnfold(sweepId, backend, notify, maxAttempts, intervalMs, i);
        PollUpdates(sweepId, backend, notify, maxAttempts, intervalMs, i + 1);
        StepCounts(sweepId, s, notify, intervalMs);
        UpdatesAppend(StepEvents(sweepId, s, notify, intervalMs), rest.events);
        assert StopIndex(backend, maxAttempts, i) == StopIndex(backend, maxAttempts, i + 1);
        assert Successful(backend, maxAttempts, i) == Successful(backend, maxAttempts, i + 1) + 1;
      } else if Reply(backend, i).Success? {
        PollStop(sweepId, backend, notify, maxAttempts, intervalMs, i);
        ToldCounts(sweepId, Reply(backend, i).value, notify);
      }
    }
  }

  /**
   * Every status in a fetched prefix came from a successful request of the
   * matching attempt.
   */
  lemma {:induction false} FetchedAt(backend: Backend, i: nat, count: nat, n: nat)
    requires n < |Fetched(backend, i, count)|
    ensures n < count && Reply(backend, i + n).Success? && Fetched(backend, i, count)[n] == Reply(backend, i + n).value
    decreases count
  {
    if n > 0 {
      FetchedAt(backend, i + 1, count - 1, n - 1);
    }
  }

  /** Every request of a run is this sweep's status request and every wait lasts `intervalMs`. */
  ghost predicate WellFormed(events: seq<PollEvent>, sweepId: string, intervalMs: nat)
  {
    forall e :: e in events ==>
      (e.Requested? ==> e.call == StatusCall(sweepId)) && (e.Waited? ==> e.ms == intervalMs)
  }

  lemma {:induction false} PollWellFormed(sweepId: string, backend: Backend, notify: bool, maxAttempts: int, intervalMs: nat, i: nat)
    ensures WellFormed(PollFrom(sweepId, backend, notify, maxAttempts, intervalMs, i).events, sweepId, intervalMs)
    decreases maxAttempts - i
  {
    if i < maxAttempts && !StopsAt(backend, i) {
      PollUnfold(sweepId, backend, notify, maxAttempts, intervalMs, i);
      PollWellFormed(sweepId, backend, notify, maxAttempts, intervalMs, i + 1);
    }
  }

  /** The loop's account of the run is complete once an attempt stops the polling. */
  lemma PollFinish(sweepId: string, backend: Backend, notify: bool, maxAttempts: int, intervalMs: nat, i: nat,
                   whole: PollRun, before: seq<PollEvent>, result: Result<StatusResponse, PollError>, after: seq<PollEvent>)
    requires i < maxAttempts && StopsAt(backend, i)
    requires whole.result == PollFrom(sweepId, backend, notify, maxAttempts, intervalMs, i).result
    requires whole.events == before + PollFrom(sweepId, backend, notify, maxAttempts, intervalMs, i).events
    requires Reply(backend, i).Failure? ==>
      result == Failure(RequestFailed(Reply(backend, i).error)) && after == before + [Requested(StatusCall(sweepId))]
    requires Reply(backend, i).Success? ==>
      result == Success(Reply(backend, i).value) &&
      after == before + [Requested(StatusCall(sweepId))] + (if notify then [Updated(Reply(backend, i).value)] else [])
    ensures whole == PollRun(result, after)
  {
    PollStop(sweepId, backend, notify, maxAttempts, intervalMs, i);
  }

  /** Carrying the loop's account of the run across one non-stopping attempt. */
  lemma PollAdvance(sweepId: string, backend: Backend, notify: bool, maxAttempts: int, intervalMs: nat, i: nat,
                    whole: PollRun, before: seq<PollEvent>, after: seq<PollEvent>)
    requires i < maxAttempts && !StopsAt(backend, i)
    requires whole.result == PollFrom(sweepId, backend, notify, maxAttempts, intervalMs, i).result
    requires whole.events == before + PollFrom(sweepId, backend, notify, maxAttempts, intervalMs, i).events
    requires after == before + StepEvents(sweepId, Reply(backend, i).value, notify, intervalMs)
    ensures whole.result == PollFrom(sweepId, backend, notify, maxAttempts, intervalMs, i + 1).result
    ensures whole.events == after + PollFrom(sweepId, backend, notify, maxAttempts, intervalMs, i + 1).events
  {
    PollUnfold(sweepId, backend, notify, maxAttempts, intervalMs, i);
  }

  /**
   * `pollSweepStatus`: at most `maxAttempts` status requests; each fetched
   * status goes to `onUpdate` (when `notify`) before the terminal check; the
   * first `completed`/`failed` status is returned; a failing request throws
   * at once; otherwise it waits `intervalMs` and tries again, and throws
   * `Sweep timed out` when the budget is spent.
   */
  method PollSweepStatus(sweepId: string, backend: Backend, notify: bool, maxAttempts: int, intervalMs: nat)
    returns (result: Result<StatusResponse, PollError>, events: seq<PollEvent>)
    ensures PollRun(result, events) == PollFrom(sweepId, backend, notify, maxAttempts, intervalMs, 0)
  {
    events := [];
    var i: nat := 0;
    ghost var whole := PollFrom(sweepId, backend, notify, maxAttempts, intervalMs, 0);
    assert [] + whole.events == whole.events;
    while i < maxAttempts
      invariant i <= maxAttempts || i == 0
      invariant whole.result == PollFrom(sweepId, backend, notify, maxAttempts, intervalMs, i).result
      invariant whole.events == events + PollFrom(sweepId, backend, notify, maxAttempts, intervalMs, i).events
      decreases maxAttempts - i
    {
      ghost var before := events;
      events := events + [Requested(StatusCall(sweepId))];
      var reply := Reply(backend, i);
      if reply.Failure? {
        result := Failure(RequestFailed(reply.error));
        PollFinish(sweepId, backend, notify, maxAttempts, intervalMs, i, whole, before, result, events);
        return;
      }
      var status := reply.value;
      if notify {
        events := events + [Updated(status)];
      }
      if IsTerminal(status) {
        result := Success(status);
        PollFinish(sweepId, backend, notify, maxAttempts, intervalMs, i, whole, before, result, events);
        return;
      }
      events := events + [Waited(intervalMs)];
      PollAdvance(sweepId, backend, notify, maxAttempts, intervalMs, i, whole, before, events);
      i := i + 1;
    }
    result := Failure(TimedOut(TimeoutMessage));
  }
  /**
   * `pollSweepStatus(sweepId, onUpdate)` with its default arguments: 60
   * attempts, 2000 ms apart.
   */
  method PollWithDefaults(sweepId: string, backend: Backend, notify: bool)
    returns (result: Result<StatusResponse, PollError>, events: seq<PollEvent>)
    ensures PollRun(result, events) == PollFrom(sweepId, backend, notify, DefaultMaxAttempts, DefaultIntervalMs, 0)
  {
    result, events := PollSweepStatus(sweepId, backend, notify, DefaultMaxAttempts, DefaultIntervalMs);
  }

  /**
   * With the defaults, a sweep still pending after 60 status requests, none
   * of them failing, throws `Sweep timed out` after 60 requests and 60 waits
   * of two seconds; a run never makes more than 60 requests.
   */
  lemma DefaultTimeout(sweepId: string, backend: Backend, notify: bool)
    ensures var run := PollFrom(sweepId, backend, notify, DefaultMaxAttempts, DefaultIntervalMs, 0);
      Requests(run.events) <= 60
    ensures (forall j :: 0 <= j < DefaultMaxAttempts ==> !StopsAt(backend, j)) ==>
      var run := PollFrom(sweepId, backend, notify, DefaultMaxAttempts, DefaultIntervalMs, 0);
      && run.result == Failure(TimedOut("Sweep timed out"))
      && Requests(run.events) == 60
      && Waits(run.events) == 60
  {
    PollResult(sweepId, backend, notify, DefaultMaxAttempts, DefaultIntervalMs, 0);
    PollCounts(sweepId, backend, notify, DefaultMaxAttempts, DefaultIntervalMs, 0);
  }
}
