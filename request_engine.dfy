/**
 * The per-request replay coroutine `process` (request_engine.py:9-72).
 *
 * The Python generator yields one socket operation at each suspension point
 * and the scheduler resumes it with that operation's result, or throws an
 * exception into it.  Here the scheduler's answers are the sequence `sched`
 * (one per suspension, in order) and the successive `datetime.now()`
 * readings are the sequence `clock`; the yielded operations are collected
 * into a trace.
 */
module RequestEngine {
  import opened Wrappers
  import opened Clock
  import opened EndpointSelection
  import PyText

  /** A socket operation `process` yields to the scheduler. */
  datatype Op =
    | Resolve(host: string)
    | Connect(host: string, port: int)
    | Write(data: string)
    | Read
    | Close

  /** How the scheduler resumes the generator after one yielded operation. */
  datatype Outcome =
    | Returned(value: string)       // the operation completed; `read` returns the raw response
    | SockError(message: string)    // a `SockError` is thrown in at the suspension point
    | OtherError(message: string)   // any other exception is thrown in

  /** How one run of `process` ends. */
  datatype Status =
    | Completed                     // ran past `yield close()`
    | Swallowed(message: string)    // a `SockError` caught by the `except` clause
    | Raised(message: string)       // another exception, propagated to the driver

  /**
   * The request entity as `process` reads it: the parsed URL, the wire text
   * `request.puke()` produces, and the two optional underscore fields.
   */
  datatype Request = Request(
    url: Url,
    wire: string,
    sequence: Option<int>,
    serverIPAddress: Option<string>)

  /**
   * The `Timings` entity; a field is `None` until `process` assigns it.
   * The object is created fresh for the response and never shared, so it is
   * kept as a value inside the `Response`.  `recieve` carries the spelling
   * `process` assigns (line 56): it is an attribute of its own, not the
   * HAR `receive` timing, which `process` never sets.
   */
  datatype Timings = Timings(
    connect: Option<int>,
    send: Option<int>,
    wait: Option<int>,
    recieve: Option<int>)

  /** `Timings()`: nothing measured yet. */
  const Unmeasured := Timings(None, None, None, None)

  /**
   * The `Response` entity as `process` fills it: its `_timings`, its
   * `_sequence`, and the raw response text handed to `devour`.
   */
  class Response {
    var timings: Option<Timings>
    var sequence: Option<int>
    var devoured: Option<string>

    constructor ()
      ensures timings == None && sequence == None && devoured == None
    {
      timings, sequence, devoured := None, None, None;
    }
  }

  /** Everything a run of `process` leaves behind, as values. */
  datatype Run = Run(
    trace: seq<Op>,
    status: Status,
    timings: Timings,
    devoured: Option<string>,
    sequence: Option<int>)

  /** The operations a run yields when every one of them succeeds. */
  function Plan(ep: Endpoint, wire: string): (ops: seq<Op>)
    ensures |ops| == if ep.resolve then 5 else 4
    ensures ops[|ops| - 1] == Close
  {
    (if ep.resolve then [Resolve(ep.host)] else []) +
    [Connect(ep.host, ep.port), Write(wire), Read, Close]
  }

  /**
   * Among the first `n` outcomes, the index of the first one that is not a
   * return, or `n` if all of them returned.
   */
  function FirstFailure(outcomes: seq<Outcome>, n: nat): (k: nat)
    requires n <= |outcomes|
    ensures k <= n
    ensures forall i :: 0 <= i < k ==> outcomes[i].Returned?
    ensures k < n ==> !outcomes[k].Returned?
  {
    if n == 0 then 0
    else
      var k := FirstFailure(outcomes, n - 1);
      if k < n - 1 || !outcomes[n - 1].Returned? then k else n
  }

  /** Extending a prefix of `s` by the next element of `s`. */
  lemma TakeOneMore<T>(s: seq<T>, m: nat)
    requires m < |s|
    ensures s[..m] + [s[m]] == s[..m + 1]
  {
  }

  /** The index of the first failure is pinned down by the returns before it. */
  lemma FirstFailureIs(outcomes: seq<Outcome>, n: nat, j: nat)
    requires j <= n <= |outcomes|
    requires forall i :: 0 <= i < j ==> outcomes[i].Returned?
    requires j < n ==> !outcomes[j].Returned?
    ensures FirstFailure(outcomes, n) == j
  {
  }

  /** What the `except SockError` clause makes of an exception thrown in. */
  function Caught(o: Outcome): (s: Status)
    requires !o.Returned?
    ensures s.Swallowed? <==> o.SockError?
    ensures !s.Completed? && s.message == o.message
  {
    if o.SockError? then Swallowed(o.message) else Raised(o.message)
  }

  /** Enough clock readings and scheduler answers for the longest run. */
  predicate Supplied(clock: seq<Instant>, sched: seq<Outcome>)
  {
    |clock| >= 6 && |sched| >= 5
  }

  /**
   * The timings a run leaves when `done` operations of the plan returned and
   * Connect sits at position `c` of the plan: each timing is taken from the
   * two clock readings that bracket its own step, once that step returned.
   */
  function Measured(clock: seq<Instant>, c: nat, done: nat): Timings
    requires |clock| >= 6
  {
    Timings(
      if done > c then Some(GetTimeDelta(clock[0], clock[1])) else None,
      if done > c + 1 then Some(GetTimeDelta(clock[2], clock[3])) else None,
      if done > c + 2 then Some(GetTimeDelta(clock[4], clock[5])) else None,
      if done > c + 2 then Some(0) else None)
  }

  /**
   * The run of `process`, stated declaratively: the trace is the plan up to
   * and including the first operation that fails, the status is what the
   * `except` clause makes of that failure, and the response holds the
   * timings of the steps that returned and the raw text `read` returned.
   */
  function Replay(request: Request, clock: seq<Instant>, sched: seq<Outcome>): (run: Run)
    requires Supplied(clock, sched)
    ensures run.sequence == request.sequence
    ensures |run.trace| <= 5
    ensures run.trace == [] <==> request.url.hostname.None?
    ensures run.status.Completed? ==> |run.trace| >= 4 && run.trace[|run.trace| - 1] == Close
  {
    match SelectEndpoint(request.url, request.serverIPAddress)
    case Failure(e) =>
      Run([], Raised(e), Unmeasured, None, request.sequence)
    case Success(ep) =>
      var plan := Plan(ep, request.wire);
      var k := FirstFailure(sched, |plan|);
      var c := |plan| - 4;  // where Connect sits in the plan
      Run(
        plan[..if k < |plan| then k + 1 else k],
        if k < |plan| then Caught(sched[k]) else Completed,
        Measured(clock, c, k),
        if k > c + 2 then Some(sched[c + 2].value) else None,
        request.sequence)
  }

  /**
   * Replay once the endpoint is selected and the first `j` operations of the
   * plan returned, the next one (if any) failing.
   */
  lemma ReplayStopsAt(request: Request, clock: seq<Instant>, sched: seq<Outcome>, ep: Endpoint, j: nat)
    requires Supplied(clock, sched)
    requires SelectEndpoint(request.url, request.serverIPAddress) == Success(ep)
    requires j <= |Plan(ep, request.wire)|
    requires forall i :: 0 <= i < j ==> sched[i].Returned?
    requires j < |Plan(ep, request.wire)| ==> !sched[j].Returned?
    ensures var plan := Plan(ep, request.wire);
      var c := |plan| - 4;
      Replay(request, clock, sched) == Run(
        plan[..if j < |plan| then j + 1 else j],
        if j < |plan| then Caught(sched[j]) else Completed,
        Measured(clock, c, j),
        if j > c + 2 then Some(sched[c + 2].value) else None,
        request.sequence)
  {
    FirstFailureIs(sched, |Plan(ep, request.wire)|, j);
  }

  /**
   * The state `process` is in just before it yields the operation at index
   * `next` of the plan for `ep`: every earlier operation was yielded and
   * returned, and the response fields (`timings`, `devoured`, `sequence`)
   * hold what those steps recorded.
   */
  ghost predicate Reached(request: Request, clock: seq<Instant>, sched: seq<Outcome>, ep: Endpoint,
                          trace: seq<Op>, next: nat,
                          timings: Option<Timings>, devoured: Option<string>, sequence: Option<int>)
  {
    var plan := Plan(ep, request.wire);
    Supplied(clock, sched) &&
    SelectEndpoint(request.url, request.serverIPAddress) == Success(ep) &&
    next <= |plan| &&
    (forall i :: 0 <= i < next ==> sched[i].Returned?) &&
    trace == plan[..next] &&
    timings == Some(Measured(clock, |plan| - 4, next)) &&
    devoured == (if next > |plan| - 2 then Some(sched[|plan| - 2].value) else None) &&
    sequence == request.sequence
  }

  /** The run has ended, leaving exactly what `Replay` describes. */
  ghost predicate Finished(request: Request, clock: seq<Instant>, sched: seq<Outcome>,
                           trace: seq<Op>, status: Status,
                           timings: Option<Timings>, devoured: Option<string>, sequence: Option<int>)
    requires Supplied(clock, sched)
  {
    var run := Replay(request, clock, sched);
    trace == run.trace && status == run.status && timings == Some(run.timings) &&
    devoured == run.devoured && sequence == run.sequence
  }

  /** A step that fails ends the run: the exception is what `Replay` reports. */
  lemma StepFails(request: Request, clock: seq<Instant>, sched: seq<Outcome>, ep: Endpoint,
                  trace: seq<Op>, next: nat,
                  timings: Option<Timings>, devoured: Option<string>, sequence: Option<int>)
    requires Reached(request, clock, sched, ep, trace, next, timings, devoured, sequence)
    requires next < |Plan(ep, request.wire)| && !sched[next].Returned?
    ensures Finished(request, clock, sched, trace + [Plan(ep, request.wire)[next]], Caught(sched[next]),
                     timings, devoured, sequence)
  {
    TakeOneMore(Plan(ep, request.wire), next);
    ReplayStopsAt(request, clock, sched, ep, next);
  }

  /** After every step has returned, the run is complete. */
  lemma AllReturned(request: Request, clock: seq<Instant>, sched: seq<Outcome>, ep: Endpoint,
                    trace: seq<Op>, timings: Option<Timings>, devoured: Option<string>, sequence: Option<int>)
    requires Reached(request, clock, sched, ep, trace, |Plan(ep, request.wire)|, timings, devoured, sequence)
    ensures Finished(request, clock, sched, trace, Completed, timings, devoured, sequence)
  {
    var plan := Plan(ep, request.wire);
    assert plan[..|plan|] == plan;
    ReplayStopsAt(request, clock, sched, ep, |plan|);
  }

  /** A step that returns moves the run on to the next step. */
  lemma StepReturns(request: Request, clock: seq<Instant>, sched: seq<Outcome>, ep: Endpoint,
                    trace: seq<Op>, next: nat,
                    timings: Option<Timings>, devoured: Option<string>, sequence: Option<int>)
    requires Reached(request, clock, sched, ep, trace, next, timings, devoured, sequence)
    requires next < |Plan(ep, request.wire)| && sched[next].Returned?
    ensures var plan := Plan(ep, request.wire);
      Reached(request, clock, sched, ep, trace + [plan[next]], next + 1,
              Some(Measured(clock, |plan| - 4, next + 1)),
              if next + 1 > |plan| - 2 then Some(sched[|plan| - 2].value) else None,
              sequence)
  {
    TakeOneMore(Plan(ep, request.wire), next);
  }

  /**
   * One run of `process(request)` driven to its end (lines 9-72).  The
   * response it builds and the operations it yields are exactly those
   * `Replay` describes.
   */
  method Process(request: Request, clock: seq<Instant>, sched: seq<Outcome>)
    returns (response: Response, trace: seq<Op>, status: Status)
    requires Supplied(clock, sched)
    ensures fresh(response)
    ensures Finished(request, clock, sched, trace, status, response.timings, response.devoured, response.sequence)
  {
    var rawRequest := request.wire;
    response := new Response();
    response.timings := Some(Timings(None, None, None, None));
    if request.sequence.Some? {
      response.sequence := request.sequence;
    }
    trace := [];
    var target := SelectEndpoint(request.url, request.serverIPAddress);
    if target.Failure? {
      status := Raised(target.error);
      return;
    }
    var ep := target.value;
    var next := 0;
    if ep.resolve {
      var outcome := sched[next];
      if !outcome.Returned? {
        StepFails(request, clock, sched, ep, trace, next, response.timings, response.devoured, response.sequence);
        trace, status := trace + [Resolve(ep.host)], Caught(outcome);
        return;
      }
      StepReturns(request, clock, sched, ep, trace, next, response.timings, response.devoured, response.sequence);
      trace, next := trace + [Resolve(ep.host)], next + 1;
    }
    trace, status := Connecting(response, request, clock, sched, ep, trace, next);
  }

  /** CONNECTING: `connect(host, port)`, timed by the clock readings around it (lines 40-43). */
  method Connecting(response: Response, request: Request, clock: seq<Instant>, sched: seq<Outcome>,
                    ep: Endpoint, trace: seq<Op>, next: nat)
    returns (trace': seq<Op>, status: Status)
    requires Reached(request, clock, sched, ep, trace, next, response.timings, response.devoured, response.sequence)
    requires next == |Plan(ep, request.wire)| - 4
    modifies response
    ensures Finished(request, clock, sched, trace', status, response.timings, response.devoured, response.sequence)
  {
    var start := clock[0];
    trace' := trace + [Connect(ep.host, ep.port)];
    var outcome := sched[next];
    if !outcome.Returned? {
      status := Caught(outcome);
      StepFails(request, clock, sched, ep, trace, next, response.timings, response.devoured, response.sequence);
      return;
    }
    StepReturns(request, clock, sched, ep, trace, next, response.timings, response.devoured, response.sequence);
    response.timings := Some(response.timings.value.(connect := Some(GetTimeDelta(start, clock[1]))));
    trace', status := Sending(response, request, clock, sched, ep, trace', next + 1);
  }

  /** SENDING: `write(raw_request)`, timed by the clock readings around it (lines 45-48). */
  method Sending(response: Response, request: Request, clock: seq<Instant>, sched: seq<Outcome>,
                 ep: Endpoint, trace: seq<Op>, next: nat)
    returns (trace': seq<Op>, status: Status)
    requires Reached(request, clock, sched, ep, trace, next, response.timings, response.devoured, response.sequence)
    requires next == |Plan(ep, request.wire)| - 3
    modifies response
    ensures Finished(request, clock, sched, trace', status, response.timings, response.devoured, response.sequence)
  {
    var start := clock[2];
    trace' := trace + [Write(request.wire)];
    var outcome := sched[next];
    if !outcome.Returned? {
      status := Caught(outcome);
      StepFails(request, clock, sched, ep, trace, next, response.timings, response.devoured, response.sequence);
      return;
    }
    StepReturns(request, clock, sched, ep, trace, next, response.timings, response.devoured, response.sequence);
    response.timings := Some(response.timings.value.(send := Some(GetTimeDelta(start, clock[3]))));
    trace', status := Waiting(response, request, clock, sched, ep, trace', next + 1);
  }

  /**
   * WAITING: `read()`, timed by the clock readings around it; then the fixed
   * `recieve` timing and `devour` of the raw response (lines 50-64).
   */
  method Waiting(response: Response, request: Request, clock: seq<Instant>, sched: seq<Outcome>,
                 ep: Endpoint, trace: seq<Op>, next: nat)
    returns (trace': seq<Op>, status: Status)
    requires Reached(request, clock, sched, ep, trace, next, response.timings, response.devoured, response.sequence)
    requires next == |Plan(ep, request.wire)| - 2
    modifies response
    ensures Finished(request, clock, sched, trace', status, response.timings, response.devoured, response.sequence)
  {
    var start := clock[4];
    trace' := trace + [Read];
    var outcome := sched[next];
    if !outcome.Returned? {
      status := Caught(outcome);
      StepFails(request, clock, sched, ep, trace, next, response.timings, response.devoured, response.sequence);
      return;
    }
    StepReturns(request, clock, sched, ep, trace, next, response.timings, response.devoured, response.sequence);
    var rawResponse := outcome.value;
    response.timings := Some(response.timings.value.(wait := Some(GetTimeDelta(start, clock[5]))));
    response.timings := Some(response.timings.value.(recieve := Some(0)));
    response.devoured := Some(rawResponse);
    trace', status := Closing(response, request, clock, sched, ep, trace', next + 1);
  }

  /** CLOSED: `close()` once the response has been devoured (lines 68-69). */
  method Closing(response: Response, request: Request, clock: seq<Instant>, sched: seq<Outcome>,
                 ep: Endpoint, trace: seq<Op>, next: nat)
    returns (trace': seq<Op>, status: Status)
    requires Reached(request, clock, sched, ep, trace, next, response.timings, response.devoured, response.sequence)
    requires next == |Plan(ep, request.wire)| - 1
    modifies response
    ensures Finished(request, clock, sched, trace', status, response.timings, response.devoured, response.sequence)
  {
    trace' := trace + [Close];
    var outcome := sched[next];
    if !outcome.Returned? {
      status := Caught(outcome);
      StepFails(request, clock, sched, ep, trace, next, response.timings, response.devoured, response.sequence);
      return;
    }
    StepReturns(request, clock, sched, ep, trace, next, response.timings, response.devoured, response.sequence);
    status := Completed;
    AllReturned(request, clock, sched, ep, trace', response.timings, response.devoured, response.sequence);
  }
}

/** Properties of a run of `process`, stated on its declarative description. */
module RequestEngineProperties {
  import opened Wrappers
  import opened Clock
  import opened EndpointSelection
  import opened RequestEngine
  import PyText

  /** The host `process` connects to: the override if present, else the stripped hostname. */
  function ConnectHost(request: Request): (host: string)
    requires request.url.hostname.Some?
    ensures request.serverIPAddress.None? ==> host == PyText.Strip(request.url.hostname.value)
    ensures request.serverIPAddress.Some? ==> host == request.serverIPAddress.value
  {
    if request.serverIPAddress.Some? then request.serverIPAddress.value
    else PyText.Strip(request.url.hostname.value)
  }

  /**
   * A resolve is yielded only without a `_serverIPAddress` override, only
   * as the first operation, and only for the stripped hostname; without the
   * override it is always the first operation yielded.
   */
  lemma {:induction false} ResolveOnlyWithoutOverride(request: Request, clock: seq<Instant>, sched: seq<Outcome>)
    requires Supplied(clock, sched)
    ensures var run := Replay(request, clock, sched);
      forall i :: 0 <= i < |run.trace| && run.trace[i].Resolve? ==>
        i == 0 && request.serverIPAddress.None? &&
        run.trace[i] == Resolve(PyText.Strip(request.url.hostname.value))
    ensures var run := Replay(request, clock, sched);
      request.url.hostname.Some? && request.serverIPAddress.None? ==>
        |run.trace| > 0 && run.trace[0] == Resolve(PyText.Strip(request.url.hostname.value))
  {
    var run := Replay(request, clock, sched);
    if request.url.hostname.Some? {
      var ep := SelectEndpoint(request.url, request.serverIPAddress).value;
      var plan := Plan(ep, request.wire);
      var k := FirstFailure(sched, |plan|);
      ReplayStopsAt(request, clock, sched, ep, k);
      assert run.trace == plan[..if k < |plan| then k + 1 else k];
    }
  }

  /**
   * Every connect goes to the selected host and port: the override or the
   * stripped hostname, and the explicit truthy port or the scheme's default.
   */
  lemma {:induction false} ConnectsToSelectedEndpoint(request: Request, clock: seq<Instant>, sched: seq<Outcome>)
    requires Supplied(clock, sched)
    ensures var run := Replay(request, clock, sched);
      forall i :: 0 <= i < |run.trace| && run.trace[i].Connect? ==>
        run.trace[i] == Connect(ConnectHost(request), ConnectPort(request.url))
  {
    var run := Replay(request, clock, sched);
    if request.url.hostname.Some? {
      var ep := SelectEndpoint(request.url, request.serverIPAddress).value;
      var plan := Plan(ep, request.wire);
      var k := FirstFailure(sched, |plan|);
      ReplayStopsAt(request, clock, sched, ep, k);
    }
  }

  /**
   * A run completes exactly when the URL has a hostname and every yielded
   * operation returns; it then yields `[resolve] connect, write, read, close`
   * in that order, records all four timings and devours what `read` returned.
   */
  lemma {:induction false} CompletedRun(request: Request, clock: seq<Instant>, sched: seq<Outcome>)
    requires Supplied(clock, sched)
    ensures var run := Replay(request, clock, sched);
      var host := request.url.hostname;
      var r := if request.serverIPAddress.None? then 1 else 0;
      run.status == Completed <==> host.Some? && forall i :: 0 <= i < r + 4 ==> sched[i].Returned?
    ensures var run := Replay(request, clock, sched);
      var r := if request.serverIPAddress.None? then 1 else 0;
      run.status == Completed ==>
        run.trace ==
          (if r == 1 then [Resolve(PyText.Strip(request.url.hostname.value))] else []) +
          [Connect(ConnectHost(request), ConnectPort(request.url)), Write(request.wire), Read, Close] &&
        run.timings == Timings(Some(GetTimeDelta(clock[0], clock[1])), Some(GetTimeDelta(clock[2], clock[3])),
                               Some(GetTimeDelta(clock[4], clock[5])), Some(0)) &&
        run.devoured == Some(sched[r + 2].value)
  {
    var run := Replay(request, clock, sched);
    if request.url.hostname.Some? {
      var ep := SelectEndpoint(request.url, request.serverIPAddress).value;
      var plan := Plan(ep, request.wire);
      var k := FirstFailure(sched, |plan|);
      ReplayStopsAt(request, clock, sched, ep, k);
      assert plan[..|plan|] == plan;
    }
  }

  /**
   * `close` is yielded exactly when the response has been devoured, and it
   * is then the last operation, right after `read`.
   */
  lemma {:induction false} CloseOnlyAfterDevour(request: Request, clock: seq<Instant>, sched: seq<Outcome>)
    requires Supplied(clock, sched)
    ensures var run := Replay(request, clock, sched);
      Close in run.trace <==> run.devoured.Some?
    ensures var run := Replay(request, clock, sched);
      Close in run.trace ==>
        |run.trace| >= 2 && run.trace[|run.trace| - 1] == Close && run.trace[|run.trace| - 2] == Read
  {
    var run := Replay(request, clock, sched);
    if request.url.hostname.Some? {
      var ep := SelectEndpoint(request.url, request.serverIPAddress).value;
      var plan := Plan(ep, request.wire);
      var k := FirstFailure(sched, |plan|);
      ReplayStopsAt(request, clock, sched, ep, k);
      var n := if k < |plan| then k + 1 else k;
      PrefixHolds(ep, request.wire, n);
      if n == |plan| {
        assert plan[..n] == plan;
      }
    }
  }

  /**
   * A failing step ends the run: it is the last operation yielded, every
   * earlier one returned, and the run's status is what the `except SockError`
   * clause makes of it — swallowed exactly for a `SockError`.  Any other
   * exception, and the missing hostname, are raised to the driver.
   */
  lemma {:induction false} FailureEndsRun(request: Request, clock: seq<Instant>, sched: seq<Outcome>)
    requires Supplied(clock, sched)
    ensures var run := Replay(request, clock, sched);
      var n := |run.trace|;
      !run.status.Completed? && request.url.hostname.Some? ==>
        n > 0 && !sched[n - 1].Returned? && run.status == Caught(sched[n - 1]) &&
        forall i :: 0 <= i < n - 1 ==> sched[i].Returned?
    ensures var run := Replay(request, clock, sched);
      run.status.Swallowed? ==> |run.trace| > 0 && sched[|run.trace| - 1].SockError?
    ensures var run := Replay(request, clock, sched);
      run.status.Raised? ==>
        request.url.hostname.None? || (|run.trace| > 0 && sched[|run.trace| - 1].OtherError?)
  {
    var run := Replay(request, clock, sched);
    if request.url.hostname.Some? {
      var ep := SelectEndpoint(request.url, request.serverIPAddress).value;
      var plan := Plan(ep, request.wire);
      var k := FirstFailure(sched, |plan|);
      ReplayStopsAt(request, clock, sched, ep, k);
    }
  }

  /**
   * Which operations a prefix of the plan holds: write, read and close are
   * the last three operations of every plan.
   */
  lemma PrefixHolds(ep: Endpoint, wire: string, n: nat)
    requires n <= |Plan(ep, wire)|
    ensures var plan := Plan(ep, wire);
      var c := |plan| - 4;
      (Write(wire) in plan[..n] <==> n > c + 1) &&
      (Read in plan[..n] <==> n > c + 2) &&
      (Close in plan[..n] <==> n > c + 3)
  {
    var plan := Plan(ep, wire);
    var c := |plan| - 4;
    if n > c + 1 { assert plan[..n][c + 1] == Write(wire); }
    if n > c + 2 { assert plan[..n][c + 2] == Read; }
    if n > c + 3 { assert plan[..n][c + 3] == Close; }
    if Write(wire) in plan[..n] { var i :| 0 <= i < n && plan[i] == Write(wire); }
    if Read in plan[..n] { var i :| 0 <= i < n && plan[i] == Read; }
    if Close in plan[..n] { var i :| 0 <= i < n && plan[i] == Close; }
  }

  /**
   * Each timing comes from the two clock readings around its own step;
   * `recieve` is never measured, only ever set to 0.
   */
  lemma {:induction false} TimingsBracketTheirSteps(request: Request, clock: seq<Instant>, sched: seq<Outcome>)
    requires Supplied(clock, sched)
    ensures var t := Replay(request, clock, sched).timings;
      (t.connect.Some? ==> t.connect.value == GetTimeDelta(clock[0], clock[1])) &&
      (t.send.Some? ==> t.send.value == GetTimeDelta(clock[2], clock[3])) &&
      (t.wait.Some? ==> t.wait.value == GetTimeDelta(clock[4], clock[5])) &&
      (t.recieve == None || t.recieve == Some(0))
  {
    if request.url.hostname.Some? {
      var ep := SelectEndpoint(request.url, request.serverIPAddress).value;
      var plan := Plan(ep, request.wire);
      ReplayStopsAt(request, clock, sched, ep, FirstFailure(sched, |plan|));
    }
  }

  /**
   * A timing is set exactly when its step returned, that is, when the run
   * went on to yield the next operation.
   */
  lemma {:induction false} TimingSetOnceStepReturned(request: Request, clock: seq<Instant>, sched: seq<Outcome>)
    requires Supplied(clock, sched)
    ensures var run := Replay(request, clock, sched);
      (run.timings.connect.Some? <==> Write(request.wire) in run.trace) &&
      (run.timings.send.Some? <==> Read in run.trace) &&
      (run.timings.wait.Some? <==> Close in run.trace) &&
      (run.timings.recieve.Some? <==> Close in run.trace)
  {
    if request.url.hostname.Some? {
      var ep := SelectEndpoint(request.url, request.serverIPAddress).value;
      var plan := Plan(ep, request.wire);
      var k := FirstFailure(sched, |plan|);
      ReplayStopsAt(request, clock, sched, ep, k);
      PrefixHolds(ep, request.wire, if k < |plan| then k + 1 else k);
    }
  }

  /**
   * After a failure nothing more happens: scheduler answers past the last
   * yielded operation, and clock readings of steps that did not return,
   * have no effect on the run.
   */
  lemma {:induction false} NothingAfterFailure(request: Request, clock: seq<Instant>, sched: seq<Outcome>,
                                               clock': seq<Instant>, sched': seq<Outcome>)
    requires Supplied(clock, sched) && Supplied(clock', sched')
    requires var run := Replay(request, clock, sched);
      sched[..|run.trace|] == sched'[..|run.trace|] &&
      (run.timings.connect.Some? ==> clock[0] == clock'[0] && clock[1] == clock'[1]) &&
      (run.timings.send.Some? ==> clock[2] == clock'[2] && clock[3] == clock'[3]) &&
      (run.timings.wait.Some? ==> clock[4] == clock'[4] && clock[5] == clock'[5])
    ensures Replay(request, clock', sched') == Replay(request, clock, sched)
  {
    var run := Replay(request, clock, sched);
    if request.url.hostname.Some? {
      var ep := SelectEndpoint(request.url, request.serverIPAddress).value;
      var plan := Plan(ep, request.wire);
      var k := FirstFailure(sched, |plan|);
      ReplayStopsAt(request, clock, sched, ep, k);
      var n := if k < |plan| then k + 1 else k;
      assert forall i :: 0 <= i < n ==> sched'[i] == sched[..n][i];
      FirstFailureIs(sched', |plan|, k);
      ReplayStopsAt(request, clock', sched', ep, k);
    }
  }
}
