# Harpy request engine, in Dafny

Harpy replays HTTP requests held as HAR (HTTP Archive) entities and times
each phase of the exchange. This project models the per-request coroutine
`process` of `request_engine.py` and its elapsed-time helper
`get_time_delta`, and proves what they guarantee.

`process(request)` is a Python generator. It first chooses the endpoint. The
host is the stripped hostname of the request URL, or the `_serverIPAddress`
override. The port is the URL's explicit port when that port is truthy,
otherwise 443 for `https` and 80 for every other scheme. The generator then
yields the socket operations `resolve` (only without the override),
`connect`, `write`, `read` and `close` to a cooperative scheduler. It times
`connect`, `write` and `read` with wall-clock readings, sets `recieve` to 0,
and devours the raw response before it closes. A `SockError` thrown in at
any suspension point ends the run and is swallowed. Any other exception
propagates to the driver.

The model works as follows:

- `Clock` holds `datetime.timedelta` as a normalised (days, seconds,
  microseconds) triple. `GetTimeDelta` takes the microseconds component of
  the elapsed time and floor-divides it by 1000, as the code does. Whole
  elapsed seconds are therefore dropped.
- `PyText.Strip` is Python's no-argument `strip()`, using Python 2's Unicode
  whitespace set (the URL comes from decoded JSON).
- `EndpointSelection` is the endpoint decision rule, written as pure functions.
- In `RequestEngine`, the scheduler's answers are an input sequence `sched`,
  one answer per suspension point. An answer is a return value, a
  `SockError`, or another exception. The `datetime.now()` readings are an
  input sequence `clock`.
- `Replay` describes a whole run declaratively. The trace is the plan of
  operations up to and including the first one that fails. Each timing comes
  from the two clock readings around its own step.
- `Process` is the imperative run. It builds a fresh `Response` object and
  updates its fields step by step. To keep each proof small, its steps are
  split into one method per state (`Connecting`, `Sending`, `Waiting`,
  `Closing`). Each state method hands over to the next one. `Process` is
  proved to leave exactly what `Replay` describes.
- `RequestEngineProperties` proves the promised behaviour about `Replay`:
  resolve rules, connect target, trace order, close after devour, failure
  isolation and timing assignment.

The HAR timing is named `receive`, but the code assigns
`response._timings.recieve = 0` (request_engine.py:56), with that spelling.
This creates an attribute of its own, so `process` never sets the HAR
`receive` timing. The model follows the code: its `Timings` has a `recieve`
field.

## Model

| member | source | states |
|---|---|---|
| `Clock.FromMicros` | request_engine.py:78 | the timedelta of a span is normalised (0 <= seconds < 86400, 0 <= microseconds < 10^6) and denotes exactly that span |
| `Clock.FromTotalMicros` | request_engine.py:78 | a normalised timedelta is determined by its total span (FromMicros inverts TotalMicros) |
| `Clock.Elapsed` | request_engine.py:77-78 | `end - start` is a normalised timedelta whose span is the difference of the two readings |
| `Clock.GetTimeDelta` | request_engine.py:75-79 | the result lies in 0..999 and is the microseconds component of the elapsed timedelta divided by 1000, rounded down |
| `Clock.GetTimeDeltaDropsWholeSeconds` | request_engine.py:78 | adding any number of whole seconds to the elapsed time leaves the result unchanged |
| `Clock.GetTimeDeltaWithinSecond` | request_engine.py:78-79 | for a non-negative elapsed time under one second, the result is the elapsed milliseconds |
| `PyText.Strip` | request_engine.py:27 | the result is the slice of the input after its leading whitespace; everything cut off is whitespace; the result neither starts nor ends with whitespace |
| `PyText.StripUnpadded` | request_engine.py:27 | a string with no whitespace at either end is unchanged by strip |
| `PyText.StripIdempotent` | request_engine.py:27 | stripping twice is the same as stripping once |
| `EndpointSelection.DefaultPort` | request_engine.py:28 | the default port is 443 exactly when the scheme is `https`, and 80 otherwise |
| `EndpointSelection.ConnectPort` | request_engine.py:29 | a truthy explicit port wins; an absent port or port 0 falls back to the default; the port used is never 0 |
| `EndpointSelection.SelectEndpoint` | request_engine.py:26-38 | fails exactly when the URL has no hostname (strip on None raises); otherwise the host is the override when present, else the stripped hostname; resolve happens exactly when there is no override; the port is ConnectPort |
| `RequestEngine.Plan` | request_engine.py:38-69 | a full run yields four operations, or five with resolve, ending with close |
| `RequestEngine.FirstFailure` | request_engine.py:11-72 | the index of the first answer that is not a return: all answers before it returned, and the one at it did not |
| `RequestEngine.Caught` | request_engine.py:71-72 | an exception thrown into the generator is swallowed exactly when it is a SockError; any other one is raised, with its message |
| `RequestEngine.Replay` | request_engine.py:9-72 | `_sequence` is copied exactly as the request carries it; at most five operations are yielded; nothing is yielded exactly when the hostname is missing; a completed run ends with close |
| `RequestEngine.Response.constructor` | request_engine.py:16-17 | a new response has no timings, no sequence and nothing devoured |
| `RequestEngine.Process` | request_engine.py:9-72 | the response is fresh; the trace, status, timings, devoured text and sequence are exactly those of Replay |
| `RequestEngine.Connecting` | request_engine.py:40-43 | from a state where every earlier step returned, yields connect and finishes as Replay describes; connect is timed by clock readings 0 and 1 |
| `RequestEngine.Sending` | request_engine.py:45-48 | yields write of the request's wire text and finishes as Replay describes; write is timed by clock readings 2 and 3 |
| `RequestEngine.Waiting` | request_engine.py:50-64 | yields read and finishes as Replay describes; wait is timed by clock readings 4 and 5; recieve is set to 0; the text read is devoured |
| `RequestEngine.Closing` | request_engine.py:68-69 | yields close after the devour and finishes as Replay describes; the run completes when close returns |
| `RequestEngineProperties.ConnectHost` | request_engine.py:27-33 | the connect host is the `_serverIPAddress` override when present, else the stripped hostname |
| `RequestEngineProperties.ResolveOnlyWithoutOverride` | request_engine.py:31-38 | a resolve appears only without the override, only as the first operation, and only for the stripped hostname; without the override, when the URL has a hostname, the first operation is that resolve |
| `RequestEngineProperties.ConnectsToSelectedEndpoint` | request_engine.py:26-42 | every connect yielded goes to ConnectHost and ConnectPort |
| `RequestEngineProperties.CompletedRun` | request_engine.py:38-69 | a run completes exactly when the hostname exists and every yielded operation returns; it then yields [resolve] connect, write(raw request), read, close in that order, sets all four timings from their bracketing readings, and devours what read returned |
| `RequestEngineProperties.CloseOnlyAfterDevour` | request_engine.py:62-69 | close is yielded exactly when the response has been devoured; close is then the last operation and read comes directly before it |
| `RequestEngineProperties.FailureEndsRun` | request_engine.py:11-72 | a run that does not complete, when the hostname exists, ends at its last yielded operation, which failed while all earlier ones returned; it is swallowed exactly for a SockError; a raised status comes only from a missing hostname or a non-SockError exception |
| `RequestEngineProperties.TimingsBracketTheirSteps` | request_engine.py:40-56 | connect, send and wait each come only from the two clock readings around their own step; recieve is only ever 0 |
| `RequestEngineProperties.TimingSetOnceStepReturned` | request_engine.py:40-56 | connect is set exactly when write was yielded, send exactly when read was yielded, and wait and recieve exactly when close was yielded |
| `RequestEngineProperties.NothingAfterFailure` | request_engine.py:11-72 | scheduler answers after the last yielded operation, and clock readings of steps that did not return, have no effect on the run |

## Left out

- `request.puke()` and `response.devour()` are calls into the `har` module, which is not part of this model. A `Request` carries the wire text `puke` produces. A `Response` records the raw text it was asked to devour. Neither call can fail in the model, and the status and headers that devouring would fill in are not represented.
- `urlparse` is taken as already done. A `Url` holds the scheme, the hostname and the port it returns. URL parsing itself, hostname lower-casing and port-range checks are not modelled.
- The blackmamba `resolve`/`connect`/`write`/`read`/`close` primitives and the `debug`/`run` driver are socket I/O and cooperative scheduling. The driver's answers at each suspension point are an input sequence. The interleaving of many runs is not modelled.
- `request_gen` reads stdin line by line. It is not modelled.
- The `print` calls at lines 65-66 and 72 write to the console. They are not modelled.
- `datetime.now()` readings are an input sequence. The reading at line 59 and the `duration` computed from it at line 60 are never used, so they are not modelled.
- `RequestEngine.Process`: the `requires Supplied(clock, sched)` precondition asks for enough clock readings and scheduler answers for the longest run. The real clock and scheduler always answer, so this only constrains the inputs the model is given.
- `Timings()` builds its fields with defaults from the `har` module. The model shows every field as unset (`None`) until `process` assigns it. Because the `Timings` object is never shared, its field-by-field updates are modelled as reassigning a value held by the `Response`.
