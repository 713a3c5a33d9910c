# logzio-nodejs in Dafny

A model of the in-process logic of the logzio-nodejs log shipper
(`lib/logzio-nodejs.js`). The logger buffers log records. It flushes the
buffer into a *bulk* when the buffer reaches `bufferSize` or when the send
timer fires and the buffer is non-empty. It serialises each bulk as
newline-terminated lines and posts it to
`protocol://host:port?token=token`. Timeouts and connection resets are
retried with a doubling sleep until the retry limit.

Modules, one per concern of the source file:

- `Wrappers`: `Option` and `Result`.
- `Records`: field values, records (`map<string, Value>`), what `log` accepts, and `Normalize`.
- `Settings`: the constructor's validation and defaults as `Configure`, the port, and the URL.
- `WireBody`: the body builder `MessagesToBody` (a loop), its specification `Body`, and the line, newline and UTF-8 length facts about it.
- `Delivery`: the outcome of one POST, the retry decision `Decide`, the run of attempts over one bulk `Run`, and the `Bulk` class whose retry state `_send` updates in place.
- `Shipping`: the `Logger` class with its buffer `messages` and counter `bulkId`. Ghost fields `logged` and `sent` hold the history, and `Valid()` states conservation.

Three things are parameters rather than code:

- The serialiser (`JSON.stringify` with its fallback) is a parameter `ser: Record -> string`.
- The transport's answer is an `Outcome` value: a response, a transport error code, or a thrown exception.
- The timers are explicit calls: `TimerTick` for a timer tick, and a returned `RetryIn(delay)` step for a scheduled re-send.

The option is called `numberOfRetries`, but the code compares
`attemptNumber`, which starts at 1, with it (lib/logzio-nodejs.js:145).
So a bulk makes `max(numberOfRetries, 1)` attempts up to its first
terminal report, and the error "Failed after N retries" counts attempts,
not retries (`FreshBulkUnderPersistentTransient`). With the one-shot retry
of `Run`, that is every attempt it makes; as written it goes on being sent
(see Findings, and `PersistentTransientAsWritten`).

## Model

| member | source | states |
|---|---|---|
| `Records.Base` | lib/logzio-nodejs.js:70-73 | a text input becomes a record whose `message` is the text, with no other key than `type`; a structured input is taken unchanged |
| `Records.Normalize` | lib/logzio-nodejs.js:69-75 | `type` is always the logger's type; every extra field other than `type` overrides the input; input keys the extra fields do not name keep their values; no other key appears; text lands in `message` unless an extra field overrides it |
| `Settings.Decimal` | lib/logzio-nodejs.js:27 | the port's text is the decimal numeral of the number: digits only, denoting exactly n, with no leading zero |
| `Settings.PortDigits` | lib/logzio-nodejs.js:27 | the ports are written `8070` and `8071` in the URL |
| `Settings.PortOf` | lib/logzio-nodejs.js:17 | port 8070 exactly for `http`, 8071 otherwise |
| `Settings.Configure` | lib/logzio-nodejs.js:7-32 | fails with MissingToken exactly when options or the token are missing or empty; fails with InvalidProtocol exactly when a non-empty protocol other than `http`/`https` is given; otherwise keeps the token, the protocol is `http` or `https`, port 8070/8071 accordingly, and the URL is `protocol://host:port?token=token` |
| `Settings.Defaults` | lib/logzio-nodejs.js:14-31 | both halves of each `||`: a missing or falsy protocol, host, type, interval, bufferSize or numberOfRetries gets `http`/8070, `listener-4.logz.io`, `nodejs`, 10000, 100, 3, and a truthy one is kept (an explicit `http` gives 8070, `https` 8071); debug is true only when given true; timeout is passed through; extraFields is the option or empty; the user agent is fixed; the type is never empty |
| `WireBody.MessagesToBody` | lib/logzio-nodejs.js:102-108 | the loop's result is the body: each record's wire text then a newline, in order |
| `WireBody.BodyAppend` | lib/logzio-nodejs.js:102-108 | the body of `a + b` is the body of `a` followed by the body of `b` |
| `WireBody.BodyLength` | lib/logzio-nodejs.js:102-108 | the body's length is the sum of `|ser(m)| + 1`; it is empty exactly for no records |
| `WireBody.BodyNewlines` | lib/logzio-nodejs.js:102-108 | with a serialiser that emits no newline, the body holds exactly one newline per record |
| `WireBody.LinesOfBody` | lib/logzio-nodejs.js:102-108 | splitting the body at newlines gives back each record's wire text in order (round trip) |
| `WireBody.Utf8LengthBounds` | lib/logzio-nodejs.js:132 | the byte length lies between the character count and four times it, and equals it exactly for ASCII text |
| `WireBody.ContentLength` | lib/logzio-nodejs.js:132 | the content length of a body is the sum over records of the UTF-8 length of the wire text plus one |
| `Delivery.Decide` | lib/logzio-nodejs.js:141-163 | retry exactly on ETIMEDOUT/ECONNRESET below the limit, after the old sleep, then the sleep doubles and the attempt count rises by one; at the limit a failure naming the attempt count; other errors, non-200 statuses and exceptions fail at once; success exactly on 200; terminal steps keep the state |
| `Delivery.Run` | lib/logzio-nodejs.js:116-152 | with the retry as a one-shot re-send, each attempt has one outcome and the first attempt is always made with the step `Decide` gives |
| `Delivery.ReportedAtMostOnce` | lib/logzio-nodejs.js:141-170 | with the one-shot retry of `Run`, every step but the last is a retry, so the callback would run at most once per bulk; the code as written re-sends and re-reports on every interval tick (see Findings) |
| `Delivery.ReportedWithinBudget` | lib/logzio-nodejs.js:144-152 | whatever the outcomes, a bulk reaches success or failure within `max(numberOfRetries - attempt + 1, 1)` attempts |
| `Delivery.PersistentTransient` | lib/logzio-nodejs.js:144-151 | with the one-shot retry of `Run`, under timeouts or resets a bulk makes exactly its budget of attempts; retry k waits the starting sleep times 2^k; the last attempt fails naming the attempt count |
| `Delivery.FreshBulkUnderPersistentTransient` | lib/logzio-nodejs.js:144-151 | with the one-shot retry of `Run`, from a new bulk: `max(numberOfRetries, 1)` attempts, retry k (from 0) waits 2000 * 2^k ms, and the error names that attempt count |
| `Delivery.BadStatusIsTerminal` | lib/logzio-nodejs.js:157-159 | a non-200 response on the first attempt is a single failure report with no retry |
| `Delivery.SuccessOnSecondAttempt` | lib/logzio-nodejs.js:144-162 | with the one-shot retry, one transient error then a 200 gives one retry after 2000 ms and one success report, and no failure; as written, further ticks re-send and report again |
| `Delivery.IntervalTicks` | lib/logzio-nodejs.js:116-121 | the never-cleared interval re-sends the bulk on every tick: every outcome is handled, so sending never stops |
| `Delivery.RunAsWritten` | lib/logzio-nodejs.js:116-152 | as written, once a retry is decided every later outcome is handled and reported again; without a retry there is a single step |
| `Delivery.RepeatedSuccessReport` | lib/logzio-nodejs.js:116-162 | as written, a timeout then two 200s reports success twice; the one-shot run reports it once |
| `Delivery.RepeatedFailureReport` | lib/logzio-nodejs.js:116-151 | as written, with limit 2, three resets report the terminal failure twice; the one-shot run reports it once |
| `Delivery.IntervalTicksTransient` | lib/logzio-nodejs.js:116-151 | on the uncleared interval under timeouts or resets, every tick from the last one the budget allows on reports the terminal failure again, naming the attempt count reached |
| `Delivery.PersistentTransientAsWritten` | lib/logzio-nodejs.js:116-151 | as written, from a new bulk with a limit of at least 2 and only timeouts or resets, the bulk is sent once per outcome and every send from the `numberOfRetries`-th on reports `RetriesExhausted(numberOfRetries)` again |
| `Delivery.Bulk.constructor` | lib/logzio-nodejs.js:92-97 | a new bulk holds the given records and id, on attempt 1 with a 2000 ms sleep |
| `Delivery.Bulk.OnOutcome` | lib/logzio-nodejs.js:141-170 | the in-place update of the bulk's attempt and sleep and the step reported agree with `Decide` on the old state |
| `Shipping.FlattenIndex` | lib/logzio-nodejs.js:84-94 | each position of the bulks' concatenated records is a definite position in one definite bulk |
| `Shipping.Logger.constructor` | lib/logzio-nodejs.js:29-31 | a new logger has an empty buffer, bulk id 1 and an empty history |
| `Shipping.Logger.CreateBulk` | lib/logzio-nodejs.js:91-100 | the bulk holds the given records, attempt 1, sleep 2000, id the old counter; the counter rises by exactly one |
| `Shipping.Logger.PopMsgsAndSend` | lib/logzio-nodejs.js:84-89 | the whole buffer becomes one new bulk with the next id; the buffer is emptied; the invariant is kept |
| `Shipping.Logger.Log` | lib/logzio-nodejs.js:69-82 | the normalised record is appended at the tail; below `bufferSize` nothing is sent; at it one bulk with the old buffer plus the record in order, and an empty buffer; afterwards the buffer is below `bufferSize` or empty |
| `Shipping.Logger.TimerTick` | lib/logzio-nodejs.js:55-59 | an empty buffer produces no bulk and changes nothing; a non-empty one becomes one bulk and the buffer empties |
| `Shipping.Logger.PrepareRequest` | lib/logzio-nodejs.js:123-137 | the request goes to the logger's URL with the bulk's body, the fixed headers, the UTF-8 content length and the configured timeout; its lines are the records' wire texts |
| `Shipping.Conservation` | lib/logzio-nodejs.js:77-97 | under the logger invariant (everything logged equals the bulks' records in order followed by the buffer) the i-th logged record is at a definite position of one bulk or, past them, at its place in the buffer; bulk ids strictly increase and stay below the counter |

## Findings

| source | as written | input that shows it | evidently intended | confidence | as-written member | corrected member |
|---|---|---|---|---|---|---|
| lib/logzio-nodejs.js:116-121 | `tryAgainIn` schedules the re-send with `setInterval` and never clears it, so the bulk is re-sent every `sleepTimeMs` and each outcome calls the callback again | a timeout, then two 200 responses: success is reported twice; with limit 2 and persistent resets, the failure is reported on every later tick | one re-send per retry decision (`setTimeout`), and one report per bulk | high, not executed | `Delivery.RepeatedSuccessReport` | `Delivery.ReportedAtMostOnce` |

## Left out

- The HTTP transport (`request.post`): each attempt's result is an `Outcome` value.
- Console output (`_debug`, `_defaultCallback`) is not modelled, and the `debug` flag, kept in `Config`, has no effect. The completion callback is not called: the model returns the `Step` it would be given.
- Timers: the recurring `setTimeout` in `_timerSend` and the `createLogger` call that starts it are not modelled. A tick is a `TimerTick` call, and a retry is a returned `RetryIn(delay)` step.
- `Delivery.Run`: the retry is a one-shot re-send. `tryAgainIn` uses `setInterval`, which is never cleared, so the code as written re-sends the bulk on every tick and calls the callback again for each outcome, success or terminal failure included. `RunAsWritten` follows the first interval's ticks only; the further intervals started by retries on later ticks are not modelled.
- `Shipping.Logger.PopMsgsAndSend`: the buffer is emptied in the same step as the bulk is made. The code calls `_send(bulk)` (lib/logzio-nodejs.js:87) before `this.messages = []` (:88), and `_send` calls the callback synchronously when `request.post` throws (:169). A callback that calls `log` then re-enters with the old buffer in place. From a timer flush below `bufferSize`, its record is pushed and then wiped by line 88, so it is lost. From a full buffer, the push flushes again, so the same records go out in two bulks with different ids. The model has no such re-entrancy, so `Shipping.Conservation` does not cover it.
- `JSON.stringify`, `json-stringify-safe` and the fallback in `jsonToString`: they are the parameter `ser`. The fallback's use of an undefined variable is not modelled.
- `exports.version` and reading `package.json`.
- Key order in records: records are maps. The field order that `JSON.stringify` would follow is part of `ser`.
- Aliasing: records are immutable values. `_.assign` also mutates the caller's object, and bulks share record objects with the caller. Neither is modelled.
- Non-object inputs to `log` other than strings (numbers, `null`) are not modelled. Numeric field values are integers; JavaScript's floating-point numbers and `NaN` (also falsy for `||`) are not modelled.
- `Records.Normalize`: `_.assign` copies only own enumerable properties; the model treats every key of `extraFields` as one.
- `WireBody.Utf8Length`: strings are sequences of Unicode scalar values. UTF-16 lone surrogates, which `Buffer.byteLength` counts as 3 bytes, do not occur.
- `Settings.Configure`: the `callback` option is not modelled, because the completion is the returned `Step`. `options.token` and `options.protocol` are strings; other truthy JavaScript values are not modelled.
