/** Delivery of one bulk: the bulk object, the outcome of one POST and the
    retry decision of `_send`'s response handler (lib/logzio-nodejs.js,
    `_createBulk` and `_send`). The transport is not modelled: each attempt's
    result is an `Outcome` value handed to the decision. */
module Delivery {
  import opened Records

  const INITIAL_SLEEP_MS := 2 * 1000

  /** What one POST attempt came back with. */
  datatype Outcome =
    | Response(status: int, body: string)  // a completed response
    | TransportError(code: string)         // `err` in the request callback, with its `code`
    | Threw(reason: string)                // `request.post` threw before sending

  /** The terminal error handed to the completion callback. */
  datatype Failure =
    | RetriesExhausted(attempts: nat, code: string)  // "Failed after <attempts> retries on error = ..."
    | TransportFailure(code: string)                 // any other transport error, passed through
    | BadStatus(status: int, body: string)           // "There was a problem with the request. ..."
    | RequestThrew(reason: string)                   // the exception thrown by the request

  /** The step after one attempt: report success, report a terminal error,
      or send the same bulk again after a delay. */
  datatype Step = Delivered | Failed(why: Failure) | RetryIn(delayMs: nat)

  /** The mutable retry state of a bulk. */
  datatype Attempt = Attempt(attemptNumber: nat, sleepUntilNextRetry: nat)

  datatype Decision = Decision(step: Step, next: Attempt)

  const INITIAL_ATTEMPT := Attempt(1, INITIAL_SLEEP_MS)

  /** The two error codes treated as transient. */
  predicate IsTransient(code: string) {
    code == "ETIMEDOUT" || code == "ECONNRESET"
  }

  /** The response handler of `_send`, as a function of the bulk's retry state. */
  function Decide(a: Attempt, outcome: Outcome, numberOfRetries: int): (d: Decision)
    // a retry exactly for a transient error below the retry limit ...
    ensures d.step.RetryIn? <==>
              outcome.TransportError? && IsTransient(outcome.code) && a.attemptNumber < numberOfRetries
    // ... after the current sleep, which then doubles, with one more attempt counted
    ensures d.step.RetryIn? ==>
              d.step.delayMs == a.sleepUntilNextRetry &&
              d.next == Attempt(a.attemptNumber + 1, 2 * a.sleepUntilNextRetry)
    // a transient error at the limit is terminal and names the attempt count
    ensures outcome.TransportError? && IsTransient(outcome.code) && a.attemptNumber >= numberOfRetries ==>
              d.step == Failed(RetriesExhausted(a.attemptNumber, outcome.code))
    // any other error, a non-200 status or an exception is terminal at once
    ensures outcome.TransportError? && !IsTransient(outcome.code) ==> d.step == Failed(TransportFailure(outcome.code))
    ensures outcome.Response? && outcome.status != 200 ==> d.step == Failed(BadStatus(outcome.status, outcome.body))
    ensures outcome.Threw? ==> d.step == Failed(RequestThrew(outcome.reason))
    // success exactly on status 200
    ensures d.step.Delivered? <==> outcome.Response? && outcome.status == 200
    // a terminal step leaves the retry state alone
    ensures !d.step.RetryIn? ==> d.next == a
  {
    match outcome
    case TransportError(code) =>
      if IsTransient(code) then
        if a.attemptNumber >= numberOfRetries then Decision(Failed(RetriesExhausted(a.attemptNumber, code)), a)
        else Decision(RetryIn(a.sleepUntilNextRetry),
                      Attempt(a.attemptNumber + 1, a.sleepUntilNextRetry * 2))
      else Decision(Failed(TransportFailure(code)), a)
    case Response(status, body) =>
      if status != 200 then Decision(Failed(BadStatus(status, body)), a) else Decision(Delivered, a)
    case Threw(reason) => Decision(Failed(RequestThrew(reason)), a)
  }

  /** The steps taken for one bulk when its successive attempts come back
      with `outcomes`, with the retry as a one-shot re-send: each `RetryIn`
      leads to exactly one more attempt, and the run stops at the first
      terminal step, or when the outcomes run out. */
  function Run(a: Attempt, outcomes: seq<Outcome>, numberOfRetries: int): (r: seq<Step>)
    // every attempt made has an outcome, and the first attempt is always made
    ensures |r| <= |outcomes|
    ensures outcomes != [] ==> r != [] && r[0] == Decide(a, outcomes[0], numberOfRetries).step
    decreases |outcomes|
  {
    if outcomes == [] then []
    else
      var d := Decide(a, outcomes[0], numberOfRetries);
      if d.step.RetryIn? then [d.step] + Run(d.next, outcomes[1..], numberOfRetries) else [d.step]
  }

  /** The ticks of the interval `tryAgainIn` starts: it is never cleared,
      so every tick re-sends the bulk and handles the outcome again, even
      after a success or a terminal failure has been reported. Only the
      first interval is followed; a retry decided on a tick starts a
      further interval, whose ticks only add to these. */
  function IntervalTicks(a: Attempt, outcomes: seq<Outcome>, numberOfRetries: int): (r: seq<Step>)
    // every tick re-sends and handles its outcome: the bulk never stops being sent
    ensures |r| == |outcomes|
    decreases |outcomes|
  {
    if outcomes == [] then []
    else
      var d := Decide(a, outcomes[0], numberOfRetries);
      [d.step] + IntervalTicks(d.next, outcomes[1..], numberOfRetries)
  }

  /** The steps for one bulk as the code is written: the first attempt,
      and after a retry decision the ticks of a repeating interval. */
  function RunAsWritten(a: Attempt, outcomes: seq<Outcome>, numberOfRetries: int): (r: seq<Step>)
    // once a retry is decided, every later outcome is handled and reported again
    ensures outcomes != [] && Decide(a, outcomes[0], numberOfRetries).step.RetryIn? ==> |r| == |outcomes|
    ensures outcomes != [] && !Decide(a, outcomes[0], numberOfRetries).step.RetryIn? ==> |r| == 1
  {
    if outcomes == [] then []
    else
      var d := Decide(a, outcomes[0], numberOfRetries);
      if d.step.RetryIn? then [d.step] + IntervalTicks(d.next, outcomes[1..], numberOfRetries) else [d.step]
  }

  /** As written, a timeout followed by two 200 responses reports success
      twice for the same bulk; the one-shot run reports it once. */
  lemma RepeatedSuccessReport()
    ensures var outcomes := [TransportError("ETIMEDOUT"), Response(200, ""), Response(200, "")];
      && RunAsWritten(INITIAL_ATTEMPT, outcomes, 3) == [RetryIn(INITIAL_SLEEP_MS), Delivered, Delivered]
      && Run(INITIAL_ATTEMPT, outcomes, 3) == [RetryIn(INITIAL_SLEEP_MS), Delivered]
  {
    var outcomes := [TransportError("ETIMEDOUT"), Response(200, ""), Response(200, "")];
    assert outcomes[1..] == [Response(200, ""), Response(200, "")];
    assert outcomes[1..][1..] == [Response(200, "")];
  }

  /** As written, with a limit of 2, persistent resets report the terminal
      failure on every tick after the limit; the one-shot run reports it once. */
  lemma RepeatedFailureReport()
    ensures var e := TransportError("ECONNRESET");
      && RunAsWritten(INITIAL_ATTEMPT, [e, e, e], 2) ==
         [RetryIn(INITIAL_SLEEP_MS), Failed(RetriesExhausted(2, "ECONNRESET")), Failed(RetriesExhausted(2, "ECONNRESET"))]
      && Run(INITIAL_ATTEMPT, [e, e, e], 2) == [RetryIn(INITIAL_SLEEP_MS), Failed(RetriesExhausted(2, "ECONNRESET"))]
  {
    var e := TransportError("ECONNRESET");
    assert [e, e, e][1..] == [e, e];
    assert [e, e][1..] == [e];
  }

  /** How many attempts a bulk in state `a` can still make: down to the
      limit, and at least the one being made. */
  function Budget(a: Attempt, numberOfRetries: int): nat {
    if a.attemptNumber < numberOfRetries then numberOfRetries - a.attemptNumber + 1 else 1
  }

  function Pow2(k: nat): nat {
    if k == 0 then 1 else 2 * Pow2(k - 1)
  }

  /** The result is reported at most once: every step before the last is a
      retry. */
  lemma {:induction false} ReportedAtMostOnce(a: Attempt, outcomes: seq<Outcome>, numberOfRetries: int)
    ensures forall i :: 0 <= i < |Run(a, outcomes, numberOfRetries)| - 1 ==>
              Run(a, outcomes, numberOfRetries)[i].RetryIn?
    decreases |outcomes|
  {
    if outcomes != [] {
      var d := Decide(a, outcomes[0], numberOfRetries);
      if d.step.RetryIn? {
        ReportedAtMostOnce(d.next, outcomes[1..], numberOfRetries);
      }
    }
  }

  /** Within its retry budget a bulk always reaches a terminal step: the
      completion callback is invoked, whatever the attempts return. */
  lemma {:induction false} ReportedWithinBudget(a: Attempt, outcomes: seq<Outcome>, numberOfRetries: int)
    requires a.attemptNumber >= 1
    requires |outcomes| >= Budget(a, numberOfRetries)
    ensures var t := Run(a, outcomes, numberOfRetries);
      1 <= |t| <= Budget(a, numberOfRetries) && !t[|t| - 1].RetryIn?
    decreases |outcomes|
  {
    var d := Decide(a, outcomes[0], numberOfRetries);
    if d.step.RetryIn? {
      ReportedWithinBudget(d.next, outcomes[1..], numberOfRetries);
    }
  }

  /** All outcomes are timeouts or connection resets. */
  ghost predicate AllTransient(outcomes: seq<Outcome>) {
    forall i :: 0 <= i < |outcomes| ==> outcomes[i].TransportError? && IsTransient(outcomes[i].code)
  }

  lemma AllTransientTail(outcomes: seq<Outcome>)
    requires outcomes != [] && AllTransient(outcomes)
    ensures AllTransient(outcomes[1..])
  {
    forall i | 0 <= i < |outcomes| - 1
      ensures outcomes[1..][i].TransportError? && IsTransient(outcomes[1..][i].code)
    {
      assert outcomes[1..][i] == outcomes[i + 1];
    }
  }

  /** On the uncleared interval under persistent transient errors, every
      tick from the last one the budget allows on reports the terminal
      failure again, naming the attempt count reached. */
  lemma {:induction false} IntervalTicksTransient(a: Attempt, outcomes: seq<Outcome>, numberOfRetries: int)
    requires a.attemptNumber >= 1
    requires AllTransient(outcomes)
    ensures var t := IntervalTicks(a, outcomes, numberOfRetries);
      forall k :: Budget(a, numberOfRetries) - 1 <= k < |t| ==>
        t[k] == Failed(RetriesExhausted(a.attemptNumber + Budget(a, numberOfRetries) - 1, outcomes[k].code))
    decreases |outcomes|
  {
    if outcomes != [] {
      var d := Decide(a, outcomes[0], numberOfRetries);
      AllTransientTail(outcomes);
      IntervalTicksTransient(d.next, outcomes[1..], numberOfRetries);
      var t := IntervalTicks(a, outcomes, numberOfRetries);
      var t' := IntervalTicks(d.next, outcomes[1..], numberOfRetries);
      assert t == [d.step] + t';
      forall k | Budget(a, numberOfRetries) - 1 <= k < |t|
        ensures t[k] == Failed(RetriesExhausted(a.attemptNumber + Budget(a, numberOfRetries) - 1, outcomes[k].code))
      {
        if k > 0 {
          assert t[k] == t'[k - 1];
          assert outcomes[k] == outcomes[1..][k - 1];
        }
      }
    }
  }

  /** As written, from a fresh bulk with a limit of at least 2 and only
      timeouts or resets, the bulk is sent once per outcome, and every send
      from the limit-th on reports the terminal failure again. */
  lemma PersistentTransientAsWritten(outcomes: seq<Outcome>, numberOfRetries: int)
    requires AllTransient(outcomes)
    requires numberOfRetries >= 2 && |outcomes| >= 1
    ensures var t := RunAsWritten(INITIAL_ATTEMPT, outcomes, numberOfRetries);
      && |t| == |outcomes|
      && forall k :: numberOfRetries - 1 <= k < |t| ==>
           t[k] == Failed(RetriesExhausted(numberOfRetries, outcomes[k].code))
  {
    var d := Decide(INITIAL_ATTEMPT, outcomes[0], numberOfRetries);
    AllTransientTail(outcomes);
    IntervalTicksTransient(d.next, outcomes[1..], numberOfRetries);
    var t := RunAsWritten(INITIAL_ATTEMPT, outcomes, numberOfRetries);
    var t' := IntervalTicks(d.next, outcomes[1..], numberOfRetries);
    assert t == [d.step] + t';
    forall k | numberOfRetries - 1 <= k < |t|
      ensures t[k] == Failed(RetriesExhausted(numberOfRetries, outcomes[k].code))
    {
      assert t[k] == t'[k - 1];
      assert outcomes[k] == outcomes[1..][k - 1];
    }
  }

  lemma DoubledSleep(sleep: nat, k: nat)
    requires k > 0
    ensures (2 * sleep) * Pow2(k - 1) == sleep * Pow2(k)
  {
    assert Pow2(k) == 2 * Pow2(k - 1);
  }

  /** Under persistent transient errors a bulk uses up exactly its budget:
      the k-th retry (counting from 0) waits the starting sleep times 2^k,
      and the last attempt fails naming the number of attempts made. */
  lemma {:induction false} PersistentTransient(a: Attempt, outcomes: seq<Outcome>, numberOfRetries: int)
    requires a.attemptNumber >= 1
    requires AllTransient(outcomes)
    requires |outcomes| >= Budget(a, numberOfRetries)
    ensures var t := Run(a, outcomes, numberOfRetries);
      && |t| == Budget(a, numberOfRetries)
      && (forall k :: 0 <= k < |t| - 1 ==> t[k] == RetryIn(a.sleepUntilNextRetry * Pow2(k)))
      && t[|t| - 1] == Failed(RetriesExhausted(a.attemptNumber + |t| - 1, outcomes[|t| - 1].code))
    decreases |outcomes|
  {
    var d := Decide(a, outcomes[0], numberOfRetries);
    var t := Run(a, outcomes, numberOfRetries);
    if d.step.RetryIn? {
      var rest := outcomes[1..];
      assert AllTransient(rest) by {
        forall i | 0 <= i < |rest| ensures rest[i].TransportError? && IsTransient(rest[i].code) {
          assert rest[i] == outcomes[i + 1];
        }
      }
      PersistentTransient(d.next, rest, numberOfRetries);
      var t' := Run(d.next, rest, numberOfRetries);
      assert t == [d.step] + t';
      assert |t| == Budget(a, numberOfRetries);
      forall k | 0 <= k < |t| - 1 ensures t[k] == RetryIn(a.sleepUntilNextRetry * Pow2(k)) {
        if k > 0 {
          assert t[k] == t'[k - 1];
          DoubledSleep(a.sleepUntilNextRetry, k);
        }
      }
      assert t[|t| - 1] == t'[|t'| - 1];
      assert outcomes[|t| - 1] == rest[|t'| - 1];
    } else {
      assert t == [d.step];
    }
  }

  /** From a fresh bulk: `max(numberOfRetries, 1)` attempts in all, retry k
      (counting from 0) waits 2000 * 2^k ms, and the failure names the
      attempt count. */
  lemma FreshBulkUnderPersistentTransient(outcomes: seq<Outcome>, numberOfRetries: int)
    requires AllTransient(outcomes)
    requires |outcomes| >= numberOfRetries && |outcomes| >= 1
    ensures var t := Run(INITIAL_ATTEMPT, outcomes, numberOfRetries);
      && |t| == (if numberOfRetries >= 1 then numberOfRetries else 1)
      && (forall k :: 0 <= k < |t| - 1 ==> t[k] == RetryIn(INITIAL_SLEEP_MS * Pow2(k)))
      && t[|t| - 1] == Failed(RetriesExhausted(|t|, outcomes[|t| - 1].code))
  {
    PersistentTransient(INITIAL_ATTEMPT, outcomes, numberOfRetries);
  }

  /** A bulk whose first attempt is rejected with a status other than 200
      fails at once, with no retry. */
  lemma BadStatusIsTerminal(status: int, body: string, rest: seq<Outcome>, numberOfRetries: int)
    requires status != 200
    ensures Run(INITIAL_ATTEMPT, [Response(status, body)] + rest, numberOfRetries) == [Failed(BadStatus(status, body))]
  {
  }

  /** One transient failure followed by a 200 gives one retry after 2 s and
      then a single success report, with no failure report. */
  lemma SuccessOnSecondAttempt(code: string, body: string, numberOfRetries: int)
    requires IsTransient(code) && numberOfRetries >= 2
    ensures Run(INITIAL_ATTEMPT, [TransportError(code), Response(200, body)], numberOfRetries)
            == [RetryIn(INITIAL_SLEEP_MS), Delivered]
  {
    var outcomes := [TransportError(code), Response(200, body)];
    assert outcomes[1..] == [Response(200, body)];
  }

  /** A bulk: a snapshot of the buffer, its id, and the retry state that
      `_send` updates in place. */
  class Bulk {
    const msgs: seq<Record>
    const id: nat
    var attemptNumber: nat
    var sleepUntilNextRetry: nat

    /** `_createBulk`'s object literal: first attempt, 2 s initial sleep. */
    constructor (msgs: seq<Record>, id: nat)
      ensures this.msgs == msgs && this.id == id
      ensures attemptNumber == 1 && sleepUntilNextRetry == INITIAL_SLEEP_MS
    {
      this.msgs := msgs;
      this.id := id;
      attemptNumber := 1;
      sleepUntilNextRetry := INITIAL_SLEEP_MS;
    }

    function State(): Attempt
      reads this
    {
      Attempt(attemptNumber, sleepUntilNextRetry)
    }

    /** The response handler of `_send`: reports the outcome, or updates
        the retry state in place and asks for a re-send after the old sleep. */
    method OnOutcome(outcome: Outcome, numberOfRetries: int) returns (step: Step)
      modifies this
      ensures Decision(step, State()) == Decide(old(State()), outcome, numberOfRetries)
    {
      match outcome {
        case TransportError(code) =>
          if IsTransient(code) {
            if attemptNumber >= numberOfRetries {
              step := Failed(RetriesExhausted(attemptNumber, code));
            } else {
              var sleepTimeMs := sleepUntilNextRetry;
              sleepUntilNextRetry := sleepUntilNextRetry * 2;
              attemptNumber := attemptNumber + 1;
              step := RetryIn(sleepTimeMs);
            }
          } else {
            step := Failed(TransportFailure(code));
          }
        case Response(status, body) =>
          if status != 200 {
            step := Failed(BadStatus(status, body));
          } else {
            step := Delivered;
          }
        case Threw(reason) =>
          step := Failed(RequestThrew(reason));
      }
    }
  }
}
