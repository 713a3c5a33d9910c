/** The logger object: its buffer of records, the bulk counter, and the two
    flush triggers (lib/logzio-nodejs.js, `log`, `_timerSend`,
    `_popMsgsAndSend`, `_createBulk`, and the request `_send` prepares).
    Ghost state records every record ever logged and every bulk produced,
    so that `Valid()` can state that no record is lost, duplicated or
    reordered. */
module Shipping {
  import opened Wrappers
  import opened Records
  import opened Settings
  import opened WireBody
  import opened Delivery

  /** The records of the bulks, in the order the bulks were produced. */
  function Flatten(bulks: seq<Bulk>): seq<Record>
    decreases |bulks|
  {
    if bulks == [] then [] else Flatten(bulks[..|bulks| - 1]) + bulks[|bulks| - 1].msgs
  }

  lemma FlattenSnoc(bulks: seq<Bulk>, b: Bulk)
    ensures Flatten(bulks + [b]) == Flatten(bulks) + b.msgs
  {
    assert (bulks + [b])[..|bulks|] == bulks;
  }

  /** Every record lies in exactly one place: position i of the history is
      either in the produced bulks' records or, past them, in the buffer. */
  lemma {:induction false} FlattenIndex(bulks: seq<Bulk>, i: nat)
    requires i < |Flatten(bulks)|
    ensures exists j, p :: 0 <= j < |bulks| && 0 <= p < |bulks[j].msgs| &&
              |Flatten(bulks[..j])| + p == i && bulks[j].msgs[p] == Flatten(bulks)[i]
    decreases |bulks|
  {
    var n := |bulks| - 1;
    var init := bulks[..n];
    assert bulks[..n][..n] == init;
    if i < |Flatten(init)| {
      FlattenIndex(init, i);
      var j, p :| 0 <= j < |init| && 0 <= p < |init[j].msgs| &&
                  |Flatten(init[..j])| + p == i && init[j].msgs[p] == Flatten(init)[i];
      assert init[..j] == bulks[..j];
      assert init[j] == bulks[j];
    } else {
      assert bulks[..n] == init;
      var p := i - |Flatten(init)|;
      assert bulks[n].msgs[p] == Flatten(bulks)[i];
    }
  }

  /** The request `_send` posts for a bulk. */
  datatype Request = Request(
    uri: string,
    body: string,
    host: string,
    accept: string,
    userAgent: string,
    contentType: string,
    contentLength: nat,
    timeout: Option<int>)

  class Logger {
    const config: Config
    var messages: seq<Record>
    var bulkId: nat
    /** Every normalised record ever appended to the buffer, in order. */
    ghost var logged: seq<Record>
    /** Every bulk produced so far, in order. */
    ghost var sent: seq<Bulk>

    /** The buffer and the bulks partition the history of logged records in
        order, and the bulk ids are 1, 2, 3, ... with `bulkId` the next one. */
    ghost predicate Valid()
      reads this
    {
      && Flatten(sent) + messages == logged
      && bulkId == |sent| + 1
      && (forall i :: 0 <= i < |sent| ==> sent[i].id == i + 1)
    }

    /** The constructor, given settings that passed `Configure`. */
    constructor (config: Config)
      ensures Valid()
      ensures this.config == config && messages == [] && bulkId == 1
      ensures logged == [] && sent == []
    {
      this.config := config;
      messages := [];
      bulkId := 1;
      logged := [];
      sent := [];
    }

    /** `_createBulk`: a bulk holding a copy of `msgs`, on its first attempt
        with a 2 s initial sleep, taking the next id. */
    method CreateBulk(msgs: seq<Record>) returns (bulk: Bulk)
      modifies this`bulkId
      ensures fresh(bulk)
      ensures bulk.msgs == msgs && bulk.id == old(bulkId)
      ensures bulk.attemptNumber == 1 && bulk.sleepUntilNextRetry == INITIAL_SLEEP_MS
      ensures bulkId == old(bulkId) + 1
    {
      bulk := new Bulk(msgs, bulkId);
      bulkId := bulkId + 1;
    }

    /** `_popMsgsAndSend`: detach the whole buffer into a new bulk, which is
        handed to the sender, and empty the buffer. */
    method PopMsgsAndSend() returns (bulk: Bulk)
      requires Valid()
      modifies this
      ensures Valid()
      ensures fresh(bulk)
      ensures bulk.msgs == old(messages) && bulk.id == old(bulkId)
      ensures bulk.attemptNumber == 1 && bulk.sleepUntilNextRetry == INITIAL_SLEEP_MS
      ensures messages == [] && bulkId == old(bulkId) + 1
      ensures sent == old(sent) + [bulk] && logged == old(logged)
    {
      bulk := CreateBulk(messages);
      FlattenSnoc(sent, bulk);
      sent := sent + [bulk];
      messages := [];
    }

    /** `log`: normalise the input, append it, and flush when the buffer
        has reached `bufferSize`. */
    method Log(input: Input) returns (flushed: Option<Bulk>)
      requires Valid()
      modifies this
      ensures Valid()
      ensures logged == old(logged) + [Normalize(input, config.extraFields, config.logType)]
      // below the size limit: the record is appended at the tail and nothing is sent
      ensures |old(messages)| + 1 < config.bufferSize ==>
                && flushed == None
                && messages == old(messages) + [Normalize(input, config.extraFields, config.logType)]
                && bulkId == old(bulkId) && sent == old(sent)
      // at the limit: one bulk with the whole buffer, in append order, and an empty buffer
      ensures |old(messages)| + 1 >= config.bufferSize ==>
                && flushed.Some? && fresh(flushed.value)
                && flushed.value.msgs == old(messages) + [Normalize(input, config.extraFields, config.logType)]
                && flushed.value.id == old(bulkId) && bulkId == old(bulkId) + 1
                && flushed.value.attemptNumber == 1 && flushed.value.sleepUntilNextRetry == INITIAL_SLEEP_MS
                && messages == [] && sent == old(sent) + [flushed.value]
      // so the buffer never holds bufferSize records after a call
      ensures |messages| < config.bufferSize || messages == []
    {
      var msg := Normalize(input, config.extraFields, config.logType);
      messages := messages + [msg];
      logged := logged + [msg];
      if |messages| >= config.bufferSize {
        var bulk := PopMsgsAndSend();
        flushed := Some(bulk);
      } else {
        flushed := None;
      }
    }

    /** The body of `_timerSend` (its rescheduling is not modelled): flush
        only a non-empty buffer. */
    method TimerTick() returns (flushed: Option<Bulk>)
      requires Valid()
      modifies this
      ensures Valid() && logged == old(logged)
      ensures old(messages) == [] ==>
                flushed == None && messages == [] && bulkId == old(bulkId) && sent == old(sent)
      ensures old(messages) != [] ==>
                && flushed.Some? && fresh(flushed.value)
                && flushed.value.msgs == old(messages) && flushed.value.id == old(bulkId)
                && messages == [] && bulkId == old(bulkId) + 1 && sent == old(sent) + [flushed.value]
    {
      if |messages| > 0 {
        var bulk := PopMsgsAndSend();
        flushed := Some(bulk);
      } else {
        flushed := None;
      }
    }

    /** The request `_send` builds for a bulk: the logger's URL, the body,
        the fixed headers, the UTF-8 content length, and the timeout when
        one was configured. */
    method PrepareRequest(bulk: Bulk, ser: Record -> string) returns (req: Request)
      ensures req.uri == config.url
      ensures req.body == Body(bulk.msgs, ser)
      ensures NoNewlines(bulk.msgs, ser) ==>
                Lines(req.body) == seq(|bulk.msgs|, i requires 0 <= i < |bulk.msgs| => ser(bulk.msgs[i]))
      ensures req.contentLength == LineBytes(bulk.msgs, ser)
      ensures req.host == config.host && req.accept == "*/*" && req.userAgent == config.userAgent
      ensures req.contentType == "text/plain" && req.timeout == config.timeout
    {
      var body := MessagesToBody(bulk.msgs, ser);
      if NoNewlines(bulk.msgs, ser) {
        LinesOfBody(bulk.msgs, ser);
      }
      ContentLength(bulk.msgs, ser);
      req := Request(config.url, body, config.host, "*/*", config.userAgent, "text/plain",
                     Utf8Length(body), config.timeout);
    }
  }

  /** No record is lost, duplicated or reordered: whatever was logged is,
      in order, the records of the bulks produced followed by the buffer.
      So the i-th logged record sits at a definite position of one bulk or,
      past all bulks, at its position in the buffer; and bulk ids strictly
      increase and stay below the counter. */
  lemma Conservation(l: Logger, i: nat)
    requires l.Valid() && i < |l.logged|
    ensures l.logged == Flatten(l.sent) + l.messages
    ensures i < |Flatten(l.sent)| ==>
              exists j, p :: 0 <= j < |l.sent| && 0 <= p < |l.sent[j].msgs| &&
                |Flatten(l.sent[..j])| + p == i && l.sent[j].msgs[p] == l.logged[i]
    ensures i >= |Flatten(l.sent)| ==> l.messages[i - |Flatten(l.sent)|] == l.logged[i]
    ensures forall a, b :: 0 <= a < b < |l.sent| ==> l.sent[a].id < l.sent[b].id
    ensures forall a :: 0 <= a < |l.sent| ==> l.sent[a].id < l.bulkId
  {
    if i < |Flatten(l.sent)| {
      FlattenIndex(l.sent, i);
    }
  }
}
