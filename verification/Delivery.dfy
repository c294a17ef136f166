/** The dispatch job of one outbound intent: an uninterrupted run for every gateway
    reply and every database failure. */
module Delivery {
  import opened Options
  import opened Outbound
  import opened Text

  /** What a send to the gateway ends in. */
  datatype Reply =
    | Response(code: int, body: Fields, message: string)
    | TransportError(message: string)
    | OtherError(message: string)

  /** What the commits of a run end in: of the first mark, of the result's mark, of
      the mark made after an unexpected exception. */
  datatype Faults = Faults(start: Ending, result: Ending, fallback: Ending)

  datatype Signal = Completed | Raised

  const DATABASE_ERROR: string := "database error"
  const TRANSPORT_ERROR: string := "gateway_transport_error"
  const DISPATCH_EXCEPTION: string := "outbound_dispatch_exception"

  predicate IsSuccess(code: int) {
    200 <= code < 300
  }

  predicate IsTransient(code: int) {
    code in {408, 425, 429, 500, 502, 503, 504}
  }

  function NonEmptyText(body: Fields, key: string): Option<string> {
    match Get(body, key)
    case Str(s) => if s != "" then Some(s) else None
    case _ => None
  }

  /** The first of three keys that holds a non-empty text. */
  function ProviderMessageId(body: Fields): Option<string> {
    if NonEmptyText(body, "provider_message_id").Some? then NonEmptyText(body, "provider_message_id")
    else if NonEmptyText(body, "message_id").Some? then NonEmptyText(body, "message_id")
    else NonEmptyText(body, "id")
  }

  const HTTP_ERROR: string := "gateway_http_"

  function HttpErrorCode(code: int): string {
    HTTP_ERROR + (if code >= 0 then Decimal(code) else "-" + Decimal(-code))
  }

  /** The mark a run makes for a reply, with `retries` attempts left in the queue. */
  function ResultMark(reply: Reply, retries: nat, at: string, delay: Option<int>): Mark {
    match reply
    case Response(code, body, message) =>
      var provider := ProviderMessageId(body);
      if IsSuccess(code) then MarkSent(at, provider, Some(body))
      else if IsTransient(code) && retries > 0
      then MarkRetrying(at, Some(HttpErrorCode(code)), Some(message), provider, Some(body), delay)
      else MarkFailed(at, Some(HttpErrorCode(code)), Some(message), provider, Some(body))
    case TransportError(message) =>
      if retries > 0
      then MarkRetrying(at, Some(TRANSPORT_ERROR), Some(message), None, None, delay)
      else MarkFailed(at, Some(TRANSPORT_ERROR), Some(message), None, None)
    case OtherError(message) =>
      MarkFailed(at, Some(DISPATCH_EXCEPTION), Some(message), None, None)
  }

  function ExceptionMark(message: string, at: string): Mark {
    MarkFailed(at, Some(DISPATCH_EXCEPTION), Some(message), None, None)
  }

  predicate IsSuccessReply(reply: Reply) {
    reply.Response? && IsSuccess(reply.code)
  }

  /** Whether the handling of a reply leaves through the generic handler, which
      rolls back and reads the row again. */
  predicate Unexpected(reply: Reply, result: Ending) {
    reply.OtherError? || (IsSuccessReply(reply) && result != Confirmed)
  }

  function FailureText(reply: Reply): string {
    if reply.OtherError? then reply.message else DATABASE_ERROR
  }

  /** The row after the mark of the result, made by a run that holds `loaded`. An
      unexpected exception of the send makes none. */
  function AfterMark(
      row: Row, loaded: Row, reply: Reply, retries: nat, at: string, delay: Option<int>, result: Ending): Row {
    if reply.OtherError? || result == Refused then row
    else Apply(row, loaded, ResultMark(reply, retries, at, delay))
  }

  /** The row after the generic handler of a run that holds `loaded`. */
  function AfterFallback(row: Row, loaded: Row, message: string, at: string, fallback: Ending): Row {
    if fallback == Refused then row else Apply(row, loaded, ExceptionMark(message, at))
  }

  /** A run returns after a success and after a final rejection; every other end
      is an exception that the queue sees. */
  function SignalOf(reply: Reply, result: Ending): Signal {
    if reply.Response? && !IsTransient(reply.code) && result == Confirmed then Completed else Raised
  }

  /** An uninterrupted handling of a reply. */
  function AfterReply(row: Row, reply: Reply, retries: nat, at: string, delay: Option<int>, faults: Faults): Row {
    var marked := AfterMark(row, row, reply, retries, at, delay, faults.result);
    if Unexpected(reply, faults.result)
    then AfterFallback(marked, marked, FailureText(reply), at, faults.fallback)
    else marked
  }

  lemma SuccessEnds(row: Row, reply: Reply, retries: nat, at: string, delay: Option<int>, faults: Faults)
    requires IsSuccessReply(reply)
    ensures var marked := AfterMark(row, row, reply, retries, at, delay, faults.result);
            && marked == MarkEnds(row, MarkSent(at, ProviderMessageId(reply.body), Some(reply.body)), faults.result)
            && AfterReply(row, reply, retries, at, delay, faults)
                 == if faults.result == Confirmed then marked
                    else MarkEnds(marked, ExceptionMark(DATABASE_ERROR, at), faults.fallback)
  {
  }

  lemma RejectionEnds(row: Row, reply: Reply, retries: nat, at: string, delay: Option<int>, faults: Faults)
    requires reply.Response? && !IsSuccess(reply.code)
    ensures var provider, code := ProviderMessageId(reply.body), Some(HttpErrorCode(reply.code));
            AfterReply(row, reply, retries, at, delay, faults)
              == MarkEnds(row, if IsTransient(reply.code) && retries > 0
                               then MarkRetrying(at, code, Some(reply.message), provider, Some(reply.body), delay)
                               else MarkFailed(at, code, Some(reply.message), provider, Some(reply.body)),
                          faults.result)
  {
  }

  /** One uninterrupted run on a row. */
  function RunOnce(
      row: Row, reply: Reply, retries: nat, at: string, delay: Option<int>, faults: Faults): (Row, Signal, nat) {
    if row.status == Sent then (row, Completed, 0)
    else
      var started := MarkEnds(row, MarkSending(at), faults.start);
      if faults.start != Confirmed then
        (AfterFallback(started, started, DATABASE_ERROR, at, faults.fallback), Raised, 0)
      else (AfterReply(started, reply, retries, at, delay, faults), SignalOf(reply, faults.result), 1)
  }

  // ------------------------------------------------------- what a run does

  const NO_FAULTS: Faults := Faults(Confirmed, Confirmed, Confirmed)

  /** The rejections that are worth another attempt. */
  predicate MayPass(code: int) {
    || code == 408 || code == 425 || code == 429
    || code == 500 || code == 502 || code == 503 || code == 504
  }

  /** What a run leaves when it ends in a retry: the row is sending, with the reason and
      the delay, and the queue sees an exception. */
  ghost predicate EndsInRetry(run: (Row, Signal, nat), code: string, message: string, delay: Option<int>) {
    && run.0.status == Sending && InDispatch(run.0, "last_status") == Str("retrying")
    && TellsError(run.0, Some(code), Some(message)) && InDispatch(run.0, "next_retry_in_seconds") == NumOrNull(delay)
    && run.1 == Raised && run.2 == 1
  }

  ghost predicate EndsInFailure(run: (Row, Signal, nat), code: string, message: string, signal: Signal) {
    && run.0.status == Failed && InDispatch(run.0, "last_status") == Str("failed")
    && TellsError(run.0, Some(code), Some(message)) && InDispatch(run.0, "next_retry_in_seconds") == Null
    && run.1 == signal && run.2 == 1
  }

  lemma MarkTells(row: Row, mark: Mark)
    ensures InDispatch(Marked(row, mark), "last_status")
         == Str(match mark case MarkSending(_) => "sending" case MarkRetrying(_, _, _, _, _, _) => "retrying"
                case MarkSent(_, _, _) => "sent" case MarkFailed(_, _, _, _, _) => "failed")
  {
    MarkSets(row, row, mark, "last_status");
  }

  lemma MarkTellsAll(row: Row, mark: Mark)
    ensures Marked(row, mark).status == StatusAfter(mark)
    ensures match mark
            case MarkRetrying(_, code, message, provider, response, delay) =>
              && TellsError(Marked(row, mark), code, message) && TellsAnswer(Marked(row, mark), provider, response)
              && InDispatch(Marked(row, mark), "next_retry_in_seconds") == NumOrNull(delay)
            case MarkFailed(_, code, message, provider, response) =>
              && TellsError(Marked(row, mark), code, message) && TellsAnswer(Marked(row, mark), provider, response)
              && InDispatch(Marked(row, mark), "next_retry_in_seconds") == Null
            case MarkSent(_, provider, response) =>
              && TellsError(Marked(row, mark), None, None) && TellsAnswer(Marked(row, mark), provider, response)
            case MarkSending(_) => true
  {
    MarkTellsError(row, row, mark);
    MarkTellsAnswer(row, row, mark);
    MarkSets(row, row, mark, "next_retry_in_seconds");
  }

  /** A rejection ends in a retry exactly for the seven codes and while the job has a
      retry left. Every other one ends in a failure, which the queue sees as an exception
      exactly for the seven codes. */
  lemma RejectionEndsAs(
      row: Row, code: int, body: Fields, message: string, retries: nat, at: string, delay: Option<int>)
    requires row.status != Sent && !(200 <= code <= 299)
    ensures var run := RunOnce(row, Response(code, body, message), retries, at, delay, NO_FAULTS);
            && (if MayPass(code) && retries > 0 then EndsInRetry(run, HttpErrorCode(code), message, delay)
                else EndsInFailure(run, HttpErrorCode(code), message, if MayPass(code) then Raised else Completed))
            && TellsAnswer(run.0, ProviderMessageId(body), Some(body))
  {
    var mark := ResultMark(Response(code, body, message), retries, at, delay);
    var started := Marked(row, MarkSending(at));
    MarkTells(started, mark);
    MarkTellsAll(started, mark);
  }

  /** The error code of a rejection names its status. */
  lemma RejectionIsNamed(code: nat)
    ensures HttpErrorCode(code) == "gateway_http_" + Decimal(code)
  {
  }

  /** A success leaves the row sent, with the answer and without an error. */
  lemma SuccessEndsAs(
      row: Row, code: int, body: Fields, message: string, retries: nat, at: string, delay: Option<int>)
    requires row.status != Sent && 200 <= code <= 299
    ensures var run := RunOnce(row, Response(code, body, message), retries, at, delay, NO_FAULTS);
            && run.0.status == Sent && InDispatch(run.0, "last_status") == Str("sent")
            && TellsError(run.0, None, None) && TellsAnswer(run.0, ProviderMessageId(body), Some(body))
            && run.1 == Completed && run.2 == 1
  {
    var mark := ResultMark(Response(code, body, message), retries, at, delay);
    var started := Marked(row, MarkSending(at));
    MarkTells(started, mark);
    MarkTellsAll(started, mark);
  }

  /** A send without an answer is tried again while the job has a retry left, if the
      transport failed, and never for another exception. */
  lemma LostSendEndsAs(row: Row, reply: Reply, retries: nat, at: string, delay: Option<int>)
    requires row.status != Sent && !reply.Response?
    ensures var run := RunOnce(row, reply, retries, at, delay, NO_FAULTS);
            if reply.OtherError? then EndsInFailure(run, "outbound_dispatch_exception", reply.message, Raised)
            else if retries > 0 then EndsInRetry(run, "gateway_transport_error", reply.message, delay)
            else EndsInFailure(run, "gateway_transport_error", reply.message, Raised)
  {
    var mark := ResultMark(reply, retries, at, delay);
    var started := Marked(row, MarkSending(at));
    MarkTells(started, mark);
    MarkTellsAll(started, mark);
  }

  /** Without a confirmed first mark nothing is sent, and a success whose mark is not
      confirmed is no success: the row is marked failed, if the database takes that. */
  lemma FaultyRunEndsAs(row: Row, reply: Reply, retries: nat, at: string, delay: Option<int>, faults: Faults)
    requires row.status != Sent
    requires faults.start != Confirmed || (IsSuccessReply(reply) && faults.result != Confirmed)
    ensures var run := RunOnce(row, reply, retries, at, delay, faults);
            && run.1 == Raised && run.2 == (if faults.start == Confirmed then 1 else 0)
            && (faults.fallback != Refused ==> run.0.status == Failed)
            && (faults == Faults(Refused, faults.result, Refused) ==> run.0 == row)
  {
  }

  /** The provider's id is the first of the three keys that holds a text. */
  lemma ProviderIdIsFirst(body: Fields, id: string)
    ensures ProviderMessageId(body) == Some(id)
       <==> && id != ""
            && (|| Get(body, "provider_message_id") == Str(id)
                || (&& NoText(body, "provider_message_id")
                    && (Get(body, "message_id") == Str(id)
                        || (NoText(body, "message_id") && Get(body, "id") == Str(id)))))
  {
  }

  predicate NoText(body: Fields, key: string) {
    !Get(body, key).Str? || Get(body, key).s == ""
  }

  lemma Overwritten(rows: map<string, Row>, id: string, first: Row, second: Row)
    ensures id in rows[id := first] && rows[id := first][id] == first
    ensures rows[id := first][id := second] == rows[id := second]
  {
  }

  /** `dispatch_outbound_intent_job`. `id` is `None` for a malformed argument;
      `retries` is what the queue has left for the job; `sends` counts the
      requests to the gateway. */
  method DispatchOutboundIntent(
      store: OutboundStore, id: Option<string>, reply: Reply, retries: nat, at: string, delay: Option<int>,
      faults: Faults)
    returns (signal: Signal, sends: nat)
    requires store.Valid()
    modifies store
    ensures store.Valid()
    ensures id.None? || id.value !in old(store.rows) ==>
              store.rows == old(store.rows) && signal == Completed && sends == 0
    ensures id.Some? && id.value in old(store.rows) ==>
              var result := RunOnce(old(store.rows)[id.value], reply, retries, at, delay, faults);
              && store.rows == old(store.rows)[id.value := result.0]
              && signal == result.1 && sends == result.2
  {
    sends := 0;
    if id.None? {
      return Completed, 0;
    }
    if id.value !in store.rows {
      return Completed, 0;
    }
    if store.rows[id.value].status == Sent {
      return Completed, 0;
    }
    ghost var rows, started := store.rows, MarkEnds(store.rows[id.value], MarkSending(at), faults.start);
    var begun := store.MarkIntent(id.value, MarkSending(at), faults.start);
    if begun != Done {
      var _ := store.MarkIntent(id.value, ExceptionMark(DATABASE_ERROR, at), faults.fallback);
      Overwritten(rows, id.value, started, MarkEnds(started, ExceptionMark(DATABASE_ERROR, at), faults.fallback));
      return Raised, 0;
    }
    signal := HandleReply(store, id.value, reply, retries, at, delay, faults);
    Overwritten(rows, id.value, started, AfterReply(started, reply, retries, at, delay, faults));
    return signal, 1;
  }

  /** What follows the send: the rest of the `try` block and its handlers. */
  method HandleReply(
      store: OutboundStore, id: string, reply: Reply, retries: nat, at: string, delay: Option<int>, faults: Faults)
    returns (signal: Signal)
    requires store.Valid() && id in store.rows
    modifies store
    ensures store.Valid()
    ensures store.rows == old(store.rows)[id := AfterReply(old(store.rows)[id], reply, retries, at, delay, faults)]
    ensures signal == SignalOf(reply, faults.result)
  {
    match reply {
      case OtherError(message) =>
        var _ := store.MarkIntent(id, ExceptionMark(message, at), faults.fallback);
        return Raised;
      case Response(_, _, _) =>
        signal := HandleResponse(store, id, reply, retries, at, delay, faults);
      case TransportError(message) =>
        if retries > 0 {
          var _ := store.MarkIntent(id,
            MarkRetrying(at, Some(TRANSPORT_ERROR), Some(message), None, None, delay), faults.result);
        } else {
          var _ := store.MarkIntent(id,
            MarkFailed(at, Some(TRANSPORT_ERROR), Some(message), None, None), faults.result);
        }
        return Raised;
    }
  }

  /** A reply that did arrive: a success, a rejection to try again, a final one. */
  method HandleResponse(
      store: OutboundStore, id: string, reply: Reply, retries: nat, at: string, delay: Option<int>, faults: Faults)
    returns (signal: Signal)
    requires store.Valid() && id in store.rows && reply.Response?
    modifies store
    ensures store.Valid()
    ensures store.rows == old(store.rows)[id := AfterReply(old(store.rows)[id], reply, retries, at, delay, faults)]
    ensures signal == SignalOf(reply, faults.result)
  {
    ghost var row := store.rows[id];
    var provider := ProviderMessageId(reply.body);
    if IsSuccess(reply.code) {
      var marked := store.MarkIntent(id, MarkSent(at, provider, Some(reply.body)), faults.result);
      SuccessEnds(row, reply, retries, at, delay, faults);
      assert store.rows == old(store.rows)[id := AfterMark(row, row, reply, retries, at, delay, faults.result)];
      if marked != Done {
        var _ := store.MarkIntent(id, ExceptionMark(DATABASE_ERROR, at), faults.fallback);
        return Raised;
      }
      return Completed;
    }
    RejectionEnds(row, reply, retries, at, delay, faults);
    var code, text := Some(HttpErrorCode(reply.code)), Some(reply.message);
    if IsTransient(reply.code) && retries > 0 {
      var _ := store.MarkIntent(id, MarkRetrying(at, code, text, provider, Some(reply.body), delay), faults.result);
      return Raised;
    }
    var marked := store.MarkIntent(id, MarkFailed(at, code, text, provider, Some(reply.body)), faults.result);
    return if IsTransient(reply.code) || marked != Done then Raised else Completed;
  }
}
