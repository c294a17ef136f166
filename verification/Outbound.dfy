/** Outbound intents: the row with its status, attempt counter and payload, and
    the marks that change it. */
module Outbound {
  import opened Options

  datatype Json =
    | Null
    | Bool(b: bool)
    | Num(n: int)
    | Str(s: string)
    | Arr(items: seq<Json>)
    | Obj(fields: Fields)
  type Fields = map<string, Json>

  datatype Status = Pending | Sending | Sent | Failed
  datatype Row = Row(status: Status, attempts: nat, payload: Fields)

  function StatusText(status: Status): string {
    match status
    case Pending => "pending"
    case Sending => "sending"
    case Sent => "sent"
    case Failed => "failed"
  }

  predicate Truthy(value: Json) {
    match value
    case Null => false
    case Bool(b) => b
    case Num(n) => n != 0
    case Str(s) => s != ""
    case Arr(items) => items != []
    case Obj(fields) => fields != map[]
  }

  lemma FalsyValues(value: Json)
    ensures !Truthy(value) <==> || value == Null || value == Bool(false) || value == Num(0)
                                || value == Str("") || value == Arr([]) || value == Obj(map[])
  {
  }

  /** `payload.get("_dispatch")`, where a missing key reads as null. */
  function Get(fields: Fields, key: string): Json {
    if key in fields then fields[key] else Null
  }

  /** Whether the metadata of a payload can be turned into a mapping. */
  predicate Mergeable(payload: Fields) {
    var dispatch := Get(payload, "_dispatch");
    !Truthy(dispatch) || dispatch.Obj?
  }

  function Dispatch(payload: Fields): Fields {
    var dispatch := Get(payload, "_dispatch");
    if dispatch.Obj? then dispatch.fields else map[]
  }

  /** `_merge_dispatch_metadata`; `None` stands for the raised type error. */
  function Merge(payload: Fields, updates: Fields): Option<Fields> {
    if Mergeable(payload) then Some(payload["_dispatch" := Obj(Dispatch(payload) + updates)]) else None
  }

  function TextOrNull(value: Option<string>): Json {
    if value.Some? then Str(value.value) else Null
  }

  function NumOrNull(value: Option<int>): Json {
    if value.Some? then Num(value.value) else Null
  }

  /** An absent or empty response is stored as null. */
  function ResponseOrNull(response: Option<Fields>): Json {
    if response.Some? && response.value != map[] then Obj(response.value) else Null
  }

  function Strings(texts: seq<string>): seq<Json> {
    seq(|texts|, i requires 0 <= i < |texts| => Str(texts[i]))
  }

  /** The calls of the four `mark_outbound_intent_*` functions. */
  datatype Mark =
    | MarkSending(at: string)
    | MarkRetrying(at: string, code: Option<string>, message: Option<string>, provider: Option<string>,
                   response: Option<Fields>, retryIn: Option<int>)
    | MarkSent(at: string, provider: Option<string>, response: Option<Fields>)
    | MarkFailed(at: string, code: Option<string>, message: Option<string>, provider: Option<string>,
                 response: Option<Fields>)

  function StatusAfter(mark: Mark): Status {
    match mark
    case MarkSending(_) => Sending
    case MarkRetrying(_, _, _, _, _, _) => Sending
    case MarkSent(_, _, _) => Sent
    case MarkFailed(_, _, _, _, _) => Failed
  }

  function Updates(mark: Mark): Fields {
    match mark
    case MarkSending(at) =>
      map["last_status" := Str("sending"), "last_attempt_at" := Str(at), "last_error_code" := Null,
          "last_error_message" := Null, "next_retry_in_seconds" := Null]
    case MarkRetrying(at, code, message, provider, response, retryIn) =>
      map["last_status" := Str("retrying"), "retrying_at" := Str(at), "provider_message_id" := TextOrNull(provider),
          "last_error_code" := TextOrNull(code), "last_error_message" := TextOrNull(message),
          "last_response" := ResponseOrNull(response), "next_retry_in_seconds" := NumOrNull(retryIn)]
    case MarkSent(at, provider, response) =>
      map["last_status" := Str("sent"), "sent_at" := Str(at), "provider_message_id" := TextOrNull(provider),
          "last_error_code" := Null, "last_error_message" := Null,
          "last_response" := ResponseOrNull(response), "next_retry_in_seconds" := Null]
    case MarkFailed(at, code, message, provider, response) =>
      map["last_status" := Str("failed"), "failed_at" := Str(at), "provider_message_id" := TextOrNull(provider),
          "last_error_code" := TextOrNull(code), "last_error_message" := TextOrNull(message),
          "last_response" := ResponseOrNull(response), "next_retry_in_seconds" := Null]
  }

  /** A mark committed by a session that holds the row as `loaded`: the session
      computes the new values from what it holds and writes the columns whose
      value differs from it. */
  function Apply(row: Row, loaded: Row, mark: Mark): Row {
    Row(if StatusAfter(mark) == loaded.status then row.status else StatusAfter(mark),
        if mark.MarkSending? then loaded.attempts + 1 else row.attempts,
        loaded.payload["_dispatch" := Obj(Dispatch(loaded.payload) + Updates(mark))])
  }

  /** A mark made by a session of its own. */
  function Marked(row: Row, mark: Mark): Row {
    Apply(row, row, mark)
  }

  /** The row after such a mark whose commit ends as given. */
  function MarkEnds(row: Row, mark: Mark, ending: Ending): Row {
    if ending == Refused then row else Marked(row, mark)
  }

  datatype Input = NoPayload | Mapping(fields: Fields) | Unsupported

  /** `create_outbound_intent`; `None` stands for the raised type error. */
  function CreatedRow(group: string, id: string, input: Input, at: string): Option<Row> {
    if input.Unsupported? then None
    else
      var given: Fields := if input.Mapping? then input.fields else map[];
      var normalized := map["outbound_intent_id" := Str(id), "provider_group_id" := Str(group)] + given;
      var merged := Merge(normalized, map["created_at" := Str(at), "last_status" := Str("pending")]);
      if merged.Some? then Some(Row(Pending, 0, merged.value)) else None
  }

  /** What a mark's commit ends in: it is refused, or made, and then the row is read
      again, which can fail as well. */
  datatype Ending = Confirmed | Refused | Unconfirmed
  datatype MarkResult = Done | IntentNotFound | MarkRaises

  class OutboundStore {
    var rows: map<string, Row>

    /** Every stored payload carries a metadata mapping. */
    ghost predicate Valid()
      reads this
    {
      forall id :: id in rows ==> Mergeable(rows[id].payload)
    }

    constructor ()
      ensures Valid() && rows == map[]
    {
      rows := map[];
    }

    method Create(group: string, id: string, input: Input, at: string) returns (created: bool)
      requires Valid() && id !in rows
      modifies this
      ensures Valid()
      ensures created <==> CreatedRow(group, id, input, at).Some?
      ensures rows == if created then old(rows)[id := CreatedRow(group, id, input, at).value] else old(rows)
    {
      if input.Unsupported? {
        return false;
      }
      var payload: Fields := if input.Mapping? then input.fields else map[];
      if "outbound_intent_id" !in payload {
        payload := payload["outbound_intent_id" := Str(id)];
      }
      if "provider_group_id" !in payload {
        payload := payload["provider_group_id" := Str(group)];
      }
      assert payload == map["outbound_intent_id" := Str(id), "provider_group_id" := Str(group)]
                        + (if input.Mapping? then input.fields else map[]);
      var merged := Merge(payload, map["created_at" := Str(at), "last_status" := Str("pending")]);
      if merged.None? {
        return false;
      }
      rows := rows[id := Row(Pending, 0, merged.value)];
      return true;
    }

    /** Any of the four marks. */
    method MarkIntent(id: string, mark: Mark, ending: Ending) returns (result: MarkResult)
      requires Valid()
      modifies this
      ensures Valid()
      ensures result == if id !in old(rows) then IntentNotFound else if ending == Confirmed then Done else MarkRaises
      ensures rows == if id in old(rows) then old(rows)[id := MarkEnds(old(rows)[id], mark, ending)] else old(rows)
    {
      if id !in rows {
        return IntentNotFound;
      }
      var row := rows[id];
      var status, attempts := StatusAfter(mark), row.attempts;
      if mark.MarkSending? {
        attempts := attempts + 1;
      }
      var payload := Merge(row.payload, Updates(mark));
      if ending == Refused {
        return MarkRaises;
      }
      rows := rows[id := Row(status, attempts, payload.value)];
      return if ending == Confirmed then Done else MarkRaises;
    }
  }

  // -------------------------------------------------------------- metadata

  /** The metadata agree with the status column, name a retry delay only while
      retrying, and carry no error once sent. */
  ghost predicate MetadataAgrees(row: Row) {
    var dispatch, last := Dispatch(row.payload), Get(Dispatch(row.payload), "last_status");
    && Get(row.payload, "_dispatch").Obj?
    && (last == Str(StatusText(row.status)) || (row.status == Sending && last == Str("retrying")))
    && (Get(dispatch, "next_retry_in_seconds") != Null ==> last == Str("retrying"))
    && (row.status == Sent ==>
          Get(dispatch, "last_error_code") == Null && Get(dispatch, "last_error_message") == Null)
  }

  function Outside(payload: Fields): Fields {
    payload - {"_dispatch"}
  }

  function MarkedBy(row: Row, marks: seq<Mark>): Row
    decreases |marks|
  {
    if marks == [] then row else Marked(MarkedBy(row, marks[..|marks| - 1]), marks[|marks| - 1])
  }

  /** A mark by itself establishes the agreement, whatever was there before, and
      leaves the payload outside the metadata alone. */
  lemma MarkRestoresAgreement(row: Row, mark: Mark)
    ensures MetadataAgrees(Marked(row, mark))
    ensures Outside(Marked(row, mark).payload) == Outside(row.payload)
    ensures Marked(row, mark).status == StatusAfter(mark)
    ensures Marked(row, mark).attempts == row.attempts + (if mark.MarkSending? then 1 else 0)
  {
    var dispatch := Dispatch(row.payload) + Updates(mark);
    assert Dispatch(Marked(row, mark).payload) == dispatch;
    assert "last_status" in Updates(mark) && "next_retry_in_seconds" in Updates(mark);
    assert Get(dispatch, "last_status") == Updates(mark)["last_status"];
  }

  function InDispatch(row: Row, key: string): Json {
    Get(Dispatch(row.payload), key)
  }

  lemma MarkSets(row: Row, loaded: Row, mark: Mark, key: string)
    requires key in Updates(mark)
    ensures InDispatch(Apply(row, loaded, mark), key) == Updates(mark)[key]
  {
    assert Dispatch(Apply(row, loaded, mark).payload) == Dispatch(loaded.payload) + Updates(mark);
  }

  lemma MarkLeaves(row: Row, loaded: Row, mark: Mark, key: string)
    requires key !in Updates(mark)
    ensures InDispatch(Apply(row, loaded, mark), key) == InDispatch(loaded, key)
  {
    assert Dispatch(Apply(row, loaded, mark).payload) == Dispatch(loaded.payload) + Updates(mark);
  }

  /** What the metadata tell of a failure. */
  ghost predicate TellsError(row: Row, code: Option<string>, message: Option<string>) {
    && InDispatch(row, "last_error_code") == TextOrNull(code)
    && InDispatch(row, "last_error_message") == TextOrNull(message)
  }

  /** What the metadata tell of the gateway's answer; an empty body counts as none. */
  ghost predicate TellsAnswer(row: Row, provider: Option<string>, response: Option<Fields>) {
    && InDispatch(row, "provider_message_id") == TextOrNull(provider)
    && InDispatch(row, "last_response")
         == if response.None? || response.value == map[] then Null else Obj(response.value)
  }

  lemma MarkTellsError(row: Row, loaded: Row, mark: Mark)
    ensures match mark
            case MarkSending(_) => TellsError(Apply(row, loaded, mark), None, None)
            case MarkSent(_, _, _) => TellsError(Apply(row, loaded, mark), None, None)
            case MarkRetrying(_, code, message, _, _, _) => TellsError(Apply(row, loaded, mark), code, message)
            case MarkFailed(_, code, message, _, _) => TellsError(Apply(row, loaded, mark), code, message)
  {
    MarkSets(row, loaded, mark, "last_error_code");
    MarkSets(row, loaded, mark, "last_error_message");
  }

  /** The first mark of a run keeps what an earlier answer has left. */
  lemma MarkTellsAnswer(row: Row, loaded: Row, mark: Mark)
    ensures match mark
            case MarkSending(_) =>
              var after := Apply(row, loaded, mark);
              && InDispatch(after, "provider_message_id") == InDispatch(loaded, "provider_message_id")
              && InDispatch(after, "last_response") == InDispatch(loaded, "last_response")
            case MarkSent(_, provider, response) => TellsAnswer(Apply(row, loaded, mark), provider, response)
            case MarkRetrying(_, _, _, provider, response, _) =>
              TellsAnswer(Apply(row, loaded, mark), provider, response)
            case MarkFailed(_, _, _, provider, response) => TellsAnswer(Apply(row, loaded, mark), provider, response)
  {
    if mark.MarkSending? {
      MarkLeaves(row, loaded, mark, "provider_message_id");
      MarkLeaves(row, loaded, mark, "last_response");
    } else {
      MarkSets(row, loaded, mark, "provider_message_id");
      MarkSets(row, loaded, mark, "last_response");
    }
  }

  /** Each mark notes its time under a key of its own; only a retry names a delay. */
  lemma MarkTellsTime(row: Row, loaded: Row, mark: Mark)
    ensures var after := Apply(row, loaded, mark);
            && InDispatch(after, match mark case MarkSending(_) => "last_attempt_at" case MarkSent(_, _, _) => "sent_at"
                                 case MarkRetrying(_, _, _, _, _, _) => "retrying_at"
                                 case MarkFailed(_, _, _, _, _) => "failed_at") == Str(mark.at)
            && InDispatch(after, "next_retry_in_seconds")
                 == if mark.MarkRetrying? && mark.retryIn.Some? then Num(mark.retryIn.value) else Null
  {
    MarkSets(row, loaded, mark, "next_retry_in_seconds");
    match mark
    case MarkSending(_) => MarkSets(row, loaded, mark, "last_attempt_at");
    case MarkSent(_, _, _) => MarkSets(row, loaded, mark, "sent_at");
    case MarkRetrying(_, _, _, _, _, _) => MarkSets(row, loaded, mark, "retrying_at");
    case MarkFailed(_, _, _, _, _) => MarkSets(row, loaded, mark, "failed_at");
  }

  lemma MetadataOfMark(row: Row, loaded: Row, mark: Mark)
    ensures Dispatch(Apply(row, loaded, mark).payload) == Dispatch(loaded.payload) + Updates(mark)
    ensures Get(Dispatch(Apply(row, loaded, mark).payload), "last_status") == Updates(mark)["last_status"]
    ensures Dispatch(Apply(row, loaded, mark).payload) == Dispatch(Marked(loaded, mark).payload)
  {
    assert "last_status" in Updates(mark);
  }

  /** A session that holds an older copy of the row writes no status column when
      its copy has the new status already. Its mark leaves the metadata in
      agreement with the status exactly when that column is still what the copy
      says, or is written. */
  lemma StaleMarkAgreesIff(row: Row, loaded: Row, mark: Mark)
    ensures MetadataAgrees(Apply(row, loaded, mark))
       <==> (StatusAfter(mark) == loaded.status ==> row.status == loaded.status)
  {
    MetadataOfMark(row, loaded, mark);
    MarkRestoresAgreement(loaded, mark);
  }

  /** A created row agrees with its metadata exactly when the caller's payload
      does not bring a retry delay along in its own metadata. */
  lemma CreatedAgreement(group: string, id: string, input: Input, at: string)
    requires CreatedRow(group, id, input, at).Some?
    ensures MetadataAgrees(CreatedRow(group, id, input, at).value)
       <==> input.NoPayload? || Get(Dispatch(input.fields), "next_retry_in_seconds") == Null
    ensures var given: Fields := if input.Mapping? then input.fields else map[];
            && Outside(given) == Outside(CreatedRow(group, id, input, at).value.payload)
                                 - ({"outbound_intent_id", "provider_group_id"} - given.Keys)
            && CreatedRow(group, id, input, at).value.status == Pending
  {
    var row := CreatedRow(group, id, input, at).value;
    var given: Fields := if input.Mapping? then input.fields else map[];
    var normalized: Fields := map["outbound_intent_id" := Str(id), "provider_group_id" := Str(group)] + given;
    assert Get(normalized, "_dispatch") == Get(given, "_dispatch");
    assert Dispatch(row.payload)
        == Dispatch(given) + map["created_at" := Str(at), "last_status" := Str("pending")];
    assert Get(Dispatch(row.payload), "last_status") == Str("pending");
  }

  /** Only metadata of the wrong type are refused. A new row names its intent and its
      group, unless the caller names others, and the time of its creation. */
  lemma CreatedDefaults(group: string, id: string, input: Input, at: string)
    ensures CreatedRow(group, id, input, at).None?
       <==> || input.Unsupported?
            || (input.Mapping? && Truthy(Get(input.fields, "_dispatch")) && !Get(input.fields, "_dispatch").Obj?)
    ensures CreatedRow(group, id, input, at).Some? ==>
              var row := CreatedRow(group, id, input, at).value;
              && row.attempts == 0 && InDispatch(row, "created_at") == Str(at)
              && Get(row.payload, "outbound_intent_id")
                   == (if input.Mapping? && "outbound_intent_id" in input.fields
                       then input.fields["outbound_intent_id"] else Str(id))
              && Get(row.payload, "provider_group_id")
                   == (if input.Mapping? && "provider_group_id" in input.fields
                       then input.fields["provider_group_id"] else Str(group))
  {
    var given: Fields := if input.Mapping? then input.fields else map[];
    var normalized: Fields := map["outbound_intent_id" := Str(id), "provider_group_id" := Str(group)] + given;
    assert Get(normalized, "_dispatch") == Get(given, "_dispatch");
  }

  function CountSending(marks: seq<Mark>): nat {
    if marks == [] then 0
    else CountSending(marks[..|marks| - 1]) + (if marks[|marks| - 1].MarkSending? then 1 else 0)
  }

  /** Under every sequence of marks after creation the metadata agree with the
      status (from the first mark on, or from creation if the caller brought no
      retry delay), the attempt counter counts the sending marks, and the
      payload outside the metadata is the one created. */
  lemma {:induction false} MarksKeepAgreement(row: Row, marks: seq<Mark>)
    ensures marks != [] || MetadataAgrees(row) ==> MetadataAgrees(MarkedBy(row, marks))
    ensures Outside(MarkedBy(row, marks).payload) == Outside(row.payload)
    ensures MarkedBy(row, marks).attempts == row.attempts + CountSending(marks)
    ensures marks != [] ==> MarkedBy(row, marks).status == StatusAfter(marks[|marks| - 1])
    decreases |marks|
  {
    if marks != [] {
      MarksKeepAgreement(row, marks[..|marks| - 1]);
      MarkRestoresAgreement(MarkedBy(row, marks[..|marks| - 1]), marks[|marks| - 1]);
    }
  }
}
