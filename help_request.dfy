/** The help request record: its status enum, its defaults and its document form. */
module HelpRequestModel {
  import opened Base
  import opened Timestamps
  import opened Documents

  /** `RequestStatus`: PENDING, then RESOLVED or TIMEOUT. */
  datatype RequestStatus = Pending | Resolved | Timeout

  /** The lowercase wire string each status is stored as; no two statuses share one. */
  function StatusValue(s: RequestStatus): string {
    match s
    case Pending => "pending"
    case Resolved => "resolved"
    case Timeout => "timeout"
  }

  /** `RequestStatus(w)`: the status whose wire string is `w`, `None` where the enum rejects the string. */
  function ParseStatus(w: string): (r: Option<RequestStatus>)
    ensures forall s :: r == Some(s) <==> StatusValue(s) == w
  {
    if w == "pending" then Some(Pending)
    else if w == "resolved" then Some(Resolved)
    else if w == "timeout" then Some(Timeout)
    else None
  }

  datatype HelpRequest = HelpRequest(
    requestId: string,
    customerPhone: string,
    customerName: Option<string>,
    question: string,
    context: Option<string>,
    status: RequestStatus,
    createdAt: Timestamp,
    updatedAt: Timestamp,
    resolvedAt: Option<Timestamp>,
    timeoutAt: Option<Timestamp>,
    supervisorAnswer: Option<string>,
    supervisorId: Option<string>,
    customerNotified: bool,
    notificationSentAt: Option<Timestamp>)

  /** `HelpRequestCreate`: what the agent supplies when it escalates. */
  datatype HelpRequestCreate = HelpRequestCreate(
    customerPhone: string,
    customerName: Option<string>,
    question: string,
    context: Option<string>)

  /** `HelpRequestResolve`: the supervisor's answer and who gave it. */
  datatype HelpRequestResolve = HelpRequestResolve(supervisorAnswer: string, supervisorId: Option<string>)

  const DefaultSupervisorId := "supervisor_1"

  /** `HelpRequestResolve(supervisor_answer=answer)`: the supervisor id takes its default. */
  function ResolveWith(answer: string): (r: HelpRequestResolve)
    ensures r.supervisorAnswer == answer && r.supervisorId == Some("supervisor_1")
  {
    HelpRequestResolve(answer, Some(DefaultSupervisorId))
  }

  /**
   * The lifecycle invariant of a stored request: resolution data is present
   * exactly when it is RESOLVED, and only a resolved request is ever marked notified.
   */
  predicate WellFormed(r: HelpRequest) {
    && (r.resolvedAt.Some? <==> r.status == Resolved)
    && (r.supervisorAnswer.Some? ==> r.status == Resolved)
    && (r.customerNotified <==> r.notificationSentAt.Some?)
    && (r.customerNotified ==> r.status == Resolved)
  }

  /** `HelpRequest(...)` given the request's own fields and `timeout_at`; every other field takes its default. */
  function NewHelpRequest(requestId: string, data: HelpRequestCreate, timeoutAt: Option<Timestamp>, now: Timestamp): (r: HelpRequest)
    ensures r.requestId == requestId && r.customerPhone == data.customerPhone && r.customerName == data.customerName
    ensures r.question == data.question && r.context == data.context && r.timeoutAt == timeoutAt
    ensures r.status == Pending && r.createdAt == now && r.updatedAt == now
    ensures r.resolvedAt.None? && r.supervisorAnswer.None? && r.supervisorId.None?
    ensures !r.customerNotified && r.notificationSentAt.None?
    ensures WellFormed(r)
  {
    HelpRequest(requestId, data.customerPhone, data.customerName, data.question, data.context,
                Pending, now, now, None, timeoutAt, None, None, false, None)
  }

  /** `model_dump()`: one entry per field, the status as its wire string, datetimes as they are. */
  function Dump(r: HelpRequest): Document {
    map[
      "request_id" := Str(r.requestId),
      "customer_phone" := Str(r.customerPhone),
      "customer_name" := OptStr(r.customerName),
      "question" := Str(r.question),
      "context" := OptStr(r.context),
      "status" := Str(StatusValue(r.status)),
      "created_at" := Time(r.createdAt),
      "updated_at" := Time(r.updatedAt),
      "resolved_at" := OptTime(r.resolvedAt),
      "timeout_at" := OptTime(r.timeoutAt),
      "supervisor_answer" := OptStr(r.supervisorAnswer),
      "supervisor_id" := OptStr(r.supervisorId),
      "customer_notified" := Bool(r.customerNotified),
      "notification_sent_at" := OptTime(r.notificationSentAt)
    ]
  }

  /**
   * `HelpRequest(**data)`: validation of a document. A missing `request_id` or
   * timestamp takes a fresh default (`freshId`, `now`); a missing required
   * field or a value of the wrong type is a validation error (`None`).
   */
  function Build(d: Document, freshId: string, now: Timestamp): Option<HelpRequest> {
    var requestId := GetStrOr(d, "request_id", freshId);
    var customerPhone := GetStr(d, "customer_phone");
    var customerName := GetOptStr(d, "customer_name");
    var question := GetStr(d, "question");
    var context := GetOptStr(d, "context");
    var statusText := GetStrOr(d, "status", StatusValue(Pending));
    var status := if statusText.Some? then ParseStatus(statusText.value) else None;
    var createdAt := GetTimeOr(d, "created_at", now);
    var updatedAt := GetTimeOr(d, "updated_at", now);
    var resolvedAt := GetOptTime(d, "resolved_at");
    var timeoutAt := GetOptTime(d, "timeout_at");
    var supervisorAnswer := GetOptStr(d, "supervisor_answer");
    var supervisorId := GetOptStr(d, "supervisor_id");
    var customerNotified := GetBoolOr(d, "customer_notified", false);
    var notificationSentAt := GetOptTime(d, "notification_sent_at");
    if && requestId.Some? && customerPhone.Some? && customerName.Some? && question.Some?
       && context.Some? && status.Some? && createdAt.Some? && updatedAt.Some?
       && resolvedAt.Some? && timeoutAt.Some? && supervisorAnswer.Some? && supervisorId.Some?
       && customerNotified.Some? && notificationSentAt.Some?
    then
      Some(HelpRequest(requestId.value, customerPhone.value, customerName.value, question.value,
                       context.value, status.value, createdAt.value, updatedAt.value, resolvedAt.value,
                       timeoutAt.value, supervisorAnswer.value, supervisorId.value,
                       customerNotified.value, notificationSentAt.value))
    else None
  }

  /** The datetime fields `from_dict` converts. */
  const DatetimeFields: seq<string> := ["created_at", "updated_at", "resolved_at", "timeout_at", "notification_sent_at"]

  /** The document `to_dict` produces. */
  function Stored(r: HelpRequest): Document {
    IsoEncoded(Dump(r))
  }

  /** The record `from_dict` produces, `None` where it raises. */
  function Loaded(d: Document, freshId: string, now: Timestamp): Option<HelpRequest> {
    var d' :- IsoDecoded(d, DatetimeFields);
    Build(d', freshId, now)
  }

  /** `to_dict`: the dump with every datetime turned into ISO text. */
  method ToDict(r: HelpRequest) returns (d: Document)
    ensures d == Stored(r)
    ensures forall k :: k in d ==> !d[k].Time?
  {
    d := EncodeDatetimes(Dump(r));
  }

  /** `from_dict`: converts the five datetime fields back, then validates. */
  method FromDict(data: Document, freshId: string, now: Timestamp) returns (r: Option<HelpRequest>)
    ensures r == Loaded(data, freshId, now)
  {
    var converted := DecodeDatetimes(data, DatetimeFields);
    if converted.None? {
      return None;
    }
    r := Build(converted.value, freshId, now);
  }

  lemma DumpReadsBackText(r: HelpRequest, freshId: string)
    ensures GetStrOr(Dump(r), "request_id", freshId) == Some(r.requestId)
    ensures GetStr(Dump(r), "customer_phone") == Some(r.customerPhone)
    ensures GetOptStr(Dump(r), "customer_name") == Some(r.customerName)
    ensures GetStr(Dump(r), "question") == Some(r.question)
    ensures GetOptStr(Dump(r), "context") == Some(r.context)
  {
  }

  lemma DumpReadsBackState(r: HelpRequest, now: Timestamp)
    ensures GetStrOr(Dump(r), "status", StatusValue(Pending)) == Some(StatusValue(r.status))
    ensures GetTimeOr(Dump(r), "created_at", now) == Some(r.createdAt)
    ensures GetTimeOr(Dump(r), "updated_at", now) == Some(r.updatedAt)
    ensures GetOptTime(Dump(r), "resolved_at") == Some(r.resolvedAt)
    ensures GetOptTime(Dump(r), "timeout_at") == Some(r.timeoutAt)
  {
  }

  lemma DumpReadsBackResolution(r: HelpRequest)
    ensures GetOptStr(Dump(r), "supervisor_answer") == Some(r.supervisorAnswer)
    ensures GetOptStr(Dump(r), "supervisor_id") == Some(r.supervisorId)
    ensures GetBoolOr(Dump(r), "customer_notified", false) == Some(r.customerNotified)
    ensures GetOptTime(Dump(r), "notification_sent_at") == Some(r.notificationSentAt)
  {
  }

  /** Validating a dump gives back the record, whatever defaults would have been used. */
  lemma BuildDump(r: HelpRequest, freshId: string, now: Timestamp)
    ensures Build(Dump(r), freshId, now) == Some(r)
  {
    DumpReadsBackText(r, freshId);
    DumpReadsBackState(r, now);
    DumpReadsBackResolution(r);
  }

  /** `from_dict(to_dict(r))` equals `r` in every field. */
  lemma RoundTrip(r: HelpRequest, freshId: string, now: Timestamp)
    ensures Loaded(Stored(r), freshId, now) == Some(r)
  {
    var d := Dump(r);
    assert Distinct(DatetimeFields);
    forall k | k in d && d[k].Time?
      ensures k in DatetimeFields
    {
    }
    DecodeInvertsEncode(d, DatetimeFields);
    BuildDump(r, freshId, now);
  }
}
