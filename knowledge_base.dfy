/** A learned answer in the knowledge base, its defaults and its document form. */
module KnowledgeModel {
  import opened Base
  import opened Timestamps
  import opened Documents

  datatype KnowledgeEntry = KnowledgeEntry(
    entryId: string,
    question: string,
    answer: string,
    category: Option<string>,
    keywords: seq<string>,
    source: string,
    sourceRequestId: Option<string>,
    confidence: real,
    timesUsed: int,
    lastUsedAt: Option<Timestamp>,
    createdAt: Timestamp,
    updatedAt: Timestamp)

  /** `KnowledgeCreate`: what a caller supplies for a new entry. */
  datatype KnowledgeCreate = KnowledgeCreate(
    question: string,
    answer: string,
    category: Option<string>,
    keywords: seq<string>,
    sourceRequestId: Option<string>)

  /** `KnowledgeCreate(question=q, answer=a)`: no category, no keywords, no source request. */
  function CreateWith(question: string, answer: string): (c: KnowledgeCreate)
    ensures c.question == question && c.answer == answer
    ensures c.category.None? && c.keywords == [] && c.sourceRequestId.None?
  {
    KnowledgeCreate(question, answer, None, [], None)
  }

  const DefaultSource := "supervisor"

  /**
   * `KnowledgeEntry(...)` given question, answer, category, keywords and
   * source request: every other field takes its default.
   */
  function NewEntry(entryId: string, question: string, answer: string, category: Option<string>,
                    keywords: seq<string>, sourceRequestId: Option<string>, now: Timestamp): (e: KnowledgeEntry)
    ensures e.entryId == entryId && e.question == question && e.answer == answer
    ensures e.category == category && e.keywords == keywords && e.sourceRequestId == sourceRequestId
    ensures e.source == "supervisor" && e.confidence == 1.0 && e.timesUsed == 0
    ensures e.lastUsedAt.None? && e.createdAt == now && e.updatedAt == now
  {
    KnowledgeEntry(entryId, question, answer, category, keywords, DefaultSource, sourceRequestId,
                   1.0, 0, None, now, now)
  }

  /** `model_dump()`. */
  function Dump(e: KnowledgeEntry): Document {
    map[
      "entry_id" := Str(e.entryId),
      "question" := Str(e.question),
      "answer" := Str(e.answer),
      "category" := OptStr(e.category),
      "keywords" := StrList(e.keywords),
      "source" := Str(e.source),
      "source_request_id" := OptStr(e.sourceRequestId),
      "confidence" := Real(e.confidence),
      "times_used" := Int(e.timesUsed),
      "last_used_at" := OptTime(e.lastUsedAt),
      "created_at" := Time(e.createdAt),
      "updated_at" := Time(e.updatedAt)
    ]
  }

  /** `KnowledgeEntry(**data)`: missing fields with defaults take them, wrong types are a validation error. */
  function Build(d: Document, freshId: string, now: Timestamp): Option<KnowledgeEntry> {
    var entryId := GetStrOr(d, "entry_id", freshId);
    var question := GetStr(d, "question");
    var answer := GetStr(d, "answer");
    var category := GetOptStr(d, "category");
    var keywords := GetStrListOr(d, "keywords", []);
    var source := GetStrOr(d, "source", DefaultSource);
    var sourceRequestId := GetOptStr(d, "source_request_id");
    var confidence := GetRealOr(d, "confidence", 1.0);
    var timesUsed := GetIntOr(d, "times_used", 0);
    var lastUsedAt := GetOptTime(d, "last_used_at");
    var createdAt := GetTimeOr(d, "created_at", now);
    var updatedAt := GetTimeOr(d, "updated_at", now);
    if && entryId.Some? && question.Some? && answer.Some? && category.Some? && keywords.Some?
       && source.Some? && sourceRequestId.Some? && confidence.Some? && timesUsed.Some?
       && lastUsedAt.Some? && createdAt.Some? && updatedAt.Some?
    then
      Some(KnowledgeEntry(entryId.value, question.value, answer.value, category.value, keywords.value,
                          source.value, sourceRequestId.value, confidence.value, timesUsed.value,
                          lastUsedAt.value, createdAt.value, updatedAt.value))
    else None
  }

  /** The datetime fields `from_dict` converts. */
  const DatetimeFields: seq<string> := ["created_at", "updated_at", "last_used_at"]

  function Stored(e: KnowledgeEntry): Document {
    IsoEncoded(Dump(e))
  }

  function Loaded(d: Document, freshId: string, now: Timestamp): Option<KnowledgeEntry> {
    var d' :- IsoDecoded(d, DatetimeFields);
    Build(d', freshId, now)
  }

  /** `to_dict`. */
  method ToDict(e: KnowledgeEntry) returns (d: Document)
    ensures d == Stored(e)
    ensures forall k :: k in d ==> !d[k].Time?
  {
    d := EncodeDatetimes(Dump(e));
  }

  /** `from_dict`. */
  method FromDict(data: Document, freshId: string, now: Timestamp) returns (r: Option<KnowledgeEntry>)
    ensures r == Loaded(data, freshId, now)
  {
    var converted := DecodeDatetimes(data, DatetimeFields);
    if converted.None? {
      return None;
    }
    r := Build(converted.value, freshId, now);
  }

  lemma DumpReadsBackContent(e: KnowledgeEntry, freshId: string)
    ensures GetStrOr(Dump(e), "entry_id", freshId) == Some(e.entryId)
    ensures GetStr(Dump(e), "question") == Some(e.question)
    ensures GetStr(Dump(e), "answer") == Some(e.answer)
    ensures GetOptStr(Dump(e), "category") == Some(e.category)
    ensures GetStrListOr(Dump(e), "keywords", []) == Some(e.keywords)
    ensures GetStrOr(Dump(e), "source", DefaultSource) == Some(e.source)
  {
  }

  lemma DumpReadsBackUsage(e: KnowledgeEntry, now: Timestamp)
    ensures GetOptStr(Dump(e), "source_request_id") == Some(e.sourceRequestId)
    ensures GetRealOr(Dump(e), "confidence", 1.0) == Some(e.confidence)
    ensures GetIntOr(Dump(e), "times_used", 0) == Some(e.timesUsed)
    ensures GetOptTime(Dump(e), "last_used_at") == Some(e.lastUsedAt)
    ensures GetTimeOr(Dump(e), "created_at", now) == Some(e.createdAt)
    ensures GetTimeOr(Dump(e), "updated_at", now) == Some(e.updatedAt)
  {
  }

  /** `from_dict(to_dict(e))` equals `e` in every field. */
  lemma RoundTrip(e: KnowledgeEntry, freshId: string, now: Timestamp)
    ensures Loaded(Stored(e), freshId, now) == Some(e)
  {
    var d := Dump(e);
    assert Distinct(DatetimeFields);
    forall k | k in d && d[k].Time?
      ensures k in DatetimeFields
    {
    }
    DecodeInvertsEncode(d, DatetimeFields);
    DumpReadsBackContent(e, freshId);
    DumpReadsBackUsage(e, now);
  }
}
