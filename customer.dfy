/** A caller of the salon, with interaction tracking, and its document form. */
module CustomerModel {
  import opened Base
  import opened Timestamps
  import opened Documents

  datatype Customer = Customer(
    phone: string,
    name: Option<string>,
    email: Option<string>,
    totalCalls: int,
    lastCallAt: Option<Timestamp>,
    createdAt: Timestamp,
    updatedAt: Timestamp)

  /** `Customer(phone=phone)`: no calls yet, nothing else known. */
  function NewCustomer(phone: string, now: Timestamp): (c: Customer)
    ensures c.phone == phone && c.name.None? && c.email.None?
    ensures c.totalCalls == 0 && c.lastCallAt.None? && c.createdAt == now && c.updatedAt == now
  {
    Customer(phone, None, None, 0, None, now, now)
  }

  /** `model_dump()`. */
  function Dump(c: Customer): Document {
    map[
      "phone" := Str(c.phone),
      "name" := OptStr(c.name),
      "email" := OptStr(c.email),
      "total_calls" := Int(c.totalCalls),
      "last_call_at" := OptTime(c.lastCallAt),
      "created_at" := Time(c.createdAt),
      "updated_at" := Time(c.updatedAt)
    ]
  }

  /** `Customer(**data)`. */
  function Build(d: Document, now: Timestamp): Option<Customer> {
    var phone := GetStr(d, "phone");
    var name := GetOptStr(d, "name");
    var email := GetOptStr(d, "email");
    var totalCalls := GetIntOr(d, "total_calls", 0);
    var lastCallAt := GetOptTime(d, "last_call_at");
    var createdAt := GetTimeOr(d, "created_at", now);
    var updatedAt := GetTimeOr(d, "updated_at", now);
    if && phone.Some? && name.Some? && email.Some? && totalCalls.Some?
       && lastCallAt.Some? && createdAt.Some? && updatedAt.Some?
    then
      Some(Customer(phone.value, name.value, email.value, totalCalls.value,
                    lastCallAt.value, createdAt.value, updatedAt.value))
    else None
  }

  /** The datetime fields `from_dict` converts. */
  const DatetimeFields: seq<string> := ["created_at", "updated_at", "last_call_at"]

  function Stored(c: Customer): Document {
    IsoEncoded(Dump(c))
  }

  function Loaded(d: Document, now: Timestamp): Option<Customer> {
    var d' :- IsoDecoded(d, DatetimeFields);
    Build(d', now)
  }

  /** `to_dict`. */
  method ToDict(c: Customer) returns (d: Document)
    ensures d == Stored(c)
    ensures forall k :: k in d ==> !d[k].Time?
  {
    d := EncodeDatetimes(Dump(c));
  }

  /** `from_dict`. */
  method FromDict(data: Document, now: Timestamp) returns (r: Option<Customer>)
    ensures r == Loaded(data, now)
  {
    var converted := DecodeDatetimes(data, DatetimeFields);
    if converted.None? {
      return None;
    }
    r := Build(converted.value, now);
  }

  lemma DumpReadsBack(c: Customer, now: Timestamp)
    ensures GetStr(Dump(c), "phone") == Some(c.phone)
    ensures GetOptStr(Dump(c), "name") == Some(c.name)
    ensures GetOptStr(Dump(c), "email") == Some(c.email)
    ensures GetIntOr(Dump(c), "total_calls", 0) == Some(c.totalCalls)
    ensures GetOptTime(Dump(c), "last_call_at") == Some(c.lastCallAt)
    ensures GetTimeOr(Dump(c), "created_at", now) == Some(c.createdAt)
    ensures GetTimeOr(Dump(c), "updated_at", now) == Some(c.updatedAt)
  {
  }

  /** `from_dict(to_dict(c))` equals `c` in every field. */
  lemma RoundTrip(c: Customer, now: Timestamp)
    ensures Loaded(Stored(c), now) == Some(c)
  {
    var d := Dump(c);
    assert Distinct(DatetimeFields);
    forall k | k in d && d[k].Time?
      ensures k in DatetimeFields
    {
    }
    DecodeInvertsEncode(d, DatetimeFields);
    DumpReadsBack(c, now);
  }
}
