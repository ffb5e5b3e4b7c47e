/**
 * The dictionaries the record models exchange with the document store.
 * `model_dump()` yields a dict whose datetime fields hold `datetime` objects;
 * `to_dict` turns each of those into its ISO text, and `from_dict` turns the
 * named datetime fields back before the record is validated. Both loops
 * are modelled here once, for any document, together with the typed field
 * readers that stand for the record's constructor (`cls(**data)`).
 */
module Documents {
  import opened Base
  import opened Timestamps

  /** A value held in one of those dicts. */
  datatype Value =
    | Null
    | Bool(b: bool)
    | Int(i: int)
    | Real(r: real)
    | Str(s: string)
    | StrList(items: seq<string>)
    | Time(t: Timestamp)

  type Document = map<string, Value>

  /** Python truthiness, which `from_dict` tests with `data[field]`. */
  predicate Truthy(v: Value) {
    match v
    case Null => false
    case Bool(b) => b
    case Int(i) => i != 0
    case Real(r) => r != 0.0
    case Str(s) => s != ""
    case StrList(items) => items != []
    case Time(_) => true
  }

  predicate Distinct(keys: seq<string>) {
    forall i, j :: 0 <= i < j < |keys| ==> keys[i] != keys[j]
  }

  function IsoValue(v: Value): Value {
    if v.Time? then Str(IsoFormat(v.t)) else v
  }

  /** The document `to_dict` hands to the store: same keys, no datetime left, everything else untouched. */
  function IsoEncoded(d: Document): (e: Document)
    ensures e.Keys == d.Keys
    ensures forall k :: k in e ==> !e[k].Time?
  {
    map k | k in d :: IsoValue(d[k])
  }

  /** The loop of `to_dict`: every datetime value is replaced, in place, by its ISO text. */
  method EncodeDatetimes(d: Document) returns (e: Document)
    ensures e == IsoEncoded(d)
  {
    e := d;
    var pending := d.Keys;
    while pending != {}
      invariant pending <= d.Keys && e.Keys == d.Keys
      invariant forall k :: k in d ==> e[k] == if k in pending then d[k] else IsoValue(d[k])
      decreases |pending|
    {
      var k :| k in pending;
      if e[k].Time? {
        e := e[k := Str(IsoFormat(e[k].t))];
      }
      pending := pending - {k};
    }
  }

  /** One step of `from_dict`: a present, truthy field is parsed; `None` where `fromisoformat` raises. */
  function DecodeField(d: Document, k: string): Option<Document> {
    if k in d && Truthy(d[k]) then
      if d[k].Str? && FromIsoFormat(d[k].s).Some? then Some(d[k := Time(FromIsoFormat(d[k].s).value)])
      else None
    else Some(d)
  }

  function IsoDecoded(d: Document, fields: seq<string>): Option<Document>
    decreases |fields|
  {
    if fields == [] then Some(d)
    else
      var d' :- DecodeField(d, fields[0]);
      IsoDecoded(d', fields[1..])
  }

  /** The loop of `from_dict` over its list of datetime field names. */
  method DecodeDatetimes(d: Document, fields: seq<string>) returns (r: Option<Document>)
    ensures r == IsoDecoded(d, fields)
  {
    var cur := d;
    for i := 0 to |fields|
      invariant IsoDecoded(d, fields) == IsoDecoded(cur, fields[i..])
    {
      assert fields[i..][1..] == fields[i + 1..];
      var f := fields[i];
      if f in cur && Truthy(cur[f]) {
        if cur[f].Str? && FromIsoFormat(cur[f].s).Some? {
          cur := cur[f := Time(FromIsoFormat(cur[f].s).value)];
        } else {
          return None;
        }
      }
    }
    return Some(cur);
  }

  /** What the conversion of a named field does to the value found there. */
  function ParsedValue(v: Value): Value {
    if v.Str? && FromIsoFormat(v.s).Some? then Time(FromIsoFormat(v.s).value) else v
  }

  predicate Parseable(d: Document, k: string) {
    k in d && Truthy(d[k]) ==> d[k].Str? && FromIsoFormat(d[k].s).Some?
  }

  /**
   * `from_dict` converts exactly the named fields that are present and truthy,
   * fails exactly when one of them is not ISO text, and leaves every other entry alone.
   */
  lemma {:induction false} DecodedFields(d: Document, fields: seq<string>)
    requires Distinct(fields)
    ensures IsoDecoded(d, fields).Some? <==> forall k :: k in fields ==> Parseable(d, k)
    ensures IsoDecoded(d, fields).Some? ==>
              var d' := IsoDecoded(d, fields).value;
              d'.Keys == d.Keys &&
              forall k :: k in d ==> d'[k] == if k in fields && Truthy(d[k]) then ParsedValue(d[k]) else d[k]
    decreases |fields|
  {
    if fields != [] {
      var f := fields[0];
      assert forall k :: k in fields[1..] ==> k != f;
      match DecodeField(d, f)
      case None =>
        assert !Parseable(d, f);
      case Some(d1) =>
        assert Distinct(fields[1..]);
        DecodedFields(d1, fields[1..]);
        assert forall k :: k != f ==> Parseable(d1, k) == Parseable(d, k);
    }
  }

  /**
   * Reading back what `to_dict` wrote restores the document, provided every
   * datetime sits under one of the named fields and no named field holds a
   * truthy non-datetime.
   */
  lemma {:induction false} DecodeRestores(e: Document, d: Document, fields: seq<string>)
    requires Distinct(fields)
    requires e.Keys == d.Keys
    requires forall k :: k in d ==> e[k] == if k in fields then IsoValue(d[k]) else d[k]
    requires forall k :: k in fields && k in d ==> d[k].Time? || !Truthy(d[k])
    ensures IsoDecoded(e, fields) == Some(d)
    decreases |fields|
  {
    if fields == [] {
      assert e == d;
    } else {
      var f := fields[0];
      assert forall k :: k in fields[1..] ==> k != f;
      if f in d && d[f].Time? {
        FromIsoFormatInverts(d[f].t);
        assert DecodeField(e, f) == Some(e[f := d[f]]);
      } else {
        assert DecodeField(e, f) == Some(e);
      }
      var e1 := DecodeField(e, f).value;
      assert Distinct(fields[1..]);
      DecodeRestores(e1, d, fields[1..]);
    }
  }

  /** `from_dict(to_dict(...))` at the level of documents. */
  lemma DecodeInvertsEncode(d: Document, fields: seq<string>)
    requires Distinct(fields)
    requires forall k :: k in d && d[k].Time? ==> k in fields
    requires forall k :: k in fields && k in d ==> d[k].Time? || !Truthy(d[k])
    ensures IsoDecoded(IsoEncoded(d), fields) == Some(d)
  {
    DecodeRestores(IsoEncoded(d), d, fields);
  }

  // Readers for the typed fields of a record, as the record's validation applies them:
  // a missing field with a default takes the default, a present field must have the
  // declared type, and `None` reports a validation error.

  function GetStr(d: Document, k: string): Option<string> {
    if k in d && d[k].Str? then Some(d[k].s) else None
  }

  function GetStrOr(d: Document, k: string, default: string): Option<string> {
    if k !in d then Some(default) else GetStr(d, k)
  }

  function GetOptStr(d: Document, k: string): Option<Option<string>> {
    if k !in d || d[k].Null? then Some(None) else if d[k].Str? then Some(Some(d[k].s)) else None
  }

  function GetTimeOr(d: Document, k: string, default: Timestamp): Option<Timestamp> {
    if k !in d then Some(default) else if d[k].Time? then Some(d[k].t) else None
  }

  function GetOptTime(d: Document, k: string): Option<Option<Timestamp>> {
    if k !in d || d[k].Null? then Some(None) else if d[k].Time? then Some(Some(d[k].t)) else None
  }

  function GetBoolOr(d: Document, k: string, default: bool): Option<bool> {
    if k !in d then Some(default) else if d[k].Bool? then Some(d[k].b) else None
  }

  function GetIntOr(d: Document, k: string, default: int): Option<int> {
    if k !in d then Some(default) else if d[k].Int? then Some(d[k].i) else None
  }

  function GetRealOr(d: Document, k: string, default: real): Option<real> {
    if k !in d then Some(default) else if d[k].Real? then Some(d[k].r) else None
  }

  function GetStrListOr(d: Document, k: string, default: seq<string>): Option<seq<string>> {
    if k !in d then Some(default) else if d[k].StrList? then Some(d[k].items) else None
  }

  function OptStr(o: Option<string>): Value {
    if o.Some? then Str(o.value) else Null
  }

  function OptTime(o: Option<Timestamp>): Value {
    if o.Some? then Time(o.value) else Null
  }
}
