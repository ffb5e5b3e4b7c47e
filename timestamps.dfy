/**
 * Timestamps and their text form. The backend stores every `datetime` as the
 * string `isoformat()` gives and reads it back with `datetime.fromisoformat`.
 * The model keeps a timestamp as a count of clock ticks and abstracts the
 * ISO-8601 layout to the decimal rendering of that count; what matters to the
 * rest of the model is that the two conversions are mutually inverse.
 */
module Timestamps {
  import opened Base

  /** A point in time, in clock ticks since a fixed epoch. */
  type Timestamp = nat

  predicate IsDigit(c: char) {
    '0' <= c <= '9'
  }

  predicate AllDigits(s: string) {
    forall i :: 0 <= i < |s| ==> IsDigit(s[i])
  }

  function DigitChar(d: nat): char
    requires d < 10
  {
    ('0' as int + d) as char
  }

  /** `datetime.isoformat()`: never empty, so a stored timestamp is always truthy. */
  function IsoFormat(t: Timestamp): (s: string)
    ensures s != [] && AllDigits(s)
    decreases t
  {
    if t < 10 then [DigitChar(t)] else IsoFormat(t / 10) + [DigitChar(t % 10)]
  }

  function DigitsValue(s: string): nat
    requires AllDigits(s)
    decreases |s|
  {
    if s == [] then 0 else DigitsValue(s[..|s| - 1]) * 10 + (s[|s| - 1] as int - '0' as int)
  }

  /** `datetime.fromisoformat(s)`; `None` where Python raises `ValueError`. */
  function FromIsoFormat(s: string): (r: Option<Timestamp>)
    ensures r.Some? <==> s != [] && AllDigits(s)
  {
    if s != [] && AllDigits(s) then Some(DigitsValue(s)) else None
  }

  /** Reading back what `isoformat` wrote gives the same timestamp. */
  lemma {:induction false} FromIsoFormatInverts(t: Timestamp)
    ensures FromIsoFormat(IsoFormat(t)) == Some(t)
  {
    var s := IsoFormat(t);
    if t >= 10 {
      FromIsoFormatInverts(t / 10);
      assert s[..|s| - 1] == IsoFormat(t / 10);
      assert DigitsValue(s) == (t / 10) * 10 + t % 10;
    }
  }
}
