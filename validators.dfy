/** Input validation: phone numbers, store keys derived from them, text length. */
module Validators {
  import opened Text
  import opened Timestamps

  /** `phone.replace(' ', '').replace('-', '')`. */
  function Cleaned(phone: string): (c: string)
    ensures ' ' !in c && '-' !in c
  {
    var noSpaces := Replace(phone, ' ', "");
    ReplaceRemoves(phone, ' ', "", ' ');
    ReplaceRemoves(noSpaces, '-', "", ' ');
    ReplaceRemoves(noSpaces, '-', "", '-');
    Replace(noSpaces, '-', "")
  }

  /** What `\d{1,14}` consumes greedily: the leading digits of `t`, at most `max` of them. */
  function DigitRun(t: string, max: nat): (n: nat)
    ensures n <= max && n <= |t|
    ensures AllDigits(t[..n])
    ensures n < max && n < |t| ==> !IsDigit(t[n])
    decreases max
  {
    if max == 0 || t == [] || !IsDigit(t[0]) then 0
    else
      var n := 1 + DigitRun(t[1..], max - 1);
      assert t[..n] == [t[0]] + t[1..][..n - 1];
      n
  }

  /**
   * `re.match(r'^\+?[1-9]\d{1,14}$', c)`, token by token: an optional plus,
   * one digit from 1 to 9, the greedy digit run, then `$`, which matches at
   * the end or before a newline that ends the string.
   */
  function MatchesPhonePattern(c: string): bool {
    var i := if c != [] && c[0] == '+' then 1 else 0;
    && i < |c| && '1' <= c[i] <= '9'
    && var n := DigitRun(c[i + 1..], 14);
       && n >= 1
       && (c[i + 1 + n..] == [] || c[i + 1 + n..] == "\n")
  }

  /** Where the digits start: after a leading plus, if there is one. */
  function PlusLength(c: string): nat {
    if c != [] && c[0] == '+' then 1 else 0
  }

  /** Where the digits end: before a newline that ends the string, if there is one. */
  function DigitsEnd(c: string): (end: nat)
    ensures end <= |c|
  {
    if c != [] && c[|c| - 1] == '\n' then |c| - 1 else |c|
  }

  /**
   * The strings the pattern accepts, stated without the matcher: an optional
   * plus, a digit from 1 to 9, then 1 to 14 more digits, then either the end
   * of the string or a newline that ends it.
   */
  predicate PhoneShape(c: string) {
    var i := PlusLength(c);
    var end := DigitsEnd(c);
    i + 2 <= end <= i + 15 && '1' <= c[i] <= '9' && AllDigits(c[i + 1..end])
  }

  lemma {:induction false} DigitRunExact(t: string, max: nat, k: nat)
    requires k <= max && k <= |t| && AllDigits(t[..k])
    requires k == |t| || !IsDigit(t[k]) || k == max
    ensures DigitRun(t, max) == k
    decreases max
  {
    if k > 0 {
      assert IsDigit(t[..k][0]);
      assert t[1..][..k - 1] == t[..k][1..];
      DigitRunExact(t[1..], max - 1, k - 1);
    }
  }

  lemma SliceOfSuffix(c: string, a: nat, k: nat)
    requires a + k <= |c|
    ensures c[a..][..k] == c[a..a + k]
  {
  }

  lemma MatchedHasShape(c: string)
    requires MatchesPhonePattern(c)
    ensures PhoneShape(c)
  {
    var i := PlusLength(c);
    var n := DigitRun(c[i + 1..], 14);
    var end := i + 1 + n;
    SliceOfSuffix(c, i + 1, n);
    assert IsDigit(c[i + 1..end][n - 1]);
    if c[end..] == [] {
      assert end == |c| && c[|c| - 1] == c[end - 1];
    } else {
      assert c[end..] == "\n" && end == |c| - 1;
      assert c[|c| - 1] == c[end..][0];
    }
    assert DigitsEnd(c) == end;
  }

  lemma ShapeIsMatched(c: string)
    requires PhoneShape(c)
    ensures MatchesPhonePattern(c)
  {
    var i := PlusLength(c);
    var end := DigitsEnd(c);
    var t := c[i + 1..];
    var k := end - i - 1;
    SliceOfSuffix(c, i + 1, k);
    if end < |c| {
      assert t[k] == c[|c| - 1];
      assert c[end..] == "\n";
    } else {
      assert k == |t|;
    }
    DigitRunExact(t, 14, k);
  }

  /** The greedy matcher accepts exactly the strings of that shape (backtracking never helps). */
  lemma MatchesPhonePatternIff(c: string)
    ensures MatchesPhonePattern(c) <==> PhoneShape(c)
  {
    if MatchesPhonePattern(c) {
      MatchedHasShape(c);
    }
    if PhoneShape(c) {
      ShapeIsMatched(c);
    }
  }

  /** `validate_phone_number`. */
  function ValidatePhoneNumber(phone: string): (ok: bool)
    ensures ok <==> PhoneShape(Cleaned(phone))
  {
    MatchesPhonePatternIff(Cleaned(phone));
    MatchesPhonePattern(Cleaned(phone))
  }

  /** A valid number carries 2 to 15 digits after its optional plus, the first of them not 0. */
  lemma ValidPhoneDigits(phone: string)
    requires ValidatePhoneNumber(phone)
    ensures var c := Cleaned(phone);
            var digits := c[PlusLength(c)..DigitsEnd(c)];
            2 <= |digits| <= 15 && AllDigits(digits) && digits[0] != '0'
  {
    ShapeDigits(Cleaned(phone));
  }

  lemma ShapeDigits(c: string)
    requires PhoneShape(c)
    ensures var digits := c[PlusLength(c)..DigitsEnd(c)];
            2 <= |digits| <= 15 && AllDigits(digits) && digits[0] != '0'
  {
    var i := PlusLength(c);
    var digits := c[i..DigitsEnd(c)];
    forall j | 0 <= j < |digits|
      ensures IsDigit(digits[j])
    {
      assert digits[j] == c[i + j];
      if j > 0 {
        assert c[i + 1..DigitsEnd(c)][j - 1] == c[i + j];
      }
    }
  }

  /** `sanitize_phone_for_key`: plus becomes underscore, spaces and hyphens go. */
  function SanitizePhoneForKey(phone: string): (key: string)
    ensures '+' !in key && ' ' !in key && '-' !in key
  {
    var a := Replace(phone, '+', "_");
    var b := Replace(a, ' ', "");
    ReplaceRemoves(phone, '+', "_", '+');
    ReplaceRemoves(a, ' ', "", '+');
    ReplaceRemoves(a, ' ', "", ' ');
    ReplaceRemoves(b, '-', "", '+');
    ReplaceRemoves(b, '-', "", ' ');
    ReplaceRemoves(b, '-', "", '-');
    Replace(b, '-', "")
  }

  /** What sanitising does to one character. */
  function SanitizedChar(c: char): string {
    if c == '+' then "_" else if c == ' ' || c == '-' then "" else [c]
  }

  /** Character by character: every other character is kept, in order. */
  function SanitizedEach(phone: string): string
    decreases |phone|
  {
    if phone == [] then [] else SanitizedChar(phone[0]) + SanitizedEach(phone[1..])
  }

  /** The three chained replacements act as one pass over the characters. */
  lemma {:induction false} SanitizeIsCharwise(phone: string)
    ensures SanitizePhoneForKey(phone) == SanitizedEach(phone)
    decreases |phone|
  {
    if phone != [] {
      SanitizeIsCharwise(phone[1..]);
      var x := phone[0];
      var rest := phone[1..];
      assert phone == [x] + rest;
      var a1 := Replace([x], '+', "_");
      var b1 := Replace(a1, ' ', "");
      ReplaceSingle(x, '+', "_");
      if x == '+' {
        assert a1 == ['_'];
        ReplaceSingle('_', ' ', "");
        ReplaceSingle('_', '-', "");
      } else {
        ReplaceSingle(x, ' ', "");
        if x != ' ' {
          ReplaceSingle(x, '-', "");
        }
      }
      assert Replace(b1, '-', "") == SanitizedChar(x);
      ReplaceAppend([x], rest, '+', "_");
      var a2 := Replace(rest, '+', "_");
      ReplaceAppend(a1, a2, ' ', "");
      ReplaceAppend(b1, Replace(a2, ' ', ""), '-', "");
    }
  }

  /** Sanitising a key again changes nothing. */
  lemma SanitizeIdempotent(phone: string)
    ensures SanitizePhoneForKey(SanitizePhoneForKey(phone)) == SanitizePhoneForKey(phone)
  {
    var key := SanitizePhoneForKey(phone);
    ReplaceAbsent(key, '+', "_");
    ReplaceAbsent(key, ' ', "");
    ReplaceAbsent(key, '-', "");
  }

  /** `validate_text_length`. */
  function ValidateTextLength(text: string, minLength: int, maxLength: int): bool {
    minLength <= |text| <= maxLength
  }

  /** With the default bounds 1 and 1000: non-empty and at most 1000 characters. */
  lemma DefaultTextLength(text: string)
    ensures ValidateTextLength(text, 1, 1000) <==> text != [] && |text| <= 1000
  {
  }
}
