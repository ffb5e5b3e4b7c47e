/**
 * The handful of Python `str` operations the backend relies on, over `seq<char>`:
 * `lower()`, the `in` substring test, `join`, `split(sep)`, `strip()` and
 * single-character `replace`.
 */
module Text {

  /** `str.lower()` restricted to ASCII letters. */
  function LowerChar(c: char): char {
    if 'A' <= c <= 'Z' then (c as int + 32) as char else c
  }

  function Lower(s: string): string {
    seq(|s|, i requires 0 <= i < |s| => LowerChar(s[i]))
  }

  /** Python's `needle in hay` for strings: `needle` occurs somewhere in `hay`. */
  predicate Contains(hay: string, needle: string)
    decreases |hay|
  {
    needle <= hay || (hay != [] && Contains(hay[1..], needle))
  }

  /** Whatever surrounds it, a string occurs in the concatenation. */
  lemma {:induction false} ContainsInfix(pre: string, x: string, post: string)
    ensures Contains(pre + x + post, x)
  {
    if pre == [] {
      assert pre + x + post == x + post;
    } else {
      ContainsInfix(pre[1..], x, post);
      assert (pre + x + post)[1..] == pre[1..] + x + post;
    }
  }

  /** What occurs in a suffix occurs in the whole string. */
  lemma {:induction false} ContainsInSuffix(pre: string, s: string, x: string)
    requires Contains(s, x)
    ensures Contains(pre + s, x)
    decreases |pre|
  {
    if pre != [] {
      ContainsInSuffix(pre[1..], s, x);
      assert (pre + s)[1..] == pre[1..] + s;
    } else {
      assert pre + s == s;
    }
  }

  /** What occurs in a prefix occurs in the whole string. */
  lemma {:induction false} ContainsInPrefix(s: string, t: string, x: string)
    requires Contains(s, x)
    ensures Contains(s + t, x)
    decreases |s|
  {
    if !(x <= s) {
      ContainsInPrefix(s[1..], t, x);
      assert (s + t)[1..] == s[1..] + t;
    }
  }

  /** A string occurs in anything it ends. */
  lemma ContainsAtEnd(pre: string, x: string)
    ensures Contains(pre + x, x)
  {
    ContainsInfix(pre, x, []);
    assert pre + x + [] == pre + x;
  }

  /** `part` is the slice of `whole` that starts at index `i`. */
  predicate SliceAt(whole: string, part: string, i: int) {
    0 <= i && i + |part| <= |whole| && whole[i..i + |part|] == part
  }

  /** `sep.join(parts)`. */
  function Join(sep: string, parts: seq<string>): string
    decreases |parts|
  {
    if |parts| == 0 then ""
    else if |parts| == 1 then parts[0]
    else parts[0] + sep + Join(sep, parts[1..])
  }

  /** Every part occurs in the joined string. */
  lemma {:induction false} JoinHasPart(sep: string, parts: seq<string>, i: nat)
    requires i < |parts|
    ensures Contains(Join(sep, parts), parts[i])
    decreases i
  {
    if |parts| == 1 {
      ContainsInfix([], parts[0], []);
      assert [] + parts[0] + [] == parts[0];
    } else if i == 0 {
      ContainsInfix([], parts[0], sep + Join(sep, parts[1..]));
      assert [] + parts[0] + (sep + Join(sep, parts[1..])) == parts[0] + sep + Join(sep, parts[1..]);
    } else {
      JoinHasPart(sep, parts[1..], i - 1);
      ContainsInSuffix(parts[0] + sep, Join(sep, parts[1..]), parts[i]);
      assert (parts[0] + sep) + Join(sep, parts[1..]) == parts[0] + sep + Join(sep, parts[1..]);
    }
  }

  /** `dict.get(k, '')` on a string-valued dict. */
  function GetOrEmpty(d: map<string, string>, k: string): (v: string)
    ensures k !in d ==> v == ""
  {
    if k in d then d[k] else ""
  }

  /** `s.split(sep)` for a one-character separator: empty pieces are kept, so there is always one piece more than separators. */
  function Split(s: string, sep: char): (pieces: seq<string>)
    ensures |pieces| >= 1
    decreases |s|
  {
    if s == [] then [""]
    else
      var rest := Split(s[1..], sep);
      if s[0] == sep then [""] + rest else [[s[0]] + rest[0]] + rest[1..]
  }

  /** Splitting and joining back with the same separator gives the original string. */
  lemma {:induction false} JoinSplit(s: string, sep: char)
    ensures Join([sep], Split(s, sep)) == s
  {
    if s != [] {
      var rest := Split(s[1..], sep);
      JoinSplit(s[1..], sep);
      if s[0] == sep {
        assert ([""] + rest)[1..] == rest;
      } else if |rest| > 1 {
        var pieces := [[s[0]] + rest[0]] + rest[1..];
        assert pieces[1..] == rest[1..];
        assert Join([sep], rest) == rest[0] + [sep] + Join([sep], rest[1..]);
      }
    }
  }

  /** No piece of a split contains the separator. */
  lemma {:induction false} SplitPiecesLackSeparator(s: string, sep: char)
    ensures forall p :: p in Split(s, sep) ==> sep !in p
  {
    if s != [] {
      SplitPiecesLackSeparator(s[1..], sep);
      var rest := Split(s[1..], sep);
      if s[0] != sep {
        assert rest[0] in rest;
        var pieces := [[s[0]] + rest[0]] + rest[1..];
        forall p | p in pieces ensures sep !in p {
          if p != pieces[0] {
            assert p in rest;
          }
        }
      }
    }
  }

  lemma {:induction false} SplitNoSeparator(s: string, sep: char)
    requires sep !in s
    ensures Split(s, sep) == [s]
    decreases |s|
  {
    if s != [] {
      SplitNoSeparator(s[1..], sep);
      assert [s[0]] + s[1..] == s;
    }
  }

  lemma {:induction false} SplitAfterPiece(p: string, rest: string, sep: char)
    requires sep !in p
    ensures Split(p + [sep] + rest, sep) == [p] + Split(rest, sep)
    decreases |p|
  {
    if p == [] {
      assert p + [sep] + rest == [sep] + rest;
      assert ([sep] + rest)[1..] == rest;
    } else {
      SplitAfterPiece(p[1..], rest, sep);
      assert (p + [sep] + rest)[1..] == p[1..] + [sep] + rest;
      assert [p[0]] + p[1..] == p;
    }
  }

  /** Splitting a join of separator-free pieces gives the pieces back. */
  lemma {:induction false} SplitJoin(parts: seq<string>, sep: char)
    requires |parts| >= 1
    requires forall i :: 0 <= i < |parts| ==> sep !in parts[i]
    ensures Split(Join([sep], parts), sep) == parts
    decreases |parts|
  {
    if |parts| == 1 {
      SplitNoSeparator(parts[0], sep);
    } else {
      SplitJoin(parts[1..], sep);
      SplitAfterPiece(parts[0], Join([sep], parts[1..]), sep);
      assert [parts[0]] + parts[1..] == parts;
    }
  }

  /** The characters Python's `str.strip()` removes by default (`str.isspace`). */
  predicate IsSpace(c: char) {
    c == ' ' || '\t' <= c <= '\r' || '\U{1C}' <= c <= '\U{1F}' || c == '\U{85}' || c == '\U{A0}'
    || c == '\U{1680}' || '\U{2000}' <= c <= '\U{200A}' || c == '\U{2028}' || c == '\U{2029}'
    || c == '\U{202F}' || c == '\U{205F}' || c == '\U{3000}'
  }

  function TrimStart(s: string): (r: string)
    ensures |r| <= |s| && r == s[|s| - |r|..]
    ensures r == [] || !IsSpace(r[0])
    decreases |s|
  {
    if s != [] && IsSpace(s[0]) then TrimStart(s[1..]) else s
  }

  function TrimEnd(s: string): (r: string)
    ensures r <= s
    ensures r == [] || !IsSpace(r[|r| - 1])
    decreases |s|
  {
    if s != [] && IsSpace(s[|s| - 1]) then TrimEnd(s[..|s| - 1]) else s
  }

  /** `s.strip()`: the longest slice of `s` that neither starts nor ends with whitespace. */
  function Strip(s: string): (r: string)
    ensures exists i :: SliceAt(s, r, i)
    ensures r == [] || (!IsSpace(r[0]) && !IsSpace(r[|r| - 1]))
  {
    var t := TrimStart(s);
    var r := TrimEnd(t);
    assert r == s[|s| - |t|..][..|r|] == s[|s| - |t|..|s| - |t| + |r|];
    assert SliceAt(s, r, |s| - |t|);
    r
  }

  /** `s.replace(target, replacement)` for a one-character `target`. */
  function Replace(s: string, target: char, replacement: string): string
    decreases |s|
  {
    if s == [] then [] else (if s[0] == target then replacement else [s[0]]) + Replace(s[1..], target, replacement)
  }

  lemma ReplaceSingle(x: char, target: char, replacement: string)
    ensures Replace([x], target, replacement) == if x == target then replacement else [x]
  {
    assert [x][1..] == [];
  }

  lemma {:induction false} ReplaceAppend(a: string, b: string, target: char, replacement: string)
    ensures Replace(a + b, target, replacement) == Replace(a, target, replacement) + Replace(b, target, replacement)
  {
    if a != [] {
      ReplaceAppend(a[1..], b, target, replacement);
      assert (a + b)[1..] == a[1..] + b;
    } else {
      assert a + b == b;
    }
  }

  /** Replacing a character the string does not hold changes nothing. */
  lemma {:induction false} ReplaceAbsent(s: string, target: char, replacement: string)
    requires target !in s
    ensures Replace(s, target, replacement) == s
  {
    if s != [] {
      ReplaceAbsent(s[1..], target, replacement);
    }
  }

  /** After the replacement the replaced character is gone, provided the replacement text does not reintroduce it. */
  lemma {:induction false} ReplaceRemoves(s: string, target: char, replacement: string, c: char)
    requires c !in replacement
    requires c == target || c !in s
    ensures c !in Replace(s, target, replacement)
  {
    if s != [] {
      ReplaceRemoves(s[1..], target, replacement, c);
    }
  }
}
