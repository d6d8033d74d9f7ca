/**
 * String helpers shared by the handlers and the client components: Python
 * truthiness of an optional string, Python's `str.strip()` and JavaScript's
 * `String.prototype.trim()` (which disagree on what counts as white space),
 * ASCII case mapping, decimal rendering of a natural number and counting a
 * character.
 */
module Text {
  import opened Wrappers

  /** Python's `if s:` on a value that is either absent (None) or a string. */
  predicate Truthy(s: Option<string>)
  {
    s.Some? && s.value != ""
  }

  /** The characters for which Python's `str.isspace()` holds. */
  predicate PyIsSpace(c: char)
  {
    || c in {'\t', '\n', '\U{000B}', '\U{000C}', '\r', '\U{001C}', '\U{001D}', '\U{001E}', '\U{001F}', ' '}
    || c in {'\U{0085}', '\U{00A0}', '\U{1680}', '\U{2028}', '\U{2029}', '\U{202F}', '\U{205F}', '\U{3000}'}
    || '\U{2000}' <= c <= '\U{200A}'
  }

  /** The characters JavaScript's `trim()` removes (WhiteSpace and LineTerminator). */
  predicate JsIsSpace(c: char)
  {
    || c in {'\t', '\n', '\U{000B}', '\U{000C}', '\r', ' '}
    || c in {'\U{00A0}', '\U{1680}', '\U{2028}', '\U{2029}', '\U{202F}', '\U{205F}', '\U{3000}', '\U{FEFF}'}
    || '\U{2000}' <= c <= '\U{200A}'
  }

  /** The number of leading characters of `s` that satisfy `ws`. */
  function LeadingCount(s: string, ws: char -> bool): (n: nat)
    ensures n <= |s|
  {
    if s != [] && ws(s[0]) then 1 + LeadingCount(s[1..], ws) else 0
  }

  /** The count covers exactly the leading run of white space. */
  lemma {:induction false} LeadingCountMeaning(s: string, ws: char -> bool)
    ensures forall k :: 0 <= k < LeadingCount(s, ws) ==> ws(s[k])
    ensures LeadingCount(s, ws) < |s| ==> !ws(s[LeadingCount(s, ws)])
  {
    if s != [] && ws(s[0]) {
      LeadingCountMeaning(s[1..], ws);
      forall k | 1 <= k < LeadingCount(s, ws) ensures ws(s[k]) {
        assert s[k] == s[1..][k - 1];
      }
    }
  }

  /** `s` with its leading characters satisfying `ws` removed. */
  function DropLeading(s: string, ws: char -> bool): (r: string)
  {
    s[LeadingCount(s, ws)..]
  }

  /** `s` with its trailing characters satisfying `ws` removed. */
  function DropTrailing(s: string, ws: char -> bool): (r: string)
    ensures |r| <= |s| && r == s[..|r|]
  {
    if s != [] && ws(s[|s| - 1]) then DropTrailing(s[..|s| - 1], ws) else s
  }

  /** Only white space was dropped, and what is left does not end with it. */
  lemma {:induction false} DropTrailingMeaning(s: string, ws: char -> bool)
    ensures forall i :: |DropTrailing(s, ws)| <= i < |s| ==> ws(s[i])
    ensures DropTrailing(s, ws) != [] ==> !ws(DropTrailing(s, ws)[|DropTrailing(s, ws)| - 1])
  {
    if s != [] && ws(s[|s| - 1]) {
      DropTrailingMeaning(s[..|s| - 1], ws);
    }
  }

  /** `s` with white space (in the sense of `ws`) removed at both ends. */
  function StripBy(s: string, ws: char -> bool): (r: string)
  {
    DropTrailing(DropLeading(s, ws), ws)
  }

  /**
   * The stripped text is empty exactly when every character is white space,
   * and otherwise neither starts nor ends with white space.
   */
  lemma StripByMeaning(s: string, ws: char -> bool)
    ensures StripBy(s, ws) == [] <==> forall k :: 0 <= k < |s| ==> ws(s[k])
    ensures StripBy(s, ws) != [] ==> !ws(StripBy(s, ws)[0]) && !ws(StripBy(s, ws)[|StripBy(s, ws)| - 1])
  {
    var n := LeadingCount(s, ws);
    var t := DropLeading(s, ws);
    var r := DropTrailing(t, ws);
    LeadingCountMeaning(s, ws);
    DropTrailingMeaning(t, ws);
    if forall k :: 0 <= k < |s| ==> ws(s[k]) {
      assert n == |s|;
    }
    if r != [] {
      assert r[0] == t[0] == s[n];
    }
  }

  /** Python's `s.strip()`. */
  function Strip(s: string): (r: string)
  {
    StripBy(s, PyIsSpace)
  }

  lemma StripMeaning(s: string)
    ensures Strip(s) == [] <==> forall k :: 0 <= k < |s| ==> PyIsSpace(s[k])
    ensures Strip(s) != [] ==> !PyIsSpace(Strip(s)[0]) && !PyIsSpace(Strip(s)[|Strip(s)| - 1])
  {
    StripByMeaning(s, PyIsSpace);
  }

  /** JavaScript's `s.trim()`. */
  function Trim(s: string): (r: string)
  {
    StripBy(s, JsIsSpace)
  }

  lemma TrimMeaning(s: string)
    ensures Trim(s) == [] <==> forall k :: 0 <= k < |s| ==> JsIsSpace(s[k])
    ensures Trim(s) != [] ==> !JsIsSpace(Trim(s)[0]) && !JsIsSpace(Trim(s)[|Trim(s)| - 1])
  {
    StripByMeaning(s, JsIsSpace);
  }

  /**
   * The client's `trim()` and the server's `strip()` disagree in both
   * directions: INFORMATION SEPARATOR FOUR (U+001C) is white space only to
   * Python, the BYTE ORDER MARK (U+FEFF) only to JavaScript.
   */
  lemma TrimAndStripDisagree()
    ensures Trim("\U{001C}") != [] && Strip("\U{001C}") == []
    ensures Trim("\U{FEFF}") == [] && Strip("\U{FEFF}") != []
  {
    TrimMeaning("\U{001C}");
    StripMeaning("\U{001C}");
    assert !JsIsSpace("\U{001C}"[0]);
    TrimMeaning("\U{FEFF}");
    StripMeaning("\U{FEFF}");
    assert !PyIsSpace("\U{FEFF}"[0]);
  }

  function AsciiUpper(c: char): char
  {
    if 'a' <= c <= 'z' then (c as int - 32) as char else c
  }

  function AsciiLower(c: char): char
  {
    if 'A' <= c <= 'Z' then (c as int + 32) as char else c
  }

  /** `s.upper()` restricted to ASCII letters. */
  function Upper(s: string): (r: string)
    ensures |r| == |s|
    ensures forall i :: 0 <= i < |s| ==> r[i] == AsciiUpper(s[i])
  {
    if s == [] then [] else [AsciiUpper(s[0])] + Upper(s[1..])
  }

  /** `s.lower()` restricted to ASCII letters. */
  function Lower(s: string): (r: string)
    ensures |r| == |s|
    ensures forall i :: 0 <= i < |s| ==> r[i] == AsciiLower(s[i])
  {
    if s == [] then [] else [AsciiLower(s[0])] + Lower(s[1..])
  }

  predicate IsDigit(c: char)
  {
    '0' <= c <= '9'
  }

  function DigitChar(d: nat): (c: char)
    requires d < 10
    ensures IsDigit(c) && c as int - '0' as int == d
  {
    "0123456789"[d]
  }

  /** The value of a string of decimal digits, most significant first. */
  function DigitsValue(s: string): (n: nat)
    requires forall i :: 0 <= i < |s| ==> IsDigit(s[i])
  {
    if s == [] then 0
    else
      var last := s[|s| - 1];
      assert IsDigit(last);
      DigitsValue(s[..|s| - 1]) * 10 + (last as int - '0' as int)
  }

  /** Python's `str(n)` / JavaScript's template rendering of a non-negative integer. */
  function NatToString(n: nat): (r: string)
    ensures r != []
    ensures forall i :: 0 <= i < |r| ==> IsDigit(r[i])
    ensures r[0] == '0' ==> r == "0"
  {
    if n < 10 then [DigitChar(n)] else NatToString(n / 10) + [DigitChar(n % 10)]
  }

  /** Reading the decimal rendering back gives the number: rendering is injective. */
  lemma {:induction false} NatToStringRoundTrip(n: nat)
    ensures DigitsValue(NatToString(n)) == n
  {
    var r := NatToString(n);
    if n >= 10 {
      NatToStringRoundTrip(n / 10);
      assert r[..|r| - 1] == NatToString(n / 10);
    }
  }

  /** The text of `s` before the first `sep` (all of `s` when it has none): `s.split(sep)[0]`. */
  function UpTo(s: string, sep: char): (r: string)
    ensures sep !in r
    ensures |r| <= |s| && r == s[..|r|]
    ensures |r| < |s| ==> s[|r|] == sep
  {
    if s == [] || s[0] == sep then [] else [s[0]] + UpTo(s[1..], sep)
  }

  /** Text without the separator is recovered from anything that follows the separator. */
  lemma {:induction false} UpToPrefix(pre: string, sep: char, rest: string)
    requires sep !in pre
    ensures UpTo(pre + [sep] + rest, sep) == pre
  {
    if pre != [] {
      assert (pre + [sep] + rest)[1..] == pre[1..] + [sep] + rest;
      UpToPrefix(pre[1..], sep, rest);
    }
  }

  /** The number of occurrences of `c` in `s`. */
  function CountChar(s: string, c: char): (n: nat)
  {
    if s == [] then 0 else (if s[0] == c then 1 else 0) + CountChar(s[1..], c)
  }

  lemma {:induction false} CountCharAppend(a: string, b: string, c: char)
    ensures CountChar(a + b, c) == CountChar(a, c) + CountChar(b, c)
  {
    if a == [] {
      assert a + b == b;
    } else {
      assert (a + b)[1..] == a[1..] + b;
      CountCharAppend(a[1..], b, c);
    }
  }

  lemma ConcatAssoc<T>(a: seq<T>, b: seq<T>, c: seq<T>)
    ensures a + b + c == a + (b + c)
  {
  }
}
