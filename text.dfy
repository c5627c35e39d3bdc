/**
 * The few Python string operations the bot relies on, stated over `seq<char>`:
 * `str.isdigit` and `int` on digit strings, `str.split` and `str.join` with a
 * one-character separator, the substring test `sub in s`, the `re.search` of the
 * city-name pattern and the command token the chat library extracts from a text.
 */
module Text {
  import opened Common

  /** An ASCII decimal digit; the other characters Python counts as digits are not modelled. */
  predicate IsDigitChar(c: char) { '0' <= c <= '9' }

  /** `s.isdigit()` over ASCII: not empty and made only of decimal digits. */
  predicate IsDigits(s: string) {
    |s| > 0 && forall i :: 0 <= i < |s| ==> IsDigitChar(s[i])
  }

  /** `int(s)` for a string of decimal digits (leading zeros allowed). */
  function DigitsValue(s: string): nat
    requires forall i :: 0 <= i < |s| ==> IsDigitChar(s[i])
    decreases |s|
  {
    if |s| == 0 then 0
    else 10 * DigitsValue(s[..|s| - 1]) + DigitOf(s[|s| - 1])
  }

  function DigitOf(c: char): (d: nat)
    requires IsDigitChar(c)
    ensures d < 10
  {
    (c as int) - ('0' as int)
  }

  /**
   * `int(s)` for an optionally signed string of ASCII digits; `None` stands for the
   * `ValueError`.
   */
  function ParseInt(s: string): (r: Option<int>)
    ensures IsDigits(s) ==> r == Some(DigitsValue(s) as int)
    ensures |s| > 1 && s[0] == '-' && IsDigits(s[1..]) ==> r == Some(-(DigitsValue(s[1..]) as int))
    ensures |s| > 1 && s[0] == '+' && IsDigits(s[1..]) ==> r == Some(DigitsValue(s[1..]) as int)
    ensures r.Some? ==> IsDigits(s) || (|s| > 1 && (s[0] == '-' || s[0] == '+') && IsDigits(s[1..]))
  {
    if IsDigits(s) then Some(DigitsValue(s) as int)
    else if |s| > 1 && s[0] == '-' && IsDigits(s[1..]) then Some(-(DigitsValue(s[1..]) as int))
    else if |s| > 1 && s[0] == '+' && IsDigits(s[1..]) then Some(DigitsValue(s[1..]) as int)
    else None
  }

  /** The number of bytes of the UTF-8 encoding of `s` (`len(s.encode())`). */
  function Utf8Length(s: string): (n: nat)
    ensures |s| <= n <= 4 * |s|
    decreases |s|
  {
    if |s| == 0 then 0
    else
      var c := s[|s| - 1] as int;
      Utf8Length(s[..|s| - 1]) + (if c < 0x80 then 1 else if c < 0x800 then 2 else if c < 0x10000 then 3 else 4)
  }

  /** `str(n)` for a natural number: its decimal digits, read back by `int`. */
  function NatToString(n: nat): (s: string)
    ensures IsDigits(s)
    ensures DigitsValue(s) == n
    decreases n
  {
    if n < 10 then [('0' as int + n) as char]
    else
      var high := NatToString(n / 10);
      var s := high + [('0' as int + n % 10) as char];
      assert s[..|s| - 1] == high;
      s
  }

  /** `s.split(sep)`: the pieces between occurrences of `sep`; never empty. */
  function Split(s: string, sep: char): (parts: seq<string>)
    ensures |parts| >= 1
    ensures forall i :: 0 <= i < |parts| ==> sep !in parts[i]
    decreases |s|
  {
    if |s| == 0 then [""]
    else
      var rest := Split(s[1..], sep);
      if s[0] == sep then [""] + rest else [[s[0]] + rest[0]] + rest[1..]
  }

  /** `sep.join(parts)`. */
  function Join(parts: seq<string>, sep: char): string
    decreases |parts|
  {
    if |parts| == 0 then ""
    else if |parts| == 1 then parts[0]
    else parts[0] + [sep] + Join(parts[1..], sep)
  }

  lemma Join3(a: string, b: string, c: string, sep: char)
    ensures Join([a, b, c], sep) == a + [sep] + b + [sep] + c
  {
    assert [a, b, c][1..] == [b, c];
    assert [b, c][1..] == [c];
    assert Join([c], sep) == c;
    assert Join([b, c], sep) == b + [sep] + c;
    assert Join([a, b, c], sep) == a + [sep] + (b + [sep] + c);
  }

  lemma {:induction false} SplitNoSeparator(a: string, sep: char)
    requires sep !in a
    ensures Split(a, sep) == [a]
    decreases |a|
  {
    if |a| > 0 {
      SplitNoSeparator(a[1..], sep);
      assert [a[0]] + a[1..] == a;
    }
  }

  lemma {:induction false} SplitAfterFirst(a: string, b: string, sep: char)
    requires sep !in a
    ensures Split(a + [sep] + b, sep) == [a] + Split(b, sep)
    decreases |a|
  {
    var s := a + [sep] + b;
    if |a| == 0 {
      assert s[1..] == b;
    } else {
      assert s[1..] == a[1..] + [sep] + b;
      SplitAfterFirst(a[1..], b, sep);
      assert [a[0]] + a[1..] == a;
    }
  }

  /** Splitting what `Join` built gives the pieces back, when no piece holds the separator. */
  lemma {:induction false} SplitJoin(parts: seq<string>, sep: char)
    requires |parts| >= 1
    requires forall i :: 0 <= i < |parts| ==> sep !in parts[i]
    ensures Split(Join(parts, sep), sep) == parts
    decreases |parts|
  {
    if |parts| == 1 {
      SplitNoSeparator(parts[0], sep);
    } else {
      SplitJoin(parts[1..], sep);
      SplitAfterFirst(parts[0], Join(parts[1..], sep), sep);
      assert [parts[0]] + parts[1..] == parts;
    }
  }

  /** Joining the pieces of a split gives the original string. */
  lemma {:induction false} JoinSplit(s: string, sep: char)
    ensures Join(Split(s, sep), sep) == s
    decreases |s|
  {
    if |s| > 0 {
      JoinSplit(s[1..], sep);
      var rest := Split(s[1..], sep);
      if s[0] != sep && |rest| > 1 {
        assert Join(rest, sep) == rest[0] + [sep] + Join(rest[1..], sep);
        var parts := [[s[0]] + rest[0]] + rest[1..];
        assert parts[1..] == rest[1..];
      }
      assert [s[0]] + s[1..] == s;
    }
  }

  predicate IsPrefix(p: string, s: string) {
    |p| <= |s| && s[..|p|] == p
  }

  /** `sub in s` on strings. */
  predicate Contains(s: string, sub: string)
    decreases |s|
  {
    IsPrefix(sub, s) || (|s| > 0 && Contains(s[1..], sub))
  }

  /** A character of the class `[а-яА-Я -]`. */
  predicate IsCityChar(c: char) {
    ('а' <= c <= 'я') || ('А' <= c <= 'Я') || c == ' ' || c == '-'
  }

  /** `re.search(r'[а-яА-Я -]{3,}', s)` succeeds: three class characters stand in a row somewhere. */
  predicate MatchesCityPattern(s: string) {
    exists i :: 0 <= i && i + 3 <= |s| && IsCityChar(s[i]) && IsCityChar(s[i + 1]) && IsCityChar(s[i + 2])
  }

  /** The ASCII whitespace `str.split()` splits at; the other Unicode spaces are not modelled. */
  predicate IsWhitespace(c: char) {
    c == ' ' || c == '\t' || c == '\n' || c == '\r' || c == '\U{000B}' || c == '\U{000C}'
  }

  /** The characters before the first whitespace or `@`. */
  function WordHead(s: string): string
    decreases |s|
  {
    if |s| == 0 || IsWhitespace(s[0]) || s[0] == '@' then "" else [s[0]] + WordHead(s[1..])
  }

  /**
   * The command name the chat library reads from a text message:
   * `text.split()[0].split('@')[0][1:]` when the text starts with `/`.
   */
  function CommandOf(text: string): (r: Option<string>)
    ensures r.Some? <==> |text| > 0 && text[0] == '/'
  {
    if |text| > 0 && text[0] == '/' then Some(WordHead(text[1..])) else None
  }

  /** A word without whitespace or `@` is its own head. */
  lemma {:induction false} WordHeadPlain(s: string)
    requires forall i :: 0 <= i < |s| ==> !IsWhitespace(s[i]) && s[i] != '@'
    ensures WordHead(s) == s
    decreases |s|
  {
    if |s| > 0 {
      WordHeadPlain(s[1..]);
      assert [s[0]] + s[1..] == s;
    }
  }
}
