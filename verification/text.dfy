/**
 * The handful of Python `str` operations the receivers rely on:
 * `strip()`, `startswith()`, `split(sep)`, `count(sep)`, ASCII `upper()`/`lower()`,
 * `isdigit()`, `int(s)` and `str(n)`.
 */
module Text {
  import opened Wrappers

  /** Python's `str.isspace()`: exactly the code points `strip()` and `int()` discard. */
  predicate IsSpace(c: char) {
    || '\t' <= c <= '\r'
    || '\U{1C}' <= c <= ' '
    || c == '\U{85}' || c == '\U{A0}' || c == '\U{1680}'
    || '\U{2000}' <= c <= '\U{200A}'
    || c == '\U{2028}' || c == '\U{2029}' || c == '\U{202F}' || c == '\U{205F}' || c == '\U{3000}'
  }

  predicate AllSpace(s: string) {
    forall i :: 0 <= i < |s| ==> IsSpace(s[i])
  }

  /** Neither end of `s` is whitespace: the shape of every `strip()` result. */
  predicate Trimmed(s: string) {
    |s| > 0 ==> !IsSpace(s[0]) && !IsSpace(s[|s| - 1])
  }

  /** How many whitespace characters open `s`. */
  function LeadingSpaces(s: string): (n: nat)
    ensures n <= |s|
    ensures n < |s| ==> !IsSpace(s[n])
  {
    if |s| > 0 && IsSpace(s[0]) then 1 + LeadingSpaces(s[1..]) else 0
  }

  /** How many whitespace characters close `s`. */
  function TrailingSpaces(s: string): (n: nat)
    ensures n <= |s|
    ensures n < |s| ==> !IsSpace(s[|s| - 1 - n])
  {
    if |s| > 0 && IsSpace(s[|s| - 1]) then 1 + TrailingSpaces(s[..|s| - 1]) else 0
  }

  /** `s.strip()`: drops the whitespace at both ends and nothing else. */
  function Strip(s: string): (r: string)
    ensures Trimmed(r)
    ensures |r| <= |s|
  {
    var t := s[LeadingSpaces(s)..];
    t[..|t| - TrailingSpaces(t)]
  }

  lemma {:induction false} LeadingSpacesAreSpace(s: string)
    ensures AllSpace(s[..LeadingSpaces(s)])
    decreases |s|
  {
    if |s| > 0 && IsSpace(s[0]) {
      LeadingSpacesAreSpace(s[1..]);
      assert s[..LeadingSpaces(s)] == [s[0]] + s[1..][..LeadingSpaces(s[1..])];
    }
  }

  lemma {:induction false} TrailingSpacesAreSpace(s: string)
    ensures AllSpace(s[|s| - TrailingSpaces(s)..])
    decreases |s|
  {
    if |s| > 0 && IsSpace(s[|s| - 1]) {
      var u := s[..|s| - 1];
      TrailingSpacesAreSpace(u);
      var k := TrailingSpaces(u);
      assert TrailingSpaces(s) == k + 1;
      var tail := s[|s| - (k + 1)..];
      forall i | 0 <= i < |tail|
        ensures IsSpace(tail[i])
      {
        if i < k {
          assert tail[i] == u[|u| - k..][i];
        }
      }
    }
  }

  /** `strip()` yields the empty string exactly for all-whitespace input, so blank lines are skipped. */
  lemma StripEmptyIffBlank(s: string)
    ensures Strip(s) == "" <==> AllSpace(s)
  {
    var a := LeadingSpaces(s);
    var t := s[a..];
    LeadingSpacesAreSpace(s);
    TrailingSpacesAreSpace(t);
    if Strip(s) == "" {
      assert t[|t| - TrailingSpaces(t)..] == t;
      assert s[..a] == s;
    }
  }

  /** Stripping a string that already has no whitespace at its ends changes nothing. */
  lemma StripTrimmed(s: string)
    requires Trimmed(s)
    ensures Strip(s) == s
  {
  }

  /** A string that opens with a non-space character keeps that character first after `strip()`. */
  lemma StripKeepsFirst(s: string)
    requires |s| > 0 && !IsSpace(s[0])
    ensures |Strip(s)| > 0 && Strip(s)[0] == s[0]
  {
    assert LeadingSpaces(s) == 0;
    assert s[0..] == s;
    TrailingSpacesAreSpace(s);
  }

  /** Concatenation regroups freely. */
  lemma AppendAssoc(a: string, b: string, c: string)
    ensures a + b + c == a + (b + c)
  {
  }

  predicate StartsWith(s: string, prefix: string) {
    |prefix| <= |s| && s[..|prefix|] == prefix
  }

  /** `s.count(c)` for a one-character `c`. */
  function Count(s: string, c: char): (n: nat)
    ensures n <= |s|
  {
    if |s| == 0 then 0 else (if s[0] == c then 1 else 0) + Count(s[1..], c)
  }

  /** Python's `sep.join(parts)`; the inverse of `Split`. */
  function Join(parts: seq<string>, sep: char): string
    requires |parts| > 0
  {
    if |parts| == 1 then parts[0] else parts[0] + [sep] + Join(parts[1..], sep)
  }

  /** `s.count(c)` is zero exactly when `c` does not occur in `s`. */
  lemma {:induction false} CountZero(s: string, c: char)
    ensures Count(s, c) == 0 <==> c !in s
    decreases |s|
  {
    if |s| > 0 {
      CountZero(s[1..], c);
      assert s == [s[0]] + s[1..];
    }
  }

  /** `s.split(sep)` for a one-character separator. */
  function Split(s: string, sep: char): (parts: seq<string>)
    ensures |parts| > 0
  {
    if |s| == 0 then [""]
    else if s[0] == sep then [""] + Split(s[1..], sep)
    else
      var rest := Split(s[1..], sep);
      [[s[0]] + rest[0]] + rest[1..]
  }

  /** `split` yields one more piece than there are separators, and no piece holds a separator. */
  lemma {:induction false} SplitPieces(s: string, sep: char)
    ensures |Split(s, sep)| == Count(s, sep) + 1
    ensures forall i :: 0 <= i < |Split(s, sep)| ==> sep !in Split(s, sep)[i]
    decreases |s|
  {
    if |s| > 0 {
      SplitPieces(s[1..], sep);
      var rest := Split(s[1..], sep);
      if s[0] != sep {
        assert forall i :: 1 <= i < |Split(s, sep)| ==> Split(s, sep)[i] == rest[i];
      }
    }
  }

  /** Joining the pieces with the separator gives back the original text. */
  lemma {:induction false} JoinSplit(s: string, sep: char)
    ensures Join(Split(s, sep), sep) == s
    decreases |s|
  {
    if |s| == 0 {
    } else if s[0] == sep {
      JoinSplit(s[1..], sep);
      assert s == [sep] + s[1..];
    } else {
      var rest := Split(s[1..], sep);
      JoinSplit(s[1..], sep);
      if |rest| == 1 {
        assert s == [s[0]] + s[1..];
      } else {
        assert rest == [rest[0]] + rest[1..];
        assert Join(rest, sep) == rest[0] + [sep] + Join(rest[1..], sep);
        assert s == [s[0]] + s[1..];
      }
    }
  }

  /** Text without the separator is a single piece. */
  lemma {:induction false} SplitNoSep(a: string, sep: char)
    requires sep !in a
    ensures Split(a, sep) == [a]
    decreases |a|
  {
    if |a| > 0 {
      SplitNoSep(a[1..], sep);
      assert [a[0]] + a[1..] == a;
    }
  }

  /** A piece without the separator, then the separator, then the rest: the first piece is exactly `a`. */
  lemma {:induction false} SplitConcat(a: string, sep: char, b: string)
    requires sep !in a
    ensures Split(a + [sep] + b, sep) == [a] + Split(b, sep)
    decreases |a|
  {
    var s := a + [sep] + b;
    if |a| == 0 {
      assert s == [sep] + b;
      assert s[1..] == b;
    } else {
      assert s[0] == a[0];
      assert s[1..] == a[1..] + [sep] + b;
      SplitConcat(a[1..], sep, b);
      assert [a[0]] + a[1..] == a;
    }
  }

  predicate IsLowerAscii(c: char) { 'a' <= c <= 'z' }
  predicate IsUpperAscii(c: char) { 'A' <= c <= 'Z' }

  function UpperChar(c: char): char {
    if IsLowerAscii(c) then (c as int - 'a' as int + 'A' as int) as char else c
  }

  function LowerChar(c: char): char {
    if IsUpperAscii(c) then (c as int - 'A' as int + 'a' as int) as char else c
  }

  predicate NoLowerAscii(s: string) {
    forall i :: 0 <= i < |s| ==> !IsLowerAscii(s[i])
  }

  /** `s.upper()` on ASCII letters: same length, no lower-case ASCII letter left, other characters kept. */
  function Upper(s: string): (r: string)
    ensures |r| == |s|
    ensures NoLowerAscii(r)
  {
    seq(|s|, i requires 0 <= i < |s| => UpperChar(s[i]))
  }

  /** `upper()` keeps every character that is not a lower-case ASCII letter and maps each of those to its capital. */
  lemma UpperPointwise(s: string)
    ensures forall i :: 0 <= i < |s| && !IsLowerAscii(s[i]) ==> Upper(s)[i] == s[i]
    ensures forall i :: 0 <= i < |s| && IsLowerAscii(s[i]) ==> IsUpperAscii(Upper(s)[i]) && LowerChar(Upper(s)[i]) == s[i]
  {
  }

  /** `s.lower()` on ASCII letters: same length, no upper-case ASCII letter left. */
  function Lower(s: string): (r: string)
    ensures |r| == |s|
    ensures forall i :: 0 <= i < |s| ==> !IsUpperAscii(r[i])
  {
    seq(|s|, i requires 0 <= i < |s| => LowerChar(s[i]))
  }

  /** `lower()` keeps every character that is not an upper-case ASCII letter and maps each of those to its small letter. */
  lemma LowerPointwise(s: string)
    ensures forall i :: 0 <= i < |s| && !IsUpperAscii(s[i]) ==> Lower(s)[i] == s[i]
    ensures forall i :: 0 <= i < |s| && IsUpperAscii(s[i]) ==> UpperChar(Lower(s)[i]) == s[i]
  {
  }

  /** A string already free of lower-case ASCII letters is its own `upper()`. */
  lemma UpperNoLower(s: string)
    requires NoLowerAscii(s)
    ensures Upper(s) == s
  {
  }

  predicate IsDigit(c: char) { '0' <= c <= '9' }

  /** `s.isdigit()` restricted to ASCII digits. */
  predicate AllDigits(s: string) {
    |s| > 0 && forall i :: 0 <= i < |s| ==> IsDigit(s[i])
  }

  function DigitValue(c: char): nat
    requires IsDigit(c)
  {
    c as int - '0' as int
  }

  function DigitChar(d: nat): (c: char)
    requires d < 10
    ensures IsDigit(c) && DigitValue(c) == d
  {
    ('0' as int + d) as char
  }

  /**
   * The digit body `int()` accepts: ASCII digits, with single underscores allowed
   * only between two digits.
   */
  predicate DigitBody(s: string) {
    && |s| > 0
    && IsDigit(s[0]) && IsDigit(s[|s| - 1])
    && (forall i :: 0 <= i < |s| ==> IsDigit(s[i]) || s[i] == '_')
    && (forall i :: 0 <= i < |s| - 1 ==> s[i] == '_' ==> s[i + 1] != '_')
  }

  /** The decimal value of a digit body, underscores ignored. */
  function BodyValue(s: string): nat
    requires forall i :: 0 <= i < |s| ==> IsDigit(s[i]) || s[i] == '_'
  {
    if |s| == 0 then 0
    else if s[|s| - 1] == '_' then BodyValue(s[..|s| - 1])
    else BodyValue(s[..|s| - 1]) * 10 + DigitValue(s[|s| - 1])
  }

  /**
   * Python's `int(s)`: surrounding whitespace, an optional sign, then a digit body;
   * anything else is a `ValueError`, modelled as `None`.
   */
  function ParseInt(s: string): (r: Option<int>)
    ensures AllDigits(s) ==> r.Some? && r.value >= 0
  {
    var t := Strip(s);
    assert AllDigits(s) ==> t == s by {
      if AllDigits(s) { StripTrimmed(s); }
    }
    if |t| > 0 && (t[0] == '-' || t[0] == '+') then
      var body := t[1..];
      var n: int := if DigitBody(body) then BodyValue(body) else 0;
      if DigitBody(body) then Some(if t[0] == '-' then -n else n) else None
    else if DigitBody(t) then Some(BodyValue(t))
    else None
  }

  /** `int()` refuses a blank string, and only a leading minus sign gives a negative value. */
  lemma ParseIntRejects(s: string)
    ensures AllSpace(s) ==> ParseInt(s).None?
    ensures ParseInt(s).Some? && ParseInt(s).value < 0 ==> |Strip(s)| > 0 && Strip(s)[0] == '-'
  {
    StripEmptyIffBlank(s);
  }

  /** `str(n)` for a natural number: shortest decimal form. */
  function NatToString(n: nat): (s: string)
    ensures AllDigits(s)
    ensures s[0] == '0' ==> n == 0
    decreases n
  {
    if n < 10 then [DigitChar(n)] else NatToString(n / 10) + [DigitChar(n % 10)]
  }

  /** `str(v)` for an integer. */
  function IntToString(v: int): (s: string)
    ensures |s| > 0 && Trimmed(s)
    ensures ':' !in s && ',' !in s
  {
    var digits := NatToString(if v < 0 then -v else v);
    assert forall i :: 0 <= i < |digits| ==> digits[i] != ':' && digits[i] != ',';
    if v < 0 then "-" + digits else digits
  }

  lemma {:induction false} BodyValueOfDigits(n: nat)
    ensures BodyValue(NatToString(n)) == n
    decreases n
  {
    var s := NatToString(n);
    if n >= 10 {
      BodyValueOfDigits(n / 10);
      assert s[..|s| - 1] == NatToString(n / 10);
    }
  }

  /** `int(str(n)) == n` for a natural number. */
  lemma ParseNatToString(n: nat)
    ensures ParseInt(NatToString(n)) == Some(n)
  {
    var s := NatToString(n);
    BodyValueOfDigits(n);
    StripTrimmed(s);
    assert DigitBody(s);
  }

  /** `int(str(v)) == v`. */
  lemma ParseIntToString(v: int)
    ensures ParseInt(IntToString(v)) == Some(v)
  {
    if v >= 0 {
      ParseNatToString(v);
    } else {
      var digits := NatToString(-v);
      BodyValueOfDigits(-v);
      var s := IntToString(v);
      assert s == "-" + digits;
      StripTrimmed(s);
      assert s[1..] == digits;
      assert DigitBody(digits);
    }
  }
}
