/** Character classes and string operations shared by the intent scanners,
    the booking-link builder and the provider selector. Only ASCII is
    classified: Python's Unicode-aware `\s`, `\d` and `str.lower` are
    narrowed to their ASCII behaviour. */
module Text {

  import opened Wrappers

  /** Whitespace as both the regex class `\s` and `str.strip()` see it on
      ASCII: space, TAB..CR (9-13) and the separators FS..US (28-31). */
  predicate IsSpace(c: char) {
    c == ' ' || (9 <= c as int <= 13) || (28 <= c as int <= 31)
  }

  predicate IsDigit(c: char) {
    '0' <= c <= '9'
  }

  predicate IsUpper(c: char) {
    'A' <= c <= 'Z'
  }

  predicate IsLower(c: char) {
    'a' <= c <= 'z'
  }

  /** The regex class `[a-zA-Z\s]`. */
  predicate IsCityChar(c: char) {
    IsUpper(c) || IsLower(c) || IsSpace(c)
  }

  /** Every character of `s` in positions `i..j` satisfies `p`. */
  ghost predicate AllIn(s: string, i: int, j: int, p: char -> bool) {
    forall k :: i <= k < j && 0 <= k < |s| ==> p(s[k])
  }

  /** `s` starts at position `i` with the literal `kw`. */
  predicate KeywordAt(s: string, i: nat, kw: string) {
    i + |kw| <= |s| && s[i..i + |kw|] == kw
  }

  /** A keyword occurrence fixes the characters it covers. */
  lemma KeywordChars(s: string, i: nat, kw: string)
    requires KeywordAt(s, i, kw)
    ensures forall k :: 0 <= k < |kw| ==> s[i + k] == kw[k]
  {
    forall k | 0 <= k < |kw|
      ensures s[i + k] == kw[k]
    {
      assert s[i..i + |kw|][k] == s[i + k];
    }
  }

  /** End of the maximal run of `p`-characters that starts at `i`: the
      greedy extent of a regex repetition `p*` anchored at `i`. */
  function RunEnd(s: string, i: nat, p: char -> bool): (j: nat)
    requires i <= |s|
    ensures i <= j <= |s|
    ensures AllIn(s, i, j, p)
    ensures j == |s| || !p(s[j])
    decreases |s| - i
  {
    if i == |s| || !p(s[i]) then i else RunEnd(s, i + 1, p)
  }

  /** A run that is all `p` and stops at a non-`p` character (or the end)
      is the one `RunEnd` finds: greedy repetition has only one answer. */
  lemma RunEndUnique(s: string, i: nat, j: nat, p: char -> bool)
    requires i <= j <= |s|
    requires AllIn(s, i, j, p)
    requires j == |s| || !p(s[j])
    ensures RunEnd(s, i, p) == j
  {
  }

  /** Value of one decimal digit. */
  function DigitValue(c: char): (v: nat)
    requires IsDigit(c)
    ensures v < 10
  {
    c as int - '0' as int
  }

  /** The digit whose value is `v`. */
  function DigitChar(v: nat): (c: char)
    requires v < 10
    ensures IsDigit(c) && DigitValue(c) == v
  {
    ('0' as int + v) as char
  }

  /** The value of a run of ASCII digits read in base 10, leading zeros
      allowed; it is zero exactly when every digit is `0`. */
  function DigitsValue(s: string): (n: nat)
    requires AllIn(s, 0, |s|, IsDigit)
    ensures n == 0 <==> forall k :: 0 <= k < |s| ==> s[k] == '0'
    decreases |s|
  {
    if |s| == 0 then 0
    else
      var init := s[..|s| - 1];
      assert forall k :: 0 <= k < |init| ==> init[k] == s[k];
      DigitsValue(init) * 10 + DigitValue(s[|s| - 1])
  }

  /** CPython's default limit on the number of digits `int()` converts
      from text (`sys.get_int_max_str_digits()`, present since 3.11 and in
      the 3.7 to 3.10 security releases of 2022). */
  const MaxStrDigits := 4300

  /** The `ValueError` raised when a digit string is over the limit. */
  datatype IntError = ExceedsDigitLimit(digits: nat)

  /** Python's `int(s)` on a run of ASCII digits: its value, or an error
      when the run is longer than the limit. */
  function ParseDecimal(s: string): (r: Result<nat, IntError>)
    requires AllIn(s, 0, |s|, IsDigit)
    ensures r.Success? <==> |s| <= MaxStrDigits
    ensures r.Success? ==> r.value == DigitsValue(s)
    ensures r.Failure? ==> r.error == ExceedsDigitLimit(|s|)
  {
    if |s| > MaxStrDigits then Failure(ExceedsDigitLimit(|s|)) else Success(DigitsValue(s))
  }

  /** Python's `str(n)` for a non-negative integer: its decimal digits,
      with no leading zero. */
  function Decimal(n: nat): (s: string)
    ensures |s| >= 1
    ensures AllIn(s, 0, |s|, IsDigit)
    ensures s[0] != '0' || n == 0
    decreases n
  {
    if n < 10 then [DigitChar(n)] else Decimal(n / 10) + [DigitChar(n % 10)]
  }

  /** Reading back the decimal rendering of `n` gives `n`. */
  lemma {:induction false} DecimalRoundTrip(n: nat)
    ensures DigitsValue(Decimal(n)) == n
  {
    if n >= 10 {
      var s := Decimal(n / 10);
      var c := DigitChar(n % 10);
      assert Decimal(n) == s + [c];
      assert (s + [c])[..|s|] == s;
      DecimalRoundTrip(n / 10);
      assert DigitsValue(Decimal(n)) == (n / 10) * 10 + n % 10;
    }
  }

  /** `int(str(n))` is `n` whenever `str(n)` is within the digit limit. */
  lemma ParseDecimalRoundTrip(n: nat)
    requires |Decimal(n)| <= MaxStrDigits
    ensures ParseDecimal(Decimal(n)) == Success(n)
  {
    DecimalRoundTrip(n);
  }

  /** `str.lower()` on one character, restricted to ASCII letters. */
  function LowerChar(c: char): (d: char)
    ensures !IsUpper(d)
    ensures IsUpper(c) ==> d as int == c as int + 32
    ensures !IsUpper(c) ==> d == c
  {
    if IsUpper(c) then (c as int + 32) as char else c
  }

  /** `str.lower()`: every ASCII capital replaced by its small letter. */
  function ToLower(s: string): (r: string)
    ensures |r| == |s|
    ensures forall k :: 0 <= k < |s| ==> r[k] == LowerChar(s[k])
  {
    seq(|s|, k requires 0 <= k < |s| => LowerChar(s[k]))
  }

  /** Lower-casing twice is lower-casing once. */
  lemma ToLowerIdempotent(s: string)
    ensures ToLower(ToLower(s)) == ToLower(s)
  {
    var once := ToLower(s);
    assert forall k :: 0 <= k < |once| ==> LowerChar(once[k]) == once[k];
  }

  /** `s` with its leading whitespace removed. */
  function TrimStart(s: string): (r: string)
    ensures |r| <= |s| && r == s[|s| - |r|..]
    ensures AllIn(s, 0, |s| - |r|, IsSpace)
    ensures |r| == 0 || !IsSpace(r[0])
    decreases |s|
  {
    if |s| > 0 && IsSpace(s[0]) then TrimStart(s[1..]) else s
  }

  /** `s` with its trailing whitespace removed. */
  function TrimEnd(s: string): (r: string)
    ensures |r| <= |s| && r == s[..|r|]
    ensures AllIn(s, |r|, |s|, IsSpace)
    ensures |r| == 0 || !IsSpace(r[|r| - 1])
    decreases |s|
  {
    if |s| > 0 && IsSpace(s[|s| - 1]) then TrimEnd(s[..|s| - 1]) else s
  }

  /** `str.strip()`: whitespace removed from both ends. */
  function Strip(s: string): (r: string)
    ensures |r| == 0 || (!IsSpace(r[0]) && !IsSpace(r[|r| - 1]))
    ensures |s| > 0 && !IsSpace(s[0]) ==> r == TrimEnd(s)
  {
    TrimEnd(TrimStart(s))
  }

  /** `sep.join(parts)` for a one-character separator: empty for no parts,
      and otherwise starting with the first part and ending with the last. */
  function Join(parts: seq<string>, sep: char): (r: string)
    ensures |parts| == 0 ==> r == ""
    ensures |parts| >= 1 ==> |parts[0]| <= |r| && r[..|parts[0]|] == parts[0]
    ensures |parts| >= 1 ==> |parts[|parts| - 1]| <= |r| && r[|r| - |parts[|parts| - 1]|..] == parts[|parts| - 1]
    decreases |parts|
  {
    if |parts| == 0 then ""
    else if |parts| == 1 then parts[0]
    else parts[0] + [sep] + Join(parts[1..], sep)
  }

  /** `s.split(sep)` for a one-character separator: the pieces between
      separators, always at least one. */
  function Split(s: string, sep: char): (parts: seq<string>)
    ensures |parts| >= 1
    decreases |s|
  {
    if |s| == 0 then [""]
    else
      var rest := Split(s[1..], sep);
      if s[0] == sep then [""] + rest else [[s[0]] + rest[0]] + rest[1..]
  }

  /** A string without the separator is one piece. */
  lemma {:induction false} SplitNoSep(s: string, sep: char)
    requires sep !in s
    ensures Split(s, sep) == [s]
    decreases |s|
  {
    if |s| > 0 {
      assert s == [s[0]] + s[1..];
      SplitNoSep(s[1..], sep);
    }
  }

  /** Splitting at the first separator peels off the text before it. */
  lemma {:induction false} SplitAround(a: string, b: string, sep: char)
    requires sep !in a
    ensures Split(a + [sep] + b, sep) == [a] + Split(b, sep)
    decreases |a|
  {
    var s := a + [sep] + b;
    if |a| == 0 {
      assert s[1..] == b;
    } else {
      assert s[1..] == a[1..] + [sep] + b;
      SplitAround(a[1..], b, sep);
      assert [a[0]] + a[1..] == a;
    }
  }

  /** Splitting at the last separator puts the text after it last. */
  lemma {:induction false} SplitLast(a: string, b: string, sep: char)
    requires sep !in b
    ensures Split(a + [sep] + b, sep) == Split(a, sep) + [b]
    decreases |a|
  {
    var s := a + [sep] + b;
    if |a| == 0 {
      assert s[1..] == b;
      SplitNoSep(b, sep);
    } else {
      assert s[1..] == a[1..] + [sep] + b;
      SplitLast(a[1..], b, sep);
    }
  }

  /** Splitting a join gives the parts back when no part holds the separator. */
  lemma {:induction false} SplitJoin(parts: seq<string>, sep: char)
    requires |parts| >= 1
    requires forall i :: 0 <= i < |parts| ==> sep !in parts[i]
    ensures Split(Join(parts, sep), sep) == parts
    decreases |parts|
  {
    if |parts| == 1 {
      SplitNoSep(parts[0], sep);
    } else {
      SplitAround(parts[0], Join(parts[1..], sep), sep);
      SplitJoin(parts[1..], sep);
      assert [parts[0]] + parts[1..] == parts;
    }
  }

  /** Split at the first occurrence of `c`: the text before and after it,
      or `None` when `c` does not occur. */
  function SplitFirst(s: string, c: char): (r: Option<(string, string)>)
    ensures r.None? <==> c !in s
    ensures r.Some? ==> s == r.value.0 + [c] + r.value.1 && c !in r.value.0
    decreases |s|
  {
    if |s| == 0 then None
    else if s[0] == c then Some(("", s[1..]))
    else
      match SplitFirst(s[1..], c)
      case None => None
      case Some(parts) => Some(([s[0]] + parts.0, parts.1))
  }

  /** The first occurrence of `c` is the one after a `c`-free prefix. */
  lemma {:induction false} SplitFirstAt(a: string, b: string, c: char)
    requires c !in a
    ensures SplitFirst(a + [c] + b, c) == Some((a, b))
    decreases |a|
  {
    var s := a + [c] + b;
    if |a| == 0 {
      assert s[1..] == b;
    } else {
      assert s[1..] == a[1..] + [c] + b;
      SplitFirstAt(a[1..], b, c);
      assert [a[0]] + a[1..] == a;
    }
  }
}
