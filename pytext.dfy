/** Python's built-in string operations that the bot and the reminder loop
    rely on: `str.isspace`, `str.strip`, `str.split()` with and without
    `maxsplit`, `str.lower` (as far as it can affect an ASCII comparison),
    `str(int)` and `int(str)` in base 10. */
module PyText {

  datatype Option<T> = None | Some(value: T)

  /** Python's `str.isspace` for one character: the characters CPython treats
      as whitespace in `split()` and `strip()`. */
  predicate IsSpace(c: char) {
    c in {'\t', '\n', '\U{000B}', '\U{000C}', '\r', '\U{001C}', '\U{001D}', '\U{001E}', '\U{001F}',
          ' ', '\U{0085}', '\U{00A0}', '\U{1680}', '\U{2028}', '\U{2029}', '\U{202F}', '\U{205F}',
          '\U{3000}'}
    || ('\U{2000}' <= c <= '\U{200A}')
  }

  predicate AllSpace(s: string) {
    forall i :: 0 <= i < |s| ==> IsSpace(s[i])
  }

  predicate NoSpace(s: string) {
    forall i :: 0 <= i < |s| ==> !IsSpace(s[i])
  }

  predicate StartsWith(s: string, prefix: string) {
    |prefix| <= |s| && s[..|prefix|] == prefix
  }

  predicate EndsWith(s: string, suffix: string) {
    |suffix| <= |s| && s[|s| - |suffix|..] == suffix
  }

  lemma ConcatEnds(a: string, b: string)
    ensures StartsWith(a + b, a) && EndsWith(a + b, b)
  {
    assert (a + b)[..|a|] == a;
    assert (a + b)[|a|..] == b;
  }

  lemma EndsWithTrans(s: string, t: string, u: string)
    requires EndsWith(s, t) && EndsWith(t, u)
    ensures EndsWith(s, u)
  {
    assert s[|s| - |u|..] == s[|s| - |t|..][|t| - |u|..];
  }

  /** `s.lstrip()`: drop the leading whitespace run. */
  function LStrip(s: string): (r: string)
    ensures |r| <= |s|
    ensures r == [] || !IsSpace(r[0])
  {
    if s != [] && IsSpace(s[0]) then LStrip(s[1..]) else s
  }

  /** `s.rstrip()`: drop the trailing whitespace run. */
  function RStrip(s: string): (r: string)
    ensures |r| <= |s| && r == s[..|r|]
    ensures AllSpace(s[|r|..])
    ensures r == [] || !IsSpace(r[|r| - 1])
  {
    if s != [] && IsSpace(s[|s| - 1]) then RStrip(s[..|s| - 1]) else s
  }

  /** `s.strip()`. */
  function Strip(s: string): string {
    RStrip(LStrip(s))
  }

  /** The leading run of non-whitespace characters. */
  function Word(s: string): (w: string)
    ensures |w| <= |s| && NoSpace(w)
  {
    if s == [] || IsSpace(s[0]) then [] else [s[0]] + Word(s[1..])
  }

  /** What follows the first word of `s` once its leading whitespace is
      skipped. */
  function AfterWord(s: string): (rest: string)
    requires LStrip(s) != []
    ensures |rest| < |s|
  {
    var t := LStrip(s);
    t[|Word(t)|..]
  }

  /** `s.split(maxsplit=k)` with no separator, following CPython's
      `split_whitespace`: after `k` words, the rest of the string (with its
      leading whitespace skipped and its trailing whitespace kept) is the
      last element, when it is not empty. A negative `k` means no limit. */
  function Split(s: string, k: int): (parts: seq<string>)
    ensures forall i :: 0 <= i < |parts| ==> parts[i] != [] && !IsSpace(parts[i][0])
    decreases |s|
  {
    if LStrip(s) == [] then []
    else if k == 0 then [LStrip(s)]
    else [Word(LStrip(s))] + Split(AfterWord(s), if k > 0 then k - 1 else k)
  }

  /** `s.split()`: every whitespace-separated field. */
  function Fields(s: string): seq<string> {
    Split(s, -1)
  }

  /** `lstrip` keeps a suffix and drops only whitespace. */
  lemma {:induction false} LStripSuffix(s: string)
    ensures LStrip(s) == s[|s| - |LStrip(s)|..]
    ensures AllSpace(s[..|s| - |LStrip(s)|])
  {
    if s != [] && IsSpace(s[0]) {
      LStripSuffix(s[1..]);
      assert s[1..][|s| - 1 - |LStrip(s)|..] == s[|s| - |LStrip(s)|..];
      assert s[..|s| - |LStrip(s)|] == [s[0]] + s[1..][..|s| - 1 - |LStrip(s)|];
    }
  }

  /** The first word is a prefix followed by whitespace or the end. */
  lemma {:induction false} WordPrefix(s: string)
    ensures Word(s) == s[..|Word(s)|]
    ensures |Word(s)| == |s| || IsSpace(s[|Word(s)|])
  {
    if s != [] && !IsSpace(s[0]) {
      WordPrefix(s[1..]);
      assert s[..|Word(s)|] == [s[0]] + s[1..][..|Word(s)| - 1];
    }
  }

  /** `lstrip` drops exactly the leading whitespace run. */
  lemma {:induction false} LStripDrops(s: string, a: nat)
    requires a <= |s| && AllSpace(s[..a]) && (a == |s| || !IsSpace(s[a]))
    ensures LStrip(s) == s[a..]
  {
    if a > 0 {
      assert IsSpace(s[0]);
      assert s[1..][..a - 1] == s[1..a];
      LStripDrops(s[1..], a - 1);
      assert s[1..][a - 1..] == s[a..];
    }
  }

  /** The first word of `s` ends at its first whitespace character. */
  lemma {:induction false} WordEndsAt(s: string, n: nat)
    requires n <= |s| && NoSpace(s[..n]) && (n == |s| || IsSpace(s[n]))
    ensures Word(s) == s[..n]
  {
    if n > 0 {
      assert !IsSpace(s[0]);
      assert s[1..][..n - 1] == s[1..n];
      WordEndsAt(s[1..], n - 1);
      assert s[..n] == [s[0]] + s[1..n];
    }
  }

  /** `len(s.split(maxsplit=k))` is the number of fields, capped at
      `k + 1`. */
  lemma {:induction false} SplitCount(s: string, k: int)
    requires k >= 0
    ensures |Split(s, k)| == if |Split(s, -1)| <= k then |Split(s, -1)| else k + 1
    decreases |s|
  {
    if LStrip(s) != [] && k > 0 {
      SplitCount(AfterWord(s), k - 1);
    }
  }

  /** The first `k` parts of `s.split(maxsplit=k)` are the first `k` fields
      of `s.split()`. */
  lemma {:induction false} SplitAgreesWithFields(s: string, k: int, i: int)
    requires 0 <= i < k && i < |Split(s, k)|
    ensures i < |Split(s, -1)| && Split(s, k)[i] == Split(s, -1)[i]
    decreases |s|
  {
    if i > 0 {
      SplitAgreesWithFields(AfterWord(s), k - 1, i - 1);
    }
  }

  /** Splitting off one word: leading whitespace, the word, then whitespace
      or the end. */
  lemma SplitWord(ws: string, w: string, rest: string, k: int)
    requires AllSpace(ws) && w != [] && NoSpace(w) && (rest == [] || IsSpace(rest[0]))
    requires k != 0
    ensures Split(ws + w + rest, k) == [w] + Split(rest, if k > 0 then k - 1 else k)
  {
    var s := ws + w + rest;
    assert s[..|ws|] == ws;
    assert s[|ws|] == w[0];
    LStripDrops(s, |ws|);
    var t := s[|ws|..];
    assert t == w + rest;
    assert t[..|w|] == w;
    WordEndsAt(t, |w|);
    assert t[|w|..] == rest;
  }

  /** Once the split limit is reached, the rest after its leading
      whitespace is the last part. */
  lemma SplitRemainder(ws: string, r: string)
    requires AllSpace(ws) && r != [] && !IsSpace(r[0])
    ensures Split(ws + r, 0) == [r]
  {
    var s := ws + r;
    assert s[..|ws|] == ws;
    LStripDrops(s, |ws|);
    assert s[|ws|..] == r;
  }

  /** A string `strip` leaves unchanged starts and ends with a
      non-whitespace character. */
  lemma StrippedEnds(s: string)
    requires s != [] && Strip(s) == s
    ensures !IsSpace(s[0]) && !IsSpace(s[|s| - 1])
  {
    LStripSuffix(s);
    assert |LStrip(s)| == |s|;
    assert LStrip(s) == s;
  }

  /** Conversely, such a string is left unchanged by `strip`. */
  lemma StripOfTrimmed(s: string)
    requires s != [] && !IsSpace(s[0]) && !IsSpace(s[|s| - 1])
    ensures Strip(s) == s
  {
    assert LStrip(s) == s;
  }

  /** `strip` keeps the middle of its input and drops only whitespace: the
      leading and trailing runs it removes are all whitespace, and what is
      left, when not empty, starts and ends with a non-whitespace
      character. */
  lemma StripTrims(s: string)
    ensures var a := |s| - |LStrip(s)|;
      && a + |Strip(s)| <= |s|
      && Strip(s) == s[a..a + |Strip(s)|]
      && AllSpace(s[..a]) && AllSpace(s[a + |Strip(s)|..])
      && (Strip(s) == [] || (!IsSpace(Strip(s)[0]) && !IsSpace(Strip(s)[|Strip(s)| - 1])))
  {
    LStripSuffix(s);
    var l := LStrip(s);
    var a := |s| - |l|;
    var r := Strip(s);
    assert l == s[a..];
    assert r == l[..|r|];
    assert l[..|r|] == s[a..a + |r|];
    assert l[|r|..] == s[a + |r|..];
    if r != [] {
      assert r[0] == l[0];
    }
  }

  /** `lstrip` empties exactly the all-whitespace strings. */
  lemma LStripEmpty(s: string)
    ensures LStrip(s) == [] <==> AllSpace(s)
  {
    LStripSuffix(s);
    if AllSpace(s) && s != [] {
      LStripDrops(s, |s|);
    }
  }

  /** `c.lower()` where it matters for comparing against ASCII text: ASCII
      capitals and the Kelvin sign (U+212A, which lowers to 'k') are the only
      characters whose lower case is a single ASCII letter. Every other
      character is kept as it is. */
  function LowerChar(c: char): char {
    if 'A' <= c <= 'Z' then (c as int + 32) as char
    else if c == '\U{212A}' then 'k'
    else c
  }

  /** `s.lower()`, character by character. */
  function Lower(s: string): string {
    seq(|s|, i requires 0 <= i < |s| => LowerChar(s[i]))
  }

  /** Lower-casing moves no whitespace. */
  lemma LowerKeepsSpace(s: string)
    ensures forall i :: 0 <= i < |s| ==> (IsSpace(Lower(s)[i]) <==> IsSpace(s[i]))
  {
  }

  /** One character as `repr` writes it between the quotes `q`. */
  function ReprChar(c: char, q: char): string {
    if c == '\\' then "\\\\"
    else if c == q then ['\\', c]
    else if c == '\n' then "\\n"
    else if c == '\r' then "\\r"
    else if c == '\t' then "\\t"
    else [c]
  }

  function ReprBody(s: string, q: char): string {
    if s == [] then [] else ReprChar(s[0], q) + ReprBody(s[1..], q)
  }

  /** `repr(s)`: single quotes unless `s` holds a single quote and no
      double quote. */
  function Repr(s: string): (r: string)
    ensures |r| >= |s| + 2 && r[0] == r[|r| - 1]
    ensures r[0] == (if '\'' in s && '"' !in s then '"' else '\'')
  {
    var q := if '\'' in s && '"' !in s then '"' else '\'';
    ReprBodyLength(s, q);
    [q] + ReprBody(s, q) + [q]
  }

  lemma {:induction false} ReprBodyLength(s: string, q: char)
    ensures |ReprBody(s, q)| >= |s|
  {
    if s != [] {
      ReprBodyLength(s[1..], q);
    }
  }

  /** Text with no quote, backslash, newline, carriage return or tab is
      written as it is between single quotes. */
  lemma {:induction false} ReprPlain(s: string)
    requires forall i :: 0 <= i < |s| ==> s[i] !in {'\'', '"', '\\', '\n', '\r', '\t'}
    ensures Repr(s) == "'" + s + "'"
  {
    ReprBodyPlain(s);
  }

  lemma {:induction false} ReprBodyPlain(s: string)
    requires forall i :: 0 <= i < |s| ==> s[i] !in {'\'', '"', '\\', '\n', '\r', '\t'}
    ensures ReprBody(s, '\'') == s
  {
    if s != [] {
      ReprBodyPlain(s[1..]);
      assert s == [s[0]] + s[1..];
    }
  }

  predicate IsDigit(c: char) {
    '0' <= c <= '9'
  }

  function DigitChar(d: nat): char
    requires d < 10
  {
    ('0' as int + d) as char
  }

  function DigitValue(c: char): (d: nat)
    requires IsDigit(c)
    ensures d < 10 && DigitChar(d) == c
  {
    c as int - '0' as int
  }

  /** Decimal digits of a natural number, most significant first. */
  function NatToString(n: nat): (s: string)
    ensures s != [] && forall i :: 0 <= i < |s| ==> IsDigit(s[i])
    ensures n > 0 ==> s[0] != '0'
  {
    if n < 10 then [DigitChar(n)] else NatToString(n / 10) + [DigitChar(n % 10)]
  }

  /** `str(n)` for a Python int: a minus sign exactly for a negative
      number, then decimal digits. */
  function IntToString(n: int): (s: string)
    ensures s != [] && (s[0] == '-' <==> n < 0)
    ensures forall i :: 0 < i < |s| ==> IsDigit(s[i])
    ensures n >= 0 ==> IsDigit(s[0])
  {
    if n < 0 then "-" + NatToString(-n) else NatToString(n)
  }

  /** Digits and single underscores between digits, the body `int()`
      accepts after the sign. */
  predicate IsDigitRun(s: string) {
    && s != []
    && IsDigit(s[0]) && IsDigit(s[|s| - 1])
    && (forall i :: 0 <= i < |s| ==> IsDigit(s[i]) || s[i] == '_')
    && (forall i :: 0 <= i < |s| - 1 ==> !(s[i] == '_' && s[i + 1] == '_'))
  }

  /** The value of a digit run, underscores ignored. */
  function DigitsValue(s: string): nat
    requires forall i :: 0 <= i < |s| ==> IsDigit(s[i]) || s[i] == '_'
  {
    if s == [] then 0
    else if s[|s| - 1] == '_' then DigitsValue(s[..|s| - 1])
    else DigitsValue(s[..|s| - 1]) * 10 + DigitValue(s[|s| - 1])
  }

  /** The information separators U+001C to U+001F. `str.isspace` holds for
      them, but `int()` skips only the ASCII whitespace `\t\n\v\f\r` and
      space and the non-ASCII whitespace, so a text holding one of them never
      converts. */
  predicate IsInfoSeparator(c: char) {
    '\U{001C}' <= c <= '\U{001F}'
  }

  /** Python's `int(s)` in base 10 with ASCII digits: surrounding whitespace,
      an optional sign, then digits with single underscores between them.
      `None` is the `ValueError`. */
  function ParseInt(s: string): (r: Option<int>)
    ensures r.Some? ==> Strip(s) != []
    ensures (exists i :: 0 <= i < |s| && IsInfoSeparator(s[i])) ==> r.None?
  {
    var t := Strip(s);
    if t == [] || exists i :: 0 <= i < |s| && IsInfoSeparator(s[i]) then None
    else
      var body := if t[0] == '-' || t[0] == '+' then t[1..] else t;
      if !IsDigitRun(body) then None
      else
        var v: int := DigitsValue(body);
        Some(if t[0] == '-' then -v else v)
  }

  lemma {:induction false} DigitsValueOfNatToString(n: nat)
    ensures DigitsValue(NatToString(n)) == n
  {
    var s := NatToString(n);
    if n >= 10 {
      DigitsValueOfNatToString(n / 10);
      assert s[..|s| - 1] == NatToString(n / 10);
    }
  }

  lemma NatToStringNoSpace(n: nat)
    ensures NoSpace(NatToString(n)) && IsDigitRun(NatToString(n))
  {
  }

  lemma StripOfWord(s: string)
    requires s != [] && NoSpace(s)
    ensures LStrip(s) == s && RStrip(s) == s && Strip(s) == s
  {
  }

  lemma ParseIntOfDigits(digits: string, v: nat)
    requires IsDigitRun(digits) && NoSpace(digits) && DigitsValue(digits) == v
    ensures ParseInt(digits) == Some(v)
    ensures ParseInt("-" + digits) == Some(-(v as int))
  {
    StripOfWord(digits);
    assert digits[0] != '-' && digits[0] != '+';
    var s := "-" + digits;
    assert NoSpace(s) by {
      forall i | 0 <= i < |s| ensures !IsSpace(s[i]) {
        if i > 0 { assert s[i] == digits[i - 1]; }
      }
    }
    StripOfWord(s);
    assert s[1..] == digits;
  }

  /** `int(str(n)) == n`: the decimal rendering of an int parses back. */
  lemma ParseIntOfIntToString(n: int)
    ensures ParseInt(IntToString(n)) == Some(n)
  {
    var m: nat := if n < 0 then -n else n;
    var digits := NatToString(m);
    ParseIntOfNatToString(m);
    if n < 0 {
      assert IntToString(n) == "-" + digits;
    } else {
      assert IntToString(n) == digits;
    }
  }

  lemma ParseIntOfNatToString(m: nat)
    ensures ParseInt(NatToString(m)) == Some(m)
    ensures ParseInt("-" + NatToString(m)) == Some(-(m as int))
  {
    DigitsValueOfNatToString(m);
    NatToStringNoSpace(m);
    ParseIntOfDigits(NatToString(m), m);
  }

  /** Distinct ints render as distinct strings. */
  lemma IntToStringInjective(a: int, b: int)
    requires IntToString(a) == IntToString(b)
    ensures a == b
  {
    ParseIntOfIntToString(a);
    ParseIntOfIntToString(b);
  }
}
