/** Decimal numbers, skipping, and literal strings (ISO 32000-1, section 7.3.4.2), written and read back. */
module PdfText {
  import opened Basics

  // ---------------------------------------------------------------- decimal numbers

  predicate IsDigit(c: char) {
    '0' <= c <= '9'
  }

  function DigitChar(d: nat): char
    requires d < 10
  {
    ('0' as int + d) as char
  }

  function DigitValue(c: char): nat
    requires IsDigit(c)
  {
    c as int - '0' as int
  }

  predicate AllDigits(s: string) {
    forall i | 0 <= i < |s| :: IsDigit(s[i])
  }

  function Dec(n: nat): (s: string)
    ensures s != "" && AllDigits(s)
  {
    if n < 10 then [DigitChar(n)] else Dec(n / 10) + [DigitChar(n % 10)]
  }

  function Value(s: string): nat
    requires AllDigits(s)
  {
    if s == "" then 0 else 10 * Value(s[..|s| - 1]) + DigitValue(s[|s| - 1])
  }

  lemma {:induction false} ValueOfDec(n: nat)
    ensures Value(Dec(n)) == n
  {
    if n >= 10 {
      ValueOfDec(n / 10);
      assert Dec(n)[..|Dec(n)| - 1] == Dec(n / 10);
    }
  }

  function Zeros(k: nat): (s: string)
    ensures |s| == k && AllDigits(s)
  {
    seq(k, _ => '0')
  }

  /** `format(n, "010d")`. */
  function Pad10(n: nat): (s: string)
    ensures AllDigits(s)
  {
    if |Dec(n)| < 10 then Zeros(10 - |Dec(n)|) + Dec(n) else Dec(n)
  }

  function Pow10(k: nat): nat {
    if k == 0 then 1 else 10 * Pow10(k - 1)
  }

  lemma {:induction false} DecLength(n: nat, k: nat)
    requires n < Pow10(k) && k >= 1
    ensures |Dec(n)| <= k
  {
    assert Pow10(1) == 10 * Pow10(0);
    if n >= 10 {
      DecLength(n / 10, k - 1);
    }
  }

  lemma {:induction false} ValueOfZeros(k: nat, s: string)
    requires AllDigits(s)
    ensures AllDigits(Zeros(k) + s) && Value(Zeros(k) + s) == Value(s)
  {
    if s != "" {
      ValueOfZeros(k, s[..|s| - 1]);
      assert (Zeros(k) + s)[..|Zeros(k) + s| - 1] == Zeros(k) + s[..|s| - 1];
    } else if k > 0 {
      ValueOfZeros(k - 1, "");
      assert Zeros(k) + s == Zeros(k) && Zeros(k - 1) + s == Zeros(k - 1);
      assert Zeros(k)[..k - 1] == Zeros(k - 1);
    }
  }

  /** Ten digits suffice for an offset below 10^10, and read back as the offset. */
  lemma PaddedOffset(n: nat)
    requires n < Pow10(10)
    ensures |Pad10(n)| == 10 && Value(Pad10(n)) == n
  {
    DecLength(n, 10);
    ValueOfDec(n);
    if |Dec(n)| < 10 {
      ValueOfZeros(10 - |Dec(n)|, Dec(n));
    }
  }

  // ---------------------------------------------------------------- reading

  function Skip(token: string, input: string): Option<string> {
    if token <= input then Some(input[|token|..]) else None
  }

  lemma SkipToken(token: string, rest: string)
    ensures Skip(token, token + rest) == Some(rest)
  {
  }

  function DigitRun(input: string): (k: nat)
    ensures k <= |input| && AllDigits(input[..k])
  {
    if input == "" || !IsDigit(input[0]) then 0
    else
      var k := DigitRun(input[1..]);
      assert input[..k + 1] == [input[0]] + input[1..][..k];
      k + 1
  }

  /** The number at the head of the input, with what follows it. */
  function Number(input: string): Option<(nat, string)> {
    var k := DigitRun(input);
    if k == 0 then None else Some((Value(input[..k]), input[k..]))
  }

  lemma {:induction false} DigitRunIs(digits: string, rest: string)
    requires AllDigits(digits) && (rest == "" || !IsDigit(rest[0]))
    ensures DigitRun(digits + rest) == |digits|
  {
    if digits == "" {
      assert digits + rest == rest;
    } else {
      assert (digits + rest)[1..] == digits[1..] + rest;
      DigitRunIs(digits[1..], rest);
    }
  }

  lemma NumberOf(n: nat, rest: string)
    requires rest == "" || !IsDigit(rest[0])
    ensures Number(Dec(n) + rest) == Some((n, rest))
  {
    DigitRunIs(Dec(n), rest);
    ValueOfDec(n);
    assert (Dec(n) + rest)[..|Dec(n)|] == Dec(n);
    assert (Dec(n) + rest)[|Dec(n)|..] == rest;
  }

  /** How many digits end the input. */
  function TrailingRun(input: string): (k: nat)
    ensures k <= |input| && AllDigits(input[|input| - k..])
  {
    if input == "" || !IsDigit(input[|input| - 1]) then 0
    else
      var k := TrailingRun(input[..|input| - 1]);
      assert input[|input| - (k + 1)..] == input[..|input| - 1][|input| - 1 - k..] + [input[|input| - 1]];
      k + 1
  }

  lemma {:induction false} TrailingRunIs(front: string, digits: string)
    requires AllDigits(digits) && (front == "" || !IsDigit(front[|front| - 1]))
    ensures TrailingRun(front + digits) == |digits|
  {
    if digits == "" {
      assert front + digits == front;
    } else {
      assert (front + digits)[..|front + digits| - 1] == front + digits[..|digits| - 1];
      TrailingRunIs(front, digits[..|digits| - 1]);
    }
  }

  // ---------------------------------------------------------------- literal strings

  function Replace(text: string, c: char, put: string): string {
    if text == "" then "" else (if text[0] == c then put else [text[0]]) + Replace(text[1..], c, put)
  }

  /** `_escape`: three replacements, the backslash first. */
  function Escape(text: string): string {
    Replace(Replace(Replace(text, '\\', "\\\\"), '(', "\\("), ')', "\\)")
  }

  function EscapeChar(c: char): string {
    if c == '\\' || c == '(' || c == ')' then ['\\', c] else [c]
  }

  lemma {:induction false} ReplaceSum(a: string, b: string, c: char, put: string)
    ensures Replace(a + b, c, put) == Replace(a, c, put) + Replace(b, c, put)
  {
    if a == "" {
      assert a + b == b;
    } else {
      var head := if a[0] == c then put else [a[0]];
      assert (a + b)[0] == a[0] && (a + b)[1..] == a[1..] + b;
      ReplaceSum(a[1..], b, c, put);
      assert head + (Replace(a[1..], c, put) + Replace(b, c, put))
          == (head + Replace(a[1..], c, put)) + Replace(b, c, put);
    }
  }

  lemma ReplaceOne(x: char, c: char, put: string)
    ensures Replace([x], c, put) == if x == c then put else [x]
  {
    assert [x][1..] == "";
    assert put + "" == put && [x] + "" == [x];
  }

  lemma ReplaceTwo(x: char, y: char, c: char, put: string)
    ensures Replace([x, y], c, put) == (if x == c then put else [x]) + (if y == c then put else [y])
  {
    ReplaceSum([x], [y], c, put);
    ReplaceOne(x, c, put);
    ReplaceOne(y, c, put);
    assert [x] + [y] == [x, y];
  }

  lemma EscapeOne(x: char)
    ensures Escape([x]) == EscapeChar(x)
  {
    ReplaceOne(x, '\\', "\\\\");
    if x == '\\' {
      ReplaceTwo('\\', '\\', '(', "\\(");
      ReplaceTwo('\\', '\\', ')', "\\)");
    } else {
      ReplaceOne(x, '(', "\\(");
      if x == '(' {
        ReplaceTwo('\\', '(', ')', "\\)");
      } else {
        ReplaceOne(x, ')', "\\)");
      }
    }
  }

  /** The replacements act character by character: no escape is escaped again. */
  lemma EscapeCons(x: char, text: string)
    ensures Escape([x] + text) == EscapeChar(x) + Escape(text)
  {
    var one := Replace([x], '\\', "\\\\");
    var two := Replace(one, '(', "\\(");
    ReplaceSum([x], text, '\\', "\\\\");
    ReplaceSum(one, Replace(text, '\\', "\\\\"), '(', "\\(");
    ReplaceSum(two, Replace(Replace(text, '\\', "\\\\"), '(', "\\("), ')', "\\)");
    EscapeOne(x);
  }

  function IsOctal(c: char): bool {
    '0' <= c <= '7'
  }

  function OctalRun(input: string, limit: nat): (k: nat)
    ensures k <= |input| && k <= limit
  {
    if limit == 0 || input == "" || !IsOctal(input[0]) then 0 else 1 + OctalRun(input[1..], limit - 1)
  }

  function OctalValue(input: string, k: nat): nat
    requires k <= |input| && forall i | 0 <= i < k :: IsOctal(input[i])
  {
    if k == 0 then 0
    else
      assert IsOctal(input[k - 1]);
      8 * OctalValue(input, k - 1) + (input[k - 1] as int - '0' as int)
  }

  /** The character a backslash escape stands for, if it is one of the single-letter ones. */
  function Named(c: char): Option<char> {
    if c == 'n' then Some('\n')
    else if c == 'r' then Some('\r')
    else if c == 't' then Some('\t')
    else if c == 'b' then Some(8 as char)
    else if c == 'f' then Some(12 as char)
    else if c == '(' || c == ')' || c == '\\' then Some(c)
    else None
  }

  /** The end-of-line marker at the head of the input: CR LF, CR or LF. */
  function EolLength(input: string): (k: nat)
    ensures k <= |input|
  {
    if input == "" then 0
    else if input[0] == '\r' then (if |input| > 1 && input[1] == '\n' then 2 else 1)
    else if input[0] == '\n' then 1
    else 0
  }

  function Prepend(s: string, r: Option<(string, string)>): Option<(string, string)> {
    if r.None? then None else Some((s + r.value.0, r.value.1))
  }

  /** Read a literal string up to its closing parenthesis; octal escapes are left to `ReadOctal`. */
  function ReadLiteral(input: string, depth: nat): Option<(string, string)>
    decreases |input|
  {
    if input == "" then None
    else if input[0] == ')' && depth == 0 then Some(("", input[1..]))
    else if input[0] == ')' then Prepend(")", ReadLiteral(input[1..], depth - 1))
    else if input[0] == '(' then Prepend("(", ReadLiteral(input[1..], depth + 1))
    else if input[0] == '\\' then
      var tail := input[1..];
      if tail == "" then None
      else if Named(tail[0]).Some? then Prepend([Named(tail[0]).value], ReadLiteral(tail[1..], depth))
      else if EolLength(tail) > 0 then ReadLiteral(tail[EolLength(tail)..], depth)
      else if IsOctal(tail[0]) then
        var k := OctalRun(tail[1..], 2) + 1;
        Prepend([ReadOctal(tail, k)], ReadLiteral(tail[k..], depth))
      else ReadLiteral(tail, depth)
    else if EolLength(input) > 0 then Prepend("\n", ReadLiteral(input[EolLength(input)..], depth))
    else Prepend([input[0]], ReadLiteral(input[1..], depth))
  }

  /** One to three octal digits; high-order overflow is ignored. */
  function ReadOctal(input: string, k: nat): char
    requires 1 <= k <= |input|
  {
    if forall i | 0 <= i < k :: IsOctal(input[i]) then (OctalValue(input, k) % 256) as char else ' '
  }

  /** What a reader makes of the end-of-line markers of a text. */
  function EolNormal(text: string): string
    decreases |text|
  {
    if text == "" then ""
    else if EolLength(text) > 0 then "\n" + EolNormal(text[EolLength(text)..])
    else [text[0]] + EolNormal(text[1..])
  }

  /** Writing a line and reading it back changes nothing but its end-of-line markers. */
  lemma {:induction false} LiteralRoundTrip(text: string, rest: string)
    ensures ReadLiteral(Escape(text) + ")" + rest, 0) == Some((EolNormal(text), rest))
    decreases |text|
  {
    if text == "" {
      assert Escape(text) + ")" + rest == ")" + rest;
      assert (")" + rest)[1..] == rest;
    } else {
      var x, tail := text[0], text[1..];
      assert text == [x] + tail;
      EscapeCons(x, tail);
      var after := Escape(tail) + ")" + rest;
      LiteralRoundTrip(tail, rest);
      assert Escape(text) + ")" + rest == EscapeChar(x) + after;
      if EscapeChar(x) != [x] {
        assert (EscapeChar(x) + after)[1..][1..] == after;
      } else if x == '\r' && tail != "" && tail[0] == '\n' {
        LiteralCrLf(text, tail, rest);
      } else {
        assert ([x] + after)[1..] == after;
        if x == '\r' {
          NoLineFeedAhead(tail, rest);
        }
      }
    }
  }

  lemma NoLineFeedAhead(tail: string, rest: string)
    requires tail == "" || tail[0] != '\n'
    ensures Escape(tail) + ")" + rest != "" && (Escape(tail) + ")" + rest)[0] != '\n'
  {
    if tail != "" {
      assert tail == [tail[0]] + tail[1..];
      EscapeCons(tail[0], tail[1..]);
    }
  }

  /** A CR LF pair is one end of line for both. */
  lemma LiteralCrLf(text: string, tail: string, rest: string)
    requires text == ['\r'] + tail && tail != "" && tail[0] == '\n'
    requires ReadLiteral(Escape(tail) + ")" + rest, 0) == Some((EolNormal(tail), rest))
    ensures ReadLiteral(['\r'] + (Escape(tail) + ")" + rest), 0) == Some((EolNormal(text), rest))
  {
    CrLfEscape(tail, rest);
    ReadCrLf(Escape(tail[1..]) + ")" + rest);
    CrLfText(text, tail);
  }

  lemma CrLfEscape(tail: string, rest: string)
    requires tail != "" && tail[0] == '\n'
    ensures Escape(tail) + ")" + rest == ['\n'] + (Escape(tail[1..]) + ")" + rest)
  {
    assert tail == ['\n'] + tail[1..];
    EscapeCons('\n', tail[1..]);
  }

  lemma CrLfText(text: string, tail: string)
    requires text == ['\r'] + tail && tail != "" && tail[0] == '\n'
    ensures EolNormal(text) == EolNormal(tail)
  {
    assert tail == ['\n'] + tail[1..];
    NormalCrLf(tail[1..]);
  }

  lemma ReadCrLf(after: string)
    ensures ReadLiteral(['\r'] + (['\n'] + after), 0) == ReadLiteral(['\n'] + after, 0)
  {
    assert (['\n'] + after)[1..] == after;
    assert (['\r'] + (['\n'] + after))[2..] == after;
  }

  lemma NormalCrLf(after: string)
    ensures EolNormal(['\r'] + (['\n'] + after)) == EolNormal(['\n'] + after)
  {
    assert (['\n'] + after)[1..] == after;
    assert (['\r'] + (['\n'] + after))[2..] == after;
  }

  /** A text survives as it is exactly if it has no carriage return. */
  lemma {:induction false} EolNormalFixed(text: string)
    ensures EolNormal(text) == text <==> '\r' !in text
    ensures '\r' !in EolNormal(text)
    decreases |text|
  {
    if text != "" {
      var k := if EolLength(text) > 0 then EolLength(text) else 1;
      EolNormalFixed(text[k..]);
      assert text == text[..k] + text[k..];
      if EolNormal(text) == text {
        assert '\r' !in EolNormal(text);
      }
      if '\r' !in text {
        assert k == 1 && text[1..] == text[k..];
        assert forall c | c in text[1..] :: c in text;
        assert text == [text[0]] + text[1..];
      }
    }
  }
}
