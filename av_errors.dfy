/** libav error codes as the Go side handles them: AVERROR negates a POSIX
    errno, AVERROR_EOF is a fixed tag, and av_err turns a code into a Go error
    whose text is "prefix: message (code)". */
module AvErrors {
  import opened Base

  /** The POSIX errno values the read callbacks report (Linux numbering). */
  const EIO: int32 := 5
  const ENOMEM: int32 := 12
  const EINVAL: int32 := 22

  /** AVERROR_EOF: the negated tag built from the bytes 'E', 'O', 'F', ' '. */
  const AVERROR_EOF: int32 := -541478725

  /** Size of the scratch buffer av_err hands to av_strerror. */
  const ERRBUF_SIZE: nat := 1024

  /** AVERROR: negation on a C int. Negating INT32_MIN wraps back to itself,
      as two's-complement negation does. */
  function AvError(code: int32): (r: int32)
    ensures code != INT32_MIN ==> r as int + code as int == 0
    ensures code == INT32_MIN ==> r == INT32_MIN
    ensures 0 < code ==> r < 0
  {
    if code == INT32_MIN then INT32_MIN else -code
  }

  /** AVERROR undoes itself on every C int. */
  lemma AvErrorInvolution(code: int32)
    ensures AvError(AvError(code)) == code
  {
  }

  /** AVERROR_EOF is the tag FFERRTAG('E', 'O', 'F', ' ') of libavutil, and no
      errno the callbacks use collides with it. */
  lemma EofIsDistinct()
    ensures AVERROR_EOF as int == -('E' as int + 'O' as int * 0x100 + 'F' as int * 0x1_0000 + ' ' as int * 0x100_0000)
    ensures AVERROR_EOF != AvError(EIO) && AVERROR_EOF != AvError(EINVAL) && AVERROR_EOF != AvError(ENOMEM)
    ensures forall e: int32 :: 0 < e < 541478725 ==> AvError(e) != AVERROR_EOF
  {
  }

  /** av_err: end-of-file becomes io.EOF whatever the prefix; any other code
      becomes an error made from the prefix and the code. */
  function AvErr(prefix: string, averr: int32): (e: GoError)
    ensures e == EOF <==> averr == AVERROR_EOF
    ensures e != EOF ==> e.AvFailure? && e.prefix == prefix && e.code == averr
  {
    if averr == AVERROR_EOF then EOF else AvFailure(prefix, averr)
  }

  /** Index of the first zero byte, as bytes.Index(b, []byte{0}) finds it. */
  function FirstNul(b: seq<byte>): (i: nat)
    requires 0 in b
    ensures i < |b| && b[i] == 0
    ensures forall j :: 0 <= j < i ==> b[j] != 0
  {
    if b[0] == 0 then 0 else 1 + FirstNul(b[1..])
  }

  /** Go's %d of a C int: an optional minus sign, then decimal digits. */
  function Decimal(n: int): (s: string)
  {
    if n < 0 then "-" + NatDecimal(-n) else NatDecimal(n)
  }

  function NatDecimal(n: nat): (s: string)
    ensures |s| >= 1
    ensures forall i :: 0 <= i < |s| ==> '0' <= s[i] <= '9'
  {
    if n < 10 then [DigitChar(n)] else NatDecimal(n / 10) + [DigitChar(n % 10)]
  }

  function DigitChar(d: nat): (c: char)
    requires d < 10
    ensures '0' <= c <= '9' && c as int - '0' as int == d
  {
    ('0' as int + d) as char
  }

  /** Reads a decimal written by Decimal back: an optional '-' and at least
      one digit, nothing else. */
  function ParseDecimal(s: string): (r: Option<int>)
  {
    if |s| >= 1 && s[0] == '-' then
      match ParseNat(s[1..])
      case Some(n) => Some(-(n as int))
      case None => None
    else
      match ParseNat(s)
      case Some(n) => Some(n)
      case None => None
  }

  function ParseNat(s: string): (r: Option<nat>)
    decreases |s|
  {
    if |s| == 0 || !('0' <= s[|s| - 1] <= '9') then None
    else if |s| == 1 then Some(s[0] as int - '0' as int)
    else
      match ParseNat(s[..|s| - 1])
      case Some(n) => Some(10 * n + (s[|s| - 1] as int - '0' as int))
      case None => None
  }

  lemma {:induction false} NatDecimalRoundTrip(n: nat)
    ensures ParseNat(NatDecimal(n)) == Some(n)
  {
    if n >= 10 {
      var s := NatDecimal(n);
      var front := NatDecimal(n / 10);
      assert s == front + [DigitChar(n % 10)];
      assert s[..|s| - 1] == front;
      NatDecimalRoundTrip(n / 10);
    }
  }

  /** The code printed by %d can be read back exactly. */
  lemma {:induction false} DecimalRoundTrip(n: int)
    ensures ParseDecimal(Decimal(n)) == Some(n)
  {
    if n < 0 {
      var digits := NatDecimal(-n);
      var s := "-" + digits;
      assert Decimal(n) == s;
      assert s[1..] == digits;
      NatDecimalRoundTrip(-n);
      assert ParseNat(s[1..]) == Some(-n);
    } else {
      var digits := NatDecimal(n);
      assert digits[0] != '-';
      NatDecimalRoundTrip(n);
    }
  }

  /** The text of an error made by av_err from a code other than AVERROR_EOF:
      fmt.Errorf("%s: %s (%d)", prefix, msg, averr), where msg is what
      av_strerror wrote into the scratch buffer, up to its first zero byte.
      av_strerror always terminates its output with a zero byte. */
  function AvErrText(prefix: string, averr: int32, errbuf: seq<byte>): (text: string)
    requires |errbuf| == ERRBUF_SIZE && 0 in errbuf
    ensures |prefix| + 2 + FirstNul(errbuf) + 4 <= |text|
    ensures text[|text| - 1] == ')'
  {
    prefix + ": " + StrerrorMessage(errbuf) + CodeSuffix(averr)
  }

  /** The " (code)" that ends the text. */
  function CodeSuffix(averr: int32): string
  {
    " (" + Decimal(averr as int) + ")"
  }

  /** The message av_strerror wrote: the buffer up to, not including, its
      first zero byte. */
  function StrerrorMessage(errbuf: seq<byte>): (msg: string)
    requires 0 in errbuf
    ensures |msg| == FirstNul(errbuf)
    ensures forall i :: 0 <= i < |msg| ==> msg[i] as int == errbuf[i] as int && msg[i] != '\0'
  {
    BytesToString(errbuf[..FirstNul(errbuf)])
  }

  /** The characters after the last '(' of s, or all of s when it has none. */
  function AfterLastParen(s: string): (t: string)
  {
    if s == [] then []
    else if s[|s| - 1] == '(' then []
    else AfterLastParen(s[..|s| - 1]) + [s[|s| - 1]]
  }

  /** The code in the trailing "(...)" of an error text, if there is one. */
  function TrailingCode(text: string): (r: Option<int>)
  {
    if |text| >= 1 && text[|text| - 1] == ')' then ParseDecimal(AfterLastParen(text[..|text| - 1]))
    else None
  }

  lemma {:induction false} AfterLastParenSuffix(a: string, b: string)
    requires forall i :: 0 <= i < |b| ==> b[i] != '('
    ensures AfterLastParen(a + "(" + b) == b
    decreases |b|
  {
    var s := a + "(" + b;
    if b == [] {
      assert s[|s| - 1] == '(';
    } else {
      var b' := b[..|b| - 1];
      assert s[..|s| - 1] == a + "(" + b';
      AfterLastParenSuffix(a, b');
      assert b == b' + [b[|b| - 1]];
    }
  }

  /** The message text in the middle never hides the code: whatever
      av_strerror wrote, the code av_err was given is read back from the
      end of the text. */
  lemma AvErrTextCode(prefix: string, averr: int32, errbuf: seq<byte>)
    requires |errbuf| == ERRBUF_SIZE && 0 in errbuf
    ensures TrailingCode(AvErrText(prefix, averr, errbuf)) == Some(averr as int)
  {
    var d := Decimal(averr as int);
    var head := prefix + ": " + StrerrorMessage(errbuf) + " ";
    var text := head + "(" + d + ")";
    assert CodeSuffix(averr) == " " + "(" + d + ")";
    assert AvErrText(prefix, averr, errbuf) == text;
    assert text[..|text| - 1] == head + "(" + d;
    NoParenInDecimal(averr as int);
    AfterLastParenSuffix(head, d);
    DecimalRoundTrip(averr as int);
  }

  lemma NoParenInDecimal(n: int)
    ensures forall i :: 0 <= i < |Decimal(n)| ==> Decimal(n)[i] != '('
  {
    if n < 0 {
      var digits := NatDecimal(-n);
      assert Decimal(n) == "-" + digits;
      assert forall i :: 1 <= i < |Decimal(n)| ==> Decimal(n)[i] == digits[i - 1];
    }
  }

  /** The text starts with the prefix and a colon, followed by the message,
      which holds no zero byte. */
  lemma AvErrTextMessage(prefix: string, averr: int32, errbuf: seq<byte>)
    requires |errbuf| == ERRBUF_SIZE && 0 in errbuf
    ensures AvErrText(prefix, averr, errbuf)[..|prefix| + 2] == prefix + ": "
    ensures AvErrText(prefix, averr, errbuf)[|prefix| + 2..|prefix| + 2 + FirstNul(errbuf)] == StrerrorMessage(errbuf)
  {
    MiddleOfConcat(prefix + ": ", StrerrorMessage(errbuf), CodeSuffix(averr));
  }

  lemma MiddleOfConcat<T>(a: seq<T>, b: seq<T>, c: seq<T>)
    ensures (a + b + c)[..|a|] == a && (a + b + c)[|a|..|a| + |b|] == b
  {
  }
}
