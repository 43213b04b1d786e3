/**
 Strings of the configuration language: the scanner copies the text of a token, resolving
 backslash escapes on the way and stopping at a variable when asked to.
 */
module Escape {
  import opened Options
  import opened Bytes

  const BACKSLASH: byte := 92
  const DOLLAR: byte := 36
  const NEWLINE: byte := 10

  /** The text is followed by a zero byte. */
  function At(src: seq<byte>, i: nat): byte {
    if i < |src| then src[i] else 0
  }

  predicate Octal(c: byte) {
    48 <= c <= 55
  }

  /** The value of a hexadecimal digit; 16 where `c` is none. */
  function DigitValue(c: byte): (v: nat)
    ensures v <= 16
    ensures v < 16 ==> c != BACKSLASH && c != DOLLAR
  {
    if 48 <= c <= 57 then c - 48
    else if 65 <= c <= 70 then c - 55
    else if 97 <= c <= 102 then c - 87
    else 16
  }

  /** At most `k` digits of the base at `j`: how many there are, and the value with them appended. */
  function Digits(src: seq<byte>, j: nat, se: nat, base: nat, k: nat, value: nat): (r: (nat, nat))
    requires se <= |src|
    ensures r.0 <= k && (j <= se ==> j + r.0 <= se) && (j >= se ==> r.0 == 0)
    decreases k
  {
    if k == 0 || j >= se || DigitValue(src[j]) >= base then (0, value)
    else
      var (n, v) := Digits(src, j + 1, se, base, k - 1, value * base + DigitValue(src[j]));
      (n + 1, v)
  }

  /** An escape: how much text it takes, the backslash included, and the byte it stands for, if any. */
  datatype Unit = Unit(taken: nat, value: Option<byte>)

  /** The escapes of one letter; any other byte stands for itself. */
  function Letter(c: byte): byte {
    if c == 97 then 7
    else if c == 98 then 8
    else if c == 102 then 12
    else if c == 110 then 10
    else if c == 114 then 13
    else if c == 116 then 9
    else if c == 118 then 11
    else c
  }

  /** Numbers are kept in one byte, and a newline that is escaped stands for nothing. */
  function EscapeUnit(src: seq<byte>, i: nat, se: nat): (u: Unit)
    requires i < se <= |src|
    ensures u.taken >= 2 && (i + u.taken <= se || u.taken == 2)
  {
    var c: int := At(src, i + 1);
    if Octal(c) then
      var (n, v) := Digits(src, i + 2, se, 8, 2, c - 48);
      Unit(n + 2, Some(v % 256))
    else if c == 120 then
      var (n, v) := Digits(src, i + 2, se, 16, 2, 0);
      Unit(n + 2, Some(v % 256))
    else if c == NEWLINE then Unit(2, None)
    else Unit(2, Some(Letter(c)))
  }

  function OutOf(v: Option<byte>): seq<byte> {
    if v.Some? then [v.value] else []
  }

  /** The decoded string, and where a variable starts, or -1. */
  function Decode(src: seq<byte>, i: nat, se: nat, tovar: bool): (r: (seq<byte>, int))
    requires se <= |src|
    ensures i <= se ==> |r.0| <= se - i
    decreases se - i
  {
    if i >= se then ([], -1)
    else if src[i] == BACKSLASH then
      var u := EscapeUnit(src, i, se);
      var rest := Decode(src, i + u.taken, se, tovar);
      (OutOf(u.value) + rest.0, rest.1)
    else if tovar && src[i] == DOLLAR then ([], i)
    else
      var rest := Decode(src, i + 1, se, tovar);
      ([src[i]] + rest.0, rest.1)
  }

  /** `text2lval`: nothing is written outside of the `out.Length` bytes that were allocated. */
  method TextToLval(text: seq<byte>, triml: nat, trimr: nat, tovar: bool)
    returns (out: array<byte>, len: nat, stop: int)
    requires triml + trimr <= |text|
    ensures fresh(out) && out.Length == |text| - trimr - triml + 1
    ensures len < out.Length && out[len] == 0
    ensures out[..len] == Decode(text, triml, |text| - trimr, tovar).0
    ensures stop == Decode(text, triml, |text| - trimr, tovar).1
  {
    var se := |text| - trimr;
    out := new byte[se - triml + 1];
    var s, d := triml, 0;
    ghost var whole := Decode(text, triml, se, tovar);
    assert out[..d] == [] && [] + whole.0 == whole.0;
    while s < se
      invariant triml <= s && d <= s - triml && d < out.Length
      invariant Continued(out[..d], text, s, se, tovar) == whole
      decreases se - s
    {
      if tovar && text[s] == DOLLAR {
        assert out[..d] + [] == out[..d];
        PutByte(out, d, 0);
        return out, d, s;
      }
      if text[s] != BACKSLASH {
        PlainStep(text, s, se, tovar, out[..d]);
        PutByte(out, d, text[s]);
        s, d := s + 1, d + 1;
      } else {
        EscapeStep(text, s, se, tovar, out[..d]);
        s, d := CopyEscape(text, s, se, out, d);
      }
    }
    assert out[..d] + [] == out[..d];
    PutByte(out, d, 0);
    stop, len := -1, d;
  }

  /** What has been decoded followed by what is still to be. */
  ghost function Continued(sofar: seq<byte>, text: seq<byte>, s: nat, se: nat, tovar: bool): (seq<byte>, int)
    requires se <= |text|
  {
    var r := Decode(text, s, se, tovar);
    (sofar + r.0, r.1)
  }

  lemma PlainStep(text: seq<byte>, s: nat, se: nat, tovar: bool, sofar: seq<byte>)
    requires s < se <= |text| && text[s] != BACKSLASH && !(tovar && text[s] == DOLLAR)
    ensures Continued(sofar, text, s, se, tovar) == Continued(sofar + [text[s]], text, s + 1, se, tovar)
  {
    var r := Decode(text, s + 1, se, tovar);
    assert sofar + ([text[s]] + r.0) == sofar + [text[s]] + r.0;
  }

  lemma EscapeStep(text: seq<byte>, s: nat, se: nat, tovar: bool, sofar: seq<byte>)
    requires s < se <= |text| && text[s] == BACKSLASH
    ensures var u := EscapeUnit(text, s, se);
      Continued(sofar, text, s, se, tovar) == Continued(sofar + OutOf(u.value), text, s + u.taken, se, tovar)
  {
    var u := EscapeUnit(text, s, se);
    var r := Decode(text, s + u.taken, se, tovar);
    assert sofar + (OutOf(u.value) + r.0) == sofar + OutOf(u.value) + r.0;
  }

  /** One escape: the places in the text and in the buffer move on. */
  method CopyEscape(text: seq<byte>, s: nat, se: nat, out: array<byte>, d: nat) returns (n: nat, e: nat)
    requires s < se <= |text| && d < out.Length
    modifies out
    ensures n == s + EscapeUnit(text, s, se).taken
    ensures d <= e <= d + 1 && e <= out.Length && out[..e] == old(out[..d]) + OutOf(EscapeUnit(text, s, se).value)
  {
    var c: int := At(text, s + 1);
    n, e := s + 2, d;
    if c != NEWLINE {
      var b;
      if Octal(c) {
        n, b := TakeTwo(text, n, se, 8, c - 48);
      } else if c == 120 {
        n, b := TakeTwo(text, n, se, 16, 0);
      } else {
        b := Letter(c);
      }
      PutByte(out, d, b);
      e := d + 1;
    }
  }

  /** At most two digits more. */
  method TakeTwo(text: seq<byte>, j: nat, se: nat, base: nat, first: byte) returns (n: nat, b: byte)
    requires se <= |text|
    ensures var r := Digits(text, j, se, base, 2, first); n == j + r.0 && b == r.1 % 256
  {
    InOneByte(text, j, se, base, 2, first);
    n, b := j, first;
    if n < se && DigitValue(text[n]) < base {
      n, b := n + 1, WithDigit(b, base, DigitValue(text[n]));
      if n < se && DigitValue(text[n]) < base {
        n, b := n + 1, WithDigit(b, base, DigitValue(text[n]));
      }
    }
  }

  function WithDigit(b: byte, base: nat, digit: nat): byte {
    var wide: nat := b * base + digit;
    wide % 256
  }

  /** The digits as they are read: the number never leaves its byte. */
  function ByteDigits(src: seq<byte>, j: nat, se: nat, base: nat, k: nat, b: byte): (nat, byte)
    requires se <= |src|
    decreases k
  {
    if k == 0 || j >= se || DigitValue(src[j]) >= base then (0, b)
    else
      var (n, v) := ByteDigits(src, j + 1, se, base, k - 1, WithDigit(b, base, DigitValue(src[j])));
      (n + 1, v)
  }

  /** Cutting off what does not fit, digit by digit or at the end, makes no difference. */
  lemma {:induction false} InOneByte(src: seq<byte>, j: nat, se: nat, base: nat, k: nat, value: nat)
    requires se <= |src|
    ensures var r := Digits(src, j, se, base, k, value);
      ByteDigits(src, j, se, base, k, value % 256) == (r.0, r.1 % 256)
    decreases k
  {
    if k > 0 && j < se && DigitValue(src[j]) < base {
      OneDigit(value, base, DigitValue(src[j]));
      InOneByte(src, j + 1, se, base, k - 1, value * base + DigitValue(src[j]));
    }
  }

  lemma OneDigit(value: nat, base: nat, digit: nat)
    ensures WithDigit(value % 256, base, digit) == (value * base + digit) % 256
  {
    var q, r := value / 256, value % 256;
    calc {
      (value * base + digit) % 256;
      == { assert value == q * 256 + r; }
      ((q * 256 + r) * base + digit) % 256;
      == { assert (q * 256 + r) * base == q * base * 256 + r * base; }
      (q * base * 256 + (r * base + digit)) % 256;
      == { Multiple(q * base, r * base + digit); }
      (r * base + digit) % 256;
    }
  }

  lemma Multiple(q: nat, x: nat)
    ensures (q * 256 + x) % 256 == x % 256
  {
  }

  method PutByte(out: array<byte>, d: nat, b: byte)
    requires d < out.Length
    modifies out
    ensures out[d] == b && out[..d] == old(out[..d]) && out[..d + 1] == old(out[..d]) + [b]
  {
    out[d] := b;
  }

  // ----------------------------------------------------------------- variables

  /** The first dollar sign that no backslash precedes, reading backslashes in pairs with what follows them. */
  function FirstDollar(src: seq<byte>, i: nat, se: nat): int
    requires se <= |src|
    decreases se - i
  {
    if i >= se then -1
    else if src[i] == BACKSLASH then FirstDollar(src, i + 2, se)
    else if src[i] == DOLLAR then i
    else FirstDollar(src, i + 1, se)
  }

  lemma {:induction false} DigitsHoldNoDollar(src: seq<byte>, j: nat, se: nat, base: nat, k: nat, value: nat)
    requires se <= |src| && base <= 16
    ensures FirstDollar(src, j, se) == FirstDollar(src, j + Digits(src, j, se, base, k, value).0, se)
    decreases k
  {
    if k > 0 && j < se && DigitValue(src[j]) < base {
      DigitsHoldNoDollar(src, j + 1, se, base, k - 1, value * base + DigitValue(src[j]));
    }
  }

  lemma {:induction false} StopsAtDollar(src: seq<byte>, i: nat, se: nat, tovar: bool)
    requires se <= |src|
    ensures Decode(src, i, se, tovar).1 == if tovar then FirstDollar(src, i, se) else -1
    decreases se - i
  {
    if i < se {
      if src[i] == BACKSLASH {
        EscapeHoldsNoDollar(src, i, se);
        StopsAtDollar(src, i + EscapeUnit(src, i, se).taken, se, tovar);
      } else if !(tovar && src[i] == DOLLAR) {
        StopsAtDollar(src, i + 1, se, tovar);
      }
    }
  }

  lemma EscapeHoldsNoDollar(src: seq<byte>, i: nat, se: nat)
    requires i < se <= |src|
    ensures FirstDollar(src, i + 2, se) == FirstDollar(src, i + EscapeUnit(src, i, se).taken, se)
  {
    var c: int := At(src, i + 1);
    if Octal(c) {
      DigitsHoldNoDollar(src, i + 2, se, 8, 2, c - 48);
    } else if c == 120 {
      DigitsHoldNoDollar(src, i + 2, se, 16, 2, 0);
    }
  }

  // ---------------------------------------------------------------- round trip

  /** How a byte is written: as it is, or as an escape of fixed width. */
  datatype Style = Bare | AsHex | AsOctal | AsLetter | AsIs

  function HexDigit(v: nat): (c: byte)
    requires v < 16
    ensures DigitValue(c) == v
  {
    if v < 10 then 48 + v else 87 + v
  }

  function Write(b: byte, style: Style): (r: seq<byte>)
    ensures r != []
  {
    match style
    case Bare => [b]
    case AsHex =>
      var n: int := b;
      [BACKSLASH, 120, HexDigit(n / 16), HexDigit(n % 16)]
    case AsOctal =>
      var n: int := b;
      [BACKSLASH, 48 + n / 64, 48 + n / 8 % 8, 48 + n % 8]
    case AsLetter => [BACKSLASH, if 7 <= b <= 13 then LETTERS[b - 7] else b]
    case AsIs => [BACKSLASH, b]
  }

  /** The letters of the control characters from 7, the bell, to 13, the carriage return. */
  const LETTERS: seq<byte> := [97, 98, 116, 110, 118, 102, 114]

  /** A byte that means something to the scanner cannot be written bare. */
  predicate Fits(b: byte, style: Style) {
    match style
    case Bare => b != BACKSLASH && b != DOLLAR
    case AsHex => true
    case AsOctal => true
    case AsLetter => 7 <= b <= 13
    case AsIs => b !in LETTERS && !Octal(b) && b != 120 && b != NEWLINE
  }

  function WriteAll(bs: seq<byte>, styles: seq<Style>): seq<byte>
    requires |styles| == |bs|
  {
    if bs == [] then [] else Write(bs[0], styles[0]) + WriteAll(bs[1..], styles[1..])
  }

  lemma OctalParts(n: nat)
    requires n < 256
    ensures (n / 64 * 8 + n / 8 % 8) * 8 + n % 8 == n && n % 256 == n
  {
    assert n / 8 == n / 64 * 8 + n / 8 % 8;
  }

  lemma HexWritten(src: seq<byte>, i: nat, se: nat, b: byte)
    requires i + 4 <= se <= |src| && src[i + 1] == 120
    requires DigitValue(src[i + 2]) == b / 16 && DigitValue(src[i + 3]) == b % 16
    ensures EscapeUnit(src, i, se) == Unit(4, Some(b))
  {
    TwoDigits(src, i + 2, se, 16, 0);
    assert !Octal(src[i + 1]);
  }

  lemma OctalWritten(src: seq<byte>, i: nat, se: nat, b: byte)
    requires i + 4 <= se <= |src| && src[i + 1] == 48 + b / 64
    requires DigitValue(src[i + 2]) == b / 8 % 8 && DigitValue(src[i + 3]) == b % 8
    ensures EscapeUnit(src, i, se) == Unit(4, Some(b))
  {
    var n: int := b;
    OctalParts(n);
    TwoDigits(src, i + 2, se, 8, n / 64);
    assert Octal(src[i + 1]);
  }

  lemma TwoDigits(src: seq<byte>, j: nat, se: nat, base: nat, value: nat)
    requires j + 2 <= se <= |src| && DigitValue(src[j]) < base && DigitValue(src[j + 1]) < base
    ensures Digits(src, j, se, base, 2, value) ==
            (2, (value * base + DigitValue(src[j])) * base + DigitValue(src[j + 1]))
  {
    var v := value * base + DigitValue(src[j]);
    assert Digits(src, j + 2, se, base, 0, v * base + DigitValue(src[j + 1])).0 == 0;
    assert Digits(src, j + 1, se, base, 1, v) == (1, v * base + DigitValue(src[j + 1]));
  }

  lemma LetterWritten(src: seq<byte>, i: nat, se: nat, b: byte, style: Style)
    requires i + 2 <= se <= |src| && style in {AsLetter, AsIs} && Fits(b, style) && src[i + 1] == Write(b, style)[1]
    ensures EscapeUnit(src, i, se) == Unit(2, Some(b))
  {
  }

  /** A newline that is escaped stands for nothing. */
  lemma LineContinued(src: seq<byte>, i: nat, se: nat, tovar: bool)
    requires i + 2 <= se <= |src| && src[i] == BACKSLASH && src[i + 1] == NEWLINE
    ensures Decode(src, i, se, tovar) == Decode(src, i + 2, se, tovar)
  {
    var rest := Decode(src, i + 2, se, tovar);
    assert [] + rest.0 == rest.0;
  }

  /** Up to three octal digits stand for the byte of their number; what is over 255 is cut. */
  lemma OctalEscape(src: seq<byte>, i: nat, se: nat, n: nat)
    requires i + 1 + n <= se <= |src| && 1 <= n <= 3 && forall k :: i < k <= i + n ==> Octal(src[k])
    requires n == 3 || i + 1 + n == se || !Octal(src[i + 1 + n])
    ensures var a := DigitValue(src[i + 1]);
      var number := if n == 1 then a
                    else if n == 2 then 8 * a + DigitValue(src[i + 2])
                    else 64 * a + 8 * DigitValue(src[i + 2]) + DigitValue(src[i + 3]);
      EscapeUnit(src, i, se) == Unit(n + 1, Some(number % 256))
  {
  }

  /** An x takes up to two hexadecimal digits, and without any it is a zero byte. */
  lemma HexEscape(src: seq<byte>, i: nat, se: nat, n: nat)
    requires i + 2 + n <= se <= |src| && n <= 2 && src[i + 1] == 120
    requires forall k :: i + 1 < k <= i + 1 + n ==> DigitValue(src[k]) < 16
    requires n == 2 || i + 2 + n == se || DigitValue(src[i + 2 + n]) == 16
    ensures var number := if n == 0 then 0 else if n == 1 then DigitValue(src[i + 2])
                          else 16 * DigitValue(src[i + 2]) + DigitValue(src[i + 3]);
      EscapeUnit(src, i, se) == Unit(n + 2, Some(number))
  {
  }

  lemma DecodeWritten(src: seq<byte>, i: nat, se: nat, b: byte, style: Style, tovar: bool)
    requires Fits(b, style) && i + |Write(b, style)| <= se <= |src|
    requires src[i..i + |Write(b, style)|] == Write(b, style)
    ensures var rest := Decode(src, i + |Write(b, style)|, se, tovar);
      Decode(src, i, se, tovar) == ([b] + rest.0, rest.1)
  {
    var w := Write(b, style);
    assert src[i] == w[0];
    if style == AsLetter || style == AsIs {
      assert src[i..i + 2][1] == src[i + 1] == w[1];
      LetterWritten(src, i, se, b, style);
    } else if style != Bare {
      var part := src[i..i + 4];
      assert src[i + 1] == part[1] == w[1] && src[i + 2] == part[2] == w[2] && src[i + 3] == part[3] == w[3];
      if style == AsHex { HexWritten(src, i, se, b); } else { OctalWritten(src, i, se, b); }
    }
  }

  /** Any bytes, written in any mixture of styles anywhere in a text, are read back as they were. */
  lemma {:induction false} WriteDecode(bs: seq<byte>, styles: seq<Style>, src: seq<byte>, i: nat, se: nat, tovar: bool)
    requires |styles| == |bs| && forall i :: 0 <= i < |bs| ==> Fits(bs[i], styles[i])
    requires i <= se <= |src| && src[i..se] == WriteAll(bs, styles)
    ensures Decode(src, i, se, tovar) == (bs, -1)
    decreases |bs|
  {
    if bs == [] {
      assert |src[i..se]| == 0;
    } else {
      var w, tail := Write(bs[0], styles[0]), WriteAll(bs[1..], styles[1..]);
      Halves(src, i, se, w, tail);
      WriteDecode(bs[1..], styles[1..], src, i + |w|, se, tovar);
      WrittenThen(src, i, se, bs[0], styles[0], tovar, bs[1..]);
      assert [bs[0]] + bs[1..] == bs;
    }
  }

  lemma WrittenThen(src: seq<byte>, i: nat, se: nat, b: byte, style: Style, tovar: bool, rest: seq<byte>)
    requires Fits(b, style) && i + |Write(b, style)| <= se <= |src|
    requires src[i..i + |Write(b, style)|] == Write(b, style)
    requires Decode(src, i + |Write(b, style)|, se, tovar) == (rest, -1)
    ensures Decode(src, i, se, tovar) == ([b] + rest, -1)
  {
    DecodeWritten(src, i, se, b, style, tovar);
  }

  lemma Halves(src: seq<byte>, i: nat, se: nat, w: seq<byte>, tail: seq<byte>)
    requires i <= se <= |src| && src[i..se] == w + tail
    ensures se == i + |w| + |tail| && src[i..i + |w|] == w && src[i + |w|..se] == tail
  {
    var part := src[i..se];
    assert |part| == se - i;
    assert part[..|w|] == w && part[|w|..] == tail;
  }
}
