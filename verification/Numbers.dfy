/** Numbers as the C library reads and prints them. */
module Numbers {
  import opened Options

  const LONG_MAX: int := 0x7fff_ffff_ffff_ffff
  const LONG_MIN: int := -LONG_MAX - 1

  predicate IsDigit(c: char) {
    '0' <= c <= '9'
  }

  /** The value of a digit; 99 where `c` is none. */
  function DigitValue(c: char): (d: nat)
    ensures IsDigit(c) <==> d < 10
  {
    if '0' <= c <= '9' then c as int - '0' as int
    else if 'a' <= c <= 'f' then c as int - 'a' as int + 10
    else if 'A' <= c <= 'F' then c as int - 'A' as int + 10
    else 99
  }

  function DigitChar(d: nat): (c: char)
    requires d < 10
    ensures IsDigit(c) && DigitValue(c) == d
  {
    ('0' as int + d) as char
  }

  /** `%ld` of a number that is not negative. */
  function Decimal(n: nat): (s: string)
    ensures s != [] && forall c <- s :: IsDigit(c)
    ensures s[0] == '0' ==> n == 0
  {
    if n < 10 then [DigitChar(n)] else Decimal(n / 10) + [DigitChar(n % 10)]
  }

  /** `%ld`. */
  function Show(n: int): (s: string)
    ensures s != []
  {
    if n < 0 then "-" + Decimal(-n) else Decimal(n)
  }

  /** The digits of base `b` from the start of `s`: how many and their value, most significant first. */
  function Digits(s: string, b: nat, acc: nat): (r: (nat, nat))
    ensures r.0 <= |s|
  {
    if s == [] || DigitValue(s[0]) >= b then (0, acc)
    else
      var (k, v) := Digits(s[1..], b, acc * b + DigitValue(s[0]));
      (k + 1, v)
  }

  predicate IsSpace(c: char) {
    c == ' ' || '\t' <= c <= '\r'
  }

  /** What does not fit a `long` is cut to the nearest that does. */
  function Clamp(n: int): (r: int)
    ensures LONG_MIN <= r <= LONG_MAX && (LONG_MIN <= n <= LONG_MAX ==> r == n)
    ensures n > LONG_MAX ==> r == LONG_MAX
    ensures n < LONG_MIN ==> r == LONG_MIN
  {
    if n > LONG_MAX then LONG_MAX else if n < LONG_MIN then LONG_MIN else n
  }

  /** The number without blanks and sign: hexadecimal after `0x`, octal after `0`, decimal otherwise. */
  function Unsigned(s: string): (r: (nat, nat))
    ensures r.0 <= |s|
  {
    if |s| >= 3 && s[0] == '0' && (s[1] == 'x' || s[1] == 'X') && DigitValue(s[2]) < 16 then
      var (k, v) := Digits(s[2..], 16, 0);
      (k + 2, v)
    else if s != [] && s[0] == '0' then Digits(s, 8, 0)
    else Digits(s, 10, 0)
  }

  function SkipSpace(s: string): (r: string)
    ensures r != [] ==> !IsSpace(r[0])
  {
    if s != [] && IsSpace(s[0]) then SkipSpace(s[1..]) else s
  }

  /**
   `strtol(s, &p, 0)` with the check that `p` is at the end: the empty string is zero, and a
   string in which no number is found leaves `p` at its start.
   */
  function Strtol(s: string): Option<int> {
    if s == [] then Some(0)
    else
      var t := SkipSpace(s);
      var signed := t != [] && (t[0] == '-' || t[0] == '+');
      var body := if signed then t[1..] else t;
      var (k, v) := Unsigned(body);
      if k == 0 || k < |body| then None
      else
        var n: int := v;
        Some(Clamp(if signed && t[0] == '-' then -n else n))
  }

  lemma {:induction false} DigitsOfDecimal(n: nat, t: string)
    ensures Digits(Decimal(n) + t, 10, 0).0 == |Decimal(n)| + Digits(t, 10, n).0
    ensures Digits(Decimal(n) + t, 10, 0).1 == Digits(t, 10, n).1
    decreases n
  {
    if n < 10 {
      assert (Decimal(n) + t)[1..] == t;
    } else {
      var last := [DigitChar(n % 10)];
      assert Decimal(n) + t == Decimal(n / 10) + (last + t);
      DigitsOfDecimal(n / 10, last + t);
      assert (last + t)[1..] == t;
    }
  }

  lemma DecimalReadBack(n: nat)
    ensures Digits(Decimal(n), 10, 0) == (|Decimal(n)|, n)
  {
    DigitsOfDecimal(n, []);
    assert Decimal(n) + [] == Decimal(n);
  }

  /** A number that the daemon prints is the number that it reads. */
  lemma ShowReadBack(n: int)
    requires LONG_MIN <= n <= LONG_MAX
    ensures Strtol(Show(n)) == Some(n)
  {
    var m := if n < 0 then -n else n;
    DecimalReadBack(m);
    var d := Decimal(m);
    assert d[0] in d;
    assert Unsigned(d) == (|d|, m) by {
      if m == 0 {
        assert d == "0" && d[1..] == [];
        assert Digits(d[1..], 8, 0) == (0, 0);
        assert Digits(d, 8, 0) == (1, 0);
      } else {
        assert d[0] != '0';
      }
    }
    assert SkipSpace(Show(n)) == Show(n);
    if n < 0 {
      assert Show(n)[0] == '-' && Show(n)[1..] == d;
    } else {
      assert Show(n) == d;
    }
  }

  // ------------------------------------------------------------- what strtol reads

  /** The value of a numeral of base `b`, the last digit counting once. */
  function Numeral(ds: string, b: nat): nat {
    if ds == [] then 0 else Numeral(ds[..|ds| - 1], b) * b + DigitValue(ds[|ds| - 1])
  }

  predicate AllBelow(ds: string, b: nat) {
    forall c <- ds :: DigitValue(c) < b
  }

  /** Hexadecimal after `0x`, octal after `0`, and decimal otherwise. */
  predicate IsNumber(body: string, n: nat) {
    if |body| >= 3 && body[0] == '0' && body[1] in {'x', 'X'} then
      AllBelow(body[2..], 16) && n == Numeral(body[2..], 16)
    else if body != [] && body[0] == '0' then AllBelow(body, 8) && n == Numeral(body, 8)
    else body != [] && AllBelow(body, 10) && n == Numeral(body, 10)
  }

  lemma {:induction false} DigitsRead(s: string, b: nat, k: nat)
    requires k <= |s| && AllBelow(s[..k], b)
    ensures Digits(s, b, 0).0 == k + Digits(s[k..], b, Numeral(s[..k], b)).0
    ensures Digits(s, b, 0).1 == Digits(s[k..], b, Numeral(s[..k], b)).1
    decreases k
  {
    if k == 0 {
      assert s[0..] == s;
    } else {
      var j := k - 1;
      assert s[..k][..j] == s[..j] && s[j] == s[..k][j] && s[..k][j] in s[..k];
      assert AllBelow(s[..j], b) by { assert forall c <- s[..j] :: c in s[..k]; }
      DigitsRead(s, b, j);
      assert s[j..][1..] == s[k..];
    }
  }

  /** All digits are read exactly if all are digits. */
  lemma {:induction false} DigitsAll(s: string, b: nat, acc: nat)
    ensures Digits(s, b, acc).0 == |s| <==> AllBelow(s, b)
  {
    if s != [] {
      assert s == [s[0]] + s[1..];
      if DigitValue(s[0]) < b { DigitsAll(s[1..], b, acc * b + DigitValue(s[0])); }
    }
  }

  lemma DigitsWhole(s: string, b: nat)
    ensures AllBelow(s, b) ==> Digits(s, b, 0) == (|s|, Numeral(s, b))
    ensures !AllBelow(s, b) ==> Digits(s, b, 0).0 < |s|
  {
    DigitsAll(s, b, 0);
    if AllBelow(s, b) {
      assert s[..|s|] == s && s[|s|..] == [];
      DigitsRead(s, b, |s|);
    }
  }

  lemma UnsignedIff(body: string, n: nat)
    ensures body != [] && Unsigned(body) == (|body|, n) <==> IsNumber(body, n)
  {
    if |body| >= 3 && body[0] == '0' && body[1] in {'x', 'X'} {
      DigitsWhole(body[2..], 16);
      assert body[2..][0] == body[2] && body[2] in body[2..];
      if DigitValue(body[2]) >= 16 { NotOctal(body); }
    } else if body != [] && body[0] == '0' {
      DigitsWhole(body, 8);
    } else {
      DigitsWhole(body, 10);
    }
  }

  lemma NotOctal(body: string)
    requires |body| >= 3 && body[0] == '0' && body[1] in {'x', 'X'}
    ensures Digits(body, 8, 0).0 < |body|
  {
    DigitsWhole(body, 8);
    assert body[1] in body && DigitValue(body[1]) >= 8;
  }

  /** Blanks, a sign and a number. */
  predicate Reads(s: string, i: nat, n: nat) {
    && i <= |s| && (forall c <- s[..i] :: IsSpace(c)) && (i < |s| ==> !IsSpace(s[i]))
    && IsNumber(if i < |s| && s[i] in {'-', '+'} then s[i + 1..] else s[i..], n)
  }

  function Signed(s: string, i: nat, n: nat): int {
    var m: int := n;
    Clamp(if i < |s| && s[i] == '-' then -m else m)
  }

  lemma {:induction false} SkipsAll(s: string) returns (i: nat)
    ensures i <= |s| && SkipSpace(s) == s[i..] && (forall c <- s[..i] :: IsSpace(c)) && (i < |s| ==> !IsSpace(s[i]))
  {
    if s != [] && IsSpace(s[0]) {
      var j := SkipsAll(s[1..]);
      i := j + 1;
      assert s[i..] == s[1..][j..] && s[..i] == [s[0]] + s[1..][..j];
    } else {
      i := 0;
    }
  }

  lemma SkipsTo(s: string, i: nat, j: nat)
    requires i <= |s| && (forall c <- s[..i] :: IsSpace(c)) && (i < |s| ==> !IsSpace(s[i]))
    requires j <= |s| && (forall c <- s[..j] :: IsSpace(c)) && (j < |s| ==> !IsSpace(s[j]))
    ensures i == j
  {
    assert forall k :: 0 <= k < i ==> s[..i][k] == s[k];
    assert forall k :: 0 <= k < j ==> s[..j][k] == s[k];
  }

  /** What is accepted, and what it is worth: nothing at all is zero, and what does not fit a `long` is cut. */
  lemma StrtolIff(s: string, r: int)
    ensures Strtol(s) == Some(r) <==>
            if s == [] then r == 0
            else exists i: nat, n: nat :: Reads(s, i, n) && r == Signed(s, i, n)
  {
    if s != [] {
      var i := SkipsAll(s);
      var t := s[i..];
      var signed := t != [] && (t[0] == '-' || t[0] == '+');
      var body := if signed then t[1..] else t;
      assert body == if i < |s| && s[i] in {'-', '+'} then s[i + 1..] else s[i..];
      var (k, v) := Unsigned(body);
      UnsignedIff(body, v);
      if Strtol(s) == Some(r) {
        assert Reads(s, i, v);
      }
      if j: nat, n: nat :| Reads(s, j, n) && r == Signed(s, j, n) {
        SkipsTo(s, i, j);
        UnsignedIff(body, n);
      }
    }
  }
}
