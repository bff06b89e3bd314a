/** Decimal numbers as bytes: printing, and reading the way formatted stream input does. */
module Decimal {

  type Byte = b: int | 0 <= b < 256

  type Bytes = seq<Byte>

  const SPACE: Byte := 32
  const PLUS: Byte := 43
  const MINUS: Byte := 45
  const ZERO: Byte := 48
  const INT_MAX := 2147483647

  predicate IsDigit(b: Byte) {
    ZERO <= b <= ZERO + 9
  }

  predicate IsSpace(b: Byte) {
    b == SPACE || 9 <= b <= 13
  }

  function Digits(n: nat): (ds: Bytes)
    ensures |ds| > 0 && forall i :: 0 <= i < |ds| ==> IsDigit(ds[i])
  {
    if n < 10 then [ZERO + n] else Digits(n / 10) + [ZERO + n % 10]
  }

  /** The number a run of digits denotes. */
  function Value(ds: Bytes): (n: int)
    decreases |ds|
  {
    if ds == [] then 0 else 10 * Value(ds[..|ds| - 1]) + (ds[|ds| - 1] - ZERO)
  }

  /** Reading back a printed number gives the number. */
  lemma {:induction false} ValueOfDigits(n: nat)
    ensures Value(Digits(n)) == n
  {
    if n >= 10 {
      ValueOfDigits(n / 10);
      assert Digits(n)[..|Digits(n)| - 1] == Digits(n / 10);
    } else {
      assert [ZERO + n][..0] == [];
    }
  }

  /** How many digits the bytes start with. */
  function DigitRun(s: Bytes): (k: nat)
    ensures k <= |s| && forall i :: 0 <= i < k ==> IsDigit(s[i])
    ensures k < |s| ==> !IsDigit(s[k])
    decreases |s|
  {
    if s == [] || !IsDigit(s[0]) then 0 else 1 + DigitRun(s[1..])
  }

  /** The run ends where the digits end. */
  lemma {:induction false} RunOfDigits(ds: Bytes, rest: Bytes)
    requires forall i :: 0 <= i < |ds| ==> IsDigit(ds[i])
    requires rest != [] && !IsDigit(rest[0])
    ensures DigitRun(ds + rest) == |ds|
    decreases |ds|
  {
    if ds == [] {
      assert ds + rest == rest;
    } else {
      assert (ds + rest)[1..] == ds[1..] + rest;
      RunOfDigits(ds[1..], rest);
    }
  }

  function SkipSpace(s: Bytes): (t: Bytes)
    ensures |t| <= |s| && (t != [] ==> !IsSpace(t[0]))
    decreases |s|
  {
    if s != [] && IsSpace(s[0]) then SkipSpace(s[1..]) else s
  }

  /** Reading an int: whether it succeeded, the value, what is left, and whether the end was hit. */
  datatype IntRead = IntRead(ok: bool, value: int, rest: Bytes, eof: bool)

  function ReadInt(s: Bytes): (r: IntRead)
    ensures r.ok && !r.eof ==> 0 < |r.rest| < |s|
  {
    var t := SkipSpace(s);
    if t == [] then IntRead(false, 0, [], true) else
      var u := if t[0] == PLUS || t[0] == MINUS then t[1..] else t;
      var k := DigitRun(u);
      var v := if t[0] == MINUS then -Value(u[..k]) else Value(u[..k]);
      IntRead(k > 0 && -INT_MAX - 1 <= v <= INT_MAX, v, u[k..], k == |u|)
  }

  /** A printed length followed by a space is read back exactly when it fits an int. */
  lemma ReadDigits(n: nat, rest: Bytes)
    ensures ReadInt(Digits(n) + [SPACE] + rest) == IntRead(n <= INT_MAX, n, [SPACE] + rest, false)
  {
    var ds := Digits(n);
    var s := ds + [SPACE] + rest;
    assert s[0] == ds[0] && SkipSpace(s) == s;
    var k := DigitRun(s);
    assert s == ds + ([SPACE] + rest);
    RunOfDigits(ds, [SPACE] + rest);
    assert s[..k] == ds && s[k..] == [SPACE] + rest;
    ValueOfDigits(n);
  }

  function IntText(n: int): Bytes {
    if n < 0 then [MINUS] + Digits(-n) else Digits(n)
  }

  /** Any printed int, of either sign, is read back exactly when it is in range. */
  lemma ReadInteger(n: int, rest: Bytes)
    ensures ReadInt(IntText(n) + [SPACE] + rest) == IntRead(-INT_MAX - 1 <= n <= INT_MAX, n, [SPACE] + rest, false)
  {
    if n >= 0 {
      ReadDigits(n, rest);
    } else {
      var ds := Digits(-n);
      var s := [MINUS] + ds + [SPACE] + rest;
      assert s[0] == MINUS && SkipSpace(s) == s;
      assert s[1..] == ds + ([SPACE] + rest);
      RunOfDigits(ds, [SPACE] + rest);
      assert s[1..][..|ds|] == ds && s[1..][|ds|..] == [SPACE] + rest;
      ValueOfDigits(-n);
    }
  }

  /** The bytes hold no number at their start: only spaces, or something else than digits after an optional sign. */
  ghost predicate NoNumber(s: Bytes) {
    var t := SkipSpace(s);
    || t == []
    || (!IsDigit(t[0]) && t[0] != PLUS && t[0] != MINUS)
    || ((t[0] == PLUS || t[0] == MINUS) && (|t| == 1 || !IsDigit(t[1])))
  }

  /** Reading fails exactly when there is no number or it is out of range, and without a number it gives 0. */
  lemma ReadsNothing(s: Bytes)
    ensures NoNumber(s) ==> !ReadInt(s).ok && ReadInt(s).value == 0
    ensures !NoNumber(s) ==> (ReadInt(s).ok <==> -INT_MAX - 1 <= ReadInt(s).value <= INT_MAX)
  {
  }

  /** Leading spaces do not matter. */
  lemma {:induction false} SpacesSkipped(spaces: Bytes, rest: Bytes)
    requires (forall i :: 0 <= i < |spaces| ==> IsSpace(spaces[i])) && (rest == [] || !IsSpace(rest[0]))
    ensures SkipSpace(spaces + rest) == rest
  {
    if spaces == [] {
      assert spaces + rest == rest;
    } else {
      assert (spaces + rest)[1..] == spaces[1..] + rest;
      SpacesSkipped(spaces[1..], rest);
    }
  }
}
