/** One-time codes of apps/api/services/authlib/totp/totp.go: section 5.3 of RFC 4226 and sections 4.2
    and 5.2 of RFC 6238. HMAC-SHA-1 and base32 decoding are parameters. */
module Totp {
  import opened Wrappers

  const STEP_SECONDS := 30
  const CODE_DIGITS := 6

  type Digest = d: seq<Byte> | |d| == 20 witness seq(20, _ => 0)
  type Key = seq<Byte>

  /** Any keyed hash with 20-byte results over an 8-byte counter, and any secret decoder. */
  datatype Suite = Suite(mac: (Key, seq<Byte>) -> Digest, decode: string -> Option<Key>)

  /// The counter and the truncation

  function BigEndian(n: nat, width: nat): (bytes: seq<Byte>)
    ensures |bytes| == width
  {
    if width == 0 then [] else BigEndian(n / 256, width - 1) + [n % 256]
  }

  function FromBigEndian(bytes: seq<Byte>): nat {
    if bytes == [] then 0 else FromBigEndian(bytes[..|bytes| - 1]) * 256 + bytes[|bytes| - 1]
  }

  function Power(base: nat, e: nat): nat { if e == 0 then 1 else base * Power(base, e - 1) }

  lemma {:induction false} CounterRoundTrip(n: nat, width: nat)
    requires n < Power(256, width)
    ensures FromBigEndian(BigEndian(n, width)) == n
    decreases width
  {
    if width == 0 {
    } else {
      assert n / 256 < Power(256, width - 1);
      CounterRoundTrip(n / 256, width - 1);
      assert BigEndian(n, width)[..width - 1] == BigEndian(n / 256, width - 1);
    }
  }

  /** Distinct steps hash distinct counters. */
  lemma CounterInjective(m: nat, n: nat)
    requires m < Power(256, 8) && n < Power(256, 8)
    ensures BigEndian(m, 8) == BigEndian(n, 8) <==> m == n
  {
    CounterRoundTrip(m, 8);
    CounterRoundTrip(n, 8);
  }

  function Offset(d: Digest): nat { d[19] % 16 }

  /** Dynamic truncation: four bytes at the offset, the top bit cleared. */
  function Truncated(d: Digest): nat {
    FromBigEndian(d[Offset(d)..Offset(d) + 4]) % 0x8000_0000
  }

  function Word(a: int, b: int, c: int, d: int): int { a * 0x100_0000 + b * 0x1_0000 + c * 0x100 + d }

  /** Section 5.3 of RFC 4226 on the digest itself: the offset is the low nibble of the last byte, and the
      four bytes from there on, always inside the digest, are read with the top bit of the first cleared. */
  lemma TruncationMeaning(d: Digest)
    ensures var o := d[19] % 16;
            && o + 4 <= 19
            && Truncated(d) == Word(d[o] % 128, d[o + 1], d[o + 2], d[o + 3])
            && Truncated(d) < 0x8000_0000
  {
    var o := d[19] % 16;
    var four := d[o..o + 4];
    FourBytes(four);
    assert four == [d[o], d[o + 1], d[o + 2], d[o + 3]];
    ClearTopBit(d[o], d[o + 1], d[o + 2], d[o + 3]);
  }

  lemma ClearTopBit(a: Byte, b: Byte, c: Byte, d: Byte)
    ensures 0 <= Word(a % 128, b, c, d) < 0x8000_0000
    ensures Word(a, b, c, d) % 0x8000_0000 == Word(a % 128, b, c, d)
  {
    if a < 128 {
      assert a % 128 == a;
    } else {
      assert a % 128 == a - 128 && Word(a, b, c, d) == Word(a % 128, b, c, d) + 0x8000_0000;
    }
  }

  lemma FourBytes(four: seq<Byte>)
    requires |four| == 4
    ensures FromBigEndian(four) == Word(four[0], four[1], four[2], four[3])
  {
    assert four[..3][..2] == four[..2] && four[..2][..1] == four[..1] && four[..1][..0] == [];
    assert FromBigEndian(four[..1]) == four[0];
    assert FromBigEndian(four[..2]) == Word(0, 0, four[0], four[1]);
    assert FromBigEndian(four[..3]) == Word(0, four[0], four[1], four[2]);
  }

  /** The digest of the example in section 5.4 of RFC 4226, its 31-bit value and its code. */
  const EXAMPLE: Digest :=
    [0x1f, 0x86, 0x98, 0x69, 0x0e, 0x02, 0xca, 0x16, 0x61, 0x85,
     0x50, 0xef, 0x7f, 0x19, 0xda, 0x8e, 0x94, 0x5b, 0x55, 0x5a]

  lemma TruncationExample()
    ensures Truncated(EXAMPLE) == 0x50ef_7f19 && Truncated(EXAMPLE) % 1_000_000 == 872_921
  {
    TruncationMeaning(EXAMPLE);
    assert EXAMPLE[19] % 16 == 10;
    assert EXAMPLE[10] == 0x50 && EXAMPLE[11] == 0xef && EXAMPLE[12] == 0x7f && EXAMPLE[13] == 0x19;
  }

  /// Codes

  /** The last `width` decimal digits of `n`, zero-padded. */
  function Padded(n: nat, width: nat): (text: string)
    ensures |text| == width && forall i :: 0 <= i < width ==> IsDigit(text[i])
  {
    if width == 0 then "" else Padded(n / 10, width - 1) + [Digit(n % 10)]
  }

  function CodeFor(suite: Suite, key: Key, step: nat): string {
    Padded(Truncated(suite.mac(key, BigEndian(step, 8))) % Power(10, CODE_DIGITS), CODE_DIGITS)
  }

  method CodeForStep(suite: Suite, key: Key, step: nat) returns (code: string)
    ensures code == CodeFor(suite, key, step)
    ensures |code| == 6 && forall i :: 0 <= i < 6 ==> IsDigit(code[i])
  {
    var digest := suite.mac(key, BigEndian(step, 8));
    var offset := digest[|digest| - 1] % 16;
    var value := FromBigEndian(digest[offset..offset + 4]) % 0x8000_0000;
    var modulus := 1;
    for i := 0 to CODE_DIGITS
      invariant modulus == Power(10, i) && Power(10, i + 1) == 10 * modulus
    {
      modulus := modulus * 10;
    }
    code := Padded(value % modulus, CODE_DIGITS);
  }

  /** The number a decimal text stands for. */
  function DecimalValue(text: string): int {
    if text == "" then 0
    else DecimalValue(text[..|text| - 1]) * 10 + (text[|text| - 1] as int - '0' as int)
  }

  /** Zero-padding a number that fits writes that number. */
  lemma {:induction false} PaddedValue(n: nat, width: nat)
    requires n < Power(10, width)
    ensures DecimalValue(Padded(n, width)) == n
    decreases width
  {
    if width == 0 {
    } else {
      PaddedValue(n / 10, width - 1);
      var head := Padded(n / 10, width - 1);
      assert (head + [Digit(n % 10)])[..width - 1] == head;
    }
  }

  /** The code of a step is the truncated hash modulo 10^6, as six decimal digits: different remainders
      have different codes. */
  lemma CodeValue(suite: Suite, key: Key, step: nat)
    ensures var code := CodeFor(suite, key, step);
            && |code| == 6 && (forall i :: 0 <= i < 6 ==> IsDigit(code[i]))
            && DecimalValue(code) == Truncated(suite.mac(key, BigEndian(step, 8))) % 1_000_000
  {
    var value := Truncated(suite.mac(key, BigEndian(step, 8)));
    assert Power(10, CODE_DIGITS) == 1_000_000;
    PaddedValue(value % 1_000_000, CODE_DIGITS);
  }

  /// Generation and verification

  function StepOf(t: nat): nat { t / STEP_SECONDS }

  function Decoded(suite: Suite, secret: string): Option<Key> {
    if secret == "" then None
    else match suite.decode(secret)
         case None => None
         case Some(key) => if key == [] then None else Some(key)
  }

  function Generated(suite: Suite, secret: string, t: int): Option<string> {
    match Decoded(suite, secret)
    case None => None
    case Some(key) => if t < 0 then None else Some(CodeFor(suite, key, StepOf(t)))
  }

  /** The code is the one of step `s`. */
  predicate Matches(suite: Suite, secret: string, code: string, s: int) {
    Decoded(suite, secret).Some? && IsCode(suite, Decoded(suite, secret).value, code, s)
  }

  predicate IsCode(suite: Suite, key: Key, code: string, s: int) { s >= 0 && code == CodeFor(suite, key, s) }

  /** The index of the first candidate step whose code this is, or the length. */
  method FirstMatch(suite: Suite, key: Key, code: string, candidates: seq<int>) returns (i: nat)
    ensures i <= |candidates| && (i < |candidates| ==> IsCode(suite, key, code, candidates[i]))
    ensures forall k :: 0 <= k < i ==> !IsCode(suite, key, code, candidates[k])
  {
    for j := 0 to |candidates|
      invariant forall k :: 0 <= k < j ==> !IsCode(suite, key, code, candidates[k])
    {
      if candidates[j] >= 0 {
        var want := CodeForStep(suite, key, candidates[j]);
        if code == want {
          return j;
        }
      }
    }
    return |candidates|;
  }

  /** What verification accepts at time `t`: the code of a nonnegative step at most one away. */
  ghost predicate Accepts(suite: Suite, secret: string, code: string, t: int) {
    t >= 0 && exists s :: t / STEP_SECONDS - 1 <= s <= t / STEP_SECONDS + 1 && Matches(suite, secret, code, s)
  }

  method AllDigits(code: string) returns (ok: bool)
    ensures ok <==> forall k :: 0 <= k < |code| ==> IsDigit(code[k])
  {
    for i := 0 to |code|
      invariant forall k :: 0 <= k < i ==> IsDigit(code[k])
    {
      if code[i] < '0' || code[i] > '9' {
        return false;
      }
    }
    return true;
  }

  /** A code can be generated iff the secret decodes to a nonempty key and the time is not before the epoch;
      it is then the code of the 30 s step the time lies in. */
  lemma GeneratedIff(suite: Suite, secret: string, t: int)
    ensures Generated(suite, secret, t).Some? <==>
            secret != "" && suite.decode(secret).Some? && suite.decode(secret).value != [] && t >= 0
    ensures forall step: nat :: Generated(suite, secret, t).Some? && 30 * step <= t < 30 * (step + 1) ==>
              Generated(suite, secret, t) == Some(CodeFor(suite, suite.decode(secret).value, step))
  {
  }

  lemma OnlySixDigitsMatch(suite: Suite, secret: string, code: string, t: int)
    ensures Accepts(suite, secret, code, t) ==>
              |code| == 6 && forall i :: 0 <= i < 6 ==> IsDigit(code[i])
  {
  }

  lemma AcceptsThree(suite: Suite, secret: string, code: string, t: int)
    ensures var current := t / 30;
            Accepts(suite, secret, code, t) <==>
              t >= 0 && (Matches(suite, secret, code, current) || Matches(suite, secret, code, current - 1)
                         || Matches(suite, secret, code, current + 1))
  {
  }

  /** Accepted iff the code belongs to a nonnegative step at most one away from now; the step returned is
      such a step, and the current one wins over the previous, the previous over the next. */
  method VerifyWithStep(suite: Suite, secret: string, code: string, t: int) returns (step: int, ok: bool)
    ensures ok <==> Accepts(suite, secret, code, t)
    ensures ok ==> t / 30 - 1 <= step <= t / 30 + 1 && Matches(suite, secret, code, step)
    ensures ok && step != t / 30 ==> !Matches(suite, secret, code, t / 30)
    ensures ok && step > t / 30 ==> !Matches(suite, secret, code, t / 30 - 1)
    ensures !ok ==> step == 0
  {
    OnlySixDigitsMatch(suite, secret, code, t);
    AcceptsThree(suite, secret, code, t);
    if |code| != CODE_DIGITS || t < 0 {
      return 0, false;
    }
    var digits := AllDigits(code);
    if !digits {
      return 0, false;
    }
    var key := Decoded(suite, secret);
    if key.None? {
      return 0, false;
    }
    var current := t / STEP_SECONDS;
    var candidates := [current, current - 1, current + 1];
    var i := FirstMatch(suite, key.value, code, candidates);
    assert i > 0 ==> !IsCode(suite, key.value, code, candidates[0]);
    assert i > 1 ==> !IsCode(suite, key.value, code, candidates[1]);
    assert i > 2 ==> !IsCode(suite, key.value, code, candidates[2]);
    if i < |candidates| {
      assert Matches(suite, secret, code, candidates[i]);
      return candidates[i], true;
    }
    return 0, false;
  }

  /** A code generated at `t` is accepted at every time within one step length of `t`; from two step
      lengths away on it is accepted only if it is the code of another step as well. */
  lemma DriftWindow(suite: Suite, secret: string, t: int, t': int)
    requires Decoded(suite, secret).Some? && t >= 0 && t' >= 0
    ensures var code := Generated(suite, secret, t).value;
            && (-30 <= t' - t <= 30 ==> Accepts(suite, secret, code, t'))
            && (Accepts(suite, secret, code, t') && (t' - t >= 60 || t - t' >= 60) ==>
                  exists s :: s != StepOf(t) && Matches(suite, secret, code, s))
  {
    var code := Generated(suite, secret, t).value;
    assert Matches(suite, secret, code, StepOf(t));
    if -STEP_SECONDS <= t' - t <= STEP_SECONDS {
      assert t' / STEP_SECONDS - 1 <= StepOf(t) <= t' / STEP_SECONDS + 1;
    }
    if Accepts(suite, secret, code, t') && (t' - t >= 2 * STEP_SECONDS || t - t' >= 2 * STEP_SECONDS) {
      var s :| t' / STEP_SECONDS - 1 <= s <= t' / STEP_SECONDS + 1 && Matches(suite, secret, code, s);
      assert s != StepOf(t);
    }
  }
}
