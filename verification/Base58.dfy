/** Byte strings as big-endian numbers, and the agent's inline base58 encoder. */
module Base58 {
  import opened Protocol

  type byte = b: int | 0 <= b < 256
  type bytes = seq<byte>

  const BASE58_ALPHABET: string :=
    "123456789" + "ABCDEFGH" + "JKLMN" + "PQRSTUVWXYZ" + "abcdefghijk" + "mnopqrstuvwxyz"

  /** The character code of digit `d`: six ascending stretches. */
  function LetterCode(d: int): int {
    if d < 9 then 49 + d
    else if d < 17 then 65 + (d - 9)
    else if d < 22 then 74 + (d - 17)
    else if d < 33 then 80 + (d - 22)
    else if d < 44 then 97 + (d - 33)
    else 109 + (d - 44)
  }

  /** The characters of `s` are consecutive, starting with the code `from`. */
  predicate Ascending(s: string, from: int) {
    forall i :: 0 <= i < |s| ==> s[i] as int == from + i
  }

  lemma Stretches()
    ensures Ascending("123456789", 49) && Ascending("ABCDEFGH", 65) && Ascending("JKLMN", 74)
    ensures Ascending("PQRSTUVWXYZ", 80) && Ascending("abcdefghijk", 97) && Ascending("mnopqrstuvwxyz", 109)
  {
  }

  lemma AlphabetCodes(d: int)
    requires 0 <= d < 58
    ensures |BASE58_ALPHABET| == 58
    ensures BASE58_ALPHABET[d] as int == LetterCode(d)
  {
    Stretches();
    SixStretches("123456789", "ABCDEFGH", "JKLMN", "PQRSTUVWXYZ", "abcdefghijk", "mnopqrstuvwxyz", d);
  }

  lemma SixStretches(a: string, b: string, c: string, e: string, f: string, g: string, d: int)
    requires |a| == 9 && |b| == 8 && |c| == 5 && |e| == 11 && |f| == 11 && |g| == 14 && 0 <= d < 58
    requires Ascending(a, 49) && Ascending(b, 65) && Ascending(c, 74)
    requires Ascending(e, 80) && Ascending(f, 97) && Ascending(g, 109)
    ensures var s := a + b + c + e + f + g; |s| == 58 && s[d] as int == LetterCode(d)
  {
  }

  lemma AlphabetHas58Letters()
    ensures |BASE58_ALPHABET| == 58
    ensures forall i, j :: 0 <= i < j < 58 ==> BASE58_ALPHABET[i] != BASE58_ALPHABET[j]
  {
    forall i, j | 0 <= i < j < 58
      ensures BASE58_ALPHABET[i] != BASE58_ALPHABET[j]
    {
      AlphabetCodes(i);
      AlphabetCodes(j);
    }
  }

  // ---------- Specification ----------

  function LeadingZeros(b: bytes): nat {
    if |b| > 0 && b[0] == 0 then 1 + LeadingZeros(b[1..]) else 0
  }

  /** The number a byte string denotes, most significant byte first. */
  function Number(b: bytes): nat {
    if b == [] then 0 else 256 * Number(b[..|b| - 1]) + b[|b| - 1]
  }

  /** Digits of `n`, most significant first, none for zero. */
  function Digits(n: nat): string {
    if n == 0 then "" else Digits(n / 58) + [Letter(n % 58)]
  }

  function Letter(d: int): char
    requires 0 <= d < 58
  {
    AlphabetHas58Letters();
    BASE58_ALPHABET[d]
  }

  function Ones(n: nat): string {
    seq(n, _ => '1')
  }

  /** What the encoder returns. */
  function Encode(b: bytes): string {
    Ones(LeadingZeros(b)) + Digits(Number(b))
  }

  // ---------- A decoder, independent of the encoder ----------

  function IndexOf(alphabet: string, ch: char): Option<nat> {
    if alphabet == "" then None
    else if alphabet[0] == ch then Some(0)
    else match IndexOf(alphabet[1..], ch)
         case None => None
         case Some(i) => Some(i + 1)
  }

  function LeadingOnes(s: string): nat {
    if |s| > 0 && s[0] == '1' then 1 + LeadingOnes(s[1..]) else 0
  }

  /** The value of base58 text, most significant digit first. */
  function Value(s: string): Option<nat> {
    if s == "" then Some(0)
    else match (Value(s[..|s| - 1]), IndexOf(BASE58_ALPHABET, s[|s| - 1]))
         case (Some(v), Some(d)) => Some(58 * v + d)
         case _ => None
  }

  /** The shortest big-endian byte string that denotes `n`. */
  function Minimal(n: nat): bytes {
    if n == 0 then [] else Minimal(n / 256) + [n % 256]
  }

  function Decode(s: string): Option<bytes> {
    match Value(s)
    case None => None
    case Some(v) => Some(seq(LeadingOnes(s), _ => 0) + Minimal(v))
  }

  // ---------- Round trip ----------

  lemma {:induction false} IndexOfFinds(alphabet: string, i: nat)
    requires i < |alphabet|
    requires forall j, k :: 0 <= j < k < |alphabet| ==> alphabet[j] != alphabet[k]
    ensures IndexOf(alphabet, alphabet[i]) == Some(i)
  {
    if i > 0 {
      IndexOfFinds(alphabet[1..], i - 1);
    }
  }

  lemma LetterIndex(d: int)
    requires 0 <= d < 58
    ensures IndexOf(BASE58_ALPHABET, Letter(d)) == Some(d)
    ensures Letter(d) == '1' <==> d == 0
  {
    hide IndexOf;
    AlphabetHas58Letters();
    AlphabetCodes(0);
    IndexOfFinds(BASE58_ALPHABET, d);
  }

  lemma {:induction false} ValueOfDigits(n: nat)
    ensures Value(Digits(n)) == Some(n)
  {
    hide IndexOf, Letter;
    if n > 0 {
      ValueOfDigits(n / 58);
      LetterIndex(n % 58);
      var s := Digits(n);
      assert s[..|s| - 1] == Digits(n / 58);
    }
  }

  lemma {:induction false} DigitsStart(n: nat)
    ensures n > 0 ==> |Digits(n)| > 0 && Digits(n)[0] != '1'
  {
    hide Letter;
    if n > 0 {
      LetterIndex(n % 58);
      DigitsStart(n / 58);
      assert n < 58 ==> n / 58 == 0 && n % 58 == n;
    }
  }

  lemma {:induction false} ValueAfterOnes(k: nat, s: string)
    requires Value(s).Some?
    ensures Value(Ones(k) + s) == Value(s)
  {
    hide IndexOf;
    if s == "" {
      assert Ones(k) + s == Ones(k);
      if k > 0 {
        ValueAfterOnes(k - 1, s);
        assert Ones(k)[..k - 1] == Ones(k - 1) == Ones(k - 1) + s;
        LetterIndex(0);
      }
    } else {
      var t := Ones(k) + s;
      assert t[..|t| - 1] == Ones(k) + s[..|s| - 1];
      ValueAfterOnes(k, s[..|s| - 1]);
    }
  }

  lemma {:induction false} OnesAhead(k: nat, s: string)
    requires s == "" || s[0] != '1'
    ensures LeadingOnes(Ones(k) + s) == k
  {
    var t := Ones(k) + s;
    if k > 0 {
      assert t[1..] == Ones(k - 1) + s;
      OnesAhead(k - 1, s);
    }
  }

  /** The bytes are their leading zeros followed by the shortest form of their number. */
  lemma {:induction false} BytesAreZerosAndMinimal(b: bytes)
    ensures LeadingZeros(b) <= |b|
    ensures b == seq(LeadingZeros(b), _ => 0) + Minimal(Number(b))
  {
    if b != [] {
      var init, last := b[..|b| - 1], b[|b| - 1];
      BytesAreZerosAndMinimal(init);
      assert b == init + [last];
      ZerosOfSnoc(init, last);
      var n := Number(init);
      assert Number(b) == 256 * n + last;
      DivMod(n, last, 256);
      if Number(b) == 0 {
        assert n == 0;
      }
    }
  }

  lemma {:induction false} ZerosOfSnoc(b: bytes, x: byte)
    ensures LeadingZeros(b) <= |b|
    ensures LeadingZeros(b) < |b| ==> Number(b) > 0
    ensures LeadingZeros(b) == |b| ==> Number(b) == 0
    ensures LeadingZeros(b + [x]) == if LeadingZeros(b) == |b| && x == 0 then |b| + 1 else LeadingZeros(b)
    decreases |b|
  {
    if b != [] {
      assert (b + [x])[1..] == b[1..] + [x];
      ZerosOfSnoc(b[1..], x);
      NumberFromFront(b);
    }
  }

  lemma {:induction false} NumberFromFront(b: bytes)
    requires b != []
    ensures b[0] == 0 ==> Number(b) == Number(b[1..])
    ensures b[0] != 0 ==> Number(b) > 0
  {
    if |b| > 1 {
      var init := b[..|b| - 1];
      NumberFromFront(init);
      assert init[1..] == b[1..][..|b| - 2];
    }
  }

  lemma DivMod(q: int, r: int, d: int)
    requires 0 <= r < d
    ensures (d * q + r) / d == q && (d * q + r) % d == r
  {
    var n := d * q + r;
    assert n == d * (n / d) + n % d;
    var k := n / d - q;
    assert d * k + n % d == r;
    assert k >= 1 ==> d * k >= d;
    assert k <= -1 ==> d * k <= -d;
  }

  /** Decoding recovers every byte string; the encoder is therefore injective. */
  lemma RoundTrip(b: bytes)
    ensures Decode(Encode(b)) == Some(b)
    ensures LeadingOnes(Encode(b)) == LeadingZeros(b)
  {
    var n := Number(b);
    ValueOfDigits(n);
    ValueAfterOnes(LeadingZeros(b), Digits(n));
    DigitsStart(n);
    OnesAhead(LeadingZeros(b), Digits(n));
    BytesAreZerosAndMinimal(b);
  }

  lemma Injective(a: bytes, b: bytes)
    requires Encode(a) == Encode(b)
    ensures a == b
  {
    RoundTrip(a);
    RoundTrip(b);
  }

  // ---------- Length bounds ----------

  function Pow(b: nat, e: nat): nat {
    if e == 0 then 1 else b * Pow(b, e - 1)
  }

  lemma {:induction false} DigitsUpper(n: nat, e: nat)
    requires n < Pow(58, e)
    ensures |Digits(n)| <= e
  {
    if n > 0 && e > 0 {
      assert n / 58 < Pow(58, e - 1);
      DigitsUpper(n / 58, e - 1);
    }
  }

  lemma {:induction false} DigitsLower(n: nat, e: nat)
    requires n >= Pow(58, e)
    ensures |Digits(n)| >= e + 1
  {
    if e > 0 {
      assert n / 58 >= Pow(58, e - 1);
      DigitsLower(n / 58, e - 1);
    } else {
      assert n >= 1;
    }
  }

  lemma {:induction false} PowGrows(a: nat, b: nat, e: nat)
    requires 1 <= a <= b
    ensures 1 <= Pow(a, e) <= Pow(b, e)
  {
    if e > 0 {
      PowGrows(a, b, e - 1);
      MulGrows(a, b, Pow(a, e - 1), Pow(b, e - 1));
    }
  }

  lemma MulGrows(a: nat, b: nat, x: nat, y: nat)
    requires 1 <= a <= b && 1 <= x <= y
    ensures 1 <= a * x <= b * y
  {
    assert a * x <= b * x <= b * y;
    assert 1 * 1 <= a * x;
  }

  lemma {:induction false} NumberRange(b: bytes)
    ensures Number(b) < Pow(256, |b|)
    ensures LeadingZeros(b) <= |b|
    ensures LeadingZeros(b) < |b| ==> Number(b) >= Pow(256, |b| - LeadingZeros(b) - 1)
  {
    if b != [] {
      var init, last := b[..|b| - 1], b[|b| - 1];
      NumberRange(init);
      assert b == init + [last];
      ZerosOfSnoc(init, last);
    }
  }

  /** 256^(32-z) <= 58^(44-z): cutting a byte costs the left side more. */
  lemma {:induction false} Crossing(z: nat)
    requires z <= 32
    ensures Pow(256, 32 - z) <= Pow(58, 44 - z)
  {
    if z == 0 {
      ThirtyTwoBytes();
    } else {
      Crossing(z - 1);
      assert Pow(256, 33 - z) == 256 * Pow(256, 32 - z);
      assert Pow(58, 45 - z) == 58 * Pow(58, 44 - z);
      PowGrows(1, 256, 32 - z);
    }
  }

  lemma {:induction false} PowAdd(b: nat, d: nat, e: nat)
    ensures Pow(b, d + e) == Pow(b, d) * Pow(b, e)
  {
    if d > 0 {
      PowAdd(b, d - 1, e);
      assert b * (Pow(b, d - 1) * Pow(b, e)) == (b * Pow(b, d - 1)) * Pow(b, e);
    }
  }

  lemma ThirtyTwoBytes()
    ensures Pow(256, 32) <= Pow(58, 44)
  {
    assert Pow(256, 2) == 65536;
    PowAdd(256, 2, 2);
    PowAdd(256, 4, 4);
    assert Pow(256, 8) == 18446744073709551616;
    assert Pow(58, 2) == 3364;
    PowAdd(58, 2, 2);
    PowAdd(58, 4, 4);
    assert Pow(58, 8) == 128063081718016;
    PowAdd(58, 8, 3);
    assert Pow(58, 3) == 195112;
    assert Pow(58, 11) == 24986644000165537792;
    PowAdd(256, 8, 8);
    PowAdd(256, 16, 16);
    PowAdd(58, 11, 11);
    PowAdd(58, 22, 22);
    MulGrows(Pow(256, 8), Pow(58, 11), Pow(256, 8), Pow(58, 11));
    MulGrows(Pow(256, 16), Pow(58, 22), Pow(256, 16), Pow(58, 22));
  }

  /** Every 32-byte input yields 32 to 44 characters. */
  lemma PubkeyLength(b: bytes)
    requires |b| == 32
    ensures 32 <= |Encode(b)| <= 44
  {
    hide Pow, Digits, Number, LeadingZeros;
    var z := LeadingZeros(b);
    var n := Number(b);
    NumberRange(b);
    BytesAreZerosAndMinimal(b);
    NumberBelow(b);
    Crossing(z);
    DigitsUpper(n, 44 - z);
    if z < 32 {
      PowGrows(58, 256, 32 - z - 1);
      DigitsLower(n, 32 - z - 1);
    }
  }

  lemma {:induction false} NumberBelow(b: bytes)
    ensures LeadingZeros(b) <= |b|
    ensures Number(b) < Pow(256, |b| - LeadingZeros(b))
  {
    if b != [] {
      if b[0] == 0 {
        NumberBelow(b[1..]);
        NumberFromFront(b);
      } else {
        NumberRange(b);
      }
    }
  }

  // ---------- The encoder as the agent runs it ----------

  /** Three loops: count leading zeros, fold the bytes into a number, and take
      base-58 digits off its low end. */
  method Base58Encode(buf: bytes) returns (text: string)
    ensures text == Encode(buf)
  {
    if |buf| == 0 {
      assert Ones(0) + Digits(0) == "";
      return "";
    }
    var zeros := 0;
    while zeros < |buf| && buf[zeros] == 0
      invariant 0 <= zeros <= |buf|
      invariant LeadingZeros(buf) == zeros + LeadingZeros(buf[zeros..])
    {
      zeros := zeros + 1;
    }
    var n: nat := 0;
    for i := 0 to |buf|
      invariant n == Number(buf[..i])
    {
      assert buf[..i + 1][..i] == buf[..i];
      n := n * 256 + buf[i];
    }
    assert buf[..|buf|] == buf;
    var text' := "";
    while n > 0
      invariant Digits(n) + text' == Digits(Number(buf))
    {
      var rem := n % 58;
      assert Digits(n) + text' == Digits(n / 58) + ([Letter(rem)] + text');
      n := n / 58;
      text' := [Letter(rem)] + text';
    }
    text := Ones(zeros) + text';
  }
}
