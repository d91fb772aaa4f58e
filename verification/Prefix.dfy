/**
 IPv4 prefixes as the charon plugin computes and prints them
 (`native/fvl-forticlient-vid/fvl_forticlient_vid_plugin.c`, `mask_to_prefixlen`, `format_prefix`).
 A word is a 32-bit number in host order, written as its bits, the most significant first.
 */
module Prefix {
  import opened Wrappers
  import opened Text

  type Bits = seq<bool>

  type Word = w: Bits | |w| == 32 witness seq(32, _ => false)

  function Trues(n: nat): (b: Bits)
    ensures |b| == n && forall i | 0 <= i < n :: b[i]
  {
    seq(n, _ => true)
  }

  function Falses(n: nat): (b: Bits)
    ensures |b| == n && forall i | 0 <= i < n :: !b[i]
  {
    seq(n, _ => false)
  }

  /** Bitwise conjunction. */
  function And(a: Bits, b: Bits): (r: Bits)
    requires |a| == |b|
    ensures |r| == |a| && forall i | 0 <= i < |a| :: r[i] == (a[i] && b[i])
  {
    seq(|a|, i requires 0 <= i < |a| => a[i] && b[i])
  }

  /** The number of one bits. */
  function PopCount(b: Bits): nat {
    if b == [] then 0 else (if b[0] then 1 else 0) + PopCount(b[1..])
  }

  /** The number of leading ones. */
  function LeadingOnes(b: Bits): (n: nat)
    ensures n <= |b| && b[..n] == Trues(n)
    ensures n < |b| ==> !b[n]
  {
    if b != [] && b[0] then
      assert b == [true] + b[1..];
      1 + LeadingOnes(b[1..])
    else 0
  }

  /** `x <<= 1` in 32 bits. */
  function ShiftLeft(x: Word): Word { x[1..] + [false] }

  /** The mask whose `n` highest bits are the ones. */
  function Ones(n: nat): Word
    requires n <= 32
  {
    Trues(n) + Falses(32 - n)
  }

  ghost predicate Contiguous(mask: Word) { exists n: nat :: n <= 32 && mask == Ones(n) }

  /** The loop of `mask_to_prefixlen`: it ends within 32 steps, on any mask, with the number of leading ones. */
  method MaskToPrefixLen(given: Word) returns (n: nat)
    ensures n == LeadingOnes(given) && n <= 32
  {
    var mask := given;
    n := 0;
    while mask[0]
      invariant n <= 32 && given[..n] == Trues(n)
      invariant mask == given[n..] + Falses(n)
      decreases 32 - n
    {
      assert n < 32;
      assert given[..n + 1] == given[..n] + [given[n]];
      n := n + 1;
      mask := ShiftLeft(mask);
    }
    if n < 32 { assert mask[0] == given[n]; }
    assert forall i | 0 <= i < n :: given[..n][i] == given[i];
    assert n == LeadingOnes(given) by { LeadingOnesUnique(given, n); }
  }

  lemma LeadingOnesUnique(b: Bits, n: nat)
    requires n <= |b| && b[..n] == Trues(n) && (n < |b| ==> !b[n])
    ensures LeadingOnes(b) == n
  {
    var m := LeadingOnes(b);
    assert forall i | 0 <= i < n :: b[..n][i] == b[i];
    assert forall i | 0 <= i < m :: b[..m][i] == b[i];
  }

  // ----- what a prefix denotes -----

  lemma {:induction false} PopCountOnes(n: nat, k: nat)
    ensures PopCount(Trues(n) + Falses(k)) == n
  {
    var b := Trues(n) + Falses(k);
    if n > 0 {
      assert b[1..] == Trues(n - 1) + Falses(k);
      PopCountOnes(n - 1, k);
    } else if k > 0 {
      assert b[1..] == Trues(0) + Falses(k - 1);
      PopCountOnes(0, k - 1);
    }
  }

  /** On a contiguous mask (RFC 4632, section 3.1) the loop counts the one bits. */
  lemma ContiguousLength(mask: Word)
    requires Contiguous(mask)
    ensures LeadingOnes(mask) == PopCount(mask) && mask == Ones(LeadingOnes(mask))
  {
    var n: nat :| n <= 32 && mask == Ones(n);
    LeadingOnesUnique(mask, n);
    PopCountOnes(n, 32 - n);
  }

  /** `x` lies in the prefix: it agrees with the network in the first `n` bits. */
  predicate InPrefix(x: Word, network: Word, n: nat)
    requires n <= 32
  {
    x[..n] == network[..n]
  }

  /** `x` agrees with `addr` under the mask. */
  predicate Agrees(x: Word, addr: Word, mask: Word) { And(x, mask) == And(addr, mask) }

  lemma AgreesBitwise(x: Word, addr: Word, mask: Word)
    ensures Agrees(x, addr, mask) <==> forall i | 0 <= i < 32 && mask[i] :: x[i] == addr[i]
  {
    if Agrees(x, addr, mask) {
      forall i | 0 <= i < 32 && mask[i] ensures x[i] == addr[i] {
        assert And(x, mask)[i] == And(addr, mask)[i];
      }
    }
  }

  /** On a contiguous mask the prefix is exactly the addresses that agree under it. */
  lemma ContiguousIsExact(x: Word, addr: Word, mask: Word)
    requires Contiguous(mask)
    ensures InPrefix(x, And(addr, mask), LeadingOnes(mask)) <==> Agrees(x, addr, mask)
  {
    ContiguousLength(mask);
    AgreesBitwise(x, addr, mask);
    var n, network := LeadingOnes(mask), And(addr, mask);
    if InPrefix(x, network, n) {
      forall i | 0 <= i < 32 && mask[i] ensures x[i] == addr[i] {
        assert i < n && x[..n][i] == network[..n][i];
      }
    }
  }

  /** On any other mask some address of the prefix does not agree. */
  lemma OtherwiseNotExact(addr: Word, mask: Word) returns (x: Word)
    requires !Contiguous(mask)
    ensures InPrefix(x, And(addr, mask), LeadingOnes(mask)) && !Agrees(x, addr, mask)
  {
    var n := LeadingOnes(mask);
    assert mask != Ones(n);
    var i :| 0 <= i < 32 && mask[i] != Ones(n)[i];
    assert forall j | 0 <= j < n :: mask[..n][j] == mask[j];
    x := addr[i := !addr[i]];
    AgreesBitwise(x, addr, mask);
    forall j | 0 <= j < n ensures x[j] == And(addr, mask)[j] {
      assert mask[..n][j];
    }
  }

  /** The prefix computed for an address and a mask is exact for every address exactly when the mask is contiguous. */
  lemma PrefixExact(addr: Word, mask: Word)
    ensures (forall x: Word :: InPrefix(x, And(addr, mask), LeadingOnes(mask)) <==> Agrees(x, addr, mask))
            <==> Contiguous(mask)
  {
    if Contiguous(mask) {
      forall x: Word ensures InPrefix(x, And(addr, mask), LeadingOnes(mask)) <==> Agrees(x, addr, mask) {
        ContiguousIsExact(x, addr, mask);
      }
    } else {
      var x := OtherwiseNotExact(addr, mask);
    }
  }

  /** The length is zero exactly when the first bit of the mask is; a contiguous mask is then zero, and so is the network. */
  lemma LengthZero(addr: Word, mask: Word)
    ensures LeadingOnes(mask) == 0 <==> !mask[0]
    ensures LeadingOnes(mask) == 0 && Contiguous(mask) ==> mask == Falses(32) && And(addr, mask) == Falses(32)
  {
    if LeadingOnes(mask) == 0 && Contiguous(mask) {
      ContiguousLength(mask);
      assert mask == Falses(32);
    }
  }

  // ----- bytes -----

  /** The `k` low bits of a number. */
  function LowBits(b: nat, k: nat): (r: Bits)
    ensures |r| == k
  {
    if k == 0 then [] else LowBits(b / 2, k - 1) + [b % 2 == 1]
  }

  function Value(r: Bits): nat {
    if r == [] then 0 else 2 * Value(r[..|r| - 1]) + if r[|r| - 1] then 1 else 0
  }

  function Power(k: nat): (p: nat)
    ensures p > 0
  {
    if k == 0 then 1 else 2 * Power(k - 1)
  }

  lemma {:induction false} ValueBound(r: Bits)
    ensures Value(r) < Power(|r|)
  {
    if r != [] { ValueBound(r[..|r| - 1]); }
  }

  lemma {:induction false} BitsRoundTrip(r: Bits)
    ensures LowBits(Value(r), |r|) == r
  {
    if r != [] {
      BitsRoundTrip(r[..|r| - 1]);
      assert Value(r) / 2 == Value(r[..|r| - 1]);
    }
  }

  function BitsOf(b: byte): (r: Bits)
    ensures |r| == 8
  {
    LowBits(b, 8)
  }

  function ByteOf(r: Bits): byte
    requires |r| == 8
  {
    ValueBound(r);
    assert Power(8) == 256;
    Value(r)
  }

  /** Four bytes in network order. */
  function WordOf(b: seq<byte>): Word
    requires |b| == 4
  {
    BitsOf(b[0]) + BitsOf(b[1]) + BitsOf(b[2]) + BitsOf(b[3])
  }

  lemma {:induction false} ValueOfLow(a: nat, k: nat)
    requires a < Power(k)
    ensures Value(LowBits(a, k)) == a
  {
    if k > 0 {
      ValueOfLow(a / 2, k - 1);
      assert LowBits(a, k)[..k - 1] == LowBits(a / 2, k - 1);
    }
  }

  /** The four bytes of a word are the bytes it was read from. */
  lemma OctetOfWord(b: seq<byte>, i: nat)
    requires |b| == 4 && i < 4
    ensures WordOf(b)[8 * i..8 * i + 8] == BitsOf(b[i])
    ensures Octet(WordOf(b), i) == b[i]
  {
    assert WordOf(b)[8 * i..8 * i + 8] == BitsOf(b[i]);
    assert Power(8) == 256;
    ValueOfLow(b[i], 8);
  }

  /** A number with its `m` low bits cleared. */
  function Cleared(a: nat, m: nat): nat { if m == 0 then a else 2 * Cleared(a / 2, m - 1) }

  /** It is the greatest multiple of the power that is not above the number. */
  lemma {:induction false} ClearedIs(a: nat, m: nat) returns (q: nat)
    ensures Cleared(a, m) == q * Power(m) && Cleared(a, m) <= a < Cleared(a, m) + Power(m)
  {
    if m == 0 {
      q := a;
    } else {
      q := ClearedIs(a / 2, m - 1);
      assert 2 * (q * Power(m - 1)) == q * (2 * Power(m - 1));
    }
  }

  /** Masking with `k` ones in front of `m` zeros clears the low bits. */
  lemma {:induction false} MaskedValue(a: nat, k: nat, m: nat)
    requires a < Power(k + m)
    ensures Value(And(LowBits(a, k + m), Trues(k) + Falses(m))) == Cleared(a, m)
  {
    if m == 0 {
      ValueOfLow(a, k);
      assert And(LowBits(a, k), Trues(k) + Falses(0)) == LowBits(a, k);
    } else {
      var masked := And(LowBits(a, k + m), Trues(k) + Falses(m));
      var front := And(LowBits(a / 2, k + m - 1), Trues(k) + Falses(m - 1));
      MaskedValue(a / 2, k, m - 1);
      assert masked == front + [false];
    }
  }

  lemma {:induction false} AllOnes(k: nat)
    ensures LowBits(Power(k) - 1, k) == Trues(k)
  {
    if k > 0 {
      AllOnes(k - 1);
      assert (Power(k) - 1) / 2 == Power(k - 1) - 1;
      assert Trues(k) == Trues(k - 1) + [true];
    }
  }

  lemma {:induction false} PowerGrows(k: nat, m: nat)
    ensures Power(m) <= Power(k + m)
  {
    if k > 0 { PowerGrows(k - 1, m); }
  }

  /** The number whose bits are `k` ones in front of `m` zeros. */
  lemma {:induction false} HighBits(k: nat, m: nat)
    ensures Power(m) <= Power(k + m) && LowBits(Power(k + m) - Power(m), k + m) == Trues(k) + Falses(m)
  {
    PowerGrows(k, m);
    if m == 0 {
      AllOnes(k);
      assert Trues(k) + Falses(0) == Trues(k);
    } else {
      HighBits(k, m - 1);
      assert (Power(k + m) - Power(m)) / 2 == Power(k + m - 1) - Power(m - 1);
      assert Trues(k) + Falses(m) == Trues(k) + Falses(m - 1) + [false];
    }
  }

  /** How many bits of octet `i` a prefix of length `n` fixes. */
  function FixedBits(n: nat, i: nat): (k: nat)
    ensures k <= 8
  {
    if n >= 8 * i + 8 then 8 else if n <= 8 * i then 0 else n - 8 * i
  }

  /** The four bytes of the mask 255...0 of length `n`. */
  predicate IsMaskOf(m: seq<byte>, n: nat) {
    |m| == 4 && n <= 32 && forall i: nat | i < 4 :: m[i] == 256 - Power(8 - FixedBits(n, i))
  }

  lemma MaskByte(m: seq<byte>, n: nat, i: nat)
    requires IsMaskOf(m, n) && i < 4
    ensures BitsOf(m[i]) == Trues(FixedBits(n, i)) + Falses(8 - FixedBits(n, i))
  {
    assert Power(8) == 256;
    HighBits(FixedBits(n, i), 8 - FixedBits(n, i));
  }

  lemma MaskWord(m: seq<byte>, n: nat)
    requires IsMaskOf(m, n)
    ensures WordOf(m) == Ones(n) && LeadingOnes(WordOf(m)) == n
  {
    MaskByte(m, n, 0);
    MaskByte(m, n, 1);
    MaskByte(m, n, 2);
    MaskByte(m, n, 3);
    assert WordOf(m) == Ones(n);
    LeadingOnesUnique(Ones(n), n);
  }

  /** The address byte with the bits behind the prefix cleared. */
  function NetworkByte(a: byte, n: nat, i: nat): nat { Cleared(a, 8 - FixedBits(n, i)) }

  /** An octet of the network: the address byte with the bits behind the prefix cleared. */
  lemma NetworkOctet(addr: seq<byte>, m: seq<byte>, n: nat, i: nat)
    requires |addr| == 4 && IsMaskOf(m, n) && i < 4
    ensures Octet(And(WordOf(addr), WordOf(m)), i) == NetworkByte(addr[i], n, i)
  {
    var k := FixedBits(n, i);
    OctetOfWord(addr, i);
    OctetOfWord(m, i);
    MaskByte(m, n, i);
    assert And(WordOf(addr), WordOf(m))[8 * i..8 * i + 8] == And(BitsOf(addr[i]), Trues(k) + Falses(8 - k));
    assert Power(8) == 256;
    MaskedValue(addr[i], k, 8 - k);
  }

  // ----- the printed form -----

  /** A number and what follows it after a separator. */
  function Then(n: nat, sep: char, rest: string): string { Decimal(n) + ([sep] + rest) }

  function Octet(w: Word, i: nat): byte
    requires i < 4
  {
    ByteOf(w[8 * i..8 * i + 8])
  }

  /** `inet_ntoa`. */
  function Quad(w: Word): string {
    Then(Octet(w, 0), '.', Then(Octet(w, 1), '.', Then(Octet(w, 2), '.', Decimal(Octet(w, 3)))))
  }

  /** `format_prefix`: the dotted network and the length. */
  function Render(network: Word, n: nat): string {
    Then(Octet(network, 0), '.', Then(Octet(network, 1), '.', Then(Octet(network, 2), '.', Then(Octet(network, 3), '/', Decimal(n)))))
  }

  lemma ThenUnique(a: nat, x: string, b: nat, y: string, sep: char)
    requires !IsDigit(sep) && Then(a, sep, x) == Then(b, sep, y)
    ensures a == b && x == y
  {
    DigitRunUnique(Decimal(a), Decimal(b), [sep] + x, [sep] + y);
    DecimalInjective(a, b);
    assert x == ([sep] + x)[1..] && y == ([sep] + y)[1..];
  }

  lemma FourThenUnique(a: seq<nat>, x: string, b: seq<nat>, y: string)
    requires |a| == |b| == 4
    requires Then(a[0], '.', Then(a[1], '.', Then(a[2], '.', Then(a[3], '/', x))))
             == Then(b[0], '.', Then(b[1], '.', Then(b[2], '.', Then(b[3], '/', y))))
    ensures a == b && x == y
  {
    ThenUnique(a[0], Then(a[1], '.', Then(a[2], '.', Then(a[3], '/', x))), b[0], Then(b[1], '.', Then(b[2], '.', Then(b[3], '/', y))), '.');
    ThenUnique(a[1], Then(a[2], '.', Then(a[3], '/', x)), b[1], Then(b[2], '.', Then(b[3], '/', y)), '.');
    ThenUnique(a[2], Then(a[3], '/', x), b[2], Then(b[3], '/', y), '.');
    ThenUnique(a[3], x, b[3], y, '/');
  }

  lemma OctetsUnique(v: Word, w: Word)
    requires forall i: nat | i < 4 :: Octet(v, i) == Octet(w, i)
    ensures v == w
  {
    forall i: nat | i < 4 ensures v[8 * i..8 * i + 8] == w[8 * i..8 * i + 8] {
      assert Octet(v, i) == Octet(w, i);
      BitsRoundTrip(v[8 * i..8 * i + 8]);
      BitsRoundTrip(w[8 * i..8 * i + 8]);
    }
    Quarters(v);
    Quarters(w);
  }

  lemma Quarters(w: Word)
    ensures w == w[8 * 0..8 * 0 + 8] + w[8 * 1..8 * 1 + 8] + w[8 * 2..8 * 2 + 8] + w[8 * 3..8 * 3 + 8]
  {}

  /** Different prefixes print differently. */
  lemma RenderInjective(v: Word, m: nat, w: Word, n: nat)
    requires Render(v, m) == Render(w, n)
    ensures v == w && m == n
  {
    var a: seq<nat>, b: seq<nat> := [Octet(v, 0), Octet(v, 1), Octet(v, 2), Octet(v, 3)], [Octet(w, 0), Octet(w, 1), Octet(w, 2), Octet(w, 3)];
    FourThenUnique(a, Decimal(m), b, Decimal(n));
    assert a[0] == b[0] && a[1] == b[1] && a[2] == b[2] && a[3] == b[3];
    OctetsUnique(v, w);
    DecimalInjective(m, n);
  }

  /** A dotted quad and what follows it. */
  function Dotted(a: nat, b: nat, c: nat, d: nat, rest: string): string {
    Decimal(a) + ("." + (Decimal(b) + ("." + (Decimal(c) + ("." + (Decimal(d) + rest))))))
  }

  /** What is printed for an address and a contiguous mask, in their own bytes. */
  lemma PrintedPrefix(addr: seq<byte>, m: seq<byte>, n: nat)
    requires |addr| == 4 && IsMaskOf(m, n)
    ensures Render(And(WordOf(addr), WordOf(m)), LeadingOnes(WordOf(m)))
            == Dotted(NetworkByte(addr[0], n, 0), NetworkByte(addr[1], n, 1), NetworkByte(addr[2], n, 2), NetworkByte(addr[3], n, 3),
                      "/" + Decimal(n))
  {
    MaskWord(m, n);
    NetworkOctet(addr, m, n, 0);
    NetworkOctet(addr, m, n, 1);
    NetworkOctet(addr, m, n, 2);
    NetworkOctet(addr, m, n, 3);
  }

  /** An address prints as its four bytes. */
  lemma PrintedAddress(b: seq<byte>)
    requires |b| == 4
    ensures Quad(WordOf(b)) == Dotted(b[0], b[1], b[2], b[3], "")
  {
    OctetOfWord(b, 0);
    OctetOfWord(b, 1);
    OctetOfWord(b, 2);
    OctetOfWord(b, 3);
    assert Decimal(b[3]) + "" == Decimal(b[3]);
  }
}
