/** Big-endian bytes, and the 128-bit counter whose low 96 bits are the next AES-GCM nonce. */
module NonceBytes {
  type byte = x: int | 0 <= x < 256

  const NONCE_LEN := 12
  const SEQUENCE_NUMBER_START_INDEX := 4
  const U128_LEN := 16
  const U96_RANGE := 0x1_0000_0000_0000_0000_0000_0000
  const U128_RANGE := 0x1_0000_0000_0000_0000_0000_0000_0000_0000

  function Pow256(n: nat): (p: nat)
    ensures p > 0
  {
    if n == 0 then 1 else 256 * Pow256(n - 1)
  }

  /** The low `n` bytes of `x`, most significant first. */
  function ToBytes(x: nat, n: nat): (bytes: seq<byte>)
    ensures |bytes| == n
  {
    if n == 0 then [] else ToBytes(x / 256, n - 1) + [x % 256]
  }

  function FromBytes(bytes: seq<byte>): nat {
    if bytes == [] then 0 else FromBytes(bytes[..|bytes| - 1]) * 256 + bytes[|bytes| - 1]
  }

  /** Reading back what was written, for numbers that fit. */
  lemma {:induction false} FromToBytes(x: nat, n: nat)
    requires x < Pow256(n)
    ensures FromBytes(ToBytes(x, n)) == x
  {
    if n > 0 {
      FromToBytes(x / 256, n - 1);
      assert ToBytes(x, n)[..n - 1] == ToBytes(x / 256, n - 1);
    }
  }

  lemma ToBytesInjective(a: nat, b: nat, n: nat)
    requires a < Pow256(n) && b < Pow256(n)
    ensures ToBytes(a, n) == ToBytes(b, n) <==> a == b
  {
    FromToBytes(a, n);
    FromToBytes(b, n);
  }

  /** Writing back what was read gives the same bytes. */
  lemma {:induction false} ToFromBytes(bytes: seq<byte>)
    ensures ToBytes(FromBytes(bytes), |bytes|) == bytes
  {
    if bytes != [] {
      ToFromBytes(bytes[..|bytes| - 1]);
    }
  }

  lemma {:induction false} FromBytesBound(bytes: seq<byte>)
    ensures FromBytes(bytes) < Pow256(|bytes|)
  {
    if bytes != [] {
      FromBytesBound(bytes[..|bytes| - 1]);
    }
  }

  lemma {:induction false} LowBytes(x: nat, n: nat, k: nat)
    requires k <= n
    ensures ToBytes(x, n)[n - k..] == ToBytes(x, k)
  {
    if k > 0 {
      LowBytes(x / 256, n - 1, k - 1);
      assert ToBytes(x, n)[n - k..] == ToBytes(x / 256, n - 1)[n - k..] + [x % 256];
    }
  }

  lemma {:induction false} LeadingZeros(bytes: seq<byte>, n: nat)
    ensures FromBytes(seq(n, _ => 0) + bytes) == FromBytes(bytes)
  {
    var padded := seq(n, _ => 0) + bytes;
    if bytes != [] {
      LeadingZeros(bytes[..|bytes| - 1], n);
      assert padded[..|padded| - 1] == seq(n, _ => 0) + bytes[..|bytes| - 1];
    } else if n > 0 {
      LeadingZeros([], n - 1);
      assert padded[..|padded| - 1] == seq(n - 1, _ => 0) + [];
    }
  }

  /** Whole multiples of the width do not show. */
  lemma {:induction false} Periodic(x: nat, c: nat, n: nat)
    ensures ToBytes(x + c * Pow256(n), n) == ToBytes(x, n)
  {
    if n > 0 {
      var m := c * Pow256(n - 1);
      assert c * Pow256(n) == 256 * m;
      assert (x + 256 * m) / 256 == x / 256 + m && (x + 256 * m) % 256 == x % 256;
      Periodic(x / 256, c, n - 1);
    }
  }

  lemma Widths()
    ensures Pow256(NONCE_LEN) == U96_RANGE && Pow256(U128_LEN) == U128_RANGE
  {
    assert Pow256(4) == 0x1_0000_0000;
    assert Pow256(8) == 0x1_0000_0000_0000_0000;
  }

  lemma WrapKeepsNonce(x: nat)
    ensures ToBytes(x % U128_RANGE, NONCE_LEN) == ToBytes(x, NONCE_LEN)
  {
    Widths();
    Periodic(x % U128_RANGE, x / U128_RANGE * 0x1_0000_0000, NONCE_LEN);
  }

  lemma ReductionKeepsNonce(x: nat)
    ensures ToBytes(x % U96_RANGE, NONCE_LEN) == ToBytes(x, NONCE_LEN)
  {
    Widths();
    Periodic(x % U96_RANGE, x / U96_RANGE, NONCE_LEN);
  }

  /** The nonce a counter value stands for. */
  function NonceOf(counter: nat): (nonce: seq<byte>)
    ensures |nonce| == NONCE_LEN
  {
    ToBytes(counter, U128_LEN)[SEQUENCE_NUMBER_START_INDEX..]
  }

  /** `wrapping_add(1)` on 128 bits. */
  function Succ(counter: nat): nat {
    if counter + 1 == U128_RANGE then 0 else counter + 1
  }

  function After(counter: nat, k: nat): nat {
    if k == 0 then counter else Succ(After(counter, k - 1))
  }

  lemma NonceIsLowBytes(counter: nat)
    ensures NonceOf(counter) == ToBytes(counter, NONCE_LEN)
  {
    LowBytes(counter, U128_LEN, NONCE_LEN);
  }

  lemma {:induction false} AfterIsSum(s: nat, k: nat)
    requires s < U128_RANGE
    ensures After(s, k) == (s + k) % U128_RANGE
  {
    if k > 0 {
      AfterIsSum(s, k - 1);
      SuccOfResidue(s + k - 1);
    }
  }

  lemma SuccOfResidue(x: nat)
    ensures Succ(x % U128_RANGE) == (x + 1) % U128_RANGE
  {
  }

  lemma ResiduesRepeat(x: nat, y: nat)
    requires x <= y
    ensures x % U96_RANGE == y % U96_RANGE <==> (y - x) % U96_RANGE == 0
  {
  }

  /** After `k` advances the nonce is the 12-byte form of `s + k`, also across the 128-bit wrap. */
  lemma NonceAfter(s: nat, k: nat)
    requires s < U128_RANGE
    ensures NonceOf(After(s, k)) == ToBytes((s + k) % U96_RANGE, NONCE_LEN)
  {
    AfterIsSum(s, k);
    NonceIsLowBytes(After(s, k));
    WrapKeepsNonce(s + k);
    ReductionKeepsNonce(s + k);
  }

  /** The closed form of the `k`-th nonce. */
  function KthNonce(s: nat, k: nat): seq<byte> {
    ToBytes((s + k) % U96_RANGE, NONCE_LEN)
  }

  lemma SameNonce(x: nat, y: nat)
    requires x <= y
    ensures ToBytes(x % U96_RANGE, NONCE_LEN) == ToBytes(y % U96_RANGE, NONCE_LEN) <==> (y - x) % U96_RANGE == 0
  {
    Widths();
    var a, b := x % U96_RANGE, y % U96_RANGE;
    ToBytesInjective(a, b, NONCE_LEN);
    ResiduesRepeat(x, y);
  }

  /** Two nonces of a sequence are equal exactly when they are a multiple of 2^96 steps apart. */
  lemma NoncesRepeatExactlyAtPeriod(s: nat, i: nat, j: nat)
    requires s < U128_RANGE && i <= j
    ensures NonceOf(After(s, i)) == NonceOf(After(s, j)) <==> (j - i) % U96_RANGE == 0
  {
    NonceAfter(s, i);
    NonceAfter(s, j);
    SameNonce(s + i, s + j);
  }

  class NonceSequence {
    var counter: nat

    ghost predicate Valid()
      reads this
    {
      counter < U128_RANGE
    }

    /** From twelve bytes, drawn at random when sealing and read from the message when opening. */
    constructor FromNonce(bytes: seq<byte>)
      requires |bytes| == NONCE_LEN
      ensures Valid() && NonceOf(counter) == bytes
    {
      var sequenceNumber := seq(SEQUENCE_NUMBER_START_INDEX, _ => 0) + bytes;
      counter := FromBytes(sequenceNumber);
      new;
      FromBytesBound(sequenceNumber);
      Widths();
      LeadingZeros(bytes, SEQUENCE_NUMBER_START_INDEX);
      NonceIsLowBytes(counter);
      ToFromBytes(bytes);
    }

    /** The low 96 bits of the counter, most significant byte first. */
    method Current() returns (nonce: seq<byte>)
      ensures nonce == ToBytes(counter % U96_RANGE, NONCE_LEN) == NonceOf(counter)
    {
      NonceIsLowBytes(counter);
      ReductionKeepsNonce(counter);
      nonce := ToBytes(counter, U128_LEN)[SEQUENCE_NUMBER_START_INDEX..];
    }

    /** The current nonce, and one step on. */
    method Advance() returns (nonce: seq<byte>)
      requires Valid()
      modifies this
      ensures Valid() && counter == (old(counter) + 1) % U128_RANGE == Succ(old(counter))
      ensures nonce == ToBytes(old(counter) % U96_RANGE, NONCE_LEN) == NonceOf(old(counter))
    {
      NonceIsLowBytes(counter);
      ReductionKeepsNonce(counter);
      nonce := ToBytes(counter, U128_LEN)[SEQUENCE_NUMBER_START_INDEX..];
      counter := if counter + 1 == U128_RANGE then 0 else counter + 1;
    }

    /** The nonces of `n` messages in a row. */
    method AdvanceMany(n: nat) returns (nonces: seq<seq<byte>>)
      requires Valid()
      modifies this
      ensures Valid() && counter == (old(counter) + n) % U128_RANGE
      ensures |nonces| == n
      ensures forall k :: 0 <= k < n ==> nonces[k] == ToBytes((old(counter) + k) % U96_RANGE, NONCE_LEN)
    {
      nonces := [];
      ghost var start := counter;
      var k := 0;
      while k < n
        invariant Valid() && k <= n && counter == After(start, k)
        invariant |nonces| == k
        invariant forall j :: 0 <= j < k ==> nonces[j] == KthNonce(start, j)
      {
        NonceAfter(start, k);
        var nonce := Advance();
        nonces := nonces + [nonce];
        k := k + 1;
      }
      AfterIsSum(start, n);
    }
  }
}
