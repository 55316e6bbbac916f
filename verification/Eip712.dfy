/** The fixed-width encoding of a transfer authorization before it is hashed. */
module Eip712 {
  import opened Wrappers

  newtype byte = x: int | 0 <= x < 256

  /** 256 to the power k. */
  function Pow256(k: nat): (p: nat)
    ensures p >= 1
  {
    if k == 0 then 1 else 256 * Pow256(k - 1)
  }

  const WORD_BYTES: nat := 32

  /** Big-endian value. */
  function Value(bs: seq<byte>): nat {
    if bs == [] then 0 else 256 * Value(bs[..|bs| - 1]) + bs[|bs| - 1] as int
  }

  /** Minimal big-endian bytes: none for zero, no leading zero. */
  function Bytes(n: nat): seq<byte> {
    if n == 0 then [] else Bytes(n / 256) + [(n % 256) as byte]
  }

  function Abs(n: int): nat {
    if n < 0 then -n else n
  }

  lemma {:induction false} BytesRoundTrip(n: nat)
    ensures Value(Bytes(n)) == n
  {
    if n > 0 {
      BytesRoundTrip(n / 256);
      assert Bytes(n)[..|Bytes(n)| - 1] == Bytes(n / 256);
    }
  }

  lemma {:induction false} BytesFit(n: nat, k: nat)
    ensures |Bytes(n)| <= k <==> n < Pow256(k)
  {
    if n > 0 && k > 0 {
      BytesFit(n / 256, k - 1);
    }
  }

  lemma {:induction false} LeadingZeros(zeros: seq<byte>, bs: seq<byte>)
    requires forall i :: 0 <= i < |zeros| ==> zeros[i] == 0
    ensures Value(zeros + bs) == Value(bs)
  {
    if bs == [] {
      assert zeros + bs == zeros;
      if zeros != [] {
        LeadingZeros(zeros[..|zeros| - 1], []);
        assert zeros[..|zeros| - 1] + [] == zeros[..|zeros| - 1];
      }
    } else {
      LeadingZeros(zeros, bs[..|bs| - 1]);
      assert (zeros + bs)[..|zeros + bs| - 1] == zeros + bs[..|bs| - 1];
    }
  }

  /** Byte strings of one length are determined by their value. */
  lemma {:induction false} ValueInjective(a: seq<byte>, b: seq<byte>)
    requires |a| == |b| && Value(a) == Value(b)
    ensures a == b
  {
    if a != [] {
      var n := |a| - 1;
      ValueInjective(a[..n], b[..n]);
      assert a == a[..n] + [a[n]] && b == b[..n] + [b[n]];
    }
  }

  /** The 32-byte word of an integer; None where the copy would start before the buffer and the program panics. */
  function Word(n: Option<int>): Option<seq<byte>> {
    var bs := Bytes(if n.None? then 0 else Abs(n.value));
    if |bs| > 32 then None else Some(seq(32 - |bs|, _ => 0 as byte) + bs)
  }

  lemma {:induction false} PaddedTo(buffer: seq<byte>, bs: seq<byte>)
    requires |bs| <= |buffer|
    requires forall k :: 0 <= k < |buffer| - |bs| ==> buffer[k] == 0
    requires forall k :: 0 <= k < |bs| ==> buffer[|buffer| - |bs| + k] == bs[k]
    ensures buffer == seq(|buffer| - |bs|, _ => 0 as byte) + bs
  {
  }

  /** copy into the end of a zero buffer of 32 bytes. */
  method CopyToEnd(bs: seq<byte>) returns (word: seq<byte>)
    requires |bs| <= 32
    ensures word == seq(32 - |bs|, _ => 0 as byte) + bs
  {
    var buffer := new byte[32](_ => 0);
    var start := 32 - |bs|;
    for i := 0 to |bs|
      invariant forall k :: 0 <= k < start ==> buffer[k] == 0
      invariant forall k :: 0 <= k < i ==> buffer[start + k] == bs[k]
    {
      buffer[start + i] := bs[i];
    }
    PaddedTo(buffer[..], bs);
    return buffer[..];
  }

  method U256(n: Option<int>) returns (out: Option<seq<byte>>)
    ensures out == Word(n)
    ensures out.Some? <==> n.None? || Abs(n.value) < Pow256(WORD_BYTES)
    ensures out.Some? ==> |out.value| == 32 && Value(out.value) == if n.None? then 0 else Abs(n.value)
  {
    var abs := if n.None? then 0 else Abs(n.value);
    var bs := Bytes(abs);
    BytesFit(abs, WORD_BYTES);
    if |bs| > 32 {
      return None;
    }
    var word := CopyToEnd(bs);
    WordValue(abs);
    return Some(word);
  }

  /** copy into the last 20 bytes of a zero word. */
  function AddressWord(address: seq<byte>): seq<byte>
    requires |address| == 20
  {
    seq(12, _ => 0 as byte) + address
  }

  method FillAddressWord(address: seq<byte>) returns (out: seq<byte>)
    requires |address| == 20
    ensures out == AddressWord(address)
  {
    var buffer := new byte[32](_ => 0);
    for i := 0 to 20
      invariant forall k :: 0 <= k < 12 ==> buffer[k] == 0
      invariant forall k :: 0 <= k < i ==> buffer[12 + k] == address[k]
    {
      buffer[12 + i] := address[i];
    }
    out := buffer[..];
    assert out == AddressWord(address);
  }

  datatype Authorization = Authorization(
    from: seq<byte>, to: seq<byte>, value: int, validAfter: int, validBefore: int, nonce: seq<byte>)

  predicate Encodable(a: Authorization) {
    && |a.from| == 20 && |a.to| == 20 && |a.nonce| == 32
    && Word(Some(a.value)).Some? && Word(Some(a.validAfter)).Some? && Word(Some(a.validBefore)).Some?
  }

  /** The concatenation that is hashed: the type hash and the six fields, one word each. */
  function Preimage(typeHash: seq<byte>, a: Authorization): Option<seq<byte>> {
    if !Encodable(a) then None
    else Some(
      typeHash + (AddressWord(a.from) + (AddressWord(a.to) + (Word(Some(a.value)).value
      + (Word(Some(a.validAfter)).value + (Word(Some(a.validBefore)).value + a.nonce))))))
  }

  /** Twelve zero bytes, then the address. */
  lemma {:induction false} AddressIsPadded(address: seq<byte>, i: nat)
    requires |address| == 20 && i < 32
    ensures |AddressWord(address)| == 32
    ensures AddressWord(address)[i] == if i < 12 then 0 else address[i - 12]
    ensures Value(AddressWord(address)) == Value(address)
  {
    LeadingZeros(seq(12, _ => 0 as byte), address);
  }

  /** After the type hash: sender, receiver, value, start and end of validity, and nonce, 32 bytes each. */
  lemma {:induction false} PreimageLayout(typeHash: seq<byte>, a: Authorization)
    requires Encodable(a)
    ensures var bytes := Preimage(typeHash, a).value;
            && |bytes| == |typeHash| + 192
            && var fields := bytes[|typeHash|..];
            && bytes[..|typeHash|] == typeHash
            && fields[12..32] == a.from && fields[44..64] == a.to
            && Value(fields[64..96]) == Abs(a.value)
            && Value(fields[96..128]) == Abs(a.validAfter)
            && Value(fields[128..160]) == Abs(a.validBefore)
            && fields[160..192] == a.nonce
  {
    WordValue(a.value);
    WordValue(a.validAfter);
    WordValue(a.validBefore);
    var fields := Preimage(typeHash, a).value[|typeHash|..];
    assert fields[12..32] == a.from;
    assert fields[44..64] == a.to;
    assert fields[64..96] == Word(Some(a.value)).value;
    assert fields[96..128] == Word(Some(a.validAfter)).value;
    assert fields[128..160] == Word(Some(a.validBefore)).value;
    assert fields[160..192] == a.nonce;
  }

  lemma {:induction false} SplitEqual(a: seq<byte>, b: seq<byte>, x: seq<byte>, y: seq<byte>)
    requires |a| == |b| && a + x == b + y
    ensures a == b && x == y
  {
    assert (a + x)[..|a|] == a && (b + y)[..|b|] == b;
    assert (a + x)[|a|..] == x && (b + y)[|b|..] == y;
  }

  lemma {:induction false} WordsEqual(m: int, n: int)
    requires Word(Some(m)).Some? && Word(Some(n)).Some?
    ensures |Word(Some(m)).value| == 32 && Value(Word(Some(m)).value) == Abs(m)
    ensures Word(Some(m)) == Word(Some(n)) <==> Abs(m) == Abs(n)
  {
    WordValue(m);
    WordValue(n);
  }

  lemma {:induction false} WordValue(n: int)
    requires Word(Some(n)).Some?
    ensures |Word(Some(n)).value| == 32 && Value(Word(Some(n)).value) == Abs(n)
  {
    var bs := Bytes(Abs(n));
    LeadingZeros(seq(32 - |bs|, _ => 0 as byte), bs);
    BytesRoundTrip(Abs(n));
  }

  /** Every non-negative integer below 2^256 has a word, and the word decodes back to it. */
  lemma {:induction false} U256RoundTrip(n: nat)
    ensures Word(Some(n)).Some? <==> n < Pow256(WORD_BYTES)
    ensures n < Pow256(WORD_BYTES) ==> |Word(Some(n)).value| == 32 && Value(Word(Some(n)).value) == n
  {
    BytesFit(n, WORD_BYTES);
    if n < Pow256(WORD_BYTES) {
      WordValue(n);
    }
  }

  lemma {:induction false} PowAdd(j: nat, k: nat)
    ensures Pow256(j + k) == Pow256(j) * Pow256(k)
  {
    if j > 0 {
      PowAdd(j - 1, k);
    }
  }

  /** 256 to the 32 is 2 to the 256. */
  lemma {:induction false} WordRange()
    ensures Pow256(WORD_BYTES) == 0x1_0000000000000000_0000000000000000_0000000000000000_0000000000000000
  {
    assert Pow256(4) == 0x1_0000_0000;
    PowAdd(4, 4);
    PowAdd(8, 8);
    PowAdd(16, 16);
  }

  /** Two authorizations have the same preimage exactly when they agree in every field up to the integers' signs. */
  lemma {:induction false} PreimageDetermines(typeHash: seq<byte>, a: Authorization, b: Authorization)
    requires Encodable(a) && Encodable(b)
    ensures Preimage(typeHash, a) == Preimage(typeHash, b)
       <==> && a.from == b.from && a.to == b.to && a.nonce == b.nonce
            && Abs(a.value) == Abs(b.value) && Abs(a.validAfter) == Abs(b.validAfter)
            && Abs(a.validBefore) == Abs(b.validBefore)
  {
    WordsEqual(a.value, b.value);
    WordsEqual(b.value, a.value);
    WordsEqual(a.validAfter, b.validAfter);
    WordsEqual(b.validAfter, a.validAfter);
    WordsEqual(a.validBefore, b.validBefore);
    WordsEqual(b.validBefore, a.validBefore);
    if Preimage(typeHash, a) == Preimage(typeHash, b) {
      var a5, b5 := Word(Some(a.validBefore)).value + a.nonce, Word(Some(b.validBefore)).value + b.nonce;
      var a4, b4 := Word(Some(a.validAfter)).value + a5, Word(Some(b.validAfter)).value + b5;
      var a3, b3 := Word(Some(a.value)).value + a4, Word(Some(b.value)).value + b4;
      var a2, b2 := AddressWord(a.to) + a3, AddressWord(b.to) + b3;
      SplitEqual(typeHash, typeHash, AddressWord(a.from) + a2, AddressWord(b.from) + b2);
      SplitEqual(AddressWord(a.from), AddressWord(b.from), a2, b2);
      SplitEqual(AddressWord(a.to), AddressWord(b.to), a3, b3);
      SplitEqual(Word(Some(a.value)).value, Word(Some(b.value)).value, a4, b4);
      SplitEqual(Word(Some(a.validAfter)).value, Word(Some(b.validAfter)).value, a5, b5);
      SplitEqual(Word(Some(a.validBefore)).value, Word(Some(b.validBefore)).value, a.nonce, b.nonce);
      AddressesEqual(a.from, b.from);
      AddressesEqual(a.to, b.to);
    }
  }

  lemma {:induction false} AddressesEqual(a: seq<byte>, b: seq<byte>)
    requires |a| == |b| == 20 && AddressWord(a) == AddressWord(b)
    ensures a == b
  {
    assert AddressWord(a)[12..] == a && AddressWord(b)[12..] == b;
  }

  /** On unsigned fields the preimage is injective in all six of them. */
  lemma {:induction false} PreimageInjective(typeHash: seq<byte>, a: Authorization, b: Authorization)
    requires Encodable(a) && Encodable(b) && Preimage(typeHash, a) == Preimage(typeHash, b)
    requires a.value >= 0 && a.validAfter >= 0 && a.validBefore >= 0
    requires b.value >= 0 && b.validAfter >= 0 && b.validBefore >= 0
    ensures a == b
  {
    PreimageDetermines(typeHash, a, b);
  }
}
