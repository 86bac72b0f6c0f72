/**
 The Solidity ABI words and dynamic values that the EVM checks exchange: the
 encoder of `bytes`, and the readers of `bytes` and `address[]` answers.
 */
module Abi {
  import opened Wrappers

  type Byte = b: nat | b < 256

  const WORD: nat := 32
  const MAX_INDEX: nat := 0x10_0000

  // ----- words

  /** The number that the bytes write, most significant first. */
  function Number(bytes: seq<Byte>): nat {
    if bytes == [] then 0 else Number(bytes[..|bytes| - 1]) * 256 + bytes[|bytes| - 1]
  }

  /** The last `size` bytes of `n`. */
  function Digits(n: nat, size: nat): (bytes: seq<Byte>)
    ensures |bytes| == size
  {
    if size == 0 then [] else Digits(n / 256, size - 1) + [n % 256]
  }

  function Power(size: nat): (p: nat)
    ensures p > 0
  {
    if size == 0 then 1 else 256 * Power(size - 1)
  }

  function Word(n: nat): seq<Byte> {
    Digits(n, WORD)
  }

  /** A number that fits is read back from its digits. */
  lemma {:induction false} DigitsNumber(n: nat, size: nat)
    requires n < Power(size)
    ensures Number(Digits(n, size)) == n
    decreases size
  {
    if size > 0 {
      DigitsNumber(n / 256, size - 1);
      assert Digits(n, size)[..size - 1] == Digits(n / 256, size - 1);
    }
  }

  lemma WordNumber(n: nat)
    requires n < 0x1_0000_0000_0000_0000
    ensures |Word(n)| == WORD && Number(Word(n)) == n
  {
    assert Power(4) == 0x1_0000_0000;
    assert Power(8) == 0x1_0000_0000_0000_0000;
    PowerGrows(8, WORD);
    DigitsNumber(n, WORD);
  }

  lemma {:induction false} PowerGrows(a: nat, b: nat)
    requires a <= b
    ensures Power(a) <= Power(b)
    decreases b
  {
    if a < b { PowerGrows(a, b - 1); }
  }

  // ----- the encoder

  function Zeros(n: nat): (z: seq<Byte>)
    ensures |z| == n && forall i | 0 <= i < n :: z[i] == 0
  {
    seq(n, _ => 0)
  }

  function Padding(n: nat): nat {
    (32 - n % 32) % 32
  }

  /** The tail of a dynamic value: its length, then the bytes padded to whole words. */
  function EncodeBytes(b: seq<Byte>): (e: seq<Byte>)
    ensures |e| % WORD == 0
  {
    Word(|b|) + b + Zeros(Padding(|b|))
  }

  // ----- the readers

  datatype Malformed = Malformed

  function WordAt(b: seq<Byte>, i: int): (r: Result<seq<Byte>, Malformed>)
    ensures r.Ok? ==> |r.value| == WORD
  {
    if i < 0 || (i + 1) * 32 > |b| then Err(Malformed) else Ok(b[i * 32..(i + 1) * 32])
  }

  function WordIndex(w: seq<Byte>): (r: Result<nat, Malformed>)
    ensures r.Ok? ==> r.value <= MAX_INDEX
  {
    if Number(w) > 0x7fff_ffff_ffff_ffff || Number(w) > MAX_INDEX then Err(Malformed) else Ok(Number(w))
  }

  function WordAddress(w: seq<Byte>): (r: Result<seq<Byte>, Malformed>)
    requires |w| == WORD
    ensures r.Ok? ==> |r.value| == 20 && w == Zeros(12) + r.value
  {
    if exists i | 0 <= i < 12 :: w[i] != 0 then Err(Malformed)
    else
      assert w == w[..12] + w[12..] && w[..12] == Zeros(12);
      Ok(w[12..])
  }

  /** The offset of the dynamic value, and its length. */
  function ReadHead(b: seq<Byte>): (r: Result<(nat, nat), Malformed>)
    ensures r.Ok? ==> r.value.0 % 32 == 0 && r.value.0 + 32 <= |b| && r.value.0 <= MAX_INDEX && r.value.1 <= MAX_INDEX
  {
    var head := WordAt(b, 0);
    if head.Err? then Err(Malformed)
    else
      var off := WordIndex(head.value);
      if off.Err? || off.value % 32 != 0 then Err(Malformed)
      else
        var lw := WordAt(b, off.value / 32);
        if lw.Err? then Err(Malformed)
        else
          var n := WordIndex(lw.value);
          if n.Err? then Err(Malformed) else Ok((off.value, n.value))
  }

  function ReadBytes(b: seq<Byte>): Result<seq<Byte>, Malformed> {
    var head := ReadHead(b);
    if head.Err? then Err(Malformed)
    else
      var (off, n) := head.value;
      if off + 32 + n > |b| then Err(Malformed) else Ok(b[off + 32..off + 32 + n])
  }

  /** The `i`-th entry of the list whose length word is at `off`. */
  function AddressAt(b: seq<Byte>, off: nat, i: nat): Result<seq<Byte>, Malformed> {
    var w := WordAt(b, off / 32 + 1 + i);
    if w.Err? then Err(Malformed) else WordAddress(w.value)
  }

  /** As many addresses as the length word says, each zero-padded in its own word, or an error if one is not. */
  method ReadAddresses(b: seq<Byte>) returns (r: Result<seq<seq<Byte>>, Malformed>)
    ensures r.Ok? <==>
      ReadHead(b).Ok? && forall i: nat | i < ReadHead(b).value.1 :: AddressAt(b, ReadHead(b).value.0, i).Ok?
    ensures r.Ok? ==>
      var (off, n) := ReadHead(b).value;
      |r.value| == n && off + 32 + 32 * n <= |b|
      && forall i | 0 <= i < n ::
           |r.value[i]| == 20 && b[off + 32 + 32 * i..off + 64 + 32 * i] == Zeros(12) + r.value[i]
  {
    var head := ReadHead(b);
    if head.Err? {
      return Err(Malformed);
    }
    var (off, n) := head.value;
    var out: seq<seq<Byte>> := [];
    for i := 0 to n
      invariant |out| == i && off + 32 + 32 * i <= |b|
      invariant forall k: nat | k < i :: AddressAt(b, off, k) == Ok(out[k])
      invariant forall k | 0 <= k < i :: |out[k]| == 20 && b[off + 32 + 32 * k..off + 64 + 32 * k] == Zeros(12) + out[k]
    {
      var a := AddressAt(b, off, i);
      if a.Err? {
        return Err(Malformed);
      }
      assert (off / 32 + 1 + i) * 32 == off + 32 + 32 * i;
      out := out + [a.value];
    }
    r := Ok(out);
  }

  // ----- the round trip

  /** A single `bytes` value, as a call returns it. */
  function Returned(data: seq<Byte>): seq<Byte> {
    Word(32) + EncodeBytes(data)
  }

  lemma ReturnedParts(data: seq<Byte>)
    ensures |Returned(data)| >= 64 + |data|
    ensures Returned(data)[0..32] == Word(32)
    ensures Returned(data)[32..64] == Word(|data|)
    ensures Returned(data)[64..64 + |data|] == data
  {
  }

  lemma ReturnedHead(data: seq<Byte>)
    requires |data| < 0x1_0000_0000_0000_0000
    ensures ReadHead(Returned(data)) == if |data| <= MAX_INDEX then Ok((32, |data|)) else Err(Malformed)
  {
    ReturnedParts(data);
    WordNumber(32);
    WordNumber(|data|);
  }

  /** An address list, as a call returns it: each address zero-padded in its own word. */
  function ReturnedList(addresses: seq<seq<Byte>>): seq<Byte> {
    Word(32) + Word(|addresses|) + Slots(addresses)
  }

  function Slots(addresses: seq<seq<Byte>>): seq<Byte> {
    if addresses == [] then []
    else Slots(addresses[..|addresses| - 1]) + Zeros(12) + addresses[|addresses| - 1]
  }

  lemma {:induction false} SlotAt(addresses: seq<seq<Byte>>, i: nat)
    requires i < |addresses| && forall a <- addresses :: |a| == 20
    ensures |Slots(addresses)| == 32 * |addresses|
    ensures Slots(addresses)[32 * i..32 * i + 32] == Zeros(12) + addresses[i]
    decreases |addresses|
  {
    var n := |addresses| - 1;
    var rest := addresses[..n];
    if n > 0 { SlotAt(rest, if i < n then i else 0); }
    assert Slots(addresses) == Slots(rest) + (Zeros(12) + addresses[n]);
  }

  /** A list of at most 2^20 addresses is read back, entry by entry. */
  lemma ListRoundTrip(addresses: seq<seq<Byte>>, i: nat)
    requires i < |addresses| <= MAX_INDEX && forall a <- addresses :: |a| == 20
    ensures var b := ReturnedList(addresses);
      ReadHead(b) == Ok((32, |addresses|)) && AddressAt(b, 32, i) == Ok(addresses[i])
  {
    var b := ReturnedList(addresses);
    WordNumber(32);
    WordNumber(|addresses|);
    SlotAt(addresses, i);
    assert b[0..32] == Word(32) && b[32..64] == Word(|addresses|);
    assert b[(2 + i) * 32..(2 + i + 1) * 32] == Slots(addresses)[32 * i..32 * i + 32];
    var w := Zeros(12) + addresses[i];
    assert addresses[i] in addresses && w[12..] == addresses[i];
  }

  /** What is encoded is read back exactly when it is no longer than the reader's limit of 2^20 bytes. */
  lemma BytesRoundTrip(data: seq<Byte>)
    requires |data| < 0x1_0000_0000_0000_0000
    ensures ReadBytes(Returned(data)) == if |data| <= MAX_INDEX then Ok(data) else Err(Malformed)
  {
    ReturnedParts(data);
    ReturnedHead(data);
  }
}
