/** Hashes as bytes.  The program stores a hash in two columns, split at 16 bytes, in the
    hashing order; the database's helper functions show it reversed, as people write it. */
module Hash {
  type Byte = x: int | 0 <= x < 256

  type Bytes = seq<Byte>

  const ID_SIZE: nat := 16
  const HASH_SIZE: nat := 32

  // ---------------------------------------------------------------- the program's side

  function HashId(hash: Bytes): Bytes
    requires |hash| == HASH_SIZE
  {
    hash[..ID_SIZE]
  }

  function HashRest(hash: Bytes): Bytes
    requires |hash| == HASH_SIZE
  {
    hash[ID_SIZE..]
  }

  /** The append; a slice of any other length is not a hash. */
  function Joined(id: Bytes, rest: Bytes): (r: (bool, Bytes))
    ensures r.0 <==> |id| + |rest| == HASH_SIZE
  {
    (|id + rest| == HASH_SIZE, id + rest)
  }

  // ---------------------------------------------------------------- the database's side

  /** Swaps the bytes `index` from both ends, then the next ones, up to the middle. */
  function ReverseBytesIter(bytes: Bytes, length: int, midpoint: int, index: int): (r: Bytes)
    requires 0 <= index && midpoint <= |bytes| && length == |bytes| - 1
    ensures |r| == |bytes|
    decreases midpoint - index
  {
    if index >= midpoint then bytes
    else ReverseBytesIter(
           bytes[index := bytes[length - index]][length - index := bytes[index]],
           length, midpoint, index + 1)
  }

  function ReverseBytes(bytes: Bytes): Bytes {
    ReverseBytesIter(bytes, |bytes| - 1, |bytes| / 2, 0)
  }

  function HashFromParts(id: Bytes, rest: Bytes): Bytes {
    ReverseBytesIter(id + rest, |id + rest| - 1, |id + rest| / 2, 0)
  }

  /** substring(bytes, from, count): positions start at 1 and the end is cut off. */
  function Substring(bytes: Bytes, from: nat, count: nat): Bytes
    requires from > 0
  {
    var start := if from - 1 <= |bytes| then from - 1 else |bytes|;
    bytes[start..if start + count <= |bytes| then start + count else |bytes|]
  }

  function HashToHashId(hash: Bytes): Bytes {
    ReverseBytes(Substring(hash, 17, 32))
  }

  // ---------------------------------------------------------------- what they mean

  /** The byte that belongs at position `k` once the pairs from `index` on are swapped too. */
  lemma {:induction false} IterSwaps(bytes: Bytes, index: nat, k: nat)
    requires index <= (|bytes| + 1) / 2 && k < |bytes|
    ensures ReverseBytesIter(bytes, |bytes| - 1, |bytes| / 2, index)[k] ==
      if index <= k < |bytes| - index then bytes[|bytes| - 1 - k] else bytes[k]
    decreases |bytes| - index
  {
    if index < |bytes| / 2 {
      var length := |bytes| - 1;
      IterSwaps(bytes[index := bytes[length - index]][length - index := bytes[index]], index + 1, k);
    }
  }

  /** The recursive swap is the reversal of the sequence. */
  lemma ReverseBytesAt(bytes: Bytes)
    ensures |ReverseBytes(bytes)| == |bytes|
    ensures forall k | 0 <= k < |bytes| :: ReverseBytes(bytes)[k] == bytes[|bytes| - 1 - k]
  {
    forall k | 0 <= k < |bytes| ensures ReverseBytes(bytes)[k] == bytes[|bytes| - 1 - k] {
      IterSwaps(bytes, 0, k);
    }
  }

  lemma ReverseTwice(bytes: Bytes)
    ensures ReverseBytes(ReverseBytes(bytes)) == bytes
  {
    ReverseBytesAt(bytes);
    ReverseBytesAt(ReverseBytes(bytes));
  }

  lemma ReverseConcat(a: Bytes, b: Bytes)
    ensures ReverseBytes(a + b) == ReverseBytes(b) + ReverseBytes(a)
  {
    hide ReverseBytes;
    ReverseBytesAt(a);
    ReverseBytesAt(b);
    ReverseBytesAt(a + b);
  }

  /** Splitting and joining are inverse, both ways. */
  lemma SplitAndJoin(hash: Bytes, id: Bytes, rest: Bytes)
    requires |hash| == HASH_SIZE && |id| == ID_SIZE && |id| + |rest| == HASH_SIZE
    ensures Joined(HashId(hash), HashRest(hash)) == (true, hash)
    ensures HashId(Joined(id, rest).1) == id && HashRest(Joined(id, rest).1) == rest
  {
    assert hash[..ID_SIZE] + hash[ID_SIZE..] == hash;
  }

  /** The database finds, from a hash as people write it, the very key the program stored for
      it, and shows for the stored parts the hash as people write it. */
  lemma DatabaseAgreesWithProgram(hash: Bytes)
    requires |hash| == HASH_SIZE
    ensures HashFromParts(HashId(hash), HashRest(hash)) == ReverseBytes(hash)
    ensures HashToHashId(ReverseBytes(hash)) == HashId(hash)
  {
    hide ReverseBytes;
    assert HashId(hash) + HashRest(hash) == hash;
    assert HashFromParts(HashId(hash), HashRest(hash)) == ReverseBytes(hash) by {
      FromPartsReverses(HashId(hash), HashRest(hash));
    }
    IdOfParts(HashId(hash), HashRest(hash));
  }

  lemma FromPartsReverses(id: Bytes, rest: Bytes)
    ensures HashFromParts(id, rest) == ReverseBytes(id + rest)
  {
  }

  /** Taking the key out of the hash made from its parts.  A key of a hash has 16 bytes; the
      function gives back any key exactly when it is not longer than 32. */
  lemma IdOfParts(id: Bytes, rest: Bytes)
    requires |rest| == ID_SIZE
    ensures HashToHashId(HashFromParts(id, rest)) == id <==> |id| <= 32
  {
    FromPartsReverses(id, rest);
    hide ReverseBytes, HashFromParts;
    ReverseConcat(id, rest);
    ReverseBytesAt(rest);
    ReverseBytesAt(id);
    var shown := ReverseBytes(rest) + ReverseBytes(id);
    var cut := Substring(shown, 17, 32);
    ReverseBytesAt(cut);
    if |id| <= 32 {
      assert cut == ReverseBytes(id);
      ReverseTwice(id);
    } else {
      assert |cut| == 32;
    }
  }
}
