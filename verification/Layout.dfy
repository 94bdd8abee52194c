/** Where each value is: on the wire by offset, in a record by row.  A writer and a reader that agree
    on another order would still understand each other; these say which order it is. */
module Layout {
  import opened Core
  import opened Forest
  import opened HashBytes
  import opened Codec
  import opened Text
  import opened Records

  // ---- On the wire ----

  /** The number that the bytes from `a` up to `b` spell, most significant first. */
  function At(bs: seq<Byte>, a: nat, b: nat): nat
    requires a <= b <= |bs|
  {
    FromBytes(bs[a..b])
  }

  lemma SpellsHash(n: HashT)
    ensures |BytesOfHash(n)| == 32 && FromBytes(BytesOfHash(n)) == n
  {
    HashSize();
    NumberRoundTrip(n, 32);
  }

  lemma SpellsUint64(n: Uint64)
    ensures |BytesOfUint64(n)| == 8 && FromBytes(BytesOfUint64(n)) == n
  {
    HashSize();
    NumberRoundTrip(n, 8);
  }

  lemma Part(pre: seq<Byte>, mid: seq<Byte>, post: seq<Byte>)
    ensures (pre + (mid + post))[|pre|..|pre| + |mid|] == mid
    ensures (pre + (mid + post))[|pre| + |mid|..] == post
  {
  }

  lemma MerkleLayout(m: MerkleNode)
    ensures var bs := BytesOfMerkle(m); |bs| == 64 && At(bs, 0, 32) == m.lChild && At(bs, 32, 64) == m.rChild
  {
    SpellsHash(m.lChild);
    SpellsHash(m.rChild);
    hide FromBytes, BytesOfHash;
    var bs, l, r := BytesOfMerkle(m), BytesOfHash(m.lChild), BytesOfHash(m.rChild);
    assert bs[0..32] == l && bs[32..64] == r;
  }

  lemma BlockLayout(b: Block)
    ensures var bs := BytesOfBlock(b);
      && |bs| == 144
      && At(bs, 0, 32) == b.prevBlockId && At(bs, 32, 64) == b.merkleRoot && At(bs, 64, 96) == b.target
      && At(bs, 96, 128) == b.noise && At(bs, 128, 136) == b.nonce && At(bs, 136, 144) == b.minedTime
  {
    SpellsHash(b.prevBlockId);
    SpellsHash(b.merkleRoot);
    SpellsHash(b.target);
    SpellsHash(b.noise);
    SpellsUint64(b.nonce);
    SpellsUint64(b.minedTime);
    hide FromBytes, BytesOfHash, BytesOfUint64;
    var bs := BytesOfBlock(b);
    assert bs[0..32] == BytesOfHash(b.prevBlockId);
    assert bs[32..64] == BytesOfHash(b.merkleRoot);
    assert bs[64..96] == BytesOfHash(b.target);
    assert bs[96..128] == BytesOfHash(b.noise);
    assert bs[128..136] == BytesOfUint64(b.nonce);
    assert bs[136..144] == BytesOfUint64(b.minedTime);
  }

  lemma OutputLayout(txo: TxOut)
    ensures var bs := BytesOfTxOut(txo); |bs| == 40 && At(bs, 0, 8) == txo.value && At(bs, 8, 40) == txo.publicKeyHash
  {
    SpellsUint64(txo.value);
    SpellsHash(txo.publicKeyHash);
    hide FromBytes, BytesOfHash, BytesOfUint64;
    var bs := BytesOfTxOut(txo);
    assert bs[0..8] == BytesOfUint64(txo.value) && bs[8..40] == BytesOfHash(txo.publicKeyHash);
  }

  lemma FrameSize(size: nat)
    requires size < 65536
    ensures |Frame(size)| == 2 && FromBytes(Frame(size)) == size
  {
    assert Pow256(2) == 65536 by {
      assert Pow256(1) == 256;
    }
    NumberRoundTrip(size, 2);
  }

  /** An input: the output it names, then key and signature, each after its length in two bytes. */
  lemma InputLayout(txi: TxIn)
    requires txi.utxo.ind < TWO_64 && |txi.publicKey| < 65536 && |txi.signature| < 65536
    ensures var bs, k := BytesOfTxIn(txi), |txi.publicKey|;
      && |bs| == 52 + k + |txi.signature|
      && At(bs, 0, 32) == txi.utxo.txId && At(bs, 32, 40) == txi.utxo.ind && At(bs, 40, 48) == txi.utxo.value
      && At(bs, 48, 50) == k && bs[50..50 + k] == txi.publicKey
      && At(bs, 50 + k, 52 + k) == |txi.signature| && bs[52 + k..] == txi.signature
  {
    SpellsHash(txi.utxo.txId);
    SpellsUint64(txi.utxo.ind);
    SpellsUint64(txi.utxo.value);
    FrameSize(|txi.publicKey|);
    FrameSize(|txi.signature|);
    hide FromBytes, BytesOfHash, BytesOfUint64, Frame;
    InputParts(BytesOfHash(txi.utxo.txId), BytesOfUint64(txi.utxo.ind), BytesOfUint64(txi.utxo.value),
               Frame(|txi.publicKey|), txi.publicKey, Frame(|txi.signature|), txi.signature);
    assert txi.utxo.ind % TWO_64 == txi.utxo.ind;
  }

  lemma InputParts(
    a: seq<Byte>, b: seq<Byte>, c: seq<Byte>, f: seq<Byte>, key: seq<Byte>, g: seq<Byte>, sig: seq<Byte>)
    requires |a| == 32 && |b| == 8 && |c| == 8 && |f| == 2 && |g| == 2
    ensures var bs, k := a + (b + (c + (f + key + (g + sig)))), |key|;
      && |bs| == 52 + k + |sig| && bs[0..32] == a && bs[32..40] == b && bs[40..48] == c
      && bs[48..50] == f && bs[50..50 + k] == key && bs[50 + k..52 + k] == g && bs[52 + k..] == sig
  {
    var de := f + key + (g + sig);
    var bs := a + (b + (c + de));
    assert bs[0..32] == a && bs[32..40] == b && bs[40..48] == c && bs[48..] == de;
    var k := |key|;
    assert de[..2] == f && de[2..2 + k] == key && de[2 + k..4 + k] == g && de[4 + k..] == sig;
    assert bs[48..50] == bs[48..][..2] && bs[50..50 + k] == bs[48..][2..2 + k];
    assert bs[50 + k..52 + k] == bs[48..][2 + k..4 + k] && bs[52 + k..] == bs[48..][4 + k..];
  }

  /** A transaction: 25 bytes that say what it is and how many inputs and outputs follow, then these. */
  lemma TxLayout(tx: Tx)
    requires |tx.inputs| < TWO_64 && |tx.outputs| < TWO_64
    ensures var bs := BytesOfTx(tx);
      && |bs| >= 25 && bs[0] == (if tx.isCoinbase then 1 else 0)
      && At(bs, 1, 9) == tx.minBlock && At(bs, 9, 17) == |tx.inputs| && At(bs, 17, 25) == |tx.outputs|
      && bs[25..] == BytesOfTxIns(tx.inputs) + BytesOfTxOuts(tx.outputs)
  {
    hide FromBytes, BytesOfUint64, BytesOfTxIns, BytesOfTxOuts;
    var n: Uint64, m: Uint64 := |tx.inputs|, |tx.outputs|;
    SpellsUint64(tx.minBlock);
    SpellsUint64(n);
    SpellsUint64(m);
    FourParts([if tx.isCoinbase then 1 else 0], BytesOfUint64(tx.minBlock), BytesOfUint64(n), BytesOfUint64(m),
              BytesOfTxIns(tx.inputs) + BytesOfTxOuts(tx.outputs));
  }

  lemma FourParts(a: seq<Byte>, b: seq<Byte>, c: seq<Byte>, d: seq<Byte>, rest: seq<Byte>)
    requires |a| == 1 && |b| == 8 && |c| == 8 && |d| == 8
    ensures var bs := a + (b + (c + (d + rest)));
      && |bs| >= 25 && bs[0] == a[0] && bs[1..9] == b && bs[9..17] == c && bs[17..25] == d && bs[25..] == rest
  {
    var cd := c + (d + rest);
    Part(a, b, cd);
    var bs := a + (b + cd);
    assert bs[9..] == cd;
    assert cd[..8] == c && cd[8..16] == d && cd[16..] == rest;
    assert bs[9..17] == bs[9..][..8] && bs[17..25] == bs[9..][8..16] && bs[25..] == bs[9..][16..];
  }

  /** Inputs and outputs come first to last. */
  lemma {:induction false} InputsLayout(inputs: seq<TxIn>, i: nat)
    requires i < |inputs|
    ensures BytesOfTxIns(inputs) == BytesOfTxIns(inputs[..i]) + BytesOfTxIn(inputs[i]) + BytesOfTxIns(inputs[i + 1..])
    decreases |inputs|
  {
    hide BytesOfTxIn;
    if i == 0 {
      assert inputs[..0] == [] && BytesOfTxIns(inputs[..0]) == [];
    } else {
      InputsLayout(inputs[1..], i - 1);
      assert inputs[1..][..i - 1] == inputs[..i][1..] && inputs[1..][i..] == inputs[i + 1..];
      assert inputs[1..][i - 1] == inputs[i] && inputs[..i][0] == inputs[0];
      var b, c, d := BytesOfTxIns(inputs[..i][1..]), BytesOfTxIn(inputs[i]), BytesOfTxIns(inputs[i + 1..]);
      Associative(BytesOfTxIn(inputs[0]), b, c);
      Associative(BytesOfTxIn(inputs[0]), b + c, d);
    }
  }

  lemma {:induction false} OutputsLayout(outputs: seq<TxOut>, i: nat)
    requires i < |outputs|
    ensures |BytesOfTxOuts(outputs)| == 40 * |outputs|
    ensures BytesOfTxOuts(outputs)[40 * i..40 * i + 40] == BytesOfTxOut(outputs[i])
    decreases |outputs|
  {
    OutputLayout(outputs[0]);
    hide BytesOfTxOut;
    var first, rest := BytesOfTxOut(outputs[0]), BytesOfTxOuts(outputs[1..]);
    if |outputs| == 1 {
      assert rest == [] && first + rest == first;
    } else if i == 0 {
      OutputsLayout(outputs[1..], 0);
      assert (first + rest)[0..40] == first;
    } else {
      OutputsLayout(outputs[1..], i - 1);
      assert (first + rest)[40 * i..40 * i + 40] == rest[40 * (i - 1)..40 * (i - 1) + 40];
    }
  }

  // ---- In text ----

  lemma {:induction false} HexLayout(bs: seq<Byte>, i: nat)
    requires i < |bs|
    ensures |HexString(bs)| == 2 * |bs|
    ensures HexValue(HexString(bs)[2 * i]) == Some(bs[i] / 16) && HexValue(HexString(bs)[2 * i + 1]) == Some(bs[i] % 16)
    decreases |bs|
  {
    HexInverts(bs);
    if i > 0 {
      HexLayout(bs[1..], i - 1);
    }
  }

  /** The examples of RFC 4648, section 10, that show each length of a last group, and a number. */
  lemma KnownTexts()
    ensures Encode([102]) == "Zg==" && Encode([102, 111]) == "Zm8=" && Encode([102, 111, 111]) == "Zm9v"
    ensures HexString([102, 111, 111]) == "666f6f"
    ensures FormatUint(120) == "120"
  {
    assert Encode([]) == "" && Encode([102, 111, 111][3..]) == "";
    assert [102, 111, 111][1..] == [111, 111] && [111, 111][1..] == [111] && [111][1..] == [];
    assert HexString([111]) == "6f" && HexString([111, 111]) == "6f6f";
    assert FormatUint(1) == "1" && FormatUint(12) == "12";
  }

  // ---- In a record ----

  function RowsOf(raw: string): seq<string> { Split(Trim(raw)) }

  lemma BlockRecordRows(r: BlockRecord)
    requires r.height < TWO_64
    ensures var rows := RowsOf(BlockString(r));
      && |rows| == 8
      && HashFromString(rows[0]) == Some(r.block.prevBlockId) && HashFromString(rows[1]) == Some(r.block.merkleRoot)
      && HashFromString(rows[2]) == Some(r.block.target) && HashFromString(rows[3]) == Some(r.block.noise)
      && ParseUint(rows[4]) == Some(r.block.nonce) && ParseUint(rows[5]) == Some(r.block.minedTime)
      && ParseUint(rows[6]) == Some(r.height) && HashFromString(rows[7]) == Some(r.totalWork)
  {
    hide HashString, HashFromString, FormatUint, ParseUint, Split, Trim, Join;
    HashParses(r.block.prevBlockId);
    HashParses(r.block.merkleRoot);
    HashParses(r.block.target);
    HashParses(r.block.noise);
    UintParses(r.block.nonce);
    DigitsParse(r.block.nonce);
    UintParses(r.block.minedTime);
    DigitsParse(r.block.minedTime);
    UintParses(r.height);
    DigitsParse(r.height);
    HashParses(r.totalWork);
    FullRowsBack(BlockRows(r));
  }

  lemma MerkleRecordRows(r: MerkleRecord)
    requires r.vSize < TWO_64
    ensures var rows := RowsOf(MerkleString(r));
      && |rows| == 3
      && HashFromString(rows[0]) == Some(r.merkle.lChild) && HashFromString(rows[1]) == Some(r.merkle.rChild)
      && ParseUint(rows[2]) == Some(r.vSize)
  {
    hide HashString, HashFromString, FormatUint, ParseUint, Split, Trim, Join;
    HashParses(r.merkle.lChild);
    HashParses(r.merkle.rChild);
    UintParses(r.vSize);
    DigitsParse(r.vSize);
    FullRowsBack(MerkleRows(r));
  }

  /** The rows of a transaction, before they are joined. */
  lemma TxRecordRows(r: TxRecord)
    requires r.vSize < TWO_64 && |r.tx.inputs| <= MAX_INT64 && |r.tx.outputs| <= MAX_INT64
    ensures var rows := TxRows(r);
      && |rows| == 5 + 5 * |r.tx.inputs| + 2 * |r.tx.outputs|
      && ParseUint(rows[0]) == Some(r.vSize) && rows[1] == (if r.tx.isCoinbase then "true" else "false")
      && ParseUint(rows[2]) == Some(r.tx.minBlock)
      && Atoi(rows[3]) == Some(|r.tx.inputs|) && Atoi(rows[4]) == Some(|r.tx.outputs|)
      && rows[5..5 + 5 * |r.tx.inputs|] == InputsRows(r.tx.inputs)
      && rows[5 + 5 * |r.tx.inputs|..] == OutputsRows(r.tx.outputs)
  {
    hide FormatUint, ParseUint, Atoi, InputsRows, OutputsRows;
    UintParses(r.vSize);
    UintParses(r.tx.minBlock);
    CountParses(|r.tx.inputs|);
    CountParses(|r.tx.outputs|);
    InputsRowsSize(r.tx.inputs);
    OutputsRowsSize(r.tx.outputs);
  }

  lemma {:induction false} InputRowsAt(inputs: seq<TxIn>, i: nat)
    requires i < |inputs| && inputs[i].utxo.ind < TWO_64
    ensures |InputsRows(inputs)| == 5 * |inputs|
    ensures var rows, txi := InputsRows(inputs)[5 * i..], inputs[i];
      && |rows| >= 5
      && HashFromString(rows[0]) == Some(txi.utxo.txId) && ParseUint(rows[1]) == Some(txi.utxo.ind)
      && ParseUint(rows[2]) == Some(txi.utxo.value)
      && Decode(rows[3]) == Some(txi.publicKey) && Decode(rows[4]) == Some(txi.signature)
    decreases |inputs|
  {
    hide HashString, HashFromString, FormatUint, ParseUint, Encode, Decode;
    InputsRowsSize(inputs);
    if i == 0 {
      HashParses(inputs[0].utxo.txId);
      UintParses(inputs[0].utxo.ind);
      UintParses(inputs[0].utxo.value);
      Base64Inverts(inputs[0].publicKey);
      Base64Inverts(inputs[0].signature);
    } else {
      InputRowsAt(inputs[1..], i - 1);
      assert InputsRows(inputs)[5 * i..] == InputsRows(inputs[1..])[5 * (i - 1)..];
    }
  }

  lemma {:induction false} OutputRowsAt(outputs: seq<TxOut>, i: nat)
    requires i < |outputs|
    ensures |OutputsRows(outputs)| == 2 * |outputs|
    ensures ParseUint(OutputsRows(outputs)[2 * i]) == Some(outputs[i].value)
    ensures HashFromString(OutputsRows(outputs)[2 * i + 1]) == Some(outputs[i].publicKeyHash)
    decreases |outputs|
  {
    hide HashString, HashFromString, FormatUint, ParseUint;
    OutputsRowsSize(outputs);
    if i == 0 {
      UintParses(outputs[0].value);
      HashParses(outputs[0].publicKeyHash);
    } else {
      OutputRowsAt(outputs[1..], i - 1);
    }
  }
}
