/** Entities as bytes on a connection.  A connection has an error that sticks: once it is set, reads
    and writes do nothing. */
module Codec {
  import opened Core
  import opened HashBytes

  // ---- What reading and writing do to the two streams ----

  /** The bytes that are still to be read. */
  datatype In = In(bytes: seq<Byte>, err: bool)

  const MAX_WRITE: nat := 65536

  /** Too few bytes: the rest is lost and the error set. */
  function TakeRaw(s: In, n: nat): (seq<Byte>, In) {
    if s.err then ([], s)
    else if |s.bytes| < n then ([], In([], true))
    else (s.bytes[..n], In(s.bytes[n..], false))
  }

  function TakeNumber(s: In, n: nat): (nat, In) {
    var (raw, t) := TakeRaw(s, n);
    (if t.err then 0 else FromBytes(raw), t)
  }

  lemma NumberFits(s: In, n: nat)
    ensures TakeNumber(s, n).0 < Pow256(n)
  {
    var (raw, t) := TakeRaw(s, n);
    FromBytesBound([]);
    FromBytesBound(raw);
    PowPositive(n);
  }

  lemma PowPositive(n: nat)
    ensures Pow256(n) >= 1
  {
  }

  function TakeHash(s: In): (HashT, In) {
    NumberFits(s, 32);
    HashSize();
    TakeNumber(s, 32)
  }

  function TakeUint64(s: In): (Uint64, In) {
    NumberFits(s, 8);
    HashSize();
    TakeNumber(s, 8)
  }

  function TakeBool(s: In): (bool, In) {
    var (raw, t) := TakeRaw(s, 1);
    if t.err then (false, t)
    else if raw[0] > 1 then (false, t.(err := true))
    else (raw[0] == 1, t)
  }

  /** A field framed by its length in two bytes. */
  function TakeField(s: In): (seq<Byte>, In) {
    var (size, t) := TakeNumber(s, 2);
    TakeRaw(t, size)
  }

  function Frame(size: nat): seq<Byte> { ToBytes(size % 65536, 2) }

  // ---- Entities ----

  function TakeTxIn(s: In): (TxIn, In) {
    var (txId, s1) := TakeHash(s);
    var (ind, s2) := TakeUint64(s1);
    var (value, s3) := TakeUint64(s2);
    var (publicKey, s4) := TakeField(s3);
    var (signature, s5) := TakeField(s4);
    (TxIn(Utxo(txId, ind, value), publicKey, signature), s5)
  }

  function TakeTxOut(s: In): (TxOut, In) {
    var (value, s1) := TakeUint64(s);
    var (publicKeyHash, s2) := TakeHash(s1);
    (TxOut(value, publicKeyHash), s2)
  }

  function TakeTxIns(s: In, n: nat): (seq<TxIn>, In)
    decreases n
  {
    if n == 0 then ([], s)
    else
      var (first, s1) := TakeTxIn(s);
      var (rest, s2) := TakeTxIns(s1, n - 1);
      ([first] + rest, s2)
  }

  function TakeTxOuts(s: In, n: nat): (seq<TxOut>, In)
    decreases n
  {
    if n == 0 then ([], s)
    else
      var (first, s1) := TakeTxOut(s);
      var (rest, s2) := TakeTxOuts(s1, n - 1);
      ([first] + rest, s2)
  }

  const EMPTY_TX: Tx := Tx(false, 0, [], [])

  /** The header: whether a coinbase, the minimum block, and the numbers of inputs and outputs. */
  function TakeTxHeader(s: In): (bool, Uint64, Uint64, Uint64, In) {
    var (isCoinbase, s1) := TakeBool(s);
    var (minBlock, s2) := TakeUint64(s1);
    var (numInputs, s3) := TakeUint64(s2);
    var (numOutputs, s4) := TakeUint64(s3);
    (isCoinbase, minBlock, numInputs, numOutputs, s4)
  }

  /** A transaction that does not have the expected id is an error, like any other. */
  function TakeTx(h: Hashes, s: In, expectId: HashT): (Tx, In) {
    var (isCoinbase, minBlock, numInputs, numOutputs, s1) := TakeTxHeader(s);
    if s1.err then (EMPTY_TX, s1)
    else
      var (inputs, s2) := TakeTxIns(s1, numInputs);
      var (outputs, s3) := TakeTxOuts(s2, numOutputs);
      var tx := Tx(isCoinbase, minBlock, inputs, outputs);
      if s3.err then (EMPTY_TX, s3) else if h.tx(tx) != expectId then (EMPTY_TX, s3.(err := true)) else (tx, s3)
  }

  /** Making room for so many inputs and outputs panics: the longest slices of each are given. */
  predicate TooManyToMake(s: In, maxInputs: nat, maxOutputs: nat) {
    var (_, _, numInputs, numOutputs, _) := TakeTxHeader(s);
    numInputs > maxInputs || numOutputs > maxOutputs
  }

  const EMPTY_NODE: MerkleNode := MerkleNode(0, 0)

  function TakeMerkle(h: Hashes, s: In, expectId: HashT): (MerkleNode, In) {
    var (l, s1) := TakeHash(s);
    var (r, s2) := TakeHash(s1);
    if s2.err then (EMPTY_NODE, s2)
    else if h.merkle(MerkleNode(l, r)) != expectId then (EMPTY_NODE, s2.(err := true))
    else (MerkleNode(l, r), s2)
  }

  const EMPTY_BLOCK: Block := Block(0, 0, 0, 0, 0, 0)

  function TakeBlock(h: Hashes, s: In, expectId: HashT): (Block, In) {
    var (prevBlockId, s1) := TakeHash(s);
    var (merkleRoot, s2) := TakeHash(s1);
    var (target, s3) := TakeHash(s2);
    var (noise, s4) := TakeHash(s3);
    var (nonce, s5) := TakeUint64(s4);
    var (minedTime, s6) := TakeUint64(s5);
    var b := Block(prevBlockId, merkleRoot, target, noise, nonce, minedTime);
    if s6.err then (EMPTY_BLOCK, s6)
    else if h.BlockId(b) != expectId then (EMPTY_BLOCK, s6.(err := true))
    else (b, s6)
  }

  // ---- The bytes of an entity ----

  function BytesOfHash(h: HashT): seq<Byte> { ToBytes(h, 32) }

  function BytesOfUint64(n: Uint64): seq<Byte> { ToBytes(n, 8) }

  function BytesOfBool(b: bool): seq<Byte> { [if b then 1 else 0] }

  function BytesOfField(data: seq<Byte>): seq<Byte> { Frame(|data|) + data }

  function BytesOfTxIn(txi: TxIn): seq<Byte> {
    BytesOfHash(txi.utxo.txId) + (BytesOfUint64(txi.utxo.ind % TWO_64) + (BytesOfUint64(txi.utxo.value)
      + (BytesOfField(txi.publicKey) + BytesOfField(txi.signature))))
  }

  function BytesOfTxOut(txo: TxOut): seq<Byte> { BytesOfUint64(txo.value) + BytesOfHash(txo.publicKeyHash) }

  function BytesOfTxIns(inputs: seq<TxIn>): seq<Byte> {
    if inputs == [] then [] else BytesOfTxIn(inputs[0]) + BytesOfTxIns(inputs[1..])
  }

  function BytesOfTxOuts(outputs: seq<TxOut>): seq<Byte> {
    if outputs == [] then [] else BytesOfTxOut(outputs[0]) + BytesOfTxOuts(outputs[1..])
  }

  function BytesOfTx(tx: Tx): seq<Byte> {
    BytesOfBool(tx.isCoinbase) + (BytesOfUint64(tx.minBlock) + (BytesOfUint64(|tx.inputs| % TWO_64)
      + (BytesOfUint64(|tx.outputs| % TWO_64) + (BytesOfTxIns(tx.inputs) + BytesOfTxOuts(tx.outputs)))))
  }

  function BytesOfMerkle(m: MerkleNode): seq<Byte> { BytesOfHash(m.lChild) + BytesOfHash(m.rChild) }

  function BytesOfBlock(b: Block): seq<Byte> {
    BytesOfHash(b.prevBlockId) + (BytesOfHash(b.merkleRoot) + (BytesOfHash(b.target) + (BytesOfHash(b.noise)
      + (BytesOfUint64(b.nonce) + BytesOfUint64(b.minedTime)))))
  }

  // ---- Primitives invert ----

  /** Exactly the bytes that were put in front are taken off again. */
  lemma TakeFront(data: seq<Byte>, rest: seq<Byte>)
    ensures TakeRaw(In(data + rest, false), |data|) == (data, In(rest, false))
  {
    assert (data + rest)[..|data|] == data && (data + rest)[|data|..] == rest;
  }

  lemma NumberInverts(n: nat, size: nat, rest: seq<Byte>)
    requires n < Pow256(size)
    ensures TakeNumber(In(ToBytes(n, size) + rest, false), size) == (n, In(rest, false))
  {
    TakeFront(ToBytes(n, size), rest);
    NumberRoundTrip(n, size);
  }

  lemma HashInverts(h: HashT, rest: seq<Byte>)
    ensures TakeHash(In(BytesOfHash(h) + rest, false)) == (h, In(rest, false))
  {
    HashSize();
    NumberInverts(h, 32, rest);
  }

  lemma Uint64Inverts(n: Uint64, rest: seq<Byte>)
    ensures TakeUint64(In(BytesOfUint64(n) + rest, false)) == (n, In(rest, false))
  {
    HashSize();
    NumberInverts(n, 8, rest);
  }

  lemma BoolInverts(b: bool, rest: seq<Byte>)
    ensures TakeBool(In(BytesOfBool(b) + rest, false)) == (b, In(rest, false))
  {
    TakeFront(BytesOfBool(b), rest);
  }

  /** A field that can be written comes back if and only if its length fits in two bytes: at 65536
      the length reads as zero. */
  lemma FieldInverts(data: seq<Byte>, rest: seq<Byte>)
    requires |data| <= MAX_WRITE
    ensures var (back, s) := TakeField(In(BytesOfField(data) + rest, false));
      && !s.err
      && (|data| < 65536 ==> back == data && s.bytes == rest)
      && (|data| == 65536 ==> back == [])
  {
    var size := |data| % 65536;
    assert Pow256(2) == 65536;
    assert BytesOfField(data) + rest == Frame(|data|) + (data + rest);
    NumberInverts(size, 2, data + rest);
    if |data| < 65536 {
      TakeFront(data, rest);
    }
  }

  // ---- Entities invert ----

  /** What a connection can carry: indices are 64-bit, fields at most what may be written at once. */
  predicate Writable(txi: TxIn) {
    txi.utxo.ind < TWO_64 && |txi.publicKey| <= MAX_WRITE && |txi.signature| <= MAX_WRITE
  }

  /** What it also gives back. */
  predicate Framable(txi: TxIn) { |txi.publicKey| < 65536 && |txi.signature| < 65536 }

  lemma {:induction false} TxInInverts(txi: TxIn, rest: seq<Byte>)
    requires Writable(txi)
    ensures Framable(txi) ==> TakeTxIn(In(BytesOfTxIn(txi) + rest, false)) == (txi, In(rest, false))
    ensures !Framable(txi) ==> TakeTxIn(In(BytesOfTxIn(txi) + rest, false)).0 != txi
  {
    hide ToBytes, FromBytes, TakeRaw, Frame, TakeNumber, BytesOfHash, BytesOfUint64, BytesOfField, TakeHash, TakeUint64,
      TakeField;
    var fields := BytesOfField(txi.publicKey) + BytesOfField(txi.signature);
    var value := BytesOfUint64(txi.utxo.value) + fields;
    var ind := BytesOfUint64(txi.utxo.ind) + value;
    Associative(BytesOfHash(txi.utxo.txId), ind, rest);
    HashInverts(txi.utxo.txId, ind + rest);
    Associative(BytesOfUint64(txi.utxo.ind), value, rest);
    Uint64Inverts(txi.utxo.ind, value + rest);
    Associative(BytesOfUint64(txi.utxo.value), fields, rest);
    Uint64Inverts(txi.utxo.value, fields + rest);
    Associative(BytesOfField(txi.publicKey), BytesOfField(txi.signature), rest);
    FieldInverts(txi.publicKey, BytesOfField(txi.signature) + rest);
    FieldInverts(txi.signature, rest);
  }

  lemma {:induction false} TxOutInverts(txo: TxOut, rest: seq<Byte>)
    ensures TakeTxOut(In(BytesOfTxOut(txo) + rest, false)) == (txo, In(rest, false))
  {
    hide ToBytes, FromBytes, TakeRaw, TakeNumber, BytesOfHash, BytesOfUint64, TakeHash, TakeUint64;
    Associative(BytesOfUint64(txo.value), BytesOfHash(txo.publicKeyHash), rest);
    Uint64Inverts(txo.value, BytesOfHash(txo.publicKeyHash) + rest);
    HashInverts(txo.publicKeyHash, rest);
  }

  lemma {:induction false} TxInsInvert(inputs: seq<TxIn>, rest: seq<Byte>)
    requires forall i :: 0 <= i < |inputs| ==> Writable(inputs[i])
    ensures var (back, s) := TakeTxIns(In(BytesOfTxIns(inputs) + rest, false), |inputs|);
      && ((forall i :: 0 <= i < |inputs| ==> Framable(inputs[i])) ==> back == inputs && s == In(rest, false))
      && (back == inputs ==> forall i :: 0 <= i < |inputs| ==> Framable(inputs[i]))
  {
    hide TakeTxIn, BytesOfTxIn, Writable, Framable;
    if inputs != [] {
      var first, more := inputs[0], inputs[1..];
      Associative(BytesOfTxIn(first), BytesOfTxIns(more), rest);
      TxInInverts(first, BytesOfTxIns(more) + rest);
      TxInsInvert(more, rest);
      assert inputs == [first] + more;
      if Framable(first) {
        assert (forall i :: 0 <= i < |more| ==> Framable(more[i])) ==>
          forall i :: 0 <= i < |inputs| ==> Framable(inputs[i]);
        assert forall i :: 0 <= i < |more| ==> more[i] == inputs[i + 1];
      }
    } else {
      assert BytesOfTxIns(inputs) + rest == rest;
    }
  }

  lemma {:induction false} TxOutsInvert(outputs: seq<TxOut>, rest: seq<Byte>)
    ensures TakeTxOuts(In(BytesOfTxOuts(outputs) + rest, false), |outputs|) == (outputs, In(rest, false))
  {
    hide TakeTxOut, BytesOfTxOut;
    if outputs != [] {
      var first, more := outputs[0], outputs[1..];
      Associative(BytesOfTxOut(first), BytesOfTxOuts(more), rest);
      TxOutInverts(first, BytesOfTxOuts(more) + rest);
      TxOutsInvert(more, rest);
      assert outputs == [first] + more;
    } else {
      assert BytesOfTxOuts(outputs) + rest == rest;
    }
  }

  predicate TxWritable(tx: Tx) {
    && |tx.inputs| < TWO_64 && |tx.outputs| < TWO_64
    && forall i :: 0 <= i < |tx.inputs| ==> Writable(tx.inputs[i])
  }

  lemma TxWritableExact(tx: Tx)
    ensures TxWritable(tx) <==>
      && |tx.inputs| < TWO_64 && |tx.outputs| < TWO_64
      && forall i :: 0 <= i < |tx.inputs| ==>
           var txi := tx.inputs[i];
           txi.utxo.ind < TWO_64 && |txi.publicKey| <= 65536 && |txi.signature| <= 65536
    ensures forall i :: 0 <= i < |tx.inputs| ==>
      (TooLong(tx.inputs[i]) <==> |tx.inputs[i].publicKey| > 65536 || |tx.inputs[i].signature| > 65536)
  {
    forall i | 0 <= i < |tx.inputs|
      ensures Writable(tx.inputs[i]) <==>
        tx.inputs[i].utxo.ind < TWO_64 && |tx.inputs[i].publicKey| <= 65536 && |tx.inputs[i].signature| <= 65536
    {
    }
  }

  predicate TxFramable(tx: Tx) { forall i :: 0 <= i < |tx.inputs| ==> Framable(tx.inputs[i]) }

  lemma TxFramableExact(tx: Tx)
    ensures TxFramable(tx) <==>
      forall i :: 0 <= i < |tx.inputs| ==> |tx.inputs[i].publicKey| < 65536 && |tx.inputs[i].signature| < 65536
  {
    forall i | 0 <= i < |tx.inputs|
      ensures Framable(tx.inputs[i]) <==> |tx.inputs[i].publicKey| < 65536 && |tx.inputs[i].signature| < 65536
    {
    }
  }

  lemma {:induction false} HeaderInverts(tx: Tx, rest: seq<Byte>)
    requires |tx.inputs| < TWO_64 && |tx.outputs| < TWO_64
    ensures TakeTxHeader(In(BytesOfTx(tx) + rest, false))
         == (tx.isCoinbase, tx.minBlock, |tx.inputs|, |tx.outputs|,
             In(BytesOfTxIns(tx.inputs) + (BytesOfTxOuts(tx.outputs) + rest), false))
  {
    hide ToBytes, FromBytes, TakeRaw, TakeNumber, BytesOfHash, BytesOfUint64, BytesOfBool, TakeUint64, TakeBool,
      BytesOfTxIns, BytesOfTxOuts;
    var body := BytesOfTxIns(tx.inputs) + BytesOfTxOuts(tx.outputs);
    var outs := BytesOfUint64(|tx.outputs|) + body;
    var ins := BytesOfUint64(|tx.inputs|) + outs;
    var min := BytesOfUint64(tx.minBlock) + ins;
    Associative(BytesOfBool(tx.isCoinbase), min, rest);
    BoolInverts(tx.isCoinbase, min + rest);
    Associative(BytesOfUint64(tx.minBlock), ins, rest);
    Uint64Inverts(tx.minBlock, ins + rest);
    Associative(BytesOfUint64(|tx.inputs|), outs, rest);
    Uint64Inverts(|tx.inputs|, outs + rest);
    Associative(BytesOfUint64(|tx.outputs|), body, rest);
    Uint64Inverts(|tx.outputs|, body + rest);
    Associative(BytesOfTxIns(tx.inputs), BytesOfTxOuts(tx.outputs), rest);
  }

  /** A transaction comes back, with just its bytes consumed, if and only if no field is as long as
      65536 bytes. */
  lemma {:induction false} TxInverts(h: Hashes, tx: Tx, rest: seq<Byte>)
    requires TxWritable(tx)
    ensures TakeTx(h, In(BytesOfTx(tx) + rest, false), h.tx(tx)) == (tx, In(rest, false)) <==>
      forall i :: 0 <= i < |tx.inputs| ==> |tx.inputs[i].publicKey| < 65536 && |tx.inputs[i].signature| < 65536
  {
    TxFramableExact(tx);
    hide BytesOfTx, TakeTxHeader, BytesOfTxIns, BytesOfTxOuts, Framable, Writable;
    HeaderInverts(tx, rest);
    TxInsInvert(tx.inputs, BytesOfTxOuts(tx.outputs) + rest);
    TxOutsInvert(tx.outputs, rest);
  }

  /** What was written makes the reader panic exactly when it has more inputs or outputs than a slice
      can hold. */
  lemma WrittenPanics(tx: Tx, rest: seq<Byte>, maxInputs: nat, maxOutputs: nat)
    requires TxWritable(tx)
    ensures TooManyToMake(In(BytesOfTx(tx) + rest, false), maxInputs, maxOutputs)
       <==> |tx.inputs| > maxInputs || |tx.outputs| > maxOutputs
  {
    hide BytesOfTx, TakeTxHeader, Writable;
    HeaderInverts(tx, rest);
  }

  lemma {:induction false} MerkleInverts(h: Hashes, m: MerkleNode, rest: seq<Byte>)
    ensures TakeMerkle(h, In(BytesOfMerkle(m) + rest, false), h.merkle(m)) == (m, In(rest, false))
  {
    hide ToBytes, FromBytes, TakeRaw, TakeNumber, BytesOfHash, TakeHash;
    Associative(BytesOfHash(m.lChild), BytesOfHash(m.rChild), rest);
    HashInverts(m.lChild, BytesOfHash(m.rChild) + rest);
    HashInverts(m.rChild, rest);
  }

  lemma {:induction false} BlockInverts(h: Hashes, b: Block, rest: seq<Byte>)
    ensures TakeBlock(h, In(BytesOfBlock(b) + rest, false), h.BlockId(b)) == (b, In(rest, false))
  {
    hide ToBytes, FromBytes, TakeRaw, TakeNumber, BytesOfHash, BytesOfUint64, TakeHash, TakeUint64;
    var s5 := BytesOfUint64(b.nonce) + BytesOfUint64(b.minedTime);
    var s4 := BytesOfHash(b.noise) + s5;
    var s3 := BytesOfHash(b.target) + s4;
    var s2 := BytesOfHash(b.merkleRoot) + s3;
    Associative(BytesOfHash(b.prevBlockId), s2, rest);
    HashInverts(b.prevBlockId, s2 + rest);
    Associative(BytesOfHash(b.merkleRoot), s3, rest);
    HashInverts(b.merkleRoot, s3 + rest);
    Associative(BytesOfHash(b.target), s4, rest);
    HashInverts(b.target, s4 + rest);
    Associative(BytesOfHash(b.noise), s5, rest);
    HashInverts(b.noise, s5 + rest);
    Associative(BytesOfUint64(b.nonce), BytesOfUint64(b.minedTime), rest);
    Uint64Inverts(b.nonce, BytesOfUint64(b.minedTime) + rest);
    Uint64Inverts(b.minedTime, rest);
  }

  lemma {:induction false} BytesOfTxInsMore(inputs: seq<TxIn>, txi: TxIn)
    ensures BytesOfTxIns(inputs + [txi]) == BytesOfTxIns(inputs) + BytesOfTxIn(txi)
    decreases |inputs|
  {
    hide BytesOfTxIn;
    if inputs == [] {
      assert ([] + [txi])[1..] == [];
    } else {
      assert (inputs + [txi])[1..] == inputs[1..] + [txi];
      BytesOfTxInsMore(inputs[1..], txi);
    }
  }

  lemma {:induction false} BytesOfTxOutsMore(outputs: seq<TxOut>, txo: TxOut)
    ensures BytesOfTxOuts(outputs + [txo]) == BytesOfTxOuts(outputs) + BytesOfTxOut(txo)
    decreases |outputs|
  {
    hide BytesOfTxOut;
    if outputs == [] {
      assert ([] + [txo])[1..] == [];
    } else {
      assert (outputs + [txo])[1..] == outputs[1..] + [txo];
      BytesOfTxOutsMore(outputs[1..], txo);
    }
  }

  // ---- The connection ----

  class Conn {
    const hashes: Hashes
    const maxInputs: nat
    const maxOutputs: nat
    var input: seq<Byte>
    var output: seq<Byte>
    var err: bool

    function Reading(): In
      reads this
    {
      In(input, err)
    }

    constructor (hashes: Hashes, maxInputs: nat, maxOutputs: nat)
      ensures this.hashes == hashes && this.maxInputs == maxInputs && this.maxOutputs == maxOutputs
      ensures input == [] && output == [] && !err
    {
      this.hashes, this.maxInputs, this.maxOutputs := hashes, maxInputs, maxOutputs;
      input, output, err := [], [], false;
    }

    /** Hands the error over and clears it. */
    method Err() returns (e: bool)
      modifies this`err
      ensures e == old(err) && !err
    {
      e := err;
      err := false;
    }

    method ReadRaw(n: nat) returns (data: seq<Byte>)
      modifies this`input, this`err
      ensures (data, Reading()) == TakeRaw(old(Reading()), n)
    {
      if err {
        return [];
      }
      if |input| < n {
        input, err := [], true;
        return [];
      }
      data := input[..n];
      input := input[n..];
    }

    method WriteRaw(data: seq<Byte>)
      modifies this`output, this`err
      ensures err == (old(err) || |data| > MAX_WRITE)
      ensures output == if err then old(output) else old(output) + data
    {
      if err {
        return;
      }
      if |data| > MAX_WRITE {
        err := true;
        return;
      }
      output := output + data;
    }

    method Read() returns (data: seq<Byte>)
      modifies this`input, this`err
      ensures (data, Reading()) == TakeField(old(Reading()))
    {
      var size := ReadRaw(2);
      if err {
        return [];
      }
      data := ReadRaw(FromBytes(size));
    }

    method Write(data: seq<Byte>)
      modifies this`output, this`err
      ensures err == (old(err) || |data| > MAX_WRITE)
      ensures output == if err then old(output) else old(output) + BytesOfField(data)
    {
      if err {
        return;
      }
      if |data| > MAX_WRITE {
        err := true;
        return;
      }
      WriteRaw(Frame(|data|));
      WriteRaw(data);
    }

    method ReadHashT() returns (h: HashT)
      modifies this`input, this`err
      ensures (h, Reading()) == TakeHash(old(Reading()))
    {
      ghost var s := Reading();
      NumberFits(s, 32);
      HashSize();
      var raw := ReadRaw(32);
      h := if err then 0 else FromBytes(raw);
    }

    method WriteHashT(h: HashT)
      modifies this`output, this`err
      ensures err == old(err) && output == if err then old(output) else old(output) + BytesOfHash(h)
    {
      WriteRaw(BytesOfHash(h));
    }

    method ReadUint64() returns (n: Uint64)
      modifies this`input, this`err
      ensures (n, Reading()) == TakeUint64(old(Reading()))
    {
      ghost var s := Reading();
      NumberFits(s, 8);
      HashSize();
      var raw := ReadRaw(8);
      n := if err then 0 else FromBytes(raw);
    }

    method WriteUint64(n: Uint64)
      modifies this`output, this`err
      ensures err == old(err) && output == if err then old(output) else old(output) + BytesOfUint64(n)
    {
      WriteRaw(BytesOfUint64(n));
    }

    method ReadBool() returns (b: bool)
      modifies this`input, this`err
      ensures (b, Reading()) == TakeBool(old(Reading()))
    {
      var raw := ReadRaw(1);
      if err {
        return false;
      }
      if raw[0] == 0 {
        b := false;
      } else if raw[0] == 1 {
        b := true;
      } else {
        b, err := false, true;
      }
    }

    method WriteBool(b: bool)
      modifies this`output, this`err
      ensures err == old(err) && output == if err then old(output) else old(output) + BytesOfBool(b)
    {
      if b {
        WriteRaw([1]);
      } else {
        WriteRaw([0]);
      }
    }

    method ReadMerkle(expectId: HashT) returns (merkle: MerkleNode)
      modifies this`input, this`err
      ensures (merkle, Reading()) == TakeMerkle(hashes, old(Reading()), expectId)
    {
      var l := ReadHashT();
      var r := ReadHashT();
      if err {
        return EMPTY_NODE;
      }
      merkle := MerkleNode(l, r);
      if hashes.merkle(merkle) != expectId {
        err := true;
        return EMPTY_NODE;
      }
    }

    method WriteMerkle(data: MerkleNode)
      modifies this`output, this`err
      ensures err == old(err) && output == if err then old(output) else old(output) + BytesOfMerkle(data)
    {
      WriteHashT(data.lChild);
      WriteHashT(data.rChild);
    }

    method ReadBlock(expectId: HashT) returns (block: Block)
      modifies this`input, this`err
      ensures (block, Reading()) == TakeBlock(hashes, old(Reading()), expectId)
    {
      hide TakeHash, TakeUint64;
      var prevBlockId := ReadHashT();
      var merkleRoot := ReadHashT();
      var target := ReadHashT();
      var noise := ReadHashT();
      var nonce := ReadUint64();
      var minedTime := ReadUint64();
      if err {
        return EMPTY_BLOCK;
      }
      block := Block(prevBlockId, merkleRoot, target, noise, nonce, minedTime);
      if hashes.BlockId(block) != expectId {
        err := true;
        return EMPTY_BLOCK;
      }
    }

    method WriteBlock(data: Block)
      modifies this`output, this`err
      ensures err == old(err) && output == if err then old(output) else old(output) + BytesOfBlock(data)
    {
      hide BytesOfHash, BytesOfUint64;
      BlockBytesInOrder(output, data);
      WriteHashT(data.prevBlockId);
      WriteHashT(data.merkleRoot);
      WriteHashT(data.target);
      WriteHashT(data.noise);
      WriteUint64(data.nonce);
      WriteUint64(data.minedTime);
    }

    method ReadTxIn() returns (txi: TxIn)
      modifies this`input, this`err
      ensures (txi, Reading()) == TakeTxIn(old(Reading()))
    {
      hide TakeHash, TakeUint64, TakeField;
      var txId := ReadHashT();
      var ind := ReadUint64();
      var value := ReadUint64();
      var publicKey := Read();
      var signature := Read();
      txi := TxIn(Utxo(txId, ind, value), publicKey, signature);
    }

    method ReadTxIns(n: nat) returns (inputs: seq<TxIn>)
      modifies this`input, this`err
      ensures (inputs, Reading()) == TakeTxIns(old(Reading()), n)
    {
      hide TakeTxIn;
      inputs := [];
      PrependNone(TakeTxIns(Reading(), n));
      for i := 0 to n
        invariant TakeTxIns(old(Reading()), n) == Prepend(inputs, TakeTxIns(Reading(), n - i))
      {
        var txi := ReadTxIn();
        PrependMore(inputs, txi, TakeTxIns(Reading(), n - i - 1));
        inputs := inputs + [txi];
      }
      PrependToNone(inputs, Reading());
    }

    method ReadTxOuts(n: nat) returns (outputs: seq<TxOut>)
      modifies this`input, this`err
      ensures (outputs, Reading()) == TakeTxOuts(old(Reading()), n)
    {
      hide TakeTxOut;
      outputs := [];
      PrependNone(TakeTxOuts(Reading(), n));
      for i := 0 to n
        invariant TakeTxOuts(old(Reading()), n) == Prepend(outputs, TakeTxOuts(Reading(), n - i))
      {
        var txo := ReadTxOut();
        PrependMore(outputs, txo, TakeTxOuts(Reading(), n - i - 1));
        outputs := outputs + [txo];
      }
      PrependToNone(outputs, Reading());
    }

    /** Not `ok` stands for the panic at a count that no slice can have: it comes before anything of
        the transaction's body is read. */
    method ReadTx(expectId: HashT) returns (tx: Tx, ok: bool)
      modifies this`input, this`err
      ensures ok <==> !TooManyToMake(old(Reading()), maxInputs, maxOutputs)
      ensures ok ==> (tx, Reading()) == TakeTx(hashes, old(Reading()), expectId)
    {
      hide TakeHash, TakeUint64, TakeBool, TakeTxIns, TakeTxOuts;
      tx, ok := EMPTY_TX, true;
      var isCoinbase := ReadBool();
      var minBlock := ReadUint64();
      var numInputs := ReadUint64();
      if numInputs > maxInputs {
        return EMPTY_TX, false;
      }
      var numOutputs := ReadUint64();
      if numOutputs > maxOutputs {
        return EMPTY_TX, false;
      }
      if err {
        return EMPTY_TX, true;
      }
      var inputs := ReadTxIns(numInputs);
      var outputs := ReadTxOuts(numOutputs);
      if err {
        return EMPTY_TX, true;
      }
      tx := Tx(isCoinbase, minBlock, inputs, outputs);
      if hashes.tx(tx) != expectId {
        err := true;
        return EMPTY_TX, true;
      }
    }

    method ReadTxOut() returns (txo: TxOut)
      modifies this`input, this`err
      ensures (txo, Reading()) == TakeTxOut(old(Reading()))
    {
      hide TakeHash, TakeUint64;
      var value := ReadUint64();
      var publicKeyHash := ReadHashT();
      txo := TxOut(value, publicKeyHash);
    }

    method WriteTxIn(txi: TxIn)
      modifies this`output, this`err
      ensures Writable(txi) ==> err == old(err) && output == if err then old(output) else old(output) + BytesOfTxIn(txi)
      ensures |txi.publicKey| > MAX_WRITE || |txi.signature| > MAX_WRITE || old(err) ==> err
    {
      hide BytesOfHash, BytesOfUint64, BytesOfField, BytesOfTxIn;
      TxInBytesInOrder(output, txi);
      WriteHashT(txi.utxo.txId);
      WriteUint64(txi.utxo.ind % TWO_64);
      WriteUint64(txi.utxo.value);
      Write(txi.publicKey);
      Write(txi.signature);
    }

    method WriteTxOut(txo: TxOut)
      modifies this`output, this`err
      ensures err == old(err) && output == if err then old(output) else old(output) + BytesOfTxOut(txo)
    {
      WriteUint64(txo.value);
      WriteHashT(txo.publicKeyHash);
    }

    method WriteTxIns(inputs: seq<TxIn>)
      modifies this`output, this`err
      ensures (forall i :: 0 <= i < |inputs| ==> Writable(inputs[i])) ==>
        err == old(err) && output == if err then old(output) else old(output) + BytesOfTxIns(inputs)
      ensures old(err) || (exists i :: 0 <= i < |inputs| && TooLong(inputs[i])) ==> err
    {
      hide BytesOfTxIn, BytesOfTxIns, Writable, TooLong;
      NoBytes(output);
      for i := 0 to |inputs|
        invariant old(err) || (exists k :: 0 <= k < i && TooLong(inputs[k])) ==> err
        invariant (forall k :: 0 <= k < i ==> Writable(inputs[k])) ==>
          err == old(err) && output == if err then old(output) else old(output) + BytesOfTxIns(inputs[..i])
      {
        TooLongIs(inputs[i]);
        WriteTxIn(inputs[i]);
        BytesOfTxInsMore(inputs[..i], inputs[i]);
        assert inputs[..i + 1] == inputs[..i] + [inputs[i]];
        Associative(old(output), BytesOfTxIns(inputs[..i]), BytesOfTxIn(inputs[i]));
      }
      assert inputs[..|inputs|] == inputs;
    }

    method WriteTxOuts(outputs: seq<TxOut>)
      modifies this`output, this`err
      ensures err == old(err) && output == if err then old(output) else old(output) + BytesOfTxOuts(outputs)
    {
      hide BytesOfTxOut, BytesOfTxOuts;
      NoBytes(output);
      for i := 0 to |outputs|
        invariant err == old(err) && output == if err then old(output) else old(output) + BytesOfTxOuts(outputs[..i])
      {
        WriteTxOut(outputs[i]);
        BytesOfTxOutsMore(outputs[..i], outputs[i]);
        assert outputs[..i + 1] == outputs[..i] + [outputs[i]];
        Associative(old(output), BytesOfTxOuts(outputs[..i]), BytesOfTxOut(outputs[i]));
      }
      assert outputs[..|outputs|] == outputs;
    }

    /** All of the bytes, unless a field is too long to write or the error was set before. */
    method WriteTx(data: Tx)
      modifies this`output, this`err
      ensures
        && |data.inputs| < TWO_64 && |data.outputs| < TWO_64
        && (forall i :: 0 <= i < |data.inputs| ==>
              var txi := data.inputs[i];
              txi.utxo.ind < TWO_64 && |txi.publicKey| <= 65536 && |txi.signature| <= 65536)
        ==>
        err == old(err) && output == if err then old(output) else old(output) + BytesOfTx(data)
      ensures old(err) ==> err
      ensures (exists i :: 0 <= i < |data.inputs|
                           && (|data.inputs[i].publicKey| > 65536 || |data.inputs[i].signature| > 65536)) ==> err
    {
      TxWritableExact(data);
      hide BytesOfBool, BytesOfUint64, BytesOfTxIns, BytesOfTxOuts, Writable, TooLong;
      TxBytesInOrder(output, data);
      WriteBool(data.isCoinbase);
      WriteUint64(data.minBlock);
      WriteUint64(|data.inputs| % TWO_64);
      WriteUint64(|data.outputs| % TWO_64);
      WriteTxIns(data.inputs);
      WriteTxOuts(data.outputs);
    }
  }

  lemma NoBytes(output: seq<Byte>)
    ensures output + BytesOfTxIns([]) == output && output + BytesOfTxOuts([]) == output
  {
  }

  /** Written one after the other. */
  lemma {:induction false} TxBytesInOrder(o: seq<Byte>, tx: Tx)
    ensures o + BytesOfTx(tx) == o + BytesOfBool(tx.isCoinbase) + BytesOfUint64(tx.minBlock)
      + BytesOfUint64(|tx.inputs| % TWO_64) + BytesOfUint64(|tx.outputs| % TWO_64) + BytesOfTxIns(tx.inputs)
      + BytesOfTxOuts(tx.outputs)
  {
    hide BytesOfBool, BytesOfUint64, BytesOfTxIns, BytesOfTxOuts;
    InOrder(o, BytesOfBool(tx.isCoinbase), BytesOfUint64(tx.minBlock), BytesOfUint64(|tx.inputs| % TWO_64),
      BytesOfUint64(|tx.outputs| % TWO_64), BytesOfTxIns(tx.inputs), BytesOfTxOuts(tx.outputs));
  }

  lemma {:induction false} TxInBytesInOrder(o: seq<Byte>, txi: TxIn)
    ensures o + BytesOfTxIn(txi) == o + BytesOfHash(txi.utxo.txId) + BytesOfUint64(txi.utxo.ind % TWO_64)
      + BytesOfUint64(txi.utxo.value) + BytesOfField(txi.publicKey) + BytesOfField(txi.signature)
  {
    hide BytesOfHash, BytesOfUint64, BytesOfField;
    InOrder(o, BytesOfHash(txi.utxo.txId), BytesOfUint64(txi.utxo.ind % TWO_64), BytesOfUint64(txi.utxo.value),
      BytesOfField(txi.publicKey), BytesOfField(txi.signature), []);
    assert BytesOfField(txi.signature) + [] == BytesOfField(txi.signature);
  }

  lemma {:induction false} BlockBytesInOrder(o: seq<Byte>, b: Block)
    ensures o + BytesOfBlock(b) == o + BytesOfHash(b.prevBlockId) + BytesOfHash(b.merkleRoot) + BytesOfHash(b.target)
      + BytesOfHash(b.noise) + BytesOfUint64(b.nonce) + BytesOfUint64(b.minedTime)
  {
    hide BytesOfHash, BytesOfUint64;
    InOrder(o, BytesOfHash(b.prevBlockId), BytesOfHash(b.merkleRoot), BytesOfHash(b.target), BytesOfHash(b.noise),
      BytesOfUint64(b.nonce), BytesOfUint64(b.minedTime));
  }

  lemma InOrder(
    o: seq<Byte>, a: seq<Byte>, b: seq<Byte>, c: seq<Byte>, d: seq<Byte>, e: seq<Byte>, f: seq<Byte>)
    ensures o + (a + (b + (c + (d + (e + f))))) == o + a + b + c + d + e + f
  {
    Associative(o, a, b + (c + (d + (e + f))));
    Associative(o + a, b, c + (d + (e + f)));
    Associative(o + a + b, c, d + (e + f));
    Associative(o + a + b + c, d, e + f);
    Associative(o + a + b + c + d, e, f);
  }

  predicate TooLong(txi: TxIn) { |txi.publicKey| > MAX_WRITE || |txi.signature| > MAX_WRITE }

  lemma TooLongIs(txi: TxIn)
    ensures TooLong(txi) <==> |txi.publicKey| > MAX_WRITE || |txi.signature| > MAX_WRITE
  {
  }

  function Prepend<T>(front: seq<T>, taken: (seq<T>, In)): (seq<T>, In) { (front + taken.0, taken.1) }

  lemma PrependNone<T>(taken: (seq<T>, In))
    ensures Prepend([], taken) == taken
  {
    assert [] + taken.0 == taken.0;
  }

  lemma PrependToNone<T>(front: seq<T>, s: In)
    ensures Prepend(front, ([], s)) == (front, s)
  {
    assert front + [] == front;
  }

  lemma PrependMore<T>(front: seq<T>, x: T, taken: (seq<T>, In))
    ensures Prepend(front, ([x] + taken.0, taken.1)) == Prepend(front + [x], taken)
  {
    assert front + ([x] + taken.0) == front + [x] + taken.0;
  }
}
