/** The entities of the currency: transactions, merkle nodes, blocks and the parameters all
    nodes share.  Hash functions and signatures are parameters: `Hashes` packs one function
    value for each way the program hashes or checks something. */
module Core {

  const TWO_64: nat := 0x1_0000_0000_0000_0000
  const TWO_256: nat := 0x1_0000_0000_0000_0000_0000_0000_0000_0000_0000_0000_0000_0000_0000_0000_0000_0000

  type Uint64 = n: nat | n < 0x1_0000_0000_0000_0000

  /** A 32-byte hash, read as a big-endian number.  `HashBytes` relates it to its bytes. */
  type HashT = n: nat | n < 0x1_0000_0000_0000_0000_0000_0000_0000_0000_0000_0000_0000_0000_0000_0000_0000_0000

  type Byte = n: nat | n < 256

  datatype Option<+T> = None | Some(value: T)

  /** What a call into the chain can come to; `Panic` stands for a Go panic. */
  datatype Outcome = Ok | Err | Panic

  // ---- Entities ----

  datatype Utxo = Utxo(txId: HashT, ind: nat, value: Uint64)

  datatype TxIn = TxIn(utxo: Utxo, publicKey: seq<Byte>, signature: seq<Byte>)

  datatype TxOut = TxOut(value: Uint64, publicKeyHash: HashT)

  datatype Tx = Tx(isCoinbase: bool, minBlock: Uint64, inputs: seq<TxIn>, outputs: seq<TxOut>)

  datatype MerkleNode = MerkleNode(lChild: HashT, rChild: HashT)

  datatype Block = Block(
    prevBlockId: HashT, merkleRoot: HashT, target: HashT, noise: HashT, nonce: Uint64, minedTime: Uint64)

  datatype Params = Params(
    blockReward: Uint64, difficultyPeriod: Uint64, blockTargetTime: Uint64,
    maxBlockVSize: Uint64, maxTxVSize: Uint64, maxTarget: HashT, originalTarget: HashT)
  {
    /** What `Params.verify` insists on before a node starts. */
    predicate Verified() {
      && maxTarget <= 0x3fff_ffff_ffff_ffff_ffff_ffff_ffff_ffff_ffff_ffff_ffff_ffff_ffff_ffff_ffff_ffff
      && 4 <= difficultyPeriod
    }
  }

  /** The cryptography, left uninterpreted.  `block` is applied to the five fields that
      `Block.Hash` covers: the mined time is not one of them. */
  datatype Hashes = Hashes(
    tx: Tx -> HashT,
    merkle: MerkleNode -> HashT,
    block: (HashT, HashT, HashT, HashT, Uint64) -> HashT,
    bytes: seq<Byte> -> HashT,
    preSig: (Uint64, seq<TxOut>) -> HashT,
    validSig: (seq<Byte>, HashT, seq<Byte>) -> bool)
  {
    function BlockId(b: Block): HashT {
      block(b.prevBlockId, b.merkleRoot, b.target, b.noise, b.nonce)
    }

    /** No transaction hashes to the id of a merkle node. */
    ghost predicate Disjoint() {
      forall t: Tx, m: MerkleNode :: tx(t) != merkle(m)
    }
  }

  /** What every component of a node shares. */
  datatype Env = Env(params: Params, hashes: Hashes) {
    ghost predicate Ok() {
      params.Verified() && hashes.Disjoint()
    }
  }

  // ---- Sums over a transaction ----

  function SumIn(inputs: seq<TxIn>): nat {
    if inputs == [] then 0 else SumIn(inputs[..|inputs| - 1]) + inputs[|inputs| - 1].utxo.value
  }

  function SumOut(outputs: seq<TxOut>): nat {
    if outputs == [] then 0 else SumOut(outputs[..|outputs| - 1]) + outputs[|outputs| - 1].value
  }

  function SumInVSize(inputs: seq<TxIn>): nat {
    if inputs == [] then 0
    else
      var last := inputs[|inputs| - 1];
      SumInVSize(inputs[..|inputs| - 1]) + 48 + |last.publicKey| + |last.signature|
  }

  /** 64-bit sums wrap around. */
  function InputsValue(tx: Tx): Uint64 { SumIn(tx.inputs) % TWO_64 }

  function OutputsValue(tx: Tx): Uint64 { SumOut(tx.outputs) % TWO_64 }

  function VSize(tx: Tx): (v: nat)
    ensures v >= 72
  {
    72 + SumInVSize(tx.inputs) + 40 * |tx.outputs|
  }

  /** Reducing the parts of a sum first makes no difference. */
  lemma AddWrap(a: nat, b: nat)
    ensures (a % TWO_64 + b % TWO_64) % TWO_64 == (a + b) % TWO_64
  {
  }

  lemma AddWrapSmall(a: nat, b: Uint64)
    ensures (a % TWO_64 + b) % TWO_64 == (a + b) % TWO_64
  {
  }

  /** The sum loops of a transaction, each against its sum. */
  method ComputeInputsValue(tx: Tx) returns (total: Uint64)
    ensures total == InputsValue(tx)
  {
    total := 0;
    for i := 0 to |tx.inputs|
      invariant total == SumIn(tx.inputs[..i]) % TWO_64
    {
      assert tx.inputs[..i + 1][..i] == tx.inputs[..i];
      total := (total + tx.inputs[i].utxo.value) % TWO_64;
    }
    assert tx.inputs[..|tx.inputs|] == tx.inputs;
  }

  method ComputeOutputsValue(tx: Tx) returns (total: Uint64)
    ensures total == OutputsValue(tx)
  {
    total := 0;
    for i := 0 to |tx.outputs|
      invariant total == SumOut(tx.outputs[..i]) % TWO_64
    {
      assert tx.outputs[..i + 1][..i] == tx.outputs[..i];
      total := (total + tx.outputs[i].value) % TWO_64;
    }
    assert tx.outputs[..|tx.outputs|] == tx.outputs;
  }

  method ComputeVSize(tx: Tx) returns (vSize: nat)
    ensures vSize == VSize(tx)
  {
    vSize := 72;
    for i := 0 to |tx.inputs|
      invariant vSize == 72 + SumInVSize(tx.inputs[..i])
    {
      assert tx.inputs[..i + 1][..i] == tx.inputs[..i];
      vSize := vSize + 48 + |tx.inputs[i].publicKey| + |tx.inputs[i].signature|;
    }
    assert tx.inputs[..|tx.inputs|] == tx.inputs;
    for i := 0 to |tx.outputs|
      invariant vSize == 72 + SumInVSize(tx.inputs) + 40 * i
    {
      vSize := vSize + 40;
    }
  }

  predicate HasSurplus(tx: Tx) { InputsValue(tx) > OutputsValue(tx) }

  /** The fee rate.  The program rounds this quotient to a float. */
  function Rate(tx: Tx): real {
    (InputsValue(tx) as real - OutputsValue(tx) as real) / VSize(tx) as real
  }

  /** What a transaction leaves to the miner. */
  function Fee(tx: Tx): int { SumIn(tx.inputs) % TWO_64 - SumOut(tx.outputs) % TWO_64 }

  /** The first pays at least as much for its size as the second. */
  predicate PaysNoLess(a: Tx, b: Tx) { Fee(a) * VSize(b) >= Fee(b) * VSize(a) }

  lemma RateOrder(a: Tx, b: Tx)
    ensures Rate(a) >= Rate(b) <==> PaysNoLess(a, b)
  {
    hide SumIn, SumOut;
    Quotients(Fee(a), VSize(a), Fee(b), VSize(b));
  }

  /** Of equal sizes the larger fee is better, of equal fees the smaller size. */
  lemma PaysNoLessExact(a: Tx, b: Tx)
    ensures VSize(a) == VSize(b) ==>
      (PaysNoLess(a, b) <==>
         SumIn(a.inputs) % TWO_64 - SumOut(a.outputs) % TWO_64 >= SumIn(b.inputs) % TWO_64 - SumOut(b.outputs) % TWO_64)
    ensures HasSurplus(a) && SumIn(a.inputs) % TWO_64 - SumOut(a.outputs) % TWO_64
                          == SumIn(b.inputs) % TWO_64 - SumOut(b.outputs) % TWO_64
      ==> (PaysNoLess(a, b) <==> VSize(a) <= VSize(b))
  {
    hide SumIn, SumOut, VSize;
    SameFactor(Fee(a), Fee(b), VSize(a));
    if HasSurplus(a) {
      SameFactor(VSize(b), VSize(a), Fee(a));
    }
  }

  lemma Larger(a: int, b: int, d: nat)
    requires a <= b
    ensures a * d <= b * d && d * a <= d * b
  {
    assert (b - a) * d >= 0;
    assert (b - a) * d == b * d - a * d;
  }

  lemma SameFactor(a: int, b: int, m: nat)
    requires m > 0
    ensures a * m >= b * m <==> a >= b
  {
    assert (a - b) * m == a * m - b * m;
  }

  lemma Quotients(a: int, m: nat, b: int, n: nat)
    requires m > 0 && n > 0
    ensures a as real / m as real >= b as real / n as real <==> a * n >= b * m
  {
    var x, y := a as real / m as real, b as real / n as real;
    assert x * m as real == a as real && y * n as real == b as real;
    assert (a * n) as real == x * (m as real * n as real);
    assert (b * m) as real == y * (m as real * n as real);
    assert m as real * n as real > 0.0;
  }

  function ConsumedUtxos(tx: Tx): seq<Utxo> {
    seq(|tx.inputs|, i requires 0 <= i < |tx.inputs| => tx.inputs[i].utxo)
  }

  /** A size no transaction with an input and a 91-byte public key is below, and the size of
      every coinbase. */
  const MIN_NON_COINBASE_VSIZE: nat := 211
  const COINBASE_VSIZE: nat := 112

  /** Unsigned 64-bit subtraction. */
  function Sub64(a: Uint64, b: Uint64): Uint64 { (a - b + TWO_64) % TWO_64 }

  function BlockMaxTxs(params: Params): nat {
    Sub64(params.maxBlockVSize, COINBASE_VSIZE) / MIN_NON_COINBASE_VSIZE + 2
  }

  // ---- Sequences as lists of ids ----

  predicate NoDup<T(==)>(s: seq<T>) {
    forall i, j :: 0 <= i < j < |s| ==> s[i] != s[j]
  }

  function ToSet<T(==)>(s: seq<T>): set<T> { set x | x in s }

  lemma Associative<T>(a: seq<T>, b: seq<T>, c: seq<T>)
    ensures a + (b + c) == (a + b) + c
  {
  }

  lemma NoDupAppend<T>(a: seq<T>, b: seq<T>)
    ensures NoDup(a + b) <==> NoDup(a) && NoDup(b) && ToSet(a) !! ToSet(b)
  {
    var s := a + b;
    assert forall i :: 0 <= i < |a| ==> s[i] == a[i];
    assert forall i :: 0 <= i < |b| ==> s[|a| + i] == b[i];
    if NoDup(s) {
      forall i, j | 0 <= i < j < |b| ensures b[i] != b[j] {
        assert s[|a| + i] != s[|a| + j];
      }
      forall i, j | 0 <= i < |a| && 0 <= j < |b| ensures a[i] != b[j] {
        assert s[i] != s[|a| + j];
      }
    }
    if NoDup(a) && NoDup(b) && ToSet(a) !! ToSet(b) {
      forall i, j | 0 <= i < j < |s| ensures s[i] != s[j] {
        if i < |a| <= j {
          assert s[i] in ToSet(a) && s[j] in ToSet(b);
        }
      }
    }
  }

  lemma MultisetNoDup<T>(s: seq<T>)
    ensures NoDup(s) <==> forall x :: multiset(s)[x] <= 1
  {
    if s != [] {
      var front, last := s[..|s| - 1], s[|s| - 1];
      assert s == front + [last];
      MultisetNoDup(front);
      NoDupAppend(front, [last]);
      assert last in front <==> multiset(front)[last] > 0;
      assert multiset(s)[last] == multiset(front)[last] + 1;
      if NoDup(front) && last !in front {
        forall x ensures multiset(s)[x] <= 1 {
          assert multiset(s)[x] == multiset(front)[x] + multiset([last])[x];
        }
      } else if !NoDup(front) {
        var x :| multiset(front)[x] > 1;
        assert multiset(s)[x] > 1;
      }
    }
  }
}
