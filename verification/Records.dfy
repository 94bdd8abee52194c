/** Inventory records as text, one value to a row. */
module Records {
  import opened Core
  import opened Forest
  import opened Text

  /** What reading a record can come to; `Crashed` stands for a panic. */
  datatype Read<+T> = Parsed(record: T) | Malformed | Crashed

  const MAX_INT64 := 0x7fff_ffff_ffff_ffff

  /** How many elements a slice can have.  An output takes 40 bytes and an input more, so it is less
      than this. */
  type SliceLimit = n: nat | n <= MAX_INT64 / 40

  /** What a sum of signed 64-bit numbers comes to. */
  function Wrap(v: int): int { (v + MAX_INT64 + 1) % TWO_64 - MAX_INT64 - 1 }

  function Row(rows: seq<string>, i: nat): string { if i < |rows| then rows[i] else "" }

  function HashAt(rows: seq<string>, i: nat): Option<HashT> { HashFromString(Row(rows, i)) }

  function UintAt(rows: seq<string>, i: nat): Option<Uint64> { ParseUint(Row(rows, i)) }

  // ---- Blocks ----

  function BlockRows(r: BlockRecord): seq<string> {
    [HashString(r.block.prevBlockId), HashString(r.block.merkleRoot), HashString(r.block.target),
     HashString(r.block.noise), FormatUint(r.block.nonce), FormatUint(r.block.minedTime), FormatUint(r.height),
     HashString(r.totalWork)]
  }

  function BlockString(r: BlockRecord): string { Join(BlockRows(r)) }

  function BlockFromString(raw: string): Read<BlockRecord> {
    var rows := Split(Trim(raw));
    if |rows| != 8 then Malformed
    else
      match (HashAt(rows, 0), HashAt(rows, 1), HashAt(rows, 2), HashAt(rows, 3), UintAt(rows, 4), UintAt(rows, 5),
             UintAt(rows, 6), HashAt(rows, 7))
      case (Some(prevBlockId), Some(merkleRoot), Some(target), Some(noise), Some(nonce), Some(minedTime), Some(height),
            Some(totalWork)) =>
        Parsed(BlockRecord(Block(prevBlockId, merkleRoot, target, noise, nonce, minedTime), height, totalWork))
      case _ => Malformed
  }

  lemma FullRowsBack(rows: seq<string>)
    requires rows != [] && rows[0] != [] && rows[|rows| - 1] != []
    requires forall i :: 0 <= i < |rows| ==> OneLine(rows[i])
    ensures Split(Trim(Join(rows))) == rows
  {
    RowsBack(rows, |rows|);
    assert rows[..|rows|] == rows;
  }

  lemma BlockRecordInverts(r: BlockRecord)
    requires r.height < TWO_64
    ensures BlockFromString(BlockString(r)) == Parsed(r)
  {
    hide HashString, HashFromString, FormatUint, ParseUint, Split, Trim, Join;
    HashParses(r.block.prevBlockId);
    HashParses(r.block.merkleRoot);
    HashParses(r.block.target);
    HashParses(r.block.noise);
    UintParses(r.block.nonce);
    DigitsParse(r.block.nonce);
    UintParses(r.block.minedTime);
    DigitsParse(r.block.minedTime);
    UintParses(r.height);
    DigitsParse(r.height);
    HashParses(r.totalWork);
    FullRowsBack(BlockRows(r));
  }

  // ---- Merkle nodes ----

  function MerkleRows(r: MerkleRecord): seq<string> {
    [HashString(r.merkle.lChild), HashString(r.merkle.rChild), FormatUint(r.vSize)]
  }

  function MerkleString(r: MerkleRecord): string { Join(MerkleRows(r)) }

  function MerkleFromString(raw: string): Read<MerkleRecord> {
    var rows := Split(Trim(raw));
    if |rows| != 3 then Malformed
    else
      match (HashAt(rows, 0), HashAt(rows, 1), UintAt(rows, 2))
      case (Some(l), Some(r), Some(vSize)) => Parsed(MerkleRecord(MerkleNode(l, r), vSize))
      case _ => Malformed
  }

  lemma MerkleRecordInverts(r: MerkleRecord)
    requires r.vSize < TWO_64
    ensures MerkleFromString(MerkleString(r)) == Parsed(r)
  {
    hide HashString, HashFromString, FormatUint, ParseUint, Split, Trim, Join;
    HashParses(r.merkle.lChild);
    HashParses(r.merkle.rChild);
    UintParses(r.vSize);
    DigitsParse(r.vSize);
    FullRowsBack(MerkleRows(r));
  }

  // ---- Transactions ----

  function InputRows(txi: TxIn): seq<string> {
    [HashString(txi.utxo.txId), FormatUint(txi.utxo.ind), FormatUint(txi.utxo.value), Encode(txi.publicKey),
     Encode(txi.signature)]
  }

  function OutputRows(txo: TxOut): seq<string> { [FormatUint(txo.value), HashString(txo.publicKeyHash)] }

  function InputsRows(inputs: seq<TxIn>): seq<string> {
    if inputs == [] then [] else InputRows(inputs[0]) + InputsRows(inputs[1..])
  }

  function OutputsRows(outputs: seq<TxOut>): seq<string> {
    if outputs == [] then [] else OutputRows(outputs[0]) + OutputsRows(outputs[1..])
  }

  function HeaderRows(r: TxRecord): seq<string> {
    [FormatUint(r.vSize), if r.tx.isCoinbase then "true" else "false", FormatUint(r.tx.minBlock),
     FormatUint(|r.tx.inputs|), FormatUint(|r.tx.outputs|)]
  }

  function TxRows(r: TxRecord): seq<string> { HeaderRows(r) + InputsRows(r.tx.inputs) + OutputsRows(r.tx.outputs) }

  function TxString(r: TxRecord): string { Join(TxRows(r)) }

  /** A count: a decimal number that may carry a sign. */
  function Atoi(s: string): Option<int> {
    var digits := if s != [] && (s[0] == '-' || s[0] == '+') then s[1..] else s;
    if digits == [] then None
    else
      match ParseDigits(digits)
      case None => None
      case Some(n) =>
        var v: int := if s[0] == '-' then 0 - n as int else n;
        if v == Wrap(v) then Some(v) else None
  }

  function ParseInput(rows: seq<string>, at: nat): Option<TxIn> {
    var key, sig := Decode(Row(rows, at + 3)), Decode(Row(rows, at + 4));
    match (HashAt(rows, at), UintAt(rows, at + 1), UintAt(rows, at + 2), key, sig)
    case (Some(txId), Some(ind), Some(value), Some(publicKey), Some(signature)) =>
      Some(TxIn(Utxo(txId, ind, value), publicKey, signature))
    case _ => None
  }

  function ParseOutput(rows: seq<string>, at: nat): Option<TxOut> {
    match (UintAt(rows, at), HashAt(rows, at + 1))
    case (Some(value), Some(pkh)) => Some(TxOut(value, pkh))
    case _ => None
  }

  function ParseInputs(rows: seq<string>, at: nat, n: nat): Option<seq<TxIn>>
    decreases n
  {
    if n == 0 then Some([])
    else
      match (ParseInput(rows, at), ParseInputs(rows, at + 5, n - 1))
      case (Some(first), Some(rest)) => Some([first] + rest)
      case _ => None
  }

  function ParseOutputs(rows: seq<string>, at: nat, n: nat): Option<seq<TxOut>>
    decreases n
  {
    if n == 0 then Some([])
    else
      match (ParseOutput(rows, at), ParseOutputs(rows, at + 2, n - 1))
      case (Some(first), Some(rest)) => Some([first] + rest)
      case _ => None
  }

  function ParseFlag(s: string): Option<bool> {
    if s == "true" then Some(true) else if s == "false" then Some(false) else None
  }

  datatype Header = Header(vSize: Uint64, isCoinbase: bool, minBlock: Uint64, numInputs: int, numOutputs: int)

  function ParseHeader(rows: seq<string>): Option<Header> {
    if |rows| < 5 then None
    else
      match (UintAt(rows, 0), ParseFlag(rows[1]), UintAt(rows, 2), Atoi(rows[3]), Atoi(rows[4]))
      case (Some(vSize), Some(isCoinbase), Some(minBlock), Some(numInputs), Some(numOutputs)) =>
        Some(Header(vSize, isCoinbase, minBlock, numInputs, numOutputs))
      case _ => None
  }

  function RowsExpected(h: Header): int { 5 + h.numInputs * 5 + h.numOutputs * 2 }

  /** A slice can be made for either count. */
  predicate Makeable(h: Header, maxInputs: SliceLimit, maxOutputs: SliceLimit) {
    0 <= h.numInputs <= maxInputs && 0 <= h.numOutputs <= maxOutputs
  }

  function TxFromRows(rows: seq<string>, maxInputs: SliceLimit, maxOutputs: SliceLimit): Read<TxRecord> {
    match ParseHeader(rows)
    case None => Malformed
    case Some(h) =>
      if |rows| != Wrap(RowsExpected(h)) then Malformed
      else if !Makeable(h, maxInputs, maxOutputs) then Crashed
      else
        match (ParseInputs(rows, 5, h.numInputs), ParseOutputs(rows, 5 + h.numInputs * 5, h.numOutputs))
        case (Some(inputs), Some(outputs)) => Parsed(TxRecord(Tx(h.isCoinbase, h.minBlock, inputs, outputs), h.vSize))
        case _ => Malformed
  }

  function TxFromString(raw: string, maxInputs: SliceLimit, maxOutputs: SliceLimit): Read<TxRecord> {
    TxFromRows(Split(Trim(raw)), maxInputs, maxOutputs)
  }

  /** The header is read, and its counts call for as many rows as there are, modulo 2^64, but not all
      of those rows can be there: a count is negative, or larger than any slice. */
  predicate Miscounted(rows: seq<string>, maxInputs: SliceLimit, maxOutputs: SliceLimit) {
    var h := ParseHeader(rows);
    && h.Some? && |rows| <= MAX_INT64
    && (RowsExpected(h.value) - |rows|) % TWO_64 == 0 && !Makeable(h.value, maxInputs, maxOutputs)
  }

  lemma CrashesExactly(rows: seq<string>, maxInputs: SliceLimit, maxOutputs: SliceLimit)
    ensures TxFromRows(rows, maxInputs, maxOutputs) == Crashed <==> Miscounted(rows, maxInputs, maxOutputs)
  {
    hide ParseHeader, ParseInputs, ParseOutputs;
    match ParseHeader(rows)
    case None =>
    case Some(h) => WrapsTo(RowsExpected(h), |rows|);
  }

  lemma WrapsTo(v: int, n: nat)
    ensures Wrap(v) == n <==> n <= MAX_INT64 && (v - n) % TWO_64 == 0
  {
  }

  /** Past that check the rows are all there, so the loops never look for one that is not. */
  lemma RowsSuffice(rows: seq<string>, maxInputs: SliceLimit, maxOutputs: SliceLimit)
    requires var h := ParseHeader(rows);
      h.Some? && |rows| == Wrap(RowsExpected(h.value)) && Makeable(h.value, maxInputs, maxOutputs)
    ensures |rows| == 5 + 5 * ParseHeader(rows).value.numInputs + 2 * ParseHeader(rows).value.numOutputs
  {
    hide ParseHeader;
  }

  // ---- The loops ----

  method ComputeTxString(t: TxRecord) returns (s: string)
    ensures s == TxString(t)
  {
    hide HashString, FormatUint, Encode;
    var rows := HeaderRows(t);
    assert t.tx.inputs[0..] == t.tx.inputs && t.tx.outputs[0..] == t.tx.outputs;
    for i := 0 to |t.tx.inputs|
      invariant rows + InputsRows(t.tx.inputs[i..]) == HeaderRows(t) + InputsRows(t.tx.inputs)
    {
      Associative(rows, InputRows(t.tx.inputs[i]), InputsRows(t.tx.inputs[i + 1..]));
      assert t.tx.inputs[i..][1..] == t.tx.inputs[i + 1..];
      rows := rows + InputRows(t.tx.inputs[i]);
    }
    assert rows + [] == rows;
    ghost var front := rows;
    for i := 0 to |t.tx.outputs|
      invariant rows + OutputsRows(t.tx.outputs[i..]) == front + OutputsRows(t.tx.outputs)
    {
      Associative(rows, OutputRows(t.tx.outputs[i]), OutputsRows(t.tx.outputs[i + 1..]));
      assert t.tx.outputs[i..][1..] == t.tx.outputs[i + 1..];
      rows := rows + OutputRows(t.tx.outputs[i]);
    }
    assert rows + [] == rows;
    s := Join(rows);
  }

  method ReadInputs(rows: seq<string>, at: nat, n: nat) returns (inputs: seq<TxIn>, currentRow: nat, ok: bool)
    ensures ok <==> ParseInputs(rows, at, n).Some?
    ensures ok ==> ParseInputs(rows, at, n) == Some(inputs) && currentRow == at + 5 * n
  {
    hide ParseInput;
    inputs, currentRow := [], at;
    assert ParseInputs(rows, at, n).Some? ==> [] + ParseInputs(rows, at, n).value == ParseInputs(rows, at, n).value;
    for i := 0 to n
      invariant currentRow == at + 5 * i
      invariant ParseInputs(rows, at, n) ==
        match ParseInputs(rows, currentRow, n - i) case None => None case Some(rest) => Some(inputs + rest)
    {
      var txi := ParseInput(rows, currentRow);
      if txi.None? {
        ok := false;
        return;
      }
      if ParseInputs(rows, currentRow + 5, n - i - 1).Some? {
        var rest := ParseInputs(rows, currentRow + 5, n - i - 1).value;
        assert inputs + ([txi.value] + rest) == inputs + [txi.value] + rest;
      }
      inputs := inputs + [txi.value];
      currentRow := currentRow + 5;
    }
    assert inputs + [] == inputs;
    ok := true;
  }

  method ReadOutputs(rows: seq<string>, at: nat, n: nat) returns (outputs: seq<TxOut>, ok: bool)
    ensures ok <==> ParseOutputs(rows, at, n).Some?
    ensures ok ==> ParseOutputs(rows, at, n) == Some(outputs)
  {
    hide ParseOutput;
    outputs := [];
    var currentRow := at;
    assert ParseOutputs(rows, at, n).Some? ==> [] + ParseOutputs(rows, at, n).value == ParseOutputs(rows, at, n).value;
    for i := 0 to n
      invariant currentRow == at + 2 * i
      invariant ParseOutputs(rows, at, n) ==
        match ParseOutputs(rows, currentRow, n - i) case None => None case Some(rest) => Some(outputs + rest)
    {
      var txo := ParseOutput(rows, currentRow);
      if txo.None? {
        ok := false;
        return;
      }
      if ParseOutputs(rows, currentRow + 2, n - i - 1).Some? {
        var rest := ParseOutputs(rows, currentRow + 2, n - i - 1).value;
        assert outputs + ([txo.value] + rest) == outputs + [txo.value] + rest;
      }
      outputs := outputs + [txo.value];
      currentRow := currentRow + 2;
    }
    assert outputs + [] == outputs;
    ok := true;
  }

  method ReadTxRecord(raw: string, maxInputs: SliceLimit, maxOutputs: SliceLimit) returns (r: Read<TxRecord>)
    ensures r == TxFromString(raw, maxInputs, maxOutputs)
    ensures r == Crashed <==> Miscounted(Split(Trim(raw)), maxInputs, maxOutputs)
  {
    hide ParseInputs, ParseOutputs, Split, Trim, Atoi, ParseFlag, ParseUint, Miscounted;
    var rows := Split(Trim(raw));
    CrashesExactly(rows, maxInputs, maxOutputs);
    if |rows| < 5 {
      return Malformed;
    }
    var vSize, isCoinbase, minBlock := UintAt(rows, 0), ParseFlag(rows[1]), UintAt(rows, 2);
    var numInputs, numOutputs := Atoi(rows[3]), Atoi(rows[4]);
    if vSize.None? || isCoinbase.None? || minBlock.None? || numInputs.None? || numOutputs.None? {
      return Malformed;
    }
    if |rows| != Wrap(5 + numInputs.value * 5 + numOutputs.value * 2) {
      return Malformed;
    }
    if !(0 <= numInputs.value <= maxInputs) || !(0 <= numOutputs.value <= maxOutputs) {
      return Crashed;
    }
    RowsSuffice(rows, maxInputs, maxOutputs);
    var inputs, currentRow, ok := ReadInputs(rows, 5, numInputs.value);
    if !ok {
      return Malformed;
    }
    var outputs, ok' := ReadOutputs(rows, currentRow, numOutputs.value);
    if !ok' {
      return Malformed;
    }
    r := Parsed(TxRecord(Tx(isCoinbase.value, minBlock.value, inputs, outputs), vSize.value));
  }

  // ---- Records that crash the parser ----

  function FormatInt(v: int): string { if v < 0 then "-" + FormatUint(0 - v) else FormatUint(v) }

  lemma IntParses(v: int)
    requires v == Wrap(v)
    ensures Atoi(FormatInt(v)) == Some(v) && FormatInt(v) != [] && OneLine(FormatInt(v))
  {
    hide FormatUint;
    var n := if v < 0 then 0 - v else v;
    DigitsParse(n);
    FirstDigit(n);
    assert ("-" + FormatUint(n))[1..] == FormatUint(n);
  }

  /** Five rows announcing inputs and outputs where there are none. */
  function EmptyRecord(vSize: Uint64, minBlock: Uint64, numInputs: int, numOutputs: int): string {
    Join([FormatUint(vSize), "true", FormatUint(minBlock), FormatInt(numInputs), FormatInt(numOutputs)])
  }

  /** When the rows announced wrap to none the parser crashes, whatever the limits; otherwise it
      refuses. */
  lemma EmptyRecordCrashes(
    vSize: Uint64, minBlock: Uint64, numInputs: int, numOutputs: int, maxInputs: SliceLimit, maxOutputs: SliceLimit)
    requires numInputs == Wrap(numInputs) && numOutputs == Wrap(numOutputs) && (numInputs, numOutputs) != (0, 0)
    ensures TxFromString(EmptyRecord(vSize, minBlock, numInputs, numOutputs), maxInputs, maxOutputs)
         == if (5 * numInputs + 2 * numOutputs) % TWO_64 == 0 then Crashed else Malformed
  {
    hide FormatUint, FormatInt, ParseUint, Atoi, Split, Trim, Join;
    var rows := [FormatUint(vSize), "true", FormatUint(minBlock), FormatInt(numInputs), FormatInt(numOutputs)];
    DigitsParse(vSize);
    DigitsParse(minBlock);
    UintParses(vSize);
    UintParses(minBlock);
    IntParses(numInputs);
    IntParses(numOutputs);
    FullRowsBack(rows);
    WrapsTo(RowsExpected(ParseHeader(rows).value), 5);
    CrashesExactly(rows, maxInputs, maxOutputs);
  }

  /** Minus two inputs and five outputs, or two inputs and 2^63 - 5 outputs, or minus 2^63 outputs. */
  lemma MiscountsCrash(maxInputs: SliceLimit, maxOutputs: SliceLimit)
    ensures TxFromString("0\ntrue\n0\n-2\n5", maxInputs, maxOutputs) == Crashed
    ensures TxFromString(EmptyRecord(0, 0, 2, 9223372036854775803), maxInputs, maxOutputs) == Crashed
    ensures TxFromString(EmptyRecord(0, 0, 0, -9223372036854775808), maxInputs, maxOutputs) == Crashed
  {
    MinusTwoFive();
    hide TxFromString, EmptyRecord;
    EmptyRecordCrashes(0, 0, -2, 5, maxInputs, maxOutputs);
    EmptyRecordCrashes(0, 0, 2, 9223372036854775803, maxInputs, maxOutputs);
    EmptyRecordCrashes(0, 0, 0, -9223372036854775808, maxInputs, maxOutputs);
  }

  lemma MinusTwoFive()
    ensures EmptyRecord(0, 0, -2, 5) == "0\ntrue\n0\n-2\n5"
  {
    JoinFive("0", "true", "0", "-2", "5");
    hide Join;
    assert FormatUint(0) == "0" && FormatInt(-2) == "-2" && FormatInt(5) == "5";
  }

  lemma JoinFive(a: string, b: string, c: string, d: string, e: string)
    ensures Join([a, b, c, d, e]) == a + "\n" + (b + "\n" + (c + "\n" + (d + "\n" + e)))
  {
    assert [a, b, c, d, e][1..] == [b, c, d, e] && [b, c, d, e][1..] == [c, d, e];
    assert [c, d, e][1..] == [d, e] && [d, e][1..] == [e] && Join([e]) == e;
    assert Join([d, e]) == d + "\n" + e;
    assert Join([c, d, e]) == c + "\n" + Join([d, e]);
    assert Join([b, c, d, e]) == b + "\n" + Join([c, d, e]);
  }

  // ---- A transaction record comes back, or not ----

  predicate TxStorable(r: TxRecord, maxInputs: SliceLimit, maxOutputs: SliceLimit) {
    && r.vSize < TWO_64 && |r.tx.inputs| <= maxInputs && |r.tx.outputs| <= maxOutputs
    && forall i :: 0 <= i < |r.tx.inputs| ==> r.tx.inputs[i].utxo.ind < TWO_64
  }

  /** Whether the last row of the record is not empty. */
  predicate EndsFull(r: TxRecord) {
    r.tx.outputs != [] || r.tx.inputs == [] || r.tx.inputs[|r.tx.inputs| - 1].signature != []
  }

  lemma CountParses(n: nat)
    requires n <= MAX_INT64
    ensures Atoi(FormatUint(n)) == Some(n as int)
  {
    DigitsParse(n);
    FirstDigit(n);
  }

  lemma {:induction false} FirstDigit(n: nat)
    ensures FormatUint(n) != [] && FormatUint(n)[0] != '-' && FormatUint(n)[0] != '+'
  {
    if n >= 10 {
      FirstDigit(n / 10);
    }
  }

  lemma {:induction false} InputsRowsSize(inputs: seq<TxIn>)
    ensures |InputsRows(inputs)| == 5 * |inputs|
  {
    if inputs != [] {
      InputsRowsSize(inputs[1..]);
    }
  }

  lemma {:induction false} OutputsRowsSize(outputs: seq<TxOut>)
    ensures |OutputsRows(outputs)| == 2 * |outputs|
  {
    if outputs != [] {
      OutputsRowsSize(outputs[1..]);
    }
  }

  lemma {:induction false} InputsParse(rows: seq<string>, at: nat, inputs: seq<TxIn>, rest: seq<string>)
    requires at <= |rows| && rows[at..] == InputsRows(inputs) + rest
    requires forall i :: 0 <= i < |inputs| ==> inputs[i].utxo.ind < TWO_64
    ensures ParseInputs(rows, at, |inputs|) == Some(inputs)
    decreases |inputs|
  {
    hide FormatUint, HashString, ParseUint, HashFromString, Encode, Decode;
    if inputs != [] {
      var first, more := inputs[0], InputsRows(inputs[1..]) + rest;
      Associative(InputRows(first), InputsRows(inputs[1..]), rest);
      assert rows[at..] == InputRows(first) + more;
      InputParses(rows, at, first, more);
      assert rows[at + 5..] == rows[at..][5..] == more;
      InputsParse(rows, at + 5, inputs[1..], rest);
      assert inputs == [first] + inputs[1..];
    }
  }

  lemma InputParses(rows: seq<string>, at: nat, txi: TxIn, rest: seq<string>)
    requires at <= |rows| && rows[at..] == InputRows(txi) + rest && txi.utxo.ind < TWO_64
    ensures ParseInput(rows, at) == Some(txi) && |rows| >= at + 5
  {
    hide FormatUint, HashString, ParseUint, HashFromString, Encode, Decode;
    HashParses(txi.utxo.txId);
    UintParses(txi.utxo.ind);
    UintParses(txi.utxo.value);
    Base64Inverts(txi.publicKey);
    Base64Inverts(txi.signature);
    assert |rows[at..]| >= 5;
    assert rows[at] == rows[at..][0] && rows[at + 1] == rows[at..][1] && rows[at + 2] == rows[at..][2];
    assert rows[at + 3] == rows[at..][3] && rows[at + 4] == rows[at..][4];
  }

  lemma {:induction false} OutputsParse(rows: seq<string>, at: nat, outputs: seq<TxOut>)
    requires at <= |rows| && rows[at..] == OutputsRows(outputs)
    ensures ParseOutputs(rows, at, |outputs|) == Some(outputs)
    decreases |outputs|
  {
    hide FormatUint, HashString, ParseUint, HashFromString;
    if outputs != [] {
      var first := outputs[0];
      UintParses(first.value);
      HashParses(first.publicKeyHash);
      assert |rows[at..]| >= 2;
      assert rows[at] == rows[at..][0] && rows[at + 1] == rows[at..][1];
      assert rows[at + 2..] == rows[at..][2..] == OutputsRows(outputs[1..]);
      OutputsParse(rows, at + 2, outputs[1..]);
      assert outputs == [first] + outputs[1..];
    }
  }

  lemma {:induction false} TxRowsParse(r: TxRecord, maxInputs: SliceLimit, maxOutputs: SliceLimit)
    requires TxStorable(r, maxInputs, maxOutputs)
    ensures TxFromRows(TxRows(r), maxInputs, maxOutputs) == Parsed(r)
  {
    hide FormatUint, ParseUint, Atoi, InputsRows, OutputsRows, ParseInputs, ParseOutputs;
    var rows, n := TxRows(r), |r.tx.inputs|;
    UintParses(r.vSize);
    UintParses(r.tx.minBlock);
    CountParses(n);
    CountParses(|r.tx.outputs|);
    InputsRowsSize(r.tx.inputs);
    OutputsRowsSize(r.tx.outputs);
    Associative(HeaderRows(r), InputsRows(r.tx.inputs), OutputsRows(r.tx.outputs));
    assert rows[5..] == InputsRows(r.tx.inputs) + OutputsRows(r.tx.outputs);
    InputsParse(rows, 5, r.tx.inputs, OutputsRows(r.tx.outputs));
    assert rows[5 + 5 * n..] == OutputsRows(r.tx.outputs);
    OutputsParse(rows, 5 + 5 * n, r.tx.outputs);
  }

  lemma {:induction false} InputsRowsLines(inputs: seq<TxIn>)
    ensures forall i :: 0 <= i < |InputsRows(inputs)| ==> OneLine(InputsRows(inputs)[i])
  {
    hide FormatUint, HashString, Encode, OneLine;
    if inputs != [] {
      InputsRowsLines(inputs[1..]);
      HashParses(inputs[0].utxo.txId);
      DigitsParse(inputs[0].utxo.ind);
      DigitsParse(inputs[0].utxo.value);
      EncodedLine(inputs[0].publicKey);
      EncodedLine(inputs[0].signature);
    }
  }

  lemma {:induction false} OutputsRowsLines(outputs: seq<TxOut>)
    ensures forall i :: 0 <= i < |OutputsRows(outputs)| ==> OneLine(OutputsRows(outputs)[i])
    ensures outputs != [] ==> OutputsRows(outputs)[|OutputsRows(outputs)| - 1] != []
    decreases |outputs|
  {
    hide FormatUint, HashString, OneLine;
    if outputs != [] {
      OutputsRowsLines(outputs[1..]);
      OutputsRowsSize(outputs[1..]);
      DigitsParse(outputs[0].value);
      HashParses(outputs[0].publicKeyHash);
    }
  }

  lemma HeaderLines(r: TxRecord)
    ensures forall i :: 0 <= i < 5 ==> OneLine(HeaderRows(r)[i]) && HeaderRows(r)[i] != []
  {
    hide FormatUint;
    DigitsParse(r.vSize);
    DigitsParse(r.tx.minBlock);
    DigitsParse(|r.tx.inputs|);
    DigitsParse(|r.tx.outputs|);
  }

  lemma TxRowsLines(r: TxRecord)
    ensures forall i :: 0 <= i < |TxRows(r)| ==> OneLine(TxRows(r)[i])
    ensures forall i :: 0 <= i < 5 ==> TxRows(r)[i] != [] && TxRows(r)[i] == HeaderRows(r)[i]
  {
    hide OneLine, InputsRows, OutputsRows;
    HeaderLines(r);
    InputsRowsLines(r.tx.inputs);
    OutputsRowsLines(r.tx.outputs);
    var h, a, b := HeaderRows(r), InputsRows(r.tx.inputs), OutputsRows(r.tx.outputs);
    forall i | 0 <= i < |TxRows(r)| ensures OneLine(TxRows(r)[i]) {
      if i < 5 {
        assert TxRows(r)[i] == h[i];
      } else if i < 5 + |a| {
        assert TxRows(r)[i] == a[i - 5];
      } else {
        assert TxRows(r)[i] == b[i - 5 - |a|];
      }
    }
  }

  lemma {:induction false} LastSignature(inputs: seq<TxIn>)
    requires inputs != []
    ensures InputsRows(inputs) != []
    ensures InputsRows(inputs)[|InputsRows(inputs)| - 1] == Encode(inputs[|inputs| - 1].signature)
    decreases |inputs|
  {
    hide FormatUint, HashString, Encode;
    if |inputs| > 1 {
      LastSignature(inputs[1..]);
    } else {
      assert InputsRows(inputs[1..]) == [];
    }
  }

  lemma LastRow(r: TxRecord)
    ensures TxRows(r)[|TxRows(r)| - 1] != [] <==> EndsFull(r)
  {
    hide InputsRows, OutputsRows, Encode;
    HeaderLines(r);
    OutputsRowsSize(r.tx.outputs);
    InputsRowsSize(r.tx.inputs);
    if r.tx.outputs != [] {
      OutputsRowsLines(r.tx.outputs);
    } else if r.tx.inputs != [] {
      LastSignature(r.tx.inputs);
      EncodedLine(r.tx.inputs[|r.tx.inputs| - 1].signature);
    }
  }

  /** The end of the rows that are read back. */
  lemma LastFull(rows: seq<string>, n: nat) returns (m: nat)
    requires 0 < n <= |rows| && rows[n - 1] != []
    ensures n <= m <= |rows| && rows[m - 1] != [] && forall i :: m <= i < |rows| ==> rows[i] == []
  {
    m := |rows|;
    while rows[m - 1] == []
      invariant n <= m <= |rows|
      invariant forall i :: m <= i < |rows| ==> rows[i] == []
      decreases m
    {
      m := m - 1;
    }
  }

  /** With rows missing, the counts no longer add up. */
  lemma FewerRows(r: TxRecord, m: nat, maxInputs: SliceLimit, maxOutputs: SliceLimit)
    requires TxStorable(r, maxInputs, maxOutputs) && 5 <= m < |TxRows(r)|
    ensures TxFromRows(TxRows(r)[..m], maxInputs, maxOutputs) == Malformed
  {
    hide FormatUint, ParseUint, Atoi, InputsRows, OutputsRows, ParseInputs, ParseOutputs;
    UintParses(r.vSize);
    UintParses(r.tx.minBlock);
    CountParses(|r.tx.inputs|);
    CountParses(|r.tx.outputs|);
    InputsRowsSize(r.tx.inputs);
    OutputsRowsSize(r.tx.outputs);
  }

  /** A transaction record comes back if and only if its last row is not empty. */
  lemma {:induction false} TxRecordInverts(r: TxRecord, maxInputs: SliceLimit, maxOutputs: SliceLimit)
    requires TxStorable(r, maxInputs, maxOutputs)
    ensures TxFromString(TxString(r), maxInputs, maxOutputs) == Parsed(r) <==> EndsFull(r)
  {
    hide TxRows, TxFromRows, Split, Trim, Join, EndsFull, OneLine;
    var rows := TxRows(r);
    TxRowsLines(r);
    LastRow(r);
    assert |rows| >= 5 by { FiveRows(r); }
    var m := LastFull(rows, 5);
    RowsBack(rows, m);
    if m == |rows| {
      assert rows[..m] == rows;
      TxRowsParse(r, maxInputs, maxOutputs);
    } else {
      FewerRows(r, m, maxInputs, maxOutputs);
    }
  }

  lemma FiveRows(r: TxRecord)
    ensures |TxRows(r)| >= 5
  {
  }
}
