/** Making a payment out of as few outputs as possible.  A key is known by its public encoding; the
    fee is any function of the size of the transaction. */
module CoinSelection {
  import opened Core
  import opened Forest
  import opened Rules
  import opened Lists
  import opened Supply

  /** The lengths of an encoded public key and of the longest signature; inputs are sized with
      placeholders of these lengths. */
  const PUBLIC_KEY_SIZE: nat := 91
  const MAX_SIGNATURE_SIZE: nat := 72

  function Filler(n: nat): seq<Byte> { seq(n, _ => 0) }

  function Placeholder(u: Utxo): TxIn { TxIn(u, Filler(PUBLIC_KEY_SIZE), Filler(MAX_SIGNATURE_SIZE)) }

  function Placeholders(us: seq<Utxo>): seq<TxIn> {
    seq(|us|, i requires 0 <= i < |us| => Placeholder(us[i]))
  }

  /** A wallet's keys by the hash they are paid under, and how they sign. */
  datatype Wallet = Wallet(hashes: Hashes, keys: map<HashT, seq<Byte>>, sign: (seq<Byte>, HashT) -> seq<Byte>)

  datatype Made = Made(tx: Tx) | Refused | Panicked

  function SumValues(us: seq<Utxo>): nat {
    if us == [] then 0 else SumValues(us[..|us| - 1]) + us[|us| - 1].value
  }

  function ByValue(u: Utxo): real { u.value as real }

  /** The size of a payment with so many inputs and outputs. */
  function SizeFor(numInputs: nat, numOutputs: nat): nat {
    72 + 40 * numOutputs + (48 + PUBLIC_KEY_SIZE + MAX_SIGNATURE_SIZE) * numInputs
  }

  /** What the payment costs with so many inputs. */
  function Cost(totalOut: nat, numOutputs: nat, fee: nat -> Uint64, numInputs: nat): nat {
    totalOut + fee(SizeFor(numInputs, numOutputs))
  }

  // ---- Sizes ----

  lemma {:induction false} PlaceholderSize(us: seq<Utxo>)
    ensures SumInVSize(Placeholders(us)) == (48 + PUBLIC_KEY_SIZE + MAX_SIGNATURE_SIZE) * |us|
  {
    if us != [] {
      var front := us[..|us| - 1];
      PlaceholderSize(front);
      assert Placeholders(us)[..|us| - 1] == Placeholders(front);
    }
  }

  lemma {:induction false} SignedSize(inputs: seq<TxIn>)
    requires forall i :: 0 <= i < |inputs| ==>
      |inputs[i].publicKey| == PUBLIC_KEY_SIZE && |inputs[i].signature| <= MAX_SIGNATURE_SIZE
    ensures SumInVSize(inputs) <= (48 + PUBLIC_KEY_SIZE + MAX_SIGNATURE_SIZE) * |inputs|
  {
    if inputs != [] {
      SignedSize(inputs[..|inputs| - 1]);
    }
  }

  lemma {:induction false} InputSum(inputs: seq<TxIn>, us: seq<Utxo>)
    requires |inputs| == |us| && forall i :: 0 <= i < |us| ==> inputs[i].utxo == us[i]
    ensures SumIn(inputs) == SumValues(us)
  {
    if us != [] {
      InputSum(inputs[..|us| - 1], us[..|us| - 1]);
    }
  }

  // ---- The largest outputs are worth the most ----

  predicate Ranked(us: seq<Utxo>) { NoDup(us) && Descending(us, ByValue) }

  lemma RankedPrefix(us: seq<Utxo>, n: nat)
    requires n <= |us| && Ranked(us)
    ensures Ranked(us[..n])
  {
  }

  lemma SetSize<T>(us: seq<T>)
    requires NoDup(us)
    ensures |ToSet(us)| == |us|
  {
    if us != [] {
      var front, last := us[..|us| - 1], us[|us| - 1];
      SetSize(front);
      assert us == front + [last];
      NoDupAppend(front, [last]);
      assert last in [last];
      assert ToSet(us) == ToSet(front) + {last};
    }
  }

  lemma {:induction false} AllOfThem(us: seq<Utxo>)
    requires NoDup(us)
    ensures Total(ToSet(us)) == SumValues(us)
  {
    hide Total;
    if us == [] {
      TotalNone(ToSet(us));
    } else {
      var front, last := us[..|us| - 1], us[|us| - 1];
      assert us == front + [last];
      NoDupAppend(front, [last]);
      assert last in [last];
      AllOfThem(front);
      assert ToSet(us) - {last} == ToSet(front);
      TotalRemove(ToSet(us), last);
    }
  }

  /** No choice of so many outputs is worth more than the first so many. */
  lemma {:induction false} FirstAreBest(us: seq<Utxo>, chosen: set<Utxo>)
    requires Ranked(us) && chosen <= ToSet(us)
    ensures |chosen| <= |us| && Total(chosen) <= SumValues(us[..|chosen|])
    decreases |us|
  {
    hide Total;
    SetSize(us);
    Subset(chosen, ToSet(us));
    if |chosen| == |us| {
      assert us[..|us|] == us;
      AllOfThem(us);
    } else {
      var front, last := us[..|us| - 1], us[|us| - 1];
      FrontParts(us);
      if last !in chosen {
        FirstAreBest(front, chosen);
      } else {
        var better := SwapOut(us, chosen);
        FirstAreBest(front, better);
      }
      assert front[..|chosen|] == us[..|chosen|];
    }
  }

  lemma FrontParts(us: seq<Utxo>)
    requires us != [] && Ranked(us)
    ensures var front, last := us[..|us| - 1], us[|us| - 1];
      Ranked(front) && ToSet(us) == ToSet(front) + {last} && last !in ToSet(front)
  {
    var front, last := us[..|us| - 1], us[|us| - 1];
    RankedPrefix(us, |us| - 1);
    assert us == front + [last];
    NoDupAppend(front, [last]);
    assert last in ToSet([last]);
  }

  /** The least output of a choice that leaves something out can be exchanged for a better one. */
  lemma SwapOut(us: seq<Utxo>, chosen: set<Utxo>) returns (better: set<Utxo>)
    requires us != [] && Ranked(us) && chosen <= ToSet(us) && |chosen| < |us| && us[|us| - 1] in chosen
    ensures better <= ToSet(us[..|us| - 1]) && |better| == |chosen| && Total(chosen) <= Total(better)
  {
    hide Total;
    var front, last := us[..|us| - 1], us[|us| - 1];
    FrontParts(us);
    SetSize(front);
    var x := Spare(front, chosen - {last});
    var k :| 0 <= k < |front| && front[k] == x;
    assert us[k] == x && ByValue(us[k]) >= ByValue(last);
    better := chosen - {last} + {x};
    TotalRemove(chosen, last);
    TotalRemove(better, x);
    assert better - {x} == chosen - {last};
  }

  lemma Subset(a: set<Utxo>, b: set<Utxo>)
    requires a <= b
    ensures |a| <= |b| && (|a| == |b| ==> a == b)
  {
    assert b == a + (b - a);
  }

  lemma Spare(front: seq<Utxo>, chosen: set<Utxo>) returns (x: Utxo)
    requires NoDup(front) && chosen <= ToSet(front) && |chosen| < |front|
    ensures x in ToSet(front) && x !in chosen
  {
    SetSize(front);
    var rest := ToSet(front) - chosen;
    assert ToSet(front) == chosen + rest;
    x :| x in rest;
  }

  // ---- Balances ----

  function PaidTo(utxoPkhs: map<Utxo, HashT>, pkh: HashT): set<Utxo> {
    set u | u in utxoPkhs && utxoPkhs[u] == pkh
  }

  /** The value of some outputs in 64-bit arithmetic. */
  method SumUp(us: set<Utxo>) returns (total: Uint64)
    ensures total == Total(us) % TWO_64
  {
    hide Total;
    var l := ToList(us);
    total := 0;
    for i := 0 to |l|
      invariant total == SumValues(l[..i]) % TWO_64
    {
      assert l[..i + 1][..i] == l[..i];
      AddWrap(SumValues(l[..i]), l[i].value);
      total := (total + l[i].value) % TWO_64;
    }
    assert l[..|l|] == l;
    AllOfThem(l);
  }

  ghost predicate Richest(utxoPkhs: map<Utxo, HashT>, pkh: HashT) {
    && pkh in utxoPkhs.Values
    && forall k :: k in utxoPkhs.Values ==> Total(PaidTo(utxoPkhs, k)) % TWO_64 <= Total(PaidTo(utxoPkhs, pkh)) % TWO_64
  }

  /** No key has outputs worth more together, in 64-bit arithmetic. */
  lemma RichestExact(utxoPkhs: map<Utxo, HashT>, pkh: HashT)
    ensures Richest(utxoPkhs, pkh) <==>
      && (exists u :: u in utxoPkhs && utxoPkhs[u] == pkh)
      && forall k :: k in utxoPkhs.Values ==>
           Total(set u | u in utxoPkhs && utxoPkhs[u] == k) % TWO_64
             <= Total(set u | u in utxoPkhs && utxoPkhs[u] == pkh) % TWO_64
  {
    hide Total;
    assert forall k :: PaidTo(utxoPkhs, k) == set u | u in utxoPkhs && utxoPkhs[u] == k;
  }

  /** Refuses when a key is not ours; with no outputs at all it panics. */
  method GetBalanceAndRichestPkh(wallet: Wallet, utxoPkhs: map<Utxo, HashT>)
    returns (balance: Uint64, richest: HashT, r: Outcome)
    ensures r == if !(utxoPkhs.Values <= wallet.keys.Keys) then Err else if utxoPkhs == map[] then Panic else Ok
    ensures r == Ok ==> balance == Total(utxoPkhs.Keys) % TWO_64 && Richest(utxoPkhs, richest)
  {
    hide Total;
    balance, richest := 0, 0;
    if !(utxoPkhs.Values <= wallet.keys.Keys) {
      return balance, richest, Err;
    }
    balance := SumUp(utxoPkhs.Keys);
    var pkhs := ToList(utxoPkhs.Values);
    if |pkhs| == 0 {
      NoValues(utxoPkhs, pkhs);
      return balance, richest, Panic;
    }
    SomeValues(utxoPkhs, pkhs);
    richest := pkhs[0];
    var most := SumUp(PaidTo(utxoPkhs, richest));
    for i := 1 to |pkhs|
      invariant richest in utxoPkhs.Values && most == Total(PaidTo(utxoPkhs, richest)) % TWO_64
      invariant forall j :: 0 <= j < i ==> Total(PaidTo(utxoPkhs, pkhs[j])) % TWO_64 <= most
    {
      var held := SumUp(PaidTo(utxoPkhs, pkhs[i]));
      if held > most {
        assert pkhs[i] in ToSet(pkhs);
        richest, most := pkhs[i], held;
      }
    }
    forall k | k in utxoPkhs.Values ensures Total(PaidTo(utxoPkhs, k)) % TWO_64 <= most {
      assert k in ToSet(pkhs);
    }
    r := Ok;
  }

  lemma NoValues(m: map<Utxo, HashT>, pkhs: seq<HashT>)
    requires ToSet(pkhs) == m.Values
    ensures pkhs == [] ==> m == map[]
  {
    if m != map[] {
      var u :| u in m;
      assert m[u] in ToSet(pkhs);
    }
  }

  lemma SomeValues(m: map<Utxo, HashT>, pkhs: seq<HashT>)
    requires ToSet(pkhs) == m.Values && pkhs != []
    ensures m != map[] && pkhs[0] in m.Values
  {
    assert pkhs[0] in ToSet(pkhs);
  }

  // ---- Selecting ----

  /** The first `k` outputs are enough, as far as 64-bit arithmetic can tell. */
  predicate Enough(us: seq<Utxo>, totalOut: nat, numOutputs: nat, fee: nat -> Uint64, k: nat)
    requires k <= |us|
  {
    SumValues(us[..k]) % TWO_64 >= Cost(totalOut, numOutputs, fee, k) % TWO_64
  }

  /** The least number that is enough, if the payment then has a lawful size. */
  predicate Selected(us: seq<Utxo>, totalOut: nat, numOutputs: nat, fee: nat -> Uint64, maxSize: nat, k: nat) {
    && 1 <= k <= |us| && Enough(us, totalOut, numOutputs, fee, k) && SizeFor(k, numOutputs) <= maxSize
    && forall j :: 1 <= j < k ==> !Enough(us, totalOut, numOutputs, fee, j)
  }

  ghost predicate OutOfReach(us: seq<Utxo>, totalOut: nat, numOutputs: nat, fee: nat -> Uint64, maxSize: nat) {
    forall k :: !Selected(us, totalOut, numOutputs, fee, maxSize, k)
  }

  method SelectInputs(us: seq<Utxo>, outputs: seq<TxOut>, fee: nat -> Uint64, minBlock: Uint64, params: Params)
    returns (k: nat, totalIn: Uint64, ok: bool)
    requires us != []
    ensures ok ==>
      && Selected(us, SumOut(outputs), |outputs|, fee, params.maxTxVSize, k)
      && totalIn == SumValues(us[..k]) % TWO_64
    ensures !ok ==> OutOfReach(us, SumOut(outputs), |outputs|, fee, params.maxTxVSize)
  {
    hide SumValues, VSize, SumOut, SizeFor, Enough, Cost;
    var inputs: seq<TxIn> := [];
    totalIn := 0;
    var totalOut := SumOut(outputs) % TWO_64;
    NoValue(us);
    for i := 0 to |us|
      invariant totalIn == SumValues(us[..i]) % TWO_64 && inputs == Placeholders(us[..i])
      invariant forall j :: 1 <= j <= i ==> !Enough(us, SumOut(outputs), |outputs|, fee, j)
    {
      NextInput(us, i, minBlock, outputs);
      EnoughTest(us, SumOut(outputs), |outputs|, fee, i);
      totalIn := (totalIn + us[i].value) % TWO_64;
      inputs := inputs + [Placeholder(us[i])];
      var vSize := ComputeVSize(Tx(false, minBlock, inputs, outputs));
      if vSize > params.maxTxVSize {
        LargerStill(i + 1, |outputs|);
        return 0, 0, false;
      }
      if totalIn >= (totalOut + fee(vSize)) % TWO_64 {
        return i + 1, totalIn, true;
      }
      if i == |us| - 1 {
        return 0, 0, false;
      }
    }
    k, ok := 0, false;
  }

  /** The comparison that the program makes, in 64-bit arithmetic. */
  lemma {:induction false} EnoughTest(us: seq<Utxo>, totalOut: nat, numOutputs: nat, fee: nat -> Uint64, i: nat)
    requires i < |us|
    ensures (SumValues(us[..i]) % TWO_64 + us[i].value) % TWO_64 == SumValues(us[..i + 1]) % TWO_64
    ensures Enough(us, totalOut, numOutputs, fee, i + 1) <==>
      SumValues(us[..i + 1]) % TWO_64 >= (totalOut % TWO_64 + fee(SizeFor(i + 1, numOutputs))) % TWO_64
  {
    assert us[..i + 1][..i] == us[..i];
    assert SumValues(us[..i + 1]) == SumValues(us[..i]) + us[i].value;
    hide SumValues, SizeFor;
    AddWrapSmall(SumValues(us[..i]), us[i].value);
    AddWrapSmall(totalOut, fee(SizeFor(i + 1, numOutputs)));
  }

  lemma NoValue(us: seq<Utxo>)
    ensures SumValues(us[..0]) == 0 && Placeholders(us[..0]) == []
  {
  }

  lemma NextInput(us: seq<Utxo>, i: nat, minBlock: Uint64, outputs: seq<TxOut>)
    requires i < |us|
    ensures SumValues(us[..i + 1]) == SumValues(us[..i]) + us[i].value
    ensures Placeholders(us[..i + 1]) == Placeholders(us[..i]) + [Placeholder(us[i])]
    ensures VSize(Tx(false, minBlock, Placeholders(us[..i + 1]), outputs)) == SizeFor(i + 1, |outputs|)
  {
    assert us[..i + 1][..i] == us[..i];
    PlaceholderSize(us[..i + 1]);
  }

  lemma LargerStill(n: nat, numOutputs: nat)
    ensures forall m :: m >= n ==> SizeFor(m, numOutputs) >= SizeFor(n, numOutputs)
  {
  }

  // ---- The selection is the best there is ----

  ghost predicate NothingWraps(us: seq<Utxo>, totalOut: nat, numOutputs: nat, fee: nat -> Uint64) {
    SumValues(us) < TWO_64 && forall k :: 0 <= k <= |us| ==> Cost(totalOut, numOutputs, fee, k) < TWO_64
  }

  lemma {:induction false} PrefixSum(us: seq<Utxo>, k: nat)
    requires k <= |us|
    ensures SumValues(us[..k]) <= SumValues(us)
    decreases |us|
  {
    if k == |us| {
      assert us[..k] == us;
    } else {
      assert us[..|us| - 1][..k] == us[..k];
      PrefixSum(us[..|us| - 1], k);
    }
  }

  lemma {:induction false} EnoughExact(us: seq<Utxo>, totalOut: nat, numOutputs: nat, fee: nat -> Uint64, k: nat)
    requires NothingWraps(us, totalOut, numOutputs, fee) && k <= |us|
    ensures Enough(us, totalOut, numOutputs, fee, k) <==> SumValues(us[..k]) >= Cost(totalOut, numOutputs, fee, k)
  {
    hide SumValues, Cost;
    PrefixSum(us, k);
  }

  /** Whatever outputs would cover a lawful payment, the selection finds no more than as many: it
      uses the fewest, and refuses only if there are none. */
  lemma {:induction false} FewestInputs(
    us: seq<Utxo>, totalOut: nat, numOutputs: nat, fee: nat -> Uint64, maxSize: nat, chosen: set<Utxo>)
    returns (k: nat)
    requires Ranked(us) && NothingWraps(us, totalOut, numOutputs, fee)
    requires chosen <= ToSet(us) && chosen != {}
    requires Total(chosen) >= Cost(totalOut, numOutputs, fee, |chosen|) && SizeFor(|chosen|, numOutputs) <= maxSize
    ensures k <= |chosen| && Selected(us, totalOut, numOutputs, fee, maxSize, k)
  {
    hide Total, Cost, NothingWraps, Enough, SizeFor, Ranked;
    FirstAreBest(us, chosen);
    EnoughExact(us, totalOut, numOutputs, fee, |chosen|);
    k := Least(us, totalOut, numOutputs, fee, |chosen|);
    LargerStill(k, numOutputs);
  }

  lemma {:induction false} Least(us: seq<Utxo>, totalOut: nat, numOutputs: nat, fee: nat -> Uint64, n: nat)
    returns (k: nat)
    requires 1 <= n <= |us| && Enough(us, totalOut, numOutputs, fee, n)
    ensures 1 <= k <= n && Enough(us, totalOut, numOutputs, fee, k)
    ensures forall j :: 1 <= j < k ==> !Enough(us, totalOut, numOutputs, fee, j)
  {
    hide Enough;
    k := 1;
    while !Enough(us, totalOut, numOutputs, fee, k)
      invariant 1 <= k <= n
      invariant forall j :: 1 <= j < k ==> !Enough(us, totalOut, numOutputs, fee, j)
      decreases n - k
    {
      k := k + 1;
    }
  }

  lemma {:induction false} SelectedUnique(
    us: seq<Utxo>, totalOut: nat, numOutputs: nat, fee: nat -> Uint64, maxSize: nat, k: nat, k': nat)
    requires Selected(us, totalOut, numOutputs, fee, maxSize, k) && Selected(us, totalOut, numOutputs, fee, maxSize, k')
    ensures k == k'
  {
    hide Enough;
  }

  /** These outputs would pay for a lawful transaction. */
  ghost predicate Covers(
    owned: set<Utxo>, totalOut: nat, numOutputs: nat, fee: nat -> Uint64, maxSize: nat, chosen: set<Utxo>)
  {
    && chosen <= owned && chosen != {}
    && Total(chosen) >= Cost(totalOut, numOutputs, fee, |chosen|) && SizeFor(|chosen|, numOutputs) <= maxSize
  }

  ghost predicate Payable(owned: set<Utxo>, totalOut: nat, numOutputs: nat, fee: nat -> Uint64, maxSize: nat) {
    exists chosen :: Covers(owned, totalOut, numOutputs, fee, maxSize, chosen)
  }

  /** No covering choice has fewer outputs. */
  ghost predicate Fewest(
    owned: set<Utxo>, totalOut: nat, numOutputs: nat, fee: nat -> Uint64, maxSize: nat, k: nat)
  {
    forall chosen :: Covers(owned, totalOut, numOutputs, fee, maxSize, chosen) ==> k <= |chosen|
  }

  /** What is selected is a covering choice, no larger than any other. */
  lemma {:induction false} SelectionBest(
    us: seq<Utxo>, totalOut: nat, numOutputs: nat, fee: nat -> Uint64, maxSize: nat, k: nat)
    requires Ranked(us) && NothingWraps(us, totalOut, numOutputs, fee)
    requires Selected(us, totalOut, numOutputs, fee, maxSize, k)
    ensures Payable(ToSet(us), totalOut, numOutputs, fee, maxSize)
    ensures Fewest(ToSet(us), totalOut, numOutputs, fee, maxSize, k)
  {
    hide Total, Cost, NothingWraps, Enough, SizeFor, Ranked;
    FirstOnes(us, k);
    EnoughExact(us, totalOut, numOutputs, fee, k);
    assert Covers(ToSet(us), totalOut, numOutputs, fee, maxSize, ToSet(us[..k]));
    forall chosen | Covers(ToSet(us), totalOut, numOutputs, fee, maxSize, chosen) ensures k <= |chosen| {
      var least := FewestInputs(us, totalOut, numOutputs, fee, maxSize, chosen);
      SelectedUnique(us, totalOut, numOutputs, fee, maxSize, k, least);
    }
  }

  lemma FirstOnes(us: seq<Utxo>, k: nat)
    requires Ranked(us) && 1 <= k <= |us|
    ensures ToSet(us[..k]) <= ToSet(us) && ToSet(us[..k]) != {} && |ToSet(us[..k])| == k
    ensures Total(ToSet(us[..k])) == SumValues(us[..k])
  {
    hide Total, SumValues, Descending;
    RankedPrefix(us, k);
    SetSize(us[..k]);
    AllOfThem(us[..k]);
  }

  lemma {:induction false} NoneCovers(
    us: seq<Utxo>, totalOut: nat, numOutputs: nat, fee: nat -> Uint64, maxSize: nat)
    requires Ranked(us) && NothingWraps(us, totalOut, numOutputs, fee)
    requires OutOfReach(us, totalOut, numOutputs, fee, maxSize)
    ensures !Payable(ToSet(us), totalOut, numOutputs, fee, maxSize)
  {
    hide Total, Cost, NothingWraps, Enough, SizeFor, Ranked, Selected;
    forall chosen | Covers(ToSet(us), totalOut, numOutputs, fee, maxSize, chosen) ensures false {
      var least := FewestInputs(us, totalOut, numOutputs, fee, maxSize, chosen);
    }
  }

  /** Free of charge, all outputs together cover what they hold, and that payment is refused: the
      program wants something left over. */
  lemma WholeBalancePayable(owned: set<Utxo>, numOutputs: nat, fee: nat -> Uint64, maxSize: nat)
    requires owned != {} && SizeFor(|owned|, numOutputs) <= maxSize && fee(SizeFor(|owned|, numOutputs)) == 0
    ensures Payable(owned, Total(owned), numOutputs, fee, maxSize)
  {
    assert Covers(owned, Total(owned), numOutputs, fee, maxSize, owned);
  }

  lemma {:induction false} PlainBalance(us: seq<Utxo>, totalOut: nat, numOutputs: nat, fee: nat -> Uint64)
    requires NoDup(us) && NothingWraps(us, totalOut, numOutputs, fee)
    ensures totalOut % TWO_64 == totalOut && Total(ToSet(us)) % TWO_64 == Total(ToSet(us))
  {
    hide Total, SumValues;
    AllOfThem(us);
    assert totalOut <= Cost(totalOut, numOutputs, fee, 0);
  }

  // ---- The payment ----

  function DestOuts(dests: map<HashT, Uint64>, pkhs: seq<HashT>): seq<TxOut>
    requires forall i :: 0 <= i < |pkhs| ==> pkhs[i] in dests
  {
    seq(|pkhs|, i requires 0 <= i < |pkhs| => TxOut(dests[pkhs[i]], pkhs[i]))
  }

  /** Each destination gets one output, with what it is to be paid, and nobody else gets any. */
  lemma EachIsPaid(dests: map<HashT, Uint64>, pkhs: seq<HashT>, pkh: HashT, value: Uint64)
    requires NoDup(pkhs) && ToSet(pkhs) == dests.Keys
    requires forall i :: 0 <= i < |pkhs| ==> pkhs[i] in dests
    ensures |DestOuts(dests, pkhs)| == |dests|
    ensures pkh in dests && dests[pkh] == value <==> TxOut(value, pkh) in DestOuts(dests, pkhs)
  {
    SetSize(pkhs);
    assert |dests| == |dests.Keys|;
    if pkh in dests && dests[pkh] == value {
      assert pkh in ToSet(pkhs);
      var i :| 0 <= i < |pkhs| && pkhs[i] == pkh;
      assert DestOuts(dests, pkhs)[i] == TxOut(value, pkh);
    }
  }

  function SignedInputs(wallet: Wallet, utxoPkhs: map<Utxo, HashT>, us: seq<Utxo>, preSig: HashT): seq<TxIn>
    requires forall i :: 0 <= i < |us| ==> us[i] in utxoPkhs && utxoPkhs[us[i]] in wallet.keys
  {
    seq(|us|, i requires 0 <= i < |us| =>
      var pub := wallet.keys[utxoPkhs[us[i]]];
      TxIn(us[i], pub, wallet.sign(pub, preSig)))
  }

  /** A payment from the first `k` outputs, its change to the richest key. */
  ghost predicate IsPayment(
    tx: Tx, wallet: Wallet, utxoPkhs: map<Utxo, HashT>, us: seq<Utxo>, k: nat, paid: seq<TxOut>, fee: nat -> Uint64,
    minBlock: Uint64)
  {
    && k <= |us|
    && (forall i :: 0 <= i < k ==> us[i] in utxoPkhs && utxoPkhs[us[i]] in wallet.keys)
    && !tx.isCoinbase && tx.minBlock == minBlock
    && |tx.outputs| == |paid| + 1 && tx.outputs[1..] == paid && Richest(utxoPkhs, tx.outputs[0].publicKeyHash)
    && tx.outputs[0].value
         == Sub64(Sub64(SumValues(us[..k]) % TWO_64, SumOut(paid) % TWO_64), fee(SizeFor(k, |tx.outputs|)))
    && tx.inputs == SignedInputs(wallet, utxoPkhs, us[..k], wallet.hashes.preSig(minBlock, tx.outputs))
  }

  /** The outputs come sorted, the destinations in the order a map happens to give them. */
  method MakeOutboundTx(
    params: Params, wallet: Wallet, utxoPkhs: map<Utxo, HashT>, dests: map<HashT, Uint64>, fee: nat -> Uint64,
    minBlock: Uint64)
    returns (r: Made, ghost us: seq<Utxo>, ghost to: seq<HashT>, ghost paid: seq<TxOut>)
    ensures Ranked(us) && ToSet(us) == utxoPkhs.Keys
    ensures NoDup(to) && ToSet(to) == dests.Keys && forall i :: 0 <= i < |to| ==> to[i] in dests
    ensures paid == DestOuts(dests, to)
    ensures r == Panicked <==> utxoPkhs == map[]
    ensures r.Made? ==>
      && Selected(us, SumOut(paid), |dests| + 1, fee, params.maxTxVSize, |r.tx.inputs|)
      && IsPayment(r.tx, wallet, utxoPkhs, us, |r.tx.inputs|, paid, fee, minBlock)
    ensures r == Refused ==>
      || !(utxoPkhs.Values <= wallet.keys.Keys)
      || SumOut(paid) % TWO_64 >= Total(utxoPkhs.Keys) % TWO_64
      || OutOfReach(us, SumOut(paid), |dests| + 1, fee, params.maxTxVSize)
    ensures NothingWraps(us, SumOut(paid), |dests| + 1, fee) ==>
      && (r.Made? <==>
            && utxoPkhs.Values <= wallet.keys.Keys && SumOut(paid) < Total(utxoPkhs.Keys)
            && Payable(utxoPkhs.Keys, SumOut(paid), |dests| + 1, fee, params.maxTxVSize))
      && (r.Made? ==> Fewest(utxoPkhs.Keys, SumOut(paid), |dests| + 1, fee, params.maxTxVSize, |r.tx.inputs|))
  {
    hide Total, SumValues, SumOut, SizeFor, Enough, Richest, NoDup, Descending, Payable, Fewest, NothingWraps;
    var utxos := SortedList(utxoPkhs.Keys, ByValue);
    var pkhs := ToList(dests.Keys);
    us, to := utxos, pkhs;
    DestsListed(dests, pkhs);
    var destOuts := DestOuts(dests, pkhs);
    paid := destOuts;
    var balance, richestPkh, found := GetBalanceAndRichestPkh(wallet, utxoPkhs);
    NoOutputsNoTotal(utxoPkhs);
    ghost var noWrap := NothingWraps(us, SumOut(paid), |dests| + 1, fee);
    if noWrap {
      PlainBalance(us, SumOut(paid), |dests| + 1, fee);
    }
    if found != Ok {
      return (if found == Err then Refused else Panicked), us, to, paid;
    }
    var placeholders := [TxOut(0, richestPkh)] + destOuts;
    FirstOut(TxOut(0, richestPkh), destOuts);
    var totalOut := SumOut(placeholders) % TWO_64;
    if totalOut >= balance {
      return Refused, us, to, paid;
    }
    OutputsToSpend(utxoPkhs, utxos);
    var k, totalIn, ok := SelectInputs(utxos, placeholders, fee, minBlock, params);
    if !ok {
      if noWrap {
        NoneCovers(us, SumOut(paid), |dests| + 1, fee, params.maxTxVSize);
      }
      return Refused, us, to, paid;
    }
    if noWrap {
      SelectionBest(us, SumOut(paid), |dests| + 1, fee, params.maxTxVSize, k);
    }
    var change := Sub64(Sub64(totalIn, totalOut), fee(SizeFor(k, |placeholders|)));
    var outputs := [TxOut(change, richestPkh)] + destOuts;
    KeysKnown(wallet, utxoPkhs, utxos);
    var inputs := SignedInputs(wallet, utxoPkhs, utxos[..k], wallet.hashes.preSig(minBlock, outputs));
    assert outputs[1..] == destOuts;
    r := Made(Tx(false, minBlock, inputs, outputs));
  }

  lemma NoOutputsNoTotal(utxoPkhs: map<Utxo, HashT>)
    ensures utxoPkhs == map[] ==> Total(utxoPkhs.Keys) == 0
  {
  }

  lemma DestsListed(dests: map<HashT, Uint64>, pkhs: seq<HashT>)
    requires NoDup(pkhs) && ToSet(pkhs) == dests.Keys
    ensures |pkhs| == |dests| && forall i :: 0 <= i < |pkhs| ==> pkhs[i] in dests
  {
    SetSize(pkhs);
    assert |dests| == |dests.Keys|;
    assert forall i :: 0 <= i < |pkhs| ==> pkhs[i] in ToSet(pkhs);
  }

  lemma OutputsToSpend(utxoPkhs: map<Utxo, HashT>, us: seq<Utxo>)
    requires ToSet(us) == utxoPkhs.Keys && utxoPkhs != map[]
    ensures us != []
  {
    var u :| u in utxoPkhs;
    assert u in ToSet(us);
  }

  lemma KeysKnown(wallet: Wallet, utxoPkhs: map<Utxo, HashT>, us: seq<Utxo>)
    requires ToSet(us) == utxoPkhs.Keys && utxoPkhs.Values <= wallet.keys.Keys
    ensures forall i :: 0 <= i < |us| ==> us[i] in utxoPkhs && utxoPkhs[us[i]] in wallet.keys
  {
    forall i | 0 <= i < |us| ensures us[i] in utxoPkhs && utxoPkhs[us[i]] in wallet.keys {
      assert us[i] in ToSet(us);
      assert utxoPkhs[us[i]] in utxoPkhs.Values;
    }
  }

  // ---- What the payment is worth ----

  lemma {:induction false} FirstOut(first: TxOut, rest: seq<TxOut>)
    ensures SumOut([first] + rest) == first.value + SumOut(rest)
  {
    if rest == [] {
      assert [first] + rest == [first] && [first][..0] == [];
      assert SumOut([first]) == SumOut([first][..0]) + first.value;
    } else {
      assert ([first] + rest)[..|rest|] == [first] + rest[..|rest| - 1];
      FirstOut(first, rest[..|rest| - 1]);
    }
  }

  /** Inputs equal outputs plus exactly the fee. */
  lemma {:induction false} PaymentBalances(
    tx: Tx, wallet: Wallet, utxoPkhs: map<Utxo, HashT>, us: seq<Utxo>, paid: seq<TxOut>, fee: nat -> Uint64,
    minBlock: Uint64, maxSize: nat)
    requires Selected(us, SumOut(paid), |paid| + 1, fee, maxSize, |tx.inputs|)
    requires IsPayment(tx, wallet, utxoPkhs, us, |tx.inputs|, paid, fee, minBlock)
    requires NothingWraps(us, SumOut(paid), |paid| + 1, fee)
    ensures SumIn(tx.inputs) == SumOut(tx.outputs) + fee(SizeFor(|tx.inputs|, |tx.outputs|)) < TWO_64
  {
    hide SumIn, SumOut, SumValues, SizeFor, Richest;
    var k := |tx.inputs|;
    PrefixSum(us, k);
    EnoughExact(us, SumOut(paid), |paid| + 1, fee, k);
    InputSum(tx.inputs, us[..k]);
    assert tx.outputs == [tx.outputs[0]] + paid;
    FirstOut(tx.outputs[0], paid);
    ExactChange(SumValues(us[..k]), SumOut(paid), fee(SizeFor(k, |tx.outputs|)));
  }

  lemma ExactChange(have: nat, owed: nat, cost: nat)
    requires owed + cost <= have < TWO_64
    ensures Sub64(Sub64(have % TWO_64, owed % TWO_64), cost) == have - owed - cost
  {
  }

  // ---- The payment is lawful ----

  /** The wallet's keys are what they are filed under, and its signatures are good and short. */
  ghost predicate WalletOk(wallet: Wallet) {
    && (forall k :: k in wallet.keys ==>
          wallet.hashes.bytes(wallet.keys[k]) == k && |wallet.keys[k]| == PUBLIC_KEY_SIZE)
    && (forall k, h :: k in wallet.keys ==> SignsWell(wallet, wallet.keys[k], h))
  }

  predicate SignsWell(wallet: Wallet, pub: seq<Byte>, h: HashT) {
    wallet.hashes.validSig(pub, h, wallet.sign(pub, h)) && |wallet.sign(pub, h)| <= MAX_SIGNATURE_SIZE
  }

  /** The inventory has the outputs as the wallet states them. */
  ghost predicate OutputsKnown(st: Store, utxoPkhs: map<Utxo, HashT>) {
    forall u :: u in utxoPkhs ==>
      HasTxOut(st, u.txId, u.ind) && TxOutAt(st, u.txId, u.ind) == TxOut(u.value, utxoPkhs[u])
  }

  lemma {:induction false} PaymentInputsOk(
    st: Store, tx: Tx, wallet: Wallet, utxoPkhs: map<Utxo, HashT>, us: seq<Utxo>, paid: seq<TxOut>, fee: nat -> Uint64,
    minBlock: Uint64)
    requires IsPayment(tx, wallet, utxoPkhs, us, |tx.inputs|, paid, fee, minBlock)
    requires WalletOk(wallet) && OutputsKnown(st, utxoPkhs) && st.env.hashes == wallet.hashes
    ensures forall i :: 0 <= i < |tx.inputs| ==> SignatureOk(st.env, tx, i) && OriginOk(st, tx.inputs[i])
    ensures SumInVSize(tx.inputs) <= (48 + PUBLIC_KEY_SIZE + MAX_SIGNATURE_SIZE) * |tx.inputs|
  {
    hide SumIn, SumOut, SumValues, SizeFor, Richest, Sub64;
    var preSig := wallet.hashes.preSig(minBlock, tx.outputs);
    forall i | 0 <= i < |tx.inputs|
      ensures SignatureOk(st.env, tx, i) && OriginOk(st, tx.inputs[i])
      ensures |tx.inputs[i].publicKey| == PUBLIC_KEY_SIZE && |tx.inputs[i].signature| <= MAX_SIGNATURE_SIZE
    {
      assert us[..|tx.inputs|][i] == us[i];
      assert SignsWell(wallet, wallet.keys[utxoPkhs[us[i]]], preSig);
    }
    SignedSize(tx.inputs);
  }

  /** A payment with a positive fee passes the transaction verifier. */
  lemma {:induction false} PaymentPasses(
    st: Store, tx: Tx, wallet: Wallet, utxoPkhs: map<Utxo, HashT>, us: seq<Utxo>, paid: seq<TxOut>, fee: nat -> Uint64,
    minBlock: Uint64)
    requires Selected(us, SumOut(paid), |paid| + 1, fee, st.env.params.maxTxVSize, |tx.inputs|)
    requires IsPayment(tx, wallet, utxoPkhs, us, |tx.inputs|, paid, fee, minBlock)
    requires NothingWraps(us, SumOut(paid), |paid| + 1, fee)
    requires WalletOk(wallet) && OutputsKnown(st, utxoPkhs) && st.env.hashes == wallet.hashes
    requires fee(SizeFor(|tx.inputs|, |tx.outputs|)) > 0
    ensures TxOk(st, tx)
  {
    PaymentInputsOk(st, tx, wallet, utxoPkhs, us, paid, fee, minBlock);
    PaymentBalances(tx, wallet, utxoPkhs, us, paid, fee, minBlock, st.env.params.maxTxVSize);
    Surplus(tx, fee(SizeFor(|tx.inputs|, |tx.outputs|)));
    hide *;
    PaymentParts(tx, wallet, utxoPkhs, us, paid, fee, minBlock, st.env.params.maxTxVSize);
    LawfulParts(st, tx);
  }

  lemma Surplus(tx: Tx, cost: nat)
    requires SumIn(tx.inputs) == SumOut(tx.outputs) + cost < TWO_64 && cost > 0
    ensures HasSurplus(tx)
  {
    hide SumIn, SumOut;
  }

  lemma {:induction false} PaymentParts(
    tx: Tx, wallet: Wallet, utxoPkhs: map<Utxo, HashT>, us: seq<Utxo>, paid: seq<TxOut>, fee: nat -> Uint64,
    minBlock: Uint64, maxSize: nat)
    requires Selected(us, SumOut(paid), |paid| + 1, fee, maxSize, |tx.inputs|)
    requires IsPayment(tx, wallet, utxoPkhs, us, |tx.inputs|, paid, fee, minBlock)
    requires SumInVSize(tx.inputs) <= (48 + PUBLIC_KEY_SIZE + MAX_SIGNATURE_SIZE) * |tx.inputs|
    ensures !tx.isCoinbase && VSize(tx) <= maxSize
  {
    hide SumIn, SumOut, SumValues, Richest, Sub64, SumInVSize, Enough, SignedInputs;
  }

  lemma LawfulParts(st: Store, tx: Tx)
    requires forall i :: 0 <= i < |tx.inputs| ==> SignatureOk(st.env, tx, i) && OriginOk(st, tx.inputs[i])
    requires !tx.isCoinbase && VSize(tx) <= st.env.params.maxTxVSize && HasSurplus(tx)
    ensures TxOk(st, tx)
  {
    hide SignatureOk, OriginOk, VSize, HasSurplus;
  }
}
