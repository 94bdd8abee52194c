/** How much there is: the value of the unspent outputs along a chain, and how it is divided
    among the keys. */
module Supply {
  import opened Core
  import opened Forest
  import opened Rules
  import opened Ancestry
  import opened Index
  import opened Ledger

  // ---- Sums over sets of outputs ----

  ghost function Total(us: set<Utxo>): nat {
    if us == {} then 0
    else
      var u :| u in us;
      u.value + Total(us - {u})
  }

  lemma {:induction false} TotalRemove(us: set<Utxo>, u: Utxo)
    requires u in us
    ensures Total(us) == u.value + Total(us - {u})
    decreases us
  {
    var w :| w in us && Total(us) == w.value + Total(us - {w});
    if w != u {
      TotalRemove(us - {w}, u);
      TotalRemove(us - {u}, w);
      assert us - {w} - {u} == us - {u} - {w};
    }
  }

  lemma {:induction false} TotalUnion(a: set<Utxo>, b: set<Utxo>)
    requires a !! b
    ensures Total(a + b) == Total(a) + Total(b)
    decreases b
  {
    if b == {} {
      assert a + b == a;
    } else {
      var u :| u in b;
      TotalUnion(a, b - {u});
      TotalRemove(b, u);
      TotalRemove(a + b, u);
      assert a + b - {u} == a + (b - {u});
    }
  }

  lemma {:induction false} TotalOuts(st: Store, t: HashT)
    ensures Total(Outs(st, t)) == SumOut(TxOf(st, t).outputs)
  {
    var outputs := TxOf(st, t).outputs;
    TotalOutsTo(t, outputs);
    assert Outs(st, t) == OutsOf(t, outputs);
  }

  function OutsOf(t: HashT, outputs: seq<TxOut>): set<Utxo> {
    set i | 0 <= i < |outputs| :: Utxo(t, i, outputs[i].value)
  }

  lemma {:induction false} TotalOutsTo(t: HashT, outputs: seq<TxOut>)
    ensures Total(OutsOf(t, outputs)) == SumOut(outputs)
  {
    if outputs == [] {
      assert OutsOf(t, outputs) == {};
    } else {
      var n, front := |outputs| - 1, outputs[..|outputs| - 1];
      var last := Utxo(t, n, outputs[n].value);
      TotalOutsTo(t, front);
      assert OutsOf(t, outputs) == OutsOf(t, front) + {last};
      assert OutsOf(t, outputs) - {last} == OutsOf(t, front);
      TotalRemove(OutsOf(t, outputs), last);
    }
  }

  lemma {:induction false} TotalIns(us: seq<Utxo>, inputs: seq<TxIn>)
    requires |us| == |inputs| && NoDup(us) && forall i :: 0 <= i < |us| ==> us[i] == inputs[i].utxo
    ensures Total(ToSet(us)) == SumIn(inputs)
    decreases |us|
  {
    hide Total;
    if us != [] {
      var n, front := |us| - 1, us[..|us| - 1];
      forall i | 0 <= i < n ensures front[i] != us[n] {
        assert us[i] != us[n];
      }
      TotalIns(front, inputs[..n]);
      assert us == front + [us[n]];
      assert ToSet(us) - {us[n]} == ToSet(front);
      TotalRemove(ToSet(us), us[n]);
    } else {
      TotalNone(ToSet(us));
    }
  }

  lemma TotalNone(us: set<Utxo>)
    requires us == {}
    ensures Total(us) == 0
  {
  }

  // ---- Supply along a chain ----

  /** A fitting transaction changes the unspent total by what it pays out less what it takes in. */
  lemma TotalStep(st: Store, before: seq<HashT>, t: HashT)
    requires Spent(st, before) <= Created(st, before) && Fits(st, before, t)
    ensures Total(Unspent(st, before + [t])) + SumIn(TxOf(st, t).inputs)
         == Total(Unspent(st, before)) + SumOut(TxOf(st, t).outputs)
  {
    var u, ins, outs := Unspent(st, before), Ins(st, t), Outs(st, t);
    UnspentStep(st, before, t);
    TotalIns(ConsumedUtxos(TxOf(st, t)), TxOf(st, t).inputs);
    TotalOuts(st, t);
    TotalUnion(u - ins, ins);
    assert u - ins + ins == u;
    TotalUnion(u - ins, outs);
  }

  lemma {:induction false} TotalOfAll(st: Store, before: seq<HashT>, ids: seq<HashT>)
    requires FitsAll(st, [], before) && FitsAll(st, before, ids)
    ensures Total(Unspent(st, before + ids)) + TotalIn(st, ids) == Total(Unspent(st, before)) + TotalOut(st, ids)
    decreases |ids|
  {
    hide Fits, Unspent;
    if ids == [] {
      assert before + ids == before;
    } else {
      var front, t := ids[..|ids| - 1], ids[|ids| - 1];
      TotalOfAll(st, before, front);
      assert [] + before == before && before + front + [t] == before + ids;
      FitsAllConcat(st, [], before, front);
      FittingSpends(st, before + front);
      TotalStep(st, before + front, t);
    }
  }

  /** How many multiples of 2^64 a block makes (or loses) because its sums wrap. */
  function Overflow(st: Store, b: HashT): int {
    TotalOut(st, BlockTxs(st, b)) / TWO_64
    - (st.env.params.blockReward + TotalIn(st, BlockTxs(st, b))) / TWO_64
  }

  function ChainOverflow(st: Store, b: HashT): int
    decreases HeightOf(st, b)
  {
    if !Linked(st, b) then 0 else ChainOverflow(st, Parent(st, b)) + Overflow(st, b)
  }

  lemma BlockSupply(st: Store, b: HashT)
    requires WellFormed(st) && b in st.blocks && b != 0 && ValidChain(st, b)
    ensures Total(Unspent(st, ChainTxs(st, b)))
         == Total(Unspent(st, ChainTxs(st, Parent(st, b)))) + st.env.params.blockReward + TWO_64 * Overflow(st, b)
  {
    hide WellFormed, Unspent, FitsAll, BlockTxs, TotalIn, TotalOut, Total;
    BlockBalanced(st, b);
    ValidChainFits(st, Parent(st, b));
    var before, ids := ChainTxs(st, Parent(st, b)), BlockTxs(st, b);
    TotalOfAll(st, before, ids);
    Surplus(Total(Unspent(st, before)), Total(Unspent(st, before + ids)),
            st.env.params.blockReward, TotalIn(st, ids), TotalOut(st, ids));
  }

  lemma BlockBalanced(st: Store, b: HashT)
    requires WellFormed(st) && b in st.blocks && b != 0
    ensures Linked(st, b)
    ensures var ids := BlockTxs(st, b);
      (st.env.params.blockReward + TotalIn(st, ids)) % TWO_64 == TotalOut(st, ids) % TWO_64
  {
    assert BlockRecordOk(st, b);
    RecordBalanced(st, b);
  }

  lemma RecordBalanced(st: Store, b: HashT)
    requires st.env.params.Verified() && b != 0 && BlockRecordOk(st, b)
    ensures Linked(st, b)
    ensures var ids := BlockTxs(st, b);
      (st.env.params.blockReward + TotalIn(st, ids)) % TWO_64 == TotalOut(st, ids) % TWO_64
  {
  }

  lemma Surplus(was: int, now: int, r: nat, ins: nat, outs: nat)
    requires now + ins == was + outs && (r + ins) % TWO_64 == outs % TWO_64
    ensures now == was + r + TWO_64 * (outs / TWO_64 - (r + ins) / TWO_64)
  {
  }

  /** The supply at a head: one reward a block, plus 2^64 for every sum that wrapped. */
  lemma {:induction false} SupplyFormula(st: Store, b: HashT)
    requires WellFormed(st) && b in st.blocks && ValidChain(st, b)
    ensures Total(Unspent(st, ChainTxs(st, b)))
         == HeightOf(st, b) * st.env.params.blockReward + TWO_64 * ChainOverflow(st, b)
    decreases HeightOf(st, b)
  {
    hide WellFormed, Unspent, BlockTxs, Overflow, Total, ValidBlock, ChainTxs;
    WellFormedTree(st);
    if b == 0 {
      ZeroUnspent(st);
    } else {
      BlockSupply(st, b);
      SupplyFormula(st, Parent(st, b));
      OneMoreReward(
        Total(Unspent(st, ChainTxs(st, Parent(st, b)))), Total(Unspent(st, ChainTxs(st, b))),
        HeightOf(st, Parent(st, b)), HeightOf(st, b), st.env.params.blockReward,
        ChainOverflow(st, Parent(st, b)), Overflow(st, b));
    }
  }

  lemma OneMoreReward(was: int, now: int, h: nat, h': nat, r: nat, c: int, o: int)
    requires was == h * r + TWO_64 * c && now == was + r + TWO_64 * o && h' == h + 1
    ensures now == h' * r + TWO_64 * (c + o)
  {
  }

  lemma ZeroUnspent(st: Store)
    requires 0 !in st.blocks || HeightOf(st, 0) == 0
    ensures Total(Unspent(st, ChainTxs(st, 0))) == 0
  {
    TotalNone(Unspent(st, ChainTxs(st, 0)));
  }

  /** Modulo 2^64 the supply is always height times reward ... */
  lemma SupplyModulo(st: Store, b: HashT)
    requires WellFormed(st) && b in st.blocks && ValidChain(st, b)
    ensures Total(Unspent(st, ChainTxs(st, b))) % TWO_64 == HeightOf(st, b) * st.env.params.blockReward % TWO_64
  {
    hide WellFormed, Unspent, ValidChain, ChainTxs, ChainOverflow;
    SupplyFormula(st, b);
    Multiples(HeightOf(st, b) * st.env.params.blockReward, ChainOverflow(st, b));
  }

  lemma Multiples(a: nat, k: int)
    ensures (a + TWO_64 * k) % TWO_64 == a % TWO_64
  {
  }

  /** ... and a block adds exactly the reward if and only if its two sums wrap equally often. */
  lemma SupplyExact(st: Store, b: HashT)
    requires WellFormed(st) && b in st.blocks && b != 0 && ValidChain(st, b)
    ensures Total(Unspent(st, ChainTxs(st, b)))
              == Total(Unspent(st, ChainTxs(st, Parent(st, b)))) + st.env.params.blockReward
       <==> TotalOut(st, BlockTxs(st, b)) / TWO_64
              == (st.env.params.blockReward + TotalIn(st, BlockTxs(st, b))) / TWO_64
  {
    hide WellFormed, Unspent, ValidChain, ChainTxs, BlockTxs, TotalIn, TotalOut;
    BlockSupply(st, b);
  }

  /** A transaction that passes the surplus check really has one if and only if its outputs wrap no
      more often than its inputs. */
  lemma SurplusExact(tx: Tx)
    requires HasSurplus(tx)
    ensures SumOut(tx.outputs) < SumIn(tx.inputs) <==> SumOut(tx.outputs) / TWO_64 <= SumIn(tx.inputs) / TWO_64
  {
    hide SumIn, SumOut;
  }

  /** A transaction that passes the surplus check although it pays out more than it takes in. */
  lemma WrappedSurplus()
    ensures var tx := Tx(false, 0, [TxIn(Utxo(1, 0, 1), [], [])],
                         [TxOut(0x8000_0000_0000_0000, 7), TxOut(0x8000_0000_0000_0000, 7)]);
      HasSurplus(tx) && SumIn(tx.inputs) < SumOut(tx.outputs)
  {
    var inputs := [TxIn(Utxo(1, 0, 1), [], [])];
    var half := TxOut(0x8000_0000_0000_0000, 7);
    assert inputs[..0] == [] && SumIn(inputs) == 1;
    assert [half, half][..1] == [half] && [half][..0] == [];
    assert SumOut([half]) == 0x8000_0000_0000_0000;
    assert SumOut([half, half]) == TWO_64;
  }

  // ---- Balances ----

  ghost function TotalAt(m: map<HashT, set<Utxo>>, keys: set<HashT>): nat
    requires keys <= m.Keys
  {
    if keys == {} then 0
    else
      var k :| k in keys;
      Total(m[k]) + TotalAt(m, keys - {k})
  }

  function Held(st: Store, us: set<Utxo>, keys: set<HashT>): set<Utxo> {
    set u | u in us && OriginPkh(st, u) in keys
  }

  lemma PkhIndexExact(st: Store, us: set<Utxo>, k: HashT)
    ensures k in IndexOf(PkhPairs(st, us)) <==> Held(st, us, {k}) != {}
    ensures k in IndexOf(PkhPairs(st, us)) ==> IndexOf(PkhPairs(st, us))[k] == Held(st, us, {k})
  {
    var pairs := PkhPairs(st, us);
    IndexExact(pairs);
    assert forall u :: (k, u) in pairs <==> u in Held(st, us, {k});
    if Held(st, us, {k}) != {} {
      var u :| u in Held(st, us, {k});
      assert (k, u) in pairs;
    }
  }

  /** The balances of all keys add up to all there is. */
  lemma {:induction false} BalancesAddUp(st: Store, us: set<Utxo>, keys: set<HashT>)
    requires keys <= IndexOf(PkhPairs(st, us)).Keys
    ensures TotalAt(IndexOf(PkhPairs(st, us)), keys) == Total(Held(st, us, keys))
    ensures Held(st, us, IndexOf(PkhPairs(st, us)).Keys) == us
    decreases keys
  {
    var m := IndexOf(PkhPairs(st, us));
    forall u | u in us ensures OriginPkh(st, u) in m.Keys {
      PkhIndexExact(st, us, OriginPkh(st, u));
      assert u in Held(st, us, {OriginPkh(st, u)});
    }
    if keys == {} {
      assert Held(st, us, keys) == {};
    } else {
      var k :| k in keys && TotalAt(m, keys) == Total(m[k]) + TotalAt(m, keys - {k});
      BalancesAddUp(st, us, keys - {k});
      PkhIndexExact(st, us, k);
      assert Held(st, us, keys) == Held(st, us, {k}) + Held(st, us, keys - {k});
      TotalUnion(Held(st, us, {k}), Held(st, us, keys - {k}));
    }
  }
}
