/** A map from keys to non-empty sets, as the index of a set of pairs. */
module Index {

  /** The index of a relation. */
  function IndexOf<K(==), V(==)>(pairs: set<(K, V)>): map<K, set<V>> {
    map k | k in KeysOf(pairs) :: ValuesAt(pairs, k)
  }

  function KeysOf<K(==), V(==)>(pairs: set<(K, V)>): set<K> { set p | p in pairs :: p.0 }

  function ValuesAt<K(==), V(==)>(pairs: set<(K, V)>, k: K): set<V> {
    set p | p in pairs && p.0 == k :: p.1
  }

  function AddPair<K(==), V(==)>(m: map<K, set<V>>, k: K, v: V): map<K, set<V>> {
    m[k := (if k in m then m[k] else {}) + {v}]
  }

  /** An entry whose set becomes empty goes away. */
  function RemovePair<K(==), V(==)>(m: map<K, set<V>>, k: K, v: V): map<K, set<V>>
    requires k in m
  {
    var rest := m[k] - {v};
    if rest == {} then m - {k} else m[k := rest]
  }

  lemma IndexExact<K, V>(pairs: set<(K, V)>)
    ensures forall k, v :: (k, v) in pairs <==> k in IndexOf(pairs) && v in IndexOf(pairs)[k]
    ensures forall k :: k in IndexOf(pairs) ==> IndexOf(pairs)[k] != {}
  {
    forall k, v ensures (k, v) in pairs <==> k in IndexOf(pairs) && v in IndexOf(pairs)[k] {
      if (k, v) in pairs {
        assert (k, v).0 in KeysOf(pairs) && (k, v).1 in ValuesAt(pairs, k);
      }
    }
    forall k | k in IndexOf(pairs) ensures IndexOf(pairs)[k] != {} {
      var p :| p in pairs && p.0 == k;
      assert p.1 in ValuesAt(pairs, k);
    }
  }

  /** Two maps without empty sets that index the same pairs are equal. */
  lemma IndexUnique<K, V>(m: map<K, set<V>>, pairs: set<(K, V)>)
    requires forall k, v :: (k, v) in pairs <==> k in m && v in m[k]
    requires forall k :: k in m ==> m[k] != {}
    ensures m == IndexOf(pairs)
  {
    var ix := IndexOf(pairs);
    IndexExact(pairs);
    forall k ensures k in m <==> k in ix {
      if k in m {
        var v :| v in m[k];
        assert (k, v) in pairs;
      }
      if k in ix {
        var v :| v in ix[k];
        assert (k, v) in pairs;
      }
    }
    forall k | k in m ensures m[k] == ix[k] {
      forall v ensures v in m[k] <==> v in ix[k] {
        assert v in m[k] <==> (k, v) in pairs;
      }
    }
  }

  lemma IndexAdd<K, V>(pairs: set<(K, V)>, k: K, v: V)
    ensures AddPair(IndexOf(pairs), k, v) == IndexOf(pairs + {(k, v)})
  {
    IndexExact(pairs);
    IndexUnique(AddPair(IndexOf(pairs), k, v), pairs + {(k, v)});
  }

  lemma IndexRemove<K, V>(pairs: set<(K, V)>, k: K, v: V)
    requires (k, v) in pairs
    ensures k in IndexOf(pairs) && v in IndexOf(pairs)[k]
    ensures RemovePair(IndexOf(pairs), k, v) == IndexOf(pairs - {(k, v)})
  {
    IndexExact(pairs);
    var m, m' := IndexOf(pairs), RemovePair(IndexOf(pairs), k, v);
    var fewer := pairs - {(k, v)};
    forall k', v' ensures (k', v') in fewer <==> k' in m' && v' in m'[k'] {
      assert (k', v') in pairs <==> k' in m && v' in m[k'];
      if k' == k && k' !in m' {
        assert m[k] - {v} == {};
        assert forall w :: w in m[k] && w != v ==> w in m[k] - {v};
      }
    }
    IndexUnique(m', fewer);
  }
}
