/**
 * Maps rebuilt from a sequence of key/value entries, as the decoders
 * rebuild the notification, limit and metadata maps: each entry is
 * inserted in index order into a fresh map, so a later entry for a key
 * overwrites an earlier one. `Enumerates` describes what the encoders emit
 * when they range over a Go map: every entry once, in some order.
 */
module EntryMaps {

  /** The map that inserting `es[0]`, `es[1]`, ... into an empty map yields. */
  function MapOf<V>(es: seq<(string, V)>): map<string, V>
  {
    if es == [] then map[] else MapOf(es[..|es| - 1])[es[|es| - 1].0 := es[|es| - 1].1]
  }

  function KeysOf<V>(es: seq<(string, V)>): set<string>
  {
    set i | 0 <= i < |es| :: es[i].0
  }

  /** Every entry of `m`, each key once, in any order. */
  ghost predicate Enumerates<V>(es: seq<(string, V)>, m: map<string, V>)
  {
    && (forall i | 0 <= i < |es| :: es[i].0 in m && m[es[i].0] == es[i].1)
    && (forall i, j | 0 <= i < j < |es| :: es[i].0 != es[j].0)
    && m.Keys <= KeysOf(es)
  }

  /** The rebuilt map has exactly the keys that occur in the entries. */
  lemma {:induction false} MapOfKeys<V>(es: seq<(string, V)>)
    ensures MapOf(es).Keys == KeysOf(es)
  {
    if es != [] {
      var init := es[..|es| - 1];
      MapOfKeys(init);
      assert KeysOf(es) == KeysOf(init) + {es[|es| - 1].0} by {
        forall x | x in KeysOf(es) ensures x in KeysOf(init) + {es[|es| - 1].0} {
          var i :| 0 <= i < |es| && es[i].0 == x;
          if i < |es| - 1 { assert init[i] == es[i]; }
        }
        forall x | x in KeysOf(init) ensures x in KeysOf(es) {
          var i :| 0 <= i < |init| && init[i].0 == x;
          assert es[i] == init[i];
        }
      }
    }
  }

  /** Last write wins: an entry not followed by another with the same key gives that key's value. */
  lemma {:induction false} MapOfLastWins<V>(es: seq<(string, V)>, i: nat)
    requires i < |es|
    requires forall j | i < j < |es| :: es[j].0 != es[i].0
    ensures es[i].0 in MapOf(es) && MapOf(es)[es[i].0] == es[i].1
  {
    if i < |es| - 1 {
      var init := es[..|es| - 1];
      assert init[i] == es[i];
      forall j | i < j < |init| ensures init[j].0 != init[i].0 {
        assert init[j] == es[j];
      }
      MapOfLastWins(init, i);
    }
  }

  /** Emitting a map's entries in any order and rebuilding gives the map back. */
  lemma {:induction false} MapOfEnumeration<V>(es: seq<(string, V)>, m: map<string, V>)
    requires Enumerates(es, m)
    ensures MapOf(es) == m
  {
    if es == [] {
      assert m.Keys == {};
    } else {
      var (k, v) := es[|es| - 1];
      EnumeratesDropLast(es, m);
      MapOfEnumeration(es[..|es| - 1], m - {k});
      assert m == (m - {k})[k := v];
    }
  }

  /** Without its last entry, an enumeration enumerates the map without that entry's key. */
  lemma EnumeratesDropLast<V>(es: seq<(string, V)>, m: map<string, V>)
    requires Enumerates(es, m) && es != []
    ensures Enumerates(es[..|es| - 1], m - {es[|es| - 1].0})
  {
    var n := |es| - 1;
    var init := es[..n];
    var rest := m - {es[n].0};
    forall i | 0 <= i < |init| ensures init[i].0 in rest && rest[init[i].0] == init[i].1 {
      assert init[i] == es[i];
    }
    forall i, j | 0 <= i < j < |init| ensures init[i].0 != init[j].0 {
      assert init[i] == es[i] && init[j] == es[j];
    }
    forall x | x in rest ensures x in KeysOf(init) {
      var i :| 0 <= i < |es| && es[i].0 == x;
      assert i != n;
      assert init[i] == es[i];
    }
  }

  /** Inserting one more entry into the rebuilt map. */
  lemma MapOfSnoc<V>(es: seq<(string, V)>, e: (string, V))
    ensures MapOf(es + [e]) == MapOf(es)[e.0 := e.1]
  {
    assert (es + [e])[..|es|] == es;
  }

  /** Emitting one more entry whose key is new extends an enumeration. */
  lemma EnumeratesExtend<V>(es: seq<(string, V)>, m: map<string, V>, k: string, v: V)
    requires Enumerates(es, m) && k !in m
    ensures Enumerates(es + [(k, v)], m[k := v])
  {
    var es' := es + [(k, v)];
    forall x | x in m[k := v] ensures x in KeysOf(es') {
      if x == k {
        assert es'[|es|].0 == k;
      } else {
        var i :| 0 <= i < |es| && es[i].0 == x;
        assert es'[i] == es[i];
      }
    }
  }
}
