/** JavaScript's `Map`: keys are unique and iteration follows insertion order.
    A map is an association list of `(key, value)` pairs; `ToMap` is its
    mathematical view. `set` on an existing key keeps the key's position,
    `delete` removes the one entry, `clear` empties it. */
module OrderedMap {
  import opened Js

  type Entries<K, V> = seq<(K, V)>

  /** No key occurs twice. Every operation below keeps this. */
  ghost predicate UniqueKeys<K, V>(m: Entries<K, V>) {
    forall i, j :: 0 <= i < j < |m| ==> m[i].0 != m[j].0
  }

  function Keys<K, V>(m: Entries<K, V>): (ks: seq<K>)
    ensures |ks| == |m|
    ensures forall i :: 0 <= i < |m| ==> ks[i] == m[i].0
  {
    if |m| == 0 then [] else [m[0].0] + Keys(m[1..])
  }

  /** `Array.from(m.values())`: the values in insertion order. */
  function Values<K, V>(m: Entries<K, V>): (vs: seq<V>)
    ensures |vs| == |m|
    ensures forall i :: 0 <= i < |m| ==> vs[i] == m[i].1
  {
    if |m| == 0 then [] else [m[0].1] + Values(m[1..])
  }

  /** The mathematical map the entries denote (the first entry of a key wins). */
  ghost function ToMap<K, V>(m: Entries<K, V>): map<K, V> {
    if |m| == 0 then map[] else ToMap(m[1..])[m[0].0 := m[0].1]
  }

  /** `m.get(k)`. */
  function Get<K(==), V>(m: Entries<K, V>, k: K): Option<V> {
    if |m| == 0 then None
    else if m[0].0 == k then Some(m[0].1)
    else Get(m[1..], k)
  }

  /** `m.has(k)`. */
  predicate Has<K(==), V>(m: Entries<K, V>, k: K) {
    Get(m, k).Some?
  }

  /** `m.set(k, v)`: overwrite in place, or append a new key at the end. */
  function Set<K(==), V>(m: Entries<K, V>, k: K, v: V): Entries<K, V> {
    if |m| == 0 then [(k, v)]
    else if m[0].0 == k then [(k, v)] + m[1..]
    else [m[0]] + Set(m[1..], k, v)
  }

  /** `m.delete(k)`: drop every entry for `k` (there is at most one). */
  function Delete<K(==), V>(m: Entries<K, V>, k: K): Entries<K, V> {
    if |m| == 0 then []
    else if m[0].0 == k then Delete(m[1..], k)
    else [m[0]] + Delete(m[1..], k)
  }

  /** `new Map(entries)`: the entries are `set` one after another. */
  function FromEntries<K(==), V>(es: Entries<K, V>): Entries<K, V>
    decreases |es|
  {
    if |es| == 0 then [] else Set(FromEntries(es[..|es| - 1]), es[|es| - 1].0, es[|es| - 1].1)
  }

  lemma {:induction false} GetAgreesWithView<K, V>(m: Entries<K, V>, k: K)
    ensures Get(m, k).Some? <==> k in ToMap(m)
    ensures Get(m, k).Some? ==> Get(m, k).value == ToMap(m)[k]
  {
    if |m| > 0 {
      GetAgreesWithView(m[1..], k);
    }
  }

  lemma {:induction false} KeysOfView<K, V>(m: Entries<K, V>)
    ensures ToMap(m).Keys == set i | 0 <= i < |m| :: m[i].0
  {
    if |m| > 0 {
      KeysOfView(m[1..]);
      var rest := set i | 0 <= i < |m[1..]| :: m[1..][i].0;
      var all := set i | 0 <= i < |m| :: m[i].0;
      assert all == rest + {m[0].0} by {
        forall x | x in all ensures x in rest + {m[0].0} {
          var i :| 0 <= i < |m| && m[i].0 == x;
          if i > 0 { assert m[1..][i - 1].0 == x; }
        }
        forall x | x in rest ensures x in all {
          var i :| 0 <= i < |m[1..]| && m[1..][i].0 == x;
          assert m[i + 1].0 == x;
        }
      }
    }
  }

  /** The first key of a unique-key list does not occur again after it. */
  lemma HeadNotInTail<K, V>(m: Entries<K, V>)
    requires UniqueKeys(m) && |m| > 0
    ensures m[0].0 !in ToMap(m[1..])
    ensures UniqueKeys(m[1..])
  {
    KeysOfView(m[1..]);
    forall q | 0 <= q < |m[1..]| ensures m[1..][q].0 != m[0].0 {
      assert m[1..][q] == m[q + 1];
    }
    forall i, j | 0 <= i < j < |m[1..]| ensures m[1..][i].0 != m[1..][j].0 {
      assert m[1..][i] == m[i + 1] && m[1..][j] == m[j + 1];
    }
  }

  /** `set` writes exactly the one key into the view. */
  lemma {:induction false} SetView<K, V>(m: Entries<K, V>, k: K, v: V)
    ensures ToMap(Set(m, k, v)) == ToMap(m)[k := v]
  {
    if |m| > 0 {
      if m[0].0 == k {
        assert ([(k, v)] + m[1..])[1..] == m[1..];
      } else {
        SetView(m[1..], k, v);
        var s := [m[0]] + Set(m[1..], k, v);
        assert s[1..] == Set(m[1..], k, v);
      }
    }
  }

  /** `set` grows the map by one entry exactly when the key is new. */
  lemma {:induction false} SetLength<K, V>(m: Entries<K, V>, k: K, v: V)
    ensures k in ToMap(m) ==> |Set(m, k, v)| == |m|
    ensures k !in ToMap(m) ==> |Set(m, k, v)| == |m| + 1
  {
    if |m| > 0 && m[0].0 != k {
      SetLength(m[1..], k, v);
    }
  }

  /** `set` keeps keys unique. */
  lemma {:induction false} SetUnique<K, V>(m: Entries<K, V>, k: K, v: V)
    requires UniqueKeys(m)
    ensures UniqueKeys(Set(m, k, v))
  {
    if |m| == 0 {
    } else if m[0].0 == k {
      HeadNotInTail(m);
      var s := [(k, v)] + m[1..];
      forall i, j | 0 <= i < j < |s| ensures s[i].0 != s[j].0 {
        assert s[j] == m[j];
        if i > 0 { assert s[i] == m[i]; }
      }
    } else {
      HeadNotInTail(m);
      SetUnique(m[1..], k, v);
      var t := Set(m[1..], k, v);
      var s := [m[0]] + t;
      SetView(m[1..], k, v);
      KeysOfView(t);
      forall i, j | 0 <= i < j < |s| ensures s[i].0 != s[j].0 {
        assert s[j] == t[j - 1];
        if i == 0 {
          assert t[j - 1].0 in ToMap(t);
        } else {
          assert s[i] == t[i - 1];
        }
      }
    }
  }

  /** `set` writes exactly one key and keeps keys unique. */
  lemma SetSpec<K, V>(m: Entries<K, V>, k: K, v: V)
    requires UniqueKeys(m)
    ensures UniqueKeys(Set(m, k, v))
    ensures ToMap(Set(m, k, v)) == ToMap(m)[k := v]
    ensures k in ToMap(m) ==> |Set(m, k, v)| == |m|
    ensures k !in ToMap(m) ==> |Set(m, k, v)| == |m| + 1
  {
    SetUnique(m, k, v);
    SetView(m, k, v);
    SetLength(m, k, v);
  }

  /** `delete` leaves the view without the key (whether or not keys are
      unique). */
  lemma {:induction false} DeleteView<K, V>(m: Entries<K, V>, k: K)
    ensures ToMap(Delete(m, k)) == ToMap(m) - {k}
  {
    if |m| > 0 {
      DeleteView(m[1..], k);
      if m[0].0 != k {
        var s := [m[0]] + Delete(m[1..], k);
        assert s[1..] == Delete(m[1..], k);
      }
    }
  }

  /** Deleting an absent key returns the same entries. */
  lemma {:induction false} DeleteAbsent<K, V>(m: Entries<K, V>, k: K)
    requires k !in ToMap(m)
    ensures Delete(m, k) == m
  {
    if |m| > 0 {
      DeleteAbsent(m[1..], k);
      assert [m[0]] + m[1..] == m;
    }
  }

  /** `delete` keeps keys unique. */
  lemma {:induction false} DeleteUnique<K, V>(m: Entries<K, V>, k: K)
    requires UniqueKeys(m)
    ensures UniqueKeys(Delete(m, k))
  {
    if |m| > 0 {
      HeadNotInTail(m);
      DeleteUnique(m[1..], k);
      if m[0].0 != k {
        var t := Delete(m[1..], k);
        var s := [m[0]] + t;
        DeleteView(m[1..], k);
        KeysOfView(t);
        forall i, j | 0 <= i < j < |s| ensures s[i].0 != s[j].0 {
          assert s[j] == t[j - 1];
          if i == 0 {
            assert t[j - 1].0 in ToMap(t);
          } else {
            assert s[i] == t[i - 1];
          }
        }
      }
    }
  }

  /** `delete` removes exactly the one key and keeps keys unique. */
  lemma DeleteSpec<K, V>(m: Entries<K, V>, k: K)
    requires UniqueKeys(m)
    ensures UniqueKeys(Delete(m, k))
    ensures ToMap(Delete(m, k)) == ToMap(m) - {k}
    ensures k !in ToMap(m) ==> Delete(m, k) == m
  {
    DeleteUnique(m, k);
    DeleteView(m, k);
    if k !in ToMap(m) {
      DeleteAbsent(m, k);
    }
  }

  /** With unique keys, the entry count is the number of distinct keys
      (`Map.prototype.size`). */
  lemma {:induction false} SizeIsKeyCount<K, V>(m: Entries<K, V>)
    requires UniqueKeys(m)
    ensures |ToMap(m).Keys| == |m|
  {
    if |m| > 0 {
      assert UniqueKeys(m[1..]) by {
        forall i, j | 0 <= i < j < |m[1..]| ensures m[1..][i].0 != m[1..][j].0 {
          assert m[1..][i] == m[i + 1] && m[1..][j] == m[j + 1];
        }
      }
      SizeIsKeyCount(m[1..]);
      KeysOfView(m[1..]);
      HeadNotInTail(m);
      assert ToMap(m).Keys == ToMap(m[1..]).Keys + {m[0].0};
    }
  }

  /** Entry `i` is the last one listed for its key. */
  ghost predicate LastFor<K, V>(es: Entries<K, V>, i: int)
    requires 0 <= i < |es|
  {
    forall j :: i < j < |es| ==> es[j].0 != es[i].0
  }

  /** `new Map(entries)` has unique keys, its keys are exactly the keys listed
      in `entries`, and each key maps to the last value listed for it. */
  lemma FromEntriesSpec<K, V>(es: Entries<K, V>)
    ensures UniqueKeys(FromEntries(es))
    ensures ToMap(FromEntries(es)).Keys == set i | 0 <= i < |es| :: es[i].0
    ensures forall i :: 0 <= i < |es| && LastFor(es, i) ==>
      es[i].0 in ToMap(FromEntries(es)) && ToMap(FromEntries(es))[es[i].0] == es[i].1
  {
    FromEntriesKeys(es);
    FromEntriesValues(es);
  }

  /** Each key of `new Map(entries)` carries the value of its last entry. */
  lemma {:induction false} FromEntriesValues<K, V>(es: Entries<K, V>)
    ensures forall i :: 0 <= i < |es| && LastFor(es, i) ==>
      es[i].0 in ToMap(FromEntries(es)) && ToMap(FromEntries(es))[es[i].0] == es[i].1
    decreases |es|
  {
    if |es| > 0 {
      var init := es[..|es| - 1];
      var last := es[|es| - 1];
      FromEntriesValues(init);
      SetView(FromEntries(init), last.0, last.1);
      forall i | 0 <= i < |es| && LastFor(es, i)
        ensures es[i].0 in ToMap(FromEntries(es)) && ToMap(FromEntries(es))[es[i].0] == es[i].1
      {
        if i < |es| - 1 {
          assert es[|es| - 1].0 != es[i].0;
          assert init[i] == es[i];
          assert LastFor(init, i) by {
            forall j | i < j < |init| ensures init[j].0 != init[i].0 {
              assert init[j] == es[j];
            }
          }
        }
      }
    }
  }

  /** `new Map(entries)` has unique keys, and its keys are exactly the keys
      listed in `entries`. */
  lemma {:induction false} FromEntriesKeys<K, V>(es: Entries<K, V>)
    ensures UniqueKeys(FromEntries(es))
    ensures ToMap(FromEntries(es)).Keys == set i | 0 <= i < |es| :: es[i].0
    decreases |es|
  {
    if |es| > 0 {
      var init := es[..|es| - 1];
      FromEntriesKeys(init);
      SetSpec(FromEntries(init), es[|es| - 1].0, es[|es| - 1].1);
      var before := set i | 0 <= i < |init| :: init[i].0;
      var after := set i | 0 <= i < |es| :: es[i].0;
      assert after == before + {es[|es| - 1].0} by {
        forall x | x in after ensures x in before + {es[|es| - 1].0} {
          var i :| 0 <= i < |es| && es[i].0 == x;
          if i < |es| - 1 { assert init[i].0 == x; }
        }
        forall x | x in before ensures x in after {
          var i :| 0 <= i < |init| && init[i].0 == x;
          assert es[i].0 == x;
        }
      }
    }
  }
}
