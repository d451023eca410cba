/**
 * The two pieces of Python mapping semantics that shape_predictor relies on:
 * a dict display `{k0: v0, k1: v1, ...}` is evaluated left to right, each
 * entry stored as it is reached, so that a key that appears again overwrites
 * the value stored for it earlier; and `d[k]` raises KeyError when `k` was
 * never stored.
 *
 * The KeyError is an `Option`'s `None` here because these are facts about
 * dicts of any key and value types; a caller that propagates the exception,
 * as shape_predictor does, turns `None` into its own error value.
 */
module PyDict {

  datatype Option<T> = None | Some(value: T)

  /** `d[k]`: `None` stands for the KeyError Python raises on a missing key. */
  function GetItem<K, V>(d: map<K, V>, k: K): (r: Option<V>)
    ensures r.None? <==> k !in d
    ensures r.Some? ==> r.value == d[k]
  {
    if k in d then Some(d[k]) else None
  }

  /** The key set of a sequence of display entries. */
  function EntryKeys<K, V>(entries: seq<(K, V)>): (keys: set<K>)
  {
    set i | 0 <= i < |entries| :: entries[i].0
  }

  /**
   * Stores `entries` into `acc` one at a time, leftmost first; a later entry
   * with the same key replaces the value of an earlier one.
   */
  function Store<K, V>(acc: map<K, V>, entries: seq<(K, V)>): (d: map<K, V>)
    ensures d.Keys == acc.Keys + EntryKeys(entries)
    decreases |entries|
  {
    if entries == [] then acc
    else
      var d := Store(acc[entries[0].0 := entries[0].1], entries[1..]);
      assert EntryKeys(entries) == {entries[0].0} + EntryKeys(entries[1..]) by {
        forall k | k in EntryKeys(entries) ensures k in {entries[0].0} + EntryKeys(entries[1..]) {
          var i :| 0 <= i < |entries| && entries[i].0 == k;
          if i > 0 { assert entries[1..][i - 1] == entries[i]; }
        }
        forall k | k in EntryKeys(entries[1..]) ensures k in EntryKeys(entries) {
          var i :| 0 <= i < |entries[1..]| && entries[1..][i].0 == k;
          assert entries[i + 1] == entries[1..][i];
        }
      }
      d
  }

  /** The dict a display `{entries}` evaluates to. */
  function Display<K, V>(entries: seq<(K, V)>): (d: map<K, V>)
    ensures d.Keys == EntryKeys(entries)
  {
    Store(map[], entries)
  }

  /** Entry `i` is the last one in `entries` whose key is `k`. */
  ghost predicate IsLastWith<K, V>(entries: seq<(K, V)>, k: K, i: int)
  {
    && 0 <= i < |entries|
    && entries[i].0 == k
    && forall j :: i < j < |entries| ==> entries[j].0 != k
  }

  /** A key no entry mentions keeps the value it had before the display was stored. */
  lemma {:induction false} StoreKeepsUnmentioned<K, V>(acc: map<K, V>, entries: seq<(K, V)>, k: K)
    requires k !in EntryKeys(entries)
    ensures k in Store(acc, entries) <==> k in acc
    ensures k in acc ==> Store(acc, entries)[k] == acc[k]
    decreases |entries|
  {
    if entries != [] {
      assert entries[0].0 != k by { assert entries[0].0 in EntryKeys(entries); }
      assert k !in EntryKeys(entries[1..]) by {
        forall j | 0 <= j < |entries[1..]| ensures entries[1..][j].0 != k {
          assert entries[1..][j] == entries[j + 1];
          assert entries[j + 1].0 in EntryKeys(entries);
        }
      }
      StoreKeepsUnmentioned(acc[entries[0].0 := entries[0].1], entries[1..], k);
    }
  }

  /** Overwrite semantics: the stored value for `k` is that of the last entry with key `k`. */
  lemma {:induction false} StoreLastWins<K, V>(acc: map<K, V>, entries: seq<(K, V)>, k: K, i: int)
    requires IsLastWith(entries, k, i)
    ensures k in Store(acc, entries) && Store(acc, entries)[k] == entries[i].1
    decreases |entries|
  {
    var acc' := acc[entries[0].0 := entries[0].1];
    if i == 0 {
      assert k !in EntryKeys(entries[1..]) by {
        forall j | 0 <= j < |entries[1..]| ensures entries[1..][j].0 != k {
          assert entries[1..][j] == entries[j + 1];
        }
      }
      StoreKeepsUnmentioned(acc', entries[1..], k);
    } else {
      assert IsLastWith(entries[1..], k, i - 1) by {
        forall j | i - 1 < j < |entries[1..]| ensures entries[1..][j].0 != k {
          assert entries[1..][j] == entries[j + 1];
        }
      }
      StoreLastWins(acc', entries[1..], k, i - 1);
    }
  }

  /**
   * When some entry has key `k`, `{entries}[k]` is defined and is the value
   * of the last such entry.
   */
  lemma DisplayGetItem<K, V>(entries: seq<(K, V)>, k: K, i: int)
    requires IsLastWith(entries, k, i)
    ensures GetItem(Display(entries), k) == Some(entries[i].1)
  {
    StoreLastWins(map[], entries, k, i);
  }

  /** `{entries}[k]` raises KeyError exactly when no entry has key `k`. */
  lemma DisplayGetItemMissing<K, V>(entries: seq<(K, V)>, k: K)
    ensures GetItem(Display(entries), k) == None <==> k !in EntryKeys(entries)
  {
  }

  /** A display in which exactly one entry has key `k` maps `k` to that entry's value. */
  lemma UniqueKeyGetItem<K, V>(entries: seq<(K, V)>, k: K, i: int)
    requires 0 <= i < |entries| && entries[i].0 == k
    requires forall j :: 0 <= j < |entries| && j != i ==> entries[j].0 != k
    ensures GetItem(Display(entries), k) == Some(entries[i].1)
  {
    DisplayGetItem(entries, k, i);
  }
}
