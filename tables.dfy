/** Object literals used as lookup tables (the phase files, the resource
    map): entries in key order, where `Object.keys` lists them in that order
    and a lookup finds the value stored under a key. */
module Tables {
  import opened Wrappers

  type Table = seq<(string, string)>

  /** `Object.keys(table)`. */
  function Keys(t: Table): (r: seq<string>)
    ensures |r| == |t|
    ensures forall k :: 0 <= k < |t| ==> r[k] == t[k].0
  {
    seq(|t|, k requires 0 <= k < |t| => t[k].0)
  }

  /** `table[key]`, `undefined` when there is no such key. */
  function Lookup(t: Table, key: string): Option<string>
  {
    if t == [] then None
    else if t[0].0 == key then Some(t[0].1)
    else Lookup(t[1..], key)
  }

  predicate KeysDistinct(t: Table) {
    forall i, j :: 0 <= i < j < |t| ==> t[i].0 != t[j].0
  }

  /** A lookup finds something exactly for the keys of the table, and then
      a value stored under that key. */
  lemma {:induction false} LookupFound(t: Table, key: string)
    ensures Lookup(t, key).Some? <==> key in Keys(t)
    ensures Lookup(t, key).Some? ==> exists k :: 0 <= k < |t| && t[k] == (key, Lookup(t, key).value)
  {
    if t != [] {
      LookupFound(t[1..], key);
      if t[0].0 != key {
        if key in Keys(t) {
          var k :| 0 <= k < |t| && Keys(t)[k] == key;
          assert Keys(t[1..])[k - 1] == key;
        }
        if key in Keys(t[1..]) {
          var k :| 0 <= k < |t[1..]| && Keys(t[1..])[k] == key;
          assert Keys(t)[k + 1] == key;
        }
        if Lookup(t, key).Some? {
          var k :| 0 <= k < |t[1..]| && t[1..][k] == (key, Lookup(t, key).value);
          assert t[k + 1] == t[1..][k];
        }
      } else {
        assert Keys(t)[0] == key;
      }
    }
  }

  /** With distinct keys, the lookup of each entry's key gives that entry's
      value. */
  lemma {:induction false} LookupEntry(t: Table, k: nat)
    requires KeysDistinct(t) && k < |t|
    ensures Lookup(t, t[k].0) == Some(t[k].1)
  {
    if k > 0 {
      assert t[0].0 != t[k].0;
      assert KeysDistinct(t[1..]) by {
        forall i, j | 0 <= i < j < |t[1..]|
          ensures t[1..][i].0 != t[1..][j].0
        {
          assert t[1..][i] == t[i + 1] && t[1..][j] == t[j + 1];
        }
      }
      assert t[1..][k - 1] == t[k];
      LookupEntry(t[1..], k - 1);
    }
  }
}
