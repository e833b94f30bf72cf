// The byte-wise order in which the key/value store keeps its keys, and what a prefix scan over
// sorted keys visits.
module KeyOrder {
  import opened Entity

  predicate Leq(a: Bytes, b: Bytes) {
    |a| == 0 || (|b| > 0 && (a[0] < b[0] || (a[0] == b[0] && Leq(a[1..], b[1..]))))
  }

  predicate Less(a: Bytes, b: Bytes) {
    Leq(a, b) && a != b
  }

  lemma {:induction false} LeqTotal(a: Bytes, b: Bytes)
    ensures Leq(a, b) || Leq(b, a)
  {
    if |a| > 0 && |b| > 0 { LeqTotal(a[1..], b[1..]); }
  }

  lemma {:induction false} LeqTransitive(a: Bytes, b: Bytes, c: Bytes)
    requires Leq(a, b) && Leq(b, c)
    ensures Leq(a, c)
  {
    if |a| > 0 && a[0] == b[0] == c[0] { LeqTransitive(a[1..], b[1..], c[1..]); }
  }

  // A prefix sorts before everything that starts with it.
  lemma {:induction false} PrefixLeq(p: Bytes, k: Bytes)
    requires p <= k
    ensures Leq(p, k)
  {
    if |p| > 0 {
      assert p[0] == k[0] && p[1..] <= k[1..];
      PrefixLeq(p[1..], k[1..]);
    }
  }

  // Keys that share a prefix are neighbours: nothing sorts between the prefix and one of them
  // without sharing it too.
  lemma {:induction false} PrefixConvex(p: Bytes, j: Bytes, k: Bytes)
    requires Leq(p, j) && Leq(j, k) && p <= k
    ensures p <= j
  {
    if |p| > 0 {
      assert p[0] == k[0] && p[1..] <= k[1..];
      PrefixConvex(p[1..], j[1..], k[1..]);
      assert p == [p[0]] + p[1..];
      assert j == [j[0]] + j[1..];
    }
  }

  predicate Sorted(keys: seq<Bytes>) {
    forall i, j :: 0 <= i < j < |keys| ==> Less(keys[i], keys[j])
  }

  // The first position that does not sort before the key.
  predicate Seeks(keys: seq<Bytes>, key: Bytes, at: nat) {
    && at <= |keys|
    && (forall i :: 0 <= i < at ==> !Leq(key, keys[i]))
    && (at < |keys| ==> Leq(key, keys[at]))
  }

  // Stepping from the seek position while the prefix matches ends where no later key matches.
  lemma ScanComplete(keys: seq<Bytes>, prefix: Bytes, from: nat, to: nat)
    requires Sorted(keys) && Seeks(keys, prefix, from)
    requires from <= to <= |keys|
    requires forall i :: from <= i < to ==> prefix <= keys[i]
    requires to < |keys| ==> !(prefix <= keys[to])
    ensures forall i :: 0 <= i < |keys| ==> (prefix <= keys[i] <==> from <= i < to)
  {
    forall i | 0 <= i < |keys| && prefix <= keys[i]
      ensures from <= i < to
    {
      PrefixLeq(prefix, keys[i]);
      if to <= i {
        if to < i {
          if from < to {
            LeqTransitive(prefix, keys[from], keys[to]);
          }
          PrefixConvex(prefix, keys[to], keys[i]);
        }
      }
    }
  }

  function KeySet(keys: seq<Bytes>): set<Bytes> {
    set k | k in keys
  }

  function Inserted(keys: seq<Bytes>, key: Bytes, at: nat): seq<Bytes>
    requires at <= |keys|
  {
    keys[..at] + [key] + keys[at..]
  }

  lemma InsertedSorted(keys: seq<Bytes>, key: Bytes, at: nat)
    requires Sorted(keys) && Seeks(keys, key, at) && key !in keys
    ensures Sorted(Inserted(keys, key, at))
    ensures KeySet(Inserted(keys, key, at)) == KeySet(keys) + {key}
  {
    var wider := Inserted(keys, key, at);
    forall i | 0 <= i < |keys|
      ensures if i < at then Less(keys[i], key) else Less(key, keys[i])
    {
      if i < at {
        LeqTotal(keys[i], key);
      } else if at < i {
        LeqTransitive(key, keys[at], keys[i]);
      }
    }
    forall i, j | 0 <= i < j < |wider|
      ensures Less(wider[i], wider[j])
    {
      assert wider[i] == if i < at then keys[i] else if i == at then key else keys[i - 1];
      assert wider[j] == if j < at then keys[j] else if j == at then key else keys[j - 1];
    }
    assert wider[at] == key;
    forall k | k in keys
      ensures k in wider
    {
      var i :| 0 <= i < |keys| && keys[i] == k;
      assert wider[if i < at then i else i + 1] == k;
    }
  }
}
