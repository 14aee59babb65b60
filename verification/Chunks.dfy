/**
 Chunked keyset scans: `WHERE key > cursor ORDER BY key LIMIT k`, again and again with
 the last key as the next cursor, visits every key once.
 */
module Chunks {
  import opened Keyset

  function Above(keys: set<Key>, cursor: Key): set<Key> {
    set x | x in keys && Below(cursor, x)
  }

  /** A cut in an ascending list is a cut by its last key. */
  lemma CutByLast(q: seq<Key>, k: nat, x: Key)
    requires Ascends(q) && 0 < k <= |q| && x in Elements(q)
    ensures x in q[..k] <==> AtOrBelow(x, q[k - 1])
    ensures x in q[k..] <==> Below(q[k - 1], x)
  {
  }

  lemma InElements(q: seq<Key>, x: Key)
    ensures x in Elements(q) <==> x in q
  {
  }

  /** The tail of an ordered list is what lies above the cut. */
  lemma TailIsAbove(q: seq<Key>, k: nat)
    requires Ascends(q) && 0 < k <= |q|
    ensures Ascends(q[k..]) && Elements(q[k..]) == Above(Elements(q), q[k - 1])
  {
  }

  /** A full chunk takes the `k` least keys, and the next scan finds exactly the others. */
  lemma FullChunk(keys: set<Key>, k: nat)
    requires 0 < k <= |keys|
    ensures
      var rows := Take(Ascending(keys), k);
      var last := Ascending(keys)[k - 1];
      && |rows| == k && rows[k - 1] == last && last in keys
      && |Above(keys, last)| == |keys| - k
      && Ascending(keys) == rows + Ascending(Above(keys, last))
      && forall x | x in keys :: x in rows <==> AtOrBelow(x, last)
  {
    hide Ascending, Elements, Ascends, Above;
    var q := Ascending(keys);
    TailIsAbove(q, k);
    AscendingIsUnique(q[k..], Ascending(Above(keys, q[k - 1])));
    InElements(q, q[k - 1]);
    assert Take(q, k) == q[..k];
    forall x | x in keys ensures x in q[..k] <==> AtOrBelow(x, q[k - 1]) {
      CutByLast(q, k, x);
    }
  }

  /** A short chunk takes everything there is. */
  lemma ShortChunk(keys: set<Key>, k: nat)
    requires |keys| < k
    ensures
      var rows := Take(Ascending(keys), k);
      && |rows| == |keys|
      && (forall x | x in keys :: x in rows)
      && (rows != [] ==> rows[|rows| - 1] in keys && forall x | x in keys :: AtOrBelow(x, rows[|rows| - 1]))
  {
  }
}
