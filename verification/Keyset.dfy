/**
 Keyset order and the one query shape every scan of the inbox uses:
 `WHERE key > cursor ORDER BY key LIMIT k`, and its descending mirror image.
 */
module Keyset {
  /** `(timestamp, id)`, compared as the database compares row values. */
  datatype Key = Key(ts: int, id: nat)

  predicate Below(a: Key, b: Key) {
    a.ts < b.ts || (a.ts == b.ts && a.id < b.id)
  }

  predicate AtOrBelow(a: Key, b: Key) {
    a == b || Below(a, b)
  }

  predicate Ascends(q: seq<Key>) {
    forall i, j | 0 <= i < j < |q| :: Below(q[i], q[j])
  }

  predicate Descends(q: seq<Key>) {
    forall i, j | 0 <= i < j < |q| :: Below(q[j], q[i])
  }

  function Elements(q: seq<Key>): set<Key> {
    set x | x in q
  }

  predicate IsLeast(keys: set<Key>, m: Key) {
    m in keys && forall x | x in keys :: AtOrBelow(m, x)
  }

  lemma {:induction false} LeastExists(keys: set<Key>)
    requires keys != {}
    ensures exists m :: IsLeast(keys, m)
    decreases |keys|
  {
    var x :| x in keys;
    if keys == {x} {
      assert IsLeast(keys, x);
    } else {
      var rest := keys - {x};
      assert rest != {};
      LeastExists(rest);
      var y :| IsLeast(rest, y);
      assert forall z | z in keys :: z == x || z in rest;
      assert IsLeast(keys, if Below(x, y) then x else y);
    }
  }

  lemma PrependLeast(m: Key, rest: seq<Key>)
    requires Ascends(rest) && m !in Elements(rest)
    requires forall x | x in Elements(rest) :: AtOrBelow(m, x)
    ensures Ascends([m] + rest) && Elements([m] + rest) == {m} + Elements(rest)
  {
    var q := [m] + rest;
    forall i, j | 0 <= i < j < |q| ensures Below(q[i], q[j]) {
      assert q[j] == rest[j - 1] && rest[j - 1] in Elements(rest);
    }
  }

  /** `ORDER BY ts, id` over a finite set of keys. */
  ghost function Ascending(keys: set<Key>): (q: seq<Key>)
    ensures Elements(q) == keys && |q| == |keys|
    ensures Ascends(q)
    decreases |keys|
  {
    if keys == {} then []
    else
      LeastExists(keys);
      var m :| IsLeast(keys, m);
      var rest := Ascending(keys - {m});
      PrependLeast(m, rest);
      [m] + rest
  }

  function Reversed(q: seq<Key>): (r: seq<Key>)
    ensures |r| == |q| && forall i | 0 <= i < |q| :: r[i] == q[|q| - 1 - i]
  {
    seq(|q|, i requires 0 <= i < |q| => q[|q| - 1 - i])
  }

  lemma ReversedKeepsElements(q: seq<Key>)
    ensures Elements(Reversed(q)) == Elements(q)
    ensures Ascends(q) <==> Descends(Reversed(q))
  {
    forall x | x in q ensures x in Reversed(q) {
      var i :| 0 <= i < |q| && q[i] == x;
      assert Reversed(q)[|q| - 1 - i] == x;
    }
    if Descends(Reversed(q)) {
      forall i, j | 0 <= i < j < |q| ensures Below(q[i], q[j]) {
        assert Below(Reversed(q)[|q| - 1 - i], Reversed(q)[|q| - 1 - j]);
      }
    }
  }

  /** `ORDER BY ts DESC, id DESC` over a finite set of keys. */
  ghost function Descending(keys: set<Key>): (q: seq<Key>)
    ensures Elements(q) == keys && |q| == |keys|
    ensures Descends(q)
  {
    ReversedKeepsElements(Ascending(keys));
    Reversed(Ascending(keys))
  }

  /** `LIMIT k`. */
  function Take(q: seq<Key>, k: nat): seq<Key> {
    if |q| <= k then q else q[..k]
  }

  lemma NothingInEmpty(q: seq<Key>)
    ensures Elements(q) == {} <==> q == []
  {
    assert q != [] ==> q[0] in Elements(q);
  }

  /** There is only one way to list a set of keys in order. */
  lemma {:induction false} AscendingIsUnique(p: seq<Key>, q: seq<Key>)
    requires Ascends(p) && Ascends(q) && Elements(p) == Elements(q)
    ensures p == q
  {
    if p == [] {
      NothingInEmpty(q);
    } else {
      NothingInEmpty(q);
      assert p[0] in Elements(p);
      assert q[0] in Elements(q);
      HeadsAgree(p, q);
      TailElements(p);
      TailElements(q);
      AscendingIsUnique(p[1..], q[1..]);
    }
  }

  lemma HeadsAgree(p: seq<Key>, q: seq<Key>)
    requires Ascends(p) && Ascends(q) && p != [] && q != []
    requires p[0] in Elements(q) && q[0] in Elements(p)
    ensures p[0] == q[0]
  {
  }

  lemma TailElements(p: seq<Key>)
    requires Ascends(p) && p != []
    ensures Ascends(p[1..]) && Elements(p[1..]) == Elements(p) - {p[0]}
  {
  }

  predicate AllBelow(p: set<Key>, q: set<Key>) {
    forall x, y | x in p && y in q :: Below(x, y)
  }

  /** Rows taken in order, and what is left to take. */
  predicate Taken(rows: seq<Key>, rest: set<Key>, keys: set<Key>) {
    && Elements(rows) !! rest && Elements(rows) + rest == keys
    && Ascends(rows) && AllBelow(Elements(rows), rest)
  }

  lemma TakeOne(rows: seq<Key>, rest: set<Key>, keys: set<Key>, m: Key)
    requires Taken(rows, rest, keys) && IsLeast(rest, m)
    ensures Taken(rows + [m], rest - {m}, keys)
  {
  }

  lemma TakenIsAPrefix(rows: seq<Key>, rest: set<Key>, keys: set<Key>)
    requires Taken(rows, rest, keys)
    ensures rows + Ascending(rest) == Ascending(keys)
  {
    Prefix(rows, Ascending(rest));
    AscendingIsUnique(rows + Ascending(rest), Ascending(keys));
  }

  /** `SELECT ... ORDER BY ts, id LIMIT k`: take the least remaining key, `k` times. */
  method SelectAscending(keys: set<Key>, k: nat) returns (rows: seq<Key>)
    ensures rows == Take(Ascending(keys), k)
  {
    hide Taken, Ascending, Elements;
    rows := [];
    var rest := keys;
    assert Taken([], keys, keys) by { NothingTakenYet(keys); }
    while rest != {} && |rows| < k
      invariant |rows| <= k
      invariant Taken(rows, rest, keys)
      decreases rest
    {
      LeastExists(rest);
      var m: Key :| m in rest && IsLeast(rest, m);
      TakeOne(rows, rest, keys, m);
      rows := rows + [m];
      rest := rest - {m};
    }
    TakenIsAPrefix(rows, rest, keys);
  }

  lemma NothingTakenYet(keys: set<Key>)
    ensures Taken([], keys, keys)
  {
  }

  lemma Prefix(p: seq<Key>, q: seq<Key>)
    requires Ascends(p) && Ascends(q) && AllBelow(Elements(p), Elements(q))
    ensures Ascends(p + q) && Elements(p + q) == Elements(p) + Elements(q)
  {
  }

  lemma DescendingIsUnique(p: seq<Key>, q: seq<Key>)
    requires Descends(p) && Descends(q) && Elements(p) == Elements(q)
    ensures p == q
  {
    hide Descends, Ascends, Elements;
    ReversedTwice(p);
    ReversedTwice(q);
    ReversedKeepsElements(Reversed(p));
    ReversedKeepsElements(Reversed(q));
    AscendingIsUnique(Reversed(p), Reversed(q));
  }

  lemma ReversedTwice(q: seq<Key>)
    ensures Reversed(Reversed(q)) == q
  {
  }
}
