/** The in-process debounce window of the hint publisher. Durations and instants are integers. */
module Debounce {
  /** One `try_acquire_debounce` call. */
  datatype Attempt = Attempt(key: string, now: int)

  /** `retain`: entries older than the window are pruned, whatever their key. */
  function Pruned(grants: map<string, int>, now: int, window: nat): map<string, int> {
    map k | k in grants && now - grants[k] < window :: grants[k]
  }

  predicate Acquires(grants: map<string, int>, a: Attempt, window: nat) {
    a.key !in Pruned(grants, a.now, window)
  }

  function After(grants: map<string, int>, a: Attempt, window: nat): map<string, int> {
    var pruned := Pruned(grants, a.now, window);
    if a.key in pruned then pruned else pruned[a.key := a.now]
  }

  class Debouncer {
    var grants: map<string, int>

    constructor ()
      ensures grants == map[]
    {
      grants := map[];
    }

    method TryAcquire(key: string, now: int, window: nat) returns (acquired: bool)
      modifies this
      ensures acquired == Acquires(old(grants), Attempt(key, now), window)
      ensures grants == After(old(grants), Attempt(key, now), window)
    {
      grants := map k | k in grants && now - grants[k] < window :: grants[k];
      if key in grants {
        return false;
      }
      grants := grants[key := now];
      return true;
    }
  }

  function GrantsAfter(attempts: seq<Attempt>, window: nat): map<string, int> {
    if attempts == [] then map[] else After(GrantsAfter(attempts[..|attempts| - 1], window), attempts[|attempts| - 1], window)
  }

  predicate Granted(attempts: seq<Attempt>, window: nat, i: nat)
    requires i < |attempts|
  {
    Acquires(GrantsAfter(attempts[..i], window), attempts[i], window)
  }

  predicate ClockRuns(attempts: seq<Attempt>) {
    forall i, j | 0 <= i < j < |attempts| :: attempts[i].now <= attempts[j].now
  }

  /** A grant stands until a window has passed. */
  predicate Stands(grants: map<string, int>, key: string, granted: int, now: int, window: nat) {
    if key in grants then grants[key] >= granted else now - granted >= window
  }

  lemma StillStands(grants: map<string, int>, key: string, granted: int, before: int, a: Attempt, window: nat)
    requires Stands(grants, key, granted, before, window) && granted <= before <= a.now
    ensures Stands(After(grants, a, window), key, granted, a.now, window)
  {
  }

  /** Of two grants to one key in a row, the second comes a whole window after the first. */
  lemma {:induction false} GrantsAreAWindowApart(attempts: seq<Attempt>, window: nat, i: nat, j: nat)
    requires ClockRuns(attempts) && i < j < |attempts| && attempts[i].key == attempts[j].key
    requires Granted(attempts, window, i) && Granted(attempts, window, j)
    ensures attempts[j].now - attempts[i].now >= window
  {
    var n := i + 1;
    assert attempts[..n][..i] == attempts[..i];
    while n < j
      invariant i < n <= j
      invariant
        Stands(GrantsAfter(attempts[..n], window), attempts[i].key, attempts[i].now, attempts[n - 1].now, window)
    {
      assert attempts[..n + 1][..n] == attempts[..n];
      StillStands(GrantsAfter(attempts[..n], window), attempts[i].key, attempts[i].now, attempts[n - 1].now, attempts[n], window);
      n := n + 1;
    }
  }

  /** A refused key was granted within the window. */
  lemma {:induction false} RefusalHasAGrant(attempts: seq<Attempt>, window: nat, j: nat)
    requires ClockRuns(attempts) && j < |attempts| && !Granted(attempts, window, j)
    ensures exists i :: 0 <= i < j && attempts[i].key == attempts[j].key && Granted(attempts, window, i)
                        && attempts[j].now - attempts[i].now < window
  {
    EntriesAreGrants(attempts, window, j, attempts[j].key);
  }

  lemma {:induction false} EntriesAreGrants(attempts: seq<Attempt>, window: nat, n: nat, key: string)
    requires n <= |attempts| && key in GrantsAfter(attempts[..n], window)
    ensures exists i :: 0 <= i < n && attempts[i].key == key && Granted(attempts, window, i)
                        && attempts[i].now == GrantsAfter(attempts[..n], window)[key]
  {
    var init := attempts[..n - 1];
    assert attempts[..n][..n - 1] == init;
    if key in Pruned(GrantsAfter(init, window), attempts[n - 1].now, window) {
      EntriesAreGrants(attempts, window, n - 1, key);
    } else {
      assert Granted(attempts, window, n - 1);
    }
  }
}
