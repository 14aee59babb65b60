/**
 The worker's sweep: one claim per environment with due work, earliest job first, so a
 backlog in one environment never holds up another.
 */
module Fairness {
  import opened InboxState
  import Sets

  type Env = nat

  /** A queued job with the claims it still takes (its chunks). */
  datatype Queued = Queued(env: Env, runAt: Time, chunks: nat)

  type Queue = map<JobId, Queued>

  predicate Due(q: Queue, k: JobId, now: Time) {
    k in q && q[k].runAt <= now
  }

  function DueEnvs(q: Queue, now: Time): set<Env> {
    set k | k in q && Due(q, k, now) :: q[k].env
  }

  /** `ORDER BY run_at LIMIT 1` within one environment. */
  predicate Earliest(q: Queue, k: JobId, now: Time) {
    && Due(q, k, now)
    && forall m | m in q && Due(q, m, now) && q[m].env == q[k].env :: q[k].runAt <= q[m].runAt
  }

  /** One claim that succeeds: a chunk less, or the job deleted. */
  function Worked(q: Queue, k: JobId): Queue
    requires k in q
  {
    if q[k].chunks > 1 then q[k := q[k].(chunks := q[k].chunks - 1)] else q - {k}
  }

  // ---------------------------------------------------------------- discovery

  predicate IsLeast(envs: set<Env>, e: Env) {
    e in envs && forall x | x in envs :: e <= x
  }

  lemma {:induction false} LeastEnvExists(envs: set<Env>)
    requires envs != {}
    ensures exists e :: IsLeast(envs, e)
    decreases |envs|
  {
    var x :| x in envs;
    if envs == {x} {
      assert IsLeast(envs, x);
    } else {
      var rest := envs - {x};
      assert rest != {};
      LeastEnvExists(rest);
      var y :| IsLeast(rest, y);
      assert forall z | z in envs :: z == x || z in rest;
      assert IsLeast(envs, if x < y then x else y);
    }
  }

  /** The recursive probe: the least environment with due work, then the next greater one, and so on. */
  method Discover(q: Queue, now: Time) returns (envs: seq<Env>)
    ensures forall i, j | 0 <= i < j < |envs| :: envs[i] < envs[j]
    ensures forall e :: e in envs <==> e in DueEnvs(q, now)
  {
    envs := [];
    var above := DueEnvs(q, now);
    while above != {}
      invariant forall i, j | 0 <= i < j < |envs| :: envs[i] < envs[j]
      invariant above <= DueEnvs(q, now)
      invariant forall e | e in DueEnvs(q, now) :: e in envs || e in above
      invariant forall e | e in envs :: e in DueEnvs(q, now)
      invariant forall x, y | x in envs && y in above :: x < y
      decreases above
    {
      LeastEnvExists(above);
      var e: Env :| e in above && forall x | x in above :: e <= x;
      assert forall i | 0 <= i < |envs| :: envs[i] in envs;
      envs := envs + [e];
      above := set x | x in above && x > e;
    }
  }

  // ---------------------------------------------------------------- one sweep

  predicate IsClaimed(q: Queue, claims: map<Env, JobId>, k: JobId) {
    k in q && q[k].env in claims && claims[q[k].env] == k
  }

  /** One job claimed in every environment with due work, the earliest there. */
  predicate FairClaims(q: Queue, claims: map<Env, JobId>, now: Time) {
    && claims.Keys == DueEnvs(q, now)
    && forall e | e in claims :: Earliest(q, claims[e], now) && q[claims[e]].env == e
  }

  /** The queue after a sweep with those claims. */
  function Swept(q: Queue, claims: map<Env, JobId>): Queue {
    map k | k in q && !(IsClaimed(q, claims, k) && q[k].chunks <= 1) ::
      if IsClaimed(q, claims, k) then q[k].(chunks := q[k].chunks - 1) else q[k]
  }

  lemma EarliestExists(q: Queue, e: Env, now: Time)
    requires e in DueEnvs(q, now)
    ensures exists k :: k in q && q[k].env == e && Earliest(q, k, now)
  {
    var k :| k in q && Due(q, k, now) && q[k].env == e;
    var rest := set m | m in q && Due(q, m, now) && q[m].env == e && m != k;
    while rest != {}
      invariant k in q && Due(q, k, now) && q[k].env == e
      invariant forall m | m in q && Due(q, m, now) && q[m].env == e && m !in rest :: q[k].runAt <= q[m].runAt
      invariant forall m | m in rest :: m in q && Due(q, m, now) && q[m].env == e
      decreases rest
    {
      var m :| m in rest;
      if q[m].runAt < q[k].runAt {
        k := m;
      }
      rest := rest - {m};
    }
    assert Earliest(q, k, now);
  }

  class Worker {
    var jobs: Queue

    constructor (q: Queue)
      ensures jobs == q
    {
      jobs := q;
    }

    /** `process_one`: claim the earliest due job of the environment and commit its chunk. */
    method ProcessOne(e: Env, now: Time) returns (k: JobId)
      requires e in DueEnvs(jobs, now)
      modifies this
      ensures k in old(jobs) && old(jobs)[k].env == e && Earliest(old(jobs), k, now)
      ensures jobs == Worked(old(jobs), k)
    {
      EarliestExists(jobs, e, now);
      k :| k in jobs && jobs[k].env == e && jobs[k].runAt <= now
           && forall m | m in jobs && jobs[m].runAt <= now && jobs[m].env == e :: jobs[k].runAt <= jobs[m].runAt;
      jobs := Worked(jobs, k);
    }

    /** `sweep_once` with one worker: discover, then one claim per environment found. */
    method Sweep(now: Time) returns (claims: map<Env, JobId>)
      modifies this
      ensures FairClaims(old(jobs), claims, now)
      ensures jobs == Swept(old(jobs), claims)
    {
      var envs := Discover(jobs, now);
      ghost var q := jobs;
      claims := map[];
      for i := 0 to |envs|
        invariant claims.Keys == (set j | 0 <= j < i :: envs[j])
        invariant forall e | e in claims :: Earliest(q, claims[e], now) && q[claims[e]].env == e
        invariant jobs == Swept(q, claims)
      {
        var e := envs[i];
        assert e !in claims;
        SameEnvironment(q, claims, e, now);
        var k := ProcessOne(e, now);
        ClaimOneMore(q, claims, e, k, now);
        claims := claims[e := k];
      }
    }
  }

  /** Claims elsewhere leave an environment as it was. */
  lemma SameEnvironment(q: Queue, claims: map<Env, JobId>, e: Env, now: Time)
    requires e !in claims
    ensures forall k :: k in Swept(q, claims) && Swept(q, claims)[k].env == e <==> k in q && q[k].env == e
    ensures forall k | k in q && q[k].env == e :: Swept(q, claims)[k] == q[k]
    ensures e in DueEnvs(Swept(q, claims), now) <==> e in DueEnvs(q, now)
  {
  }

  lemma ClaimOneMore(q: Queue, claims: map<Env, JobId>, e: Env, k: JobId, now: Time)
    requires e !in claims && k in Swept(q, claims) && Swept(q, claims)[k].env == e && Earliest(Swept(q, claims), k, now)
    ensures k in q && q[k].env == e && Earliest(q, k, now)
    ensures Worked(Swept(q, claims), k) == Swept(q, claims[e := k])
  {
    SameEnvironment(q, claims, e, now);
    var q' := Swept(q, claims);
    forall m | m in q && Due(q, m, now) && q[m].env == e ensures q[k].runAt <= q[m].runAt {
      assert m in q' && Due(q', m, now);
    }
    var after, expected := Worked(q', k), Swept(q, claims[e := k]);
    forall m ensures m in after <==> m in expected {
      assert IsClaimed(q, claims[e := k], m) <==> m == k || IsClaimed(q, claims, m);
    }
    forall m | m in after ensures after[m] == expected[m] {
      assert IsClaimed(q, claims[e := k], m) <==> m == k || IsClaimed(q, claims, m);
    }
  }

  /** The chunks of work a job still is; none once it is gone. */
  function Remaining(q: Queue, k: JobId): nat {
    if k in q then q[k].chunks else 0
  }

  /** A sweep does exactly one chunk of each job it claims, and of no other; nothing is dropped unfinished. */
  lemma SweepDoesOneChunkEach(q: Queue, claims: map<Env, JobId>, k: JobId)
    requires forall m | m in q :: 0 < q[m].chunks
    ensures Remaining(Swept(q, claims), k) == Remaining(q, k) - if IsClaimed(q, claims, k) then 1 else 0
  {
  }

  // ---------------------------------------------------------------- bounded waiting

  /** The chunks of work ahead of `j` in its own environment, one pair each. */
  function Ahead(q: Queue, j: JobId): set<(JobId, nat)>
    requires j in q
  {
    set k, c | k in q && k != j && q[k].env == q[j].env && q[k].runAt <= q[j].runAt && 0 <= c < q[k].chunks :: (k, c)
  }

  /** Between two sweeps anything may arrive elsewhere; in the job's own environment nothing due as early. */
  predicate Undisturbed(swept: Queue, q': Queue, j: JobId)
    requires j in swept
  {
    && j in q' && q'[j] == swept[j]
    && forall k | k in q' && q'[k].env == swept[j].env && q'[k].runAt <= swept[j].runAt :: k in swept && q'[k] == swept[k]
  }

  predicate Positive(q: Queue) {
    forall k | k in q :: 0 < q[k].chunks
  }

  /** A sweep that does not claim `j` does a chunk of the work ahead of it. */
  lemma SweepGetsCloser(q: Queue, claims: map<Env, JobId>, now: Time, q': Queue, j: JobId)
    requires FairClaims(q, claims, now) && Due(q, j, now) && Positive(q)
    requires !IsClaimed(q, claims, j) && Undisturbed(Swept(q, claims), q', j)
    ensures |Ahead(q', j)| < |Ahead(q, j)|
  {
    assert q[j].env in DueEnvs(q, now);
    var k := claims[q[j].env];
    var swept := Swept(q, claims);
    var gone := (k, q[k].chunks - 1);
    assert gone in Ahead(q, j);
    forall p | p in Ahead(q', j) ensures p in Ahead(q, j) && p != gone {
      assert p.0 in swept && q'[p.0] == swept[p.0];
    }
    Sets.SubsetSize(Ahead(q', j), Ahead(q, j) - {gone});
    Sets.RemoveOne(Ahead(q, j), gone);
  }

  /** Sweeps in a row, with arrivals in between, until `j` is claimed. */
  predicate Waiting(qs: seq<Queue>, claims: seq<map<Env, JobId>>, nows: seq<Time>, j: JobId)
    requires |qs| == |claims| == |nows|
  {
    && (forall i | 0 <= i < |qs| ::
          j in qs[i] && qs[i][j].runAt <= nows[i] && Positive(qs[i]) && FairClaims(qs[i], claims[i], nows[i]))
    && (forall i | 0 <= i < |qs| - 1 ::
          !IsClaimed(qs[i], claims[i], j) ==> j in Swept(qs[i], claims[i]) && Undisturbed(Swept(qs[i], claims[i]), qs[i + 1], j))
  }

  /** With `k` chunks ahead of it in its own environment, a due job is claimed within `k + 1` sweeps. */
  lemma {:induction false} ClaimedWithin(qs: seq<Queue>, claims: seq<map<Env, JobId>>, nows: seq<Time>, j: JobId)
    requires |qs| == |claims| == |nows| && qs != []
    requires Waiting(qs, claims, nows, j)
    requires |Ahead(qs[0], j)| < |qs|
    ensures exists i | 0 <= i <= |Ahead(qs[0], j)| :: IsClaimed(qs[i], claims[i], j)
    decreases |qs|
  {
    if IsClaimed(qs[0], claims[0], j) {
    } else if |qs| == 1 {
      NothingAhead(qs[0], claims[0], nows[0], j);
    } else {
      SweepGetsCloser(qs[0], claims[0], nows[0], qs[1], j);
      WaitingTail(qs, claims, nows, j);
      ClaimedWithin(qs[1..], claims[1..], nows[1..], j);
      var i :| 0 <= i <= |Ahead(qs[1], j)| && IsClaimed(qs[1..][i], claims[1..][i], j);
      assert IsClaimed(qs[i + 1], claims[i + 1], j);
    }
  }

  lemma WaitingTail(qs: seq<Queue>, claims: seq<map<Env, JobId>>, nows: seq<Time>, j: JobId)
    requires |qs| == |claims| == |nows| && |qs| > 1 && Waiting(qs, claims, nows, j)
    ensures Waiting(qs[1..], claims[1..], nows[1..], j)
  {
  }

  /** With nothing ahead the job is the one claimed. */
  lemma NothingAhead(q: Queue, claims: map<Env, JobId>, now: Time, j: JobId)
    requires FairClaims(q, claims, now) && Due(q, j, now) && Positive(q) && Ahead(q, j) == {}
    ensures IsClaimed(q, claims, j)
  {
    assert q[j].env in DueEnvs(q, now);
    var k, ahead := claims[q[j].env], Ahead(q, j);
    assert k == j || (k, 0) in ahead;
  }
}
