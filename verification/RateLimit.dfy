/**
 The token bucket, with real numbers for `f64`: the in-process limiter with its
 opportunistic GC, and the Redis script with its expiry. Both forget buckets; neither
 lets that show.
 */
module RateLimit {

  datatype Decision = Allowed | Limited(retryAfter: real)

  /** A bucket with the parameters it was last used with. */
  datatype Bucket = Bucket(tokens: real, sampledAt: real, rate: real, burst: real)

  /** One call of `check`. */
  datatype Call = Call(key: string, rate: real, burst: real, now: real)

  type Buckets = map<string, Bucket>

  const GC_THRESHOLD := 10_000

  // ---------------------------------------------------------------- the ideal limiter

  function Min(a: real, b: real): real {
    if a <= b then a else b
  }

  /** What a rate brings between two instants. */
  function Accrued(rate: real, from: real, to: real): real {
    (to - from) * rate
  }

  lemma AccruedAtOnce(rate: real, at: real)
    ensures Accrued(rate, at, at) == 0.0
  {
  }

  lemma AccruedSplits(rate: real, a: real, b: real, c: real)
    ensures Accrued(rate, a, c) == Accrued(rate, a, b) + Accrued(rate, b, c)
  {
    Distributes(b - a, c - b, rate);
  }

  lemma Distributes(x: real, y: real, z: real)
    ensures (x + y) * z == x * z + y * z
  {
  }

  lemma AccruedGrows(rate: real, from: real, to: real)
    requires rate > 0.0 && from <= to
    ensures Accrued(rate, from, to) >= 0.0
  {
    ProductOfGains(to - from, rate);
  }

  lemma ProductOfGains(x: real, y: real)
    requires x >= 0.0 && y >= 0.0
    ensures x * y >= 0.0
  {
  }

  /** The wait for an amount brings exactly that amount. */
  lemma AccruedByWaiting(rate: real, from: real, amount: real)
    requires rate > 0.0
    ensures Accrued(rate, from, from + amount / rate) == amount
  {
    var wait := amount / rate;
    assert wait * rate == amount;
    assert from + wait - from == wait;
  }

  function Full(c: Call): Bucket {
    Bucket(c.burst, c.now, c.rate, c.burst)
  }

  function Refilled(b: Bucket, c: Call): real {
    Min(c.burst, b.tokens + Accrued(c.rate, b.sampledAt, c.now))
  }

  function DecisionFor(tokens: real, rate: real): Decision
    requires rate > 0.0
  {
    if tokens >= 1.0 then Allowed else Limited((1.0 - tokens) / rate)
  }

  /** The tokens a call finds: a missing bucket is a full one. */
  function Available(buckets: Buckets, c: Call): real {
    Refilled(if c.key in buckets then buckets[c.key] else Full(c), c)
  }

  function Decide(buckets: Buckets, c: Call): Decision {
    if c.rate <= 0.0 then Allowed else DecisionFor(Available(buckets, c), c.rate)
  }

  function Left(tokens: real): real {
    if tokens >= 1.0 then tokens - 1.0 else tokens
  }

  /** A limiter that never forgets. */
  function Step(buckets: Buckets, c: Call): Buckets {
    if c.rate <= 0.0 then buckets
    else buckets[c.key := Bucket(Left(Available(buckets, c)), c.now, c.rate, c.burst)]
  }

  // ---------------------------------------------------------------- limiters that forget

  /** By its own parameters this bucket is full again. */
  predicate FullAgain(b: Bucket, now: real) {
    b.tokens + Accrued(b.rate, b.sampledAt, now) >= b.burst
  }

  /** Some buckets are dropped before the call, all of them full again. */
  predicate MayForget(buckets: Buckets, forgotten: set<string>, now: real) {
    forall k | k in forgotten && k in buckets :: FullAgain(buckets[k], now)
  }

  /** What a key is limited to; a key keeps its parameters. */
  datatype Limit = Limit(rate: real, burst: real)

  predicate KeepsLimits(calls: seq<Call>, limits: map<string, Limit>) {
    forall c | c in calls ::
      c.key in limits && c.rate == limits[c.key].rate && c.burst == limits[c.key].burst && c.burst >= 0.0
  }

  predicate ClockRuns(calls: seq<Call>) {
    forall i, j | 0 <= i < j < |calls| :: calls[i].now <= calls[j].now
  }

  /** What a bucket map looks like between calls. */
  predicate Settled(buckets: Buckets, limits: map<string, Limit>, now: real) {
    forall k | k in buckets ::
      && k in limits && limits[k].rate > 0.0 && buckets[k].sampledAt <= now
      && buckets[k].rate == limits[k].rate && buckets[k].burst == limits[k].burst
      && 0.0 <= buckets[k].tokens <= buckets[k].burst
  }

  /** The forgetful map lacks only buckets that are full again. */
  predicate Forgets(ideal: Buckets, actual: Buckets, now: real) {
    && actual.Keys <= ideal.Keys
    && forall k | k in ideal :: if k in actual then actual[k] == ideal[k] else FullAgain(ideal[k], now)
  }

  lemma FullStaysFull(b: Bucket, now: real, later: real)
    requires FullAgain(b, now) && b.rate > 0.0 && now <= later
    ensures FullAgain(b, later)
  {
    hide Accrued;
    AccruedSplits(b.rate, b.sampledAt, now, later);
    AccruedGrows(b.rate, now, later);
  }

  /** What a call finds is between zero and the burst. */
  lemma AvailableIsBounded(buckets: Buckets, limits: map<string, Limit>, now: real, c: Call)
    requires Settled(buckets, limits, now) && now <= c.now && c.rate > 0.0
    requires c.key in limits && c.rate == limits[c.key].rate && c.burst == limits[c.key].burst && c.burst >= 0.0
    ensures 0.0 <= Available(buckets, c) <= c.burst
  {
    hide Accrued;
    AccruedGrows(c.rate, if c.key in buckets then buckets[c.key].sampledAt else c.now, c.now);
    AccruedAtOnce(c.rate, c.now);
  }

  /** One call keeps the bucket within `[0, burst]`. */
  lemma StepKeepsSettled(buckets: Buckets, limits: map<string, Limit>, now: real, c: Call)
    requires Settled(buckets, limits, now) && now <= c.now
    requires c.key in limits && c.rate == limits[c.key].rate && c.burst == limits[c.key].burst && c.burst >= 0.0
    ensures Settled(Step(buckets, c), limits, c.now)
    ensures c.rate > 0.0 ==> 0.0 <= Available(buckets, c) <= c.burst
  {
    hide Available;
    if c.rate > 0.0 {
      AvailableIsBounded(buckets, limits, now, c);
    }
  }

  /** Dropping full buckets before a call changes neither its decision nor what it leaves behind. */
  lemma ForgettingDoesNotShow(ideal: Buckets, actual: Buckets, forgotten: set<string>, limits: map<string, Limit>, now: real, c: Call)
    requires Settled(ideal, limits, now) && Forgets(ideal, actual, now) && now <= c.now
    requires MayForget(actual, forgotten, c.now)
    requires c.key in limits && c.rate == limits[c.key].rate && c.burst == limits[c.key].burst
    ensures Decide(actual - forgotten, c) == Decide(ideal, c)
    ensures Forgets(Step(ideal, c), Step(actual - forgotten, c), c.now)
  {
    hide Available, FullAgain;
    forall k | k in ideal && k !in actual - forgotten ensures FullAgain(ideal[k], c.now) {
      if k !in actual {
        FullStaysFull(ideal[k], now, c.now);
      }
    }
    if c.rate > 0.0 {
      ForgottenIsFull(ideal, actual - forgotten, c);
    }
  }

  /** A call finds a full bucket whether its key is full again or missing. */
  lemma ForgottenIsFull(ideal: Buckets, actual: Buckets, c: Call)
    requires c.key in actual ==> c.key in ideal && actual[c.key] == ideal[c.key]
    requires c.key in ideal && c.key !in actual ==> ideal[c.key].rate == c.rate && ideal[c.key].burst == c.burst
                                                     && FullAgain(ideal[c.key], c.now)
    ensures Available(actual, c) == Available(ideal, c)
  {
    hide Accrued;
    AccruedAtOnce(c.rate, c.now);
  }

  // ---------------------------------------------------------------- runs

  /** The ideal map after a run. */
  function After(calls: seq<Call>): Buckets {
    if calls == [] then map[] else Step(After(calls[..|calls| - 1]), calls[|calls| - 1])
  }

  /** A forgetful map after the same run; `drops[i]` is dropped before call `i`. */
  function ForgetfulAfter(calls: seq<Call>, drops: seq<set<string>>): Buckets
    requires |drops| == |calls|
  {
    if calls == [] then map[]
    else
      var n := |calls| - 1;
      Step(ForgetfulAfter(calls[..n], drops[..n]) - drops[n], calls[n])
  }

  predicate DropsOnlyFull(calls: seq<Call>, drops: seq<set<string>>)
    requires |drops| == |calls|
  {
    calls == [] ||
    var n := |calls| - 1;
    DropsOnlyFull(calls[..n], drops[..n]) && MayForget(ForgetfulAfter(calls[..n], drops[..n]), drops[n], calls[n].now)
  }

  function ClockAfter(calls: seq<Call>, start: real): real {
    if calls == [] then start else calls[|calls| - 1].now
  }

  lemma {:induction false} RunsStaySettled(calls: seq<Call>, limits: map<string, Limit>, start: real)
    requires KeepsLimits(calls, limits) && ClockRuns(calls)
    ensures Settled(After(calls), limits, ClockAfter(calls, start))
  {
    if calls != [] {
      var n := |calls| - 1;
      var init := calls[..n];
      assert forall c | c in init :: c in calls;
      RunsStaySettled(init, limits, calls[n].now);
      assert calls[n] in calls;
      StepKeepsSettled(After(init), limits, ClockAfter(init, calls[n].now), calls[n]);
    }
  }

  lemma {:induction false} ForgetfulRun(calls: seq<Call>, drops: seq<set<string>>, limits: map<string, Limit>, start: real)
    requires |drops| == |calls| && DropsOnlyFull(calls, drops)
    requires KeepsLimits(calls, limits) && ClockRuns(calls)
    ensures Forgets(After(calls), ForgetfulAfter(calls, drops), ClockAfter(calls, start))
  {
    if calls != [] {
      var n := |calls| - 1;
      var init := calls[..n];
      assert forall c | c in init :: c in calls;
      RunsStaySettled(init, limits, calls[n].now);
      ForgetfulRun(init, drops[..n], limits, calls[n].now);
      assert calls[n] in calls;
      ForgettingDoesNotShow(After(init), ForgetfulAfter(init, drops[..n]), drops[n], limits,
                            ClockAfter(init, calls[n].now), calls[n]);
    }
  }

  lemma {:induction false} DropsOfAPrefix(calls: seq<Call>, drops: seq<set<string>>, i: nat)
    requires |drops| == |calls| && DropsOnlyFull(calls, drops) && i < |calls|
    ensures DropsOnlyFull(calls[..i], drops[..i])
    ensures MayForget(ForgetfulAfter(calls[..i], drops[..i]), drops[i], calls[i].now)
    decreases |calls|
  {
    var n := |calls| - 1;
    if i < n {
      DropsOfAPrefix(calls[..n], drops[..n], i);
      assert calls[..n][..i] == calls[..i] && drops[..n][..i] == drops[..i];
    }
  }

  /**
   A limiter that drops full buckets makes, call by call, the decisions of one that never
   forgets: over every run with fixed limits per key and a clock that does not run back.
   */
  lemma SameDecisions(calls: seq<Call>, drops: seq<set<string>>, limits: map<string, Limit>, i: nat)
    requires |drops| == |calls| && DropsOnlyFull(calls, drops) && i < |calls|
    requires KeepsLimits(calls, limits) && ClockRuns(calls)
    ensures Decide(ForgetfulAfter(calls[..i], drops[..i]) - drops[i], calls[i]) == Decide(After(calls[..i]), calls[i])
  {
    hide Decide, ForgetfulAfter, After, MayForget, Forgets, Settled;
    var init := calls[..i];
    assert forall c | c in init :: c in calls;
    DropsOfAPrefix(calls, drops, i);
    RunsStaySettled(init, limits, calls[i].now);
    ForgetfulRun(init, drops[..i], limits, calls[i].now);
    assert calls[i] in calls;
    ForgettingDoesNotShow(After(init), ForgetfulAfter(init, drops[..i]), drops[i], limits, ClockAfter(init, calls[i].now), calls[i]);
  }

  /** The GC of the in-process limiter, and the keys it drops. */
  function Collected(buckets: Buckets, now: real): set<string> {
    if |buckets| > GC_THRESHOLD then set k | k in buckets && FullAgain(buckets[k], now) else {}
  }

  /** What the GC keeps of a crowded map: buckets from which something is still missing. */
  lemma GcKeepsWhatLimits(buckets: Buckets, c: Call, key: string)
    requires c.rate > 0.0 && |buckets| > 10_000 && key != c.key
    ensures
      var kept := Step(buckets - LocalDrop(buckets, c), c);
      key in kept <==> key in buckets
                       && Refilled(buckets[key], Call(key, buckets[key].rate, buckets[key].burst, c.now)) < buckets[key].burst
  {
    hide Accrued, Available;
  }

  /** The in-process limiter's map after a run. */
  function LocalAfter(calls: seq<Call>): Buckets {
    if calls == [] then map[]
    else
      var c := calls[|calls| - 1];
      var before := LocalAfter(calls[..|calls| - 1]);
      Step(before - LocalDrop(before, c), c)
  }

  function LocalDrop(buckets: Buckets, c: Call): set<string> {
    if c.rate <= 0.0 then {} else Collected(buckets, c.now)
  }

  function LocalDrops(calls: seq<Call>): (drops: seq<set<string>>)
    ensures |drops| == |calls|
  {
    if calls == [] then []
    else LocalDrops(calls[..|calls| - 1]) + [LocalDrop(LocalAfter(calls[..|calls| - 1]), calls[|calls| - 1])]
  }

  lemma {:induction false} GcDropsOnlyFull(calls: seq<Call>)
    ensures LocalAfter(calls) == ForgetfulAfter(calls, LocalDrops(calls))
    ensures DropsOnlyFull(calls, LocalDrops(calls))
  {
    if calls != [] {
      var n := |calls| - 1;
      GcDropsOnlyFull(calls[..n]);
      assert LocalDrops(calls)[..n] == LocalDrops(calls[..n]);
    }
  }

  lemma {:induction false} DropsAt(calls: seq<Call>, i: nat)
    requires i < |calls|
    ensures LocalDrops(calls)[..i] == LocalDrops(calls[..i])
    ensures LocalDrops(calls)[i] == LocalDrop(LocalAfter(calls[..i]), calls[i])
    decreases |calls|
  {
    hide Available, LocalAfter, LocalDrop;
    var n := |calls| - 1;
    assert LocalDrops(calls)[..n] == LocalDrops(calls[..n]);
    if i < n {
      DropsAt(calls[..n], i);
      assert calls[..n][..i] == calls[..i];
      assert LocalDrops(calls)[..i] == LocalDrops(calls)[..n][..i];
      assert LocalDrops(calls)[i] == LocalDrops(calls)[..n][i];
    }
  }

  /** The in-process limiter with its GC decides every call of every run as the ideal one does. */
  lemma LocalLimiterIsIdeal(calls: seq<Call>, limits: map<string, Limit>, i: nat)
    requires KeepsLimits(calls, limits) && ClockRuns(calls) && i < |calls|
    ensures
      var buckets := LocalAfter(calls[..i]);
      Decide(buckets - LocalDrop(buckets, calls[i]), calls[i]) == Decide(After(calls[..i]), calls[i])
  {
    hide Decide, LocalAfter, LocalDrop, ForgetfulAfter, After, DropsOnlyFull;
    GcDropsOnlyFull(calls);
    GcDropsOnlyFull(calls[..i]);
    DropsAt(calls, i);
    SameDecisions(calls, LocalDrops(calls), limits, i);
  }

  // ---------------------------------------------------------------- how many calls pass

  /** Allowed calls of `key` among `calls[i..j]`. */
  function AllowedBetween(calls: seq<Call>, key: string, i: nat, j: nat): nat
    requires i <= j <= |calls|
    decreases j - i
  {
    if i == j then 0
    else
      AllowedBetween(calls, key, i, j - 1) + Spent(After(calls[..j - 1]), calls[j - 1], key)
  }

  /** Tokens of `key` after `j` calls, were they looked at `now`. */
  function TokensAt(buckets: Buckets, key: string, limit: Limit, now: real): real {
    if key in buckets then Min(limit.burst, buckets[key].tokens + Accrued(limit.rate, buckets[key].sampledAt, now)) else limit.burst
  }

  lemma RefillIsBounded(buckets: Buckets, key: string, limit: Limit, now: real, later: real)
    requires limit.rate > 0.0 && now <= later
    ensures TokensAt(buckets, key, limit, later) <= TokensAt(buckets, key, limit, now) + Accrued(limit.rate, now, later)
  {
    hide Accrued;
    AccruedGrows(limit.rate, now, later);
    if key in buckets {
      AccruedSplits(limit.rate, buckets[key].sampledAt, now, later);
    }
  }

  function Spent(buckets: Buckets, c: Call, key: string): nat {
    if c.key == key && Decide(buckets, c) == Allowed then 1 else 0
  }

  /** What a call finds is what its bucket stands for. */
  lemma AvailableIsTokensAt(buckets: Buckets, c: Call, limit: Limit)
    requires c.rate == limit.rate && c.burst == limit.burst
    ensures Available(buckets, c) == TokensAt(buckets, c.key, limit, c.now)
  {
    hide Accrued;
    AccruedAtOnce(c.rate, c.now);
  }

  /** An allowed call costs one token, and no other call costs any. */
  lemma CallSpends(buckets: Buckets, c: Call, key: string, limit: Limit)
    requires limit.rate > 0.0 && (c.key == key ==> c.rate == limit.rate && c.burst == limit.burst)
    ensures TokensAt(Step(buckets, c), key, limit, c.now) + Spent(buckets, c, key) as real == TokensAt(buckets, key, limit, c.now)
  {
    hide Accrued, Available;
    if c.key == key {
      AccruedAtOnce(limit.rate, c.now);
      AvailableIsTokensAt(buckets, c, limit);
    }
  }

  /** The bucket pays for every allowed call, and refills no faster than its rate. */
  lemma OneCallPays(buckets: Buckets, now: real, c: Call, key: string, limit: Limit)
    requires limit.rate > 0.0 && now <= c.now && (c.key == key ==> c.rate == limit.rate && c.burst == limit.burst)
    ensures TokensAt(Step(buckets, c), key, limit, c.now) + Spent(buckets, c, key) as real
         <= TokensAt(buckets, key, limit, now) + Accrued(limit.rate, now, c.now)
  {
    hide TokensAt, Step, Spent, Accrued;
    CallSpends(buckets, c, key, limit);
    RefillIsBounded(buckets, key, limit, now, c.now);
  }

  lemma AfterOneMore(calls: seq<Call>, j: nat)
    requires 0 < j <= |calls|
    ensures After(calls[..j]) == Step(After(calls[..j - 1]), calls[j - 1])
  {
    hide Step;
    assert calls[..j][..j - 1] == calls[..j - 1];
  }

  lemma {:induction false} AllowedArePaidFor(calls: seq<Call>, limits: map<string, Limit>, key: string, i: nat, j: nat)
    requires KeepsLimits(calls, limits) && ClockRuns(calls) && key in limits && limits[key].rate > 0.0
    requires i < j <= |calls|
    ensures
      AllowedBetween(calls, key, i, j) as real + TokensAt(After(calls[..j]), key, limits[key], calls[j - 1].now)
        <= TokensAt(After(calls[..i]), key, limits[key], calls[i].now) + Accrued(limits[key].rate, calls[i].now, calls[j - 1].now)
    decreases j - i
  {
    hide TokensAt, Step, Spent, Accrued;
    var c, limit := calls[j - 1], limits[key];
    AfterOneMore(calls, j);
    assert c in calls;
    hide After;
    if j == i + 1 {
      OneCallPays(After(calls[..i]), c.now, c, key, limit);
    } else {
      AllowedArePaidFor(calls, limits, key, i, j - 1);
      OneCallPays(After(calls[..j - 1]), calls[j - 2].now, c, key, limit);
      AccruedSplits(limit.rate, calls[i].now, calls[j - 2].now, c.now);
    }
  }

  /** A bucket holds no more than its burst to start with, and no less than nothing at the end. */
  lemma AllowedWithin(calls: seq<Call>, limits: map<string, Limit>, key: string, i: nat, j: nat, s: real, t: real)
    requires KeepsLimits(calls, limits) && ClockRuns(calls) && key in limits && limits[key].rate > 0.0
    requires limits[key].burst >= 0.0
    requires i < j <= |calls| && s <= calls[i].now && calls[j - 1].now <= t
    ensures AllowedBetween(calls, key, i, j) as real <= limits[key].burst + Accrued(limits[key].rate, s, t)
  {
    hide TokensAt, Step, Decide, AllowedBetween, Settled, After, Accrued;
    var limit := limits[key];
    AllowedArePaidFor(calls, limits, key, i, j);
    PrefixRuns(calls, limits, j);
    RunsStaySettled(calls[..j], limits, t);
    TokensStayWithin(After(calls[..j]), limits, key, calls[j - 1].now);
    TokensBelowBurst(After(calls[..i]), key, limit, calls[i].now);
    AccruedWithin(limit.rate, s, calls[i].now, calls[j - 1].now, t);
  }

  /**
   In any window of a run, `burst + rate * (t - s)` bounds the calls of a key that pass,
   where `s` and `t` enclose the calls of the window.
   */
  lemma BurstPlusRate(calls: seq<Call>, limits: map<string, Limit>, key: string, i: nat, j: nat, s: real, t: real)
    requires KeepsLimits(calls, limits) && ClockRuns(calls) && key in limits && limits[key].rate > 0.0
    requires limits[key].burst >= 0.0
    requires i < j <= |calls| && s <= calls[i].now && calls[j - 1].now <= t
    ensures AllowedBetween(calls, key, i, j) as real <= limits[key].burst + limits[key].rate * (t - s)
  {
    hide AllowedBetween, KeepsLimits, ClockRuns;
    AllowedWithin(calls, limits, key, i, j, s, t);
    AccruedIsProduct(limits[key].rate, s, t);
    hide Accrued;
  }

  lemma PrefixRuns(calls: seq<Call>, limits: map<string, Limit>, j: nat)
    requires KeepsLimits(calls, limits) && ClockRuns(calls) && j <= |calls|
    ensures KeepsLimits(calls[..j], limits) && ClockRuns(calls[..j])
  {
  }

  lemma TokensBelowBurst(buckets: Buckets, key: string, limit: Limit, now: real)
    ensures TokensAt(buckets, key, limit, now) <= limit.burst
  {
  }

  lemma AccruedWithin(rate: real, s: real, a: real, b: real, t: real)
    requires s <= a && b <= t && rate > 0.0
    ensures Accrued(rate, a, b) <= Accrued(rate, s, t)
  {
    hide Accrued;
    AccruedSplits(rate, s, a, t);
    AccruedSplits(rate, a, b, t);
    AccruedGrows(rate, s, a);
    AccruedGrows(rate, b, t);
  }

  lemma AccruedIsProduct(rate: real, s: real, t: real)
    ensures Accrued(rate, s, t) == rate * (t - s)
  {
    Commutes(t - s, rate);
  }

  lemma Commutes(x: real, y: real)
    ensures x * y == y * x
  {
  }

  /** Tokens stay between zero and the burst. */
  lemma TokensStayWithin(buckets: Buckets, limits: map<string, Limit>, key: string, now: real)
    requires Settled(buckets, limits, now) && key in limits && limits[key].rate > 0.0 && limits[key].burst >= 0.0
    ensures 0.0 <= TokensAt(buckets, key, limits[key], now) <= limits[key].burst
  {
    hide Accrued;
    if key in buckets {
      AccruedGrows(limits[key].rate, buckets[key].sampledAt, now);
    }
  }

  // ---------------------------------------------------------------- exactly which calls pass

  /** The room a window that begins with call `m` leaves before call `i`. */
  function Room(calls: seq<Call>, key: string, limit: Limit, m: nat, i: nat, now: real): real
    requires m <= i <= |calls| && m < |calls|
  {
    limit.burst + Accrued(limit.rate, calls[m].now, now) - AllowedBetween(calls, key, m, i) as real
  }

  /** One more call of another key leaves the room as it is; one of the key takes what it spends. */
  lemma RoomAfterOne(calls: seq<Call>, key: string, limit: Limit, m: nat, i: nat, now: real)
    requires m < i <= |calls|
    ensures
      var c, before := calls[i - 1], After(calls[..i - 1]);
      Room(calls, key, limit, m, i, now)
        == Room(calls, key, limit, m, i - 1, c.now) + Accrued(limit.rate, c.now, now) - Spent(before, c, key) as real
  {
    hide Accrued, Spent, After;
    AccruedSplits(limit.rate, calls[m].now, calls[i - 1].now, now);
  }

  lemma NothingSpentYet(calls: seq<Call>, key: string, limit: Limit, m: nat)
    requires m < |calls|
    ensures Room(calls, key, limit, m, m, calls[m].now) == limit.burst
  {
    hide Accrued;
    AccruedAtOnce(limit.rate, calls[m].now);
  }

  /** Between two calls a bucket either fills up or gains what its rate brings. */
  lemma TokensLater(buckets: Buckets, c: Call, key: string, limit: Limit, now: real)
    requires limit.rate > 0.0 && (c.key == key ==> c.rate == limit.rate && c.burst == limit.burst)
    ensures
      var tokens := TokensAt(Step(buckets, c), key, limit, now);
      if c.key != key then tokens == TokensAt(buckets, key, limit, now)
      else
        || tokens == limit.burst
        || tokens == TokensAt(buckets, key, limit, c.now) - Spent(buckets, c, key) as real + Accrued(limit.rate, c.now, now)
  {
    hide Accrued, Available;
    if c.key == key {
      AvailableIsTokensAt(buckets, c, limit);
    }
  }

  predicate IsTightest(calls: seq<Call>, key: string, limit: Limit, m: nat, i: nat, now: real)
    requires i <= |calls|
  {
    m < i && calls[m].key == key && TokensAt(After(calls[..i]), key, limit, now) == Room(calls, key, limit, m, i, now)
  }

  /** A bucket that is not full holds exactly the room some window of its key's calls leaves. */
  lemma {:induction false} SomeWindowIsTight(calls: seq<Call>, limits: map<string, Limit>, key: string, i: nat, now: real)
    requires KeepsLimits(calls, limits) && key in limits && limits[key].rate > 0.0 && i <= |calls|
    ensures
      || TokensAt(After(calls[..i]), key, limits[key], now) == limits[key].burst
      || exists m :: IsTightest(calls, key, limits[key], m, i, now)
    decreases i
  {
    hide TokensAt, Step, Accrued, Spent, After;
    if i == 0 {
      NothingSpentAtAll(calls, key, limits[key], now);
    } else {
      var n, limit := i - 1, limits[key];
      var c := calls[n];
      assert c in calls;
      AfterOneMore(calls, i);
      TokensLater(After(calls[..n]), c, key, limit, now);
      var at := if c.key == key then c.now else now;
      SomeWindowIsTight(calls, limits, key, n, at);
      if m :| IsTightest(calls, key, limit, m, n, at) {
        TightAfterOne(calls, key, limit, m, i, now);
      } else if c.key == key {
        RoomAfterOne(calls, key, limit, n, i, now);
        NothingSpentYet(calls, key, limit, n);
        assert TokensAt(After(calls[..i]), key, limit, now) == limit.burst || IsTightest(calls, key, limit, n, i, now);
      }
    }
  }

  lemma NothingSpentAtAll(calls: seq<Call>, key: string, limit: Limit, now: real)
    ensures TokensAt(After(calls[..0]), key, limit, now) == limit.burst
  {
  }

  lemma TightAfterOne(calls: seq<Call>, key: string, limit: Limit, m: nat, i: nat, now: real)
    requires 0 < i <= |calls| && limit.rate > 0.0
    requires
      var c := calls[i - 1];
      && (c.key == key ==> c.rate == limit.rate && c.burst == limit.burst)
      && IsTightest(calls, key, limit, m, i - 1, if c.key == key then c.now else now)
    ensures TokensAt(After(calls[..i]), key, limit, now) == limit.burst || IsTightest(calls, key, limit, m, i, now)
  {
    hide TokensAt, Step, Accrued, After, Available;
    var c := calls[i - 1];
    AfterOneMore(calls, i);
    TokensLater(After(calls[..i - 1]), c, key, limit, now);
    if c.key == key {
      RoomAfterOne(calls, key, limit, m, i, now);
    }
  }

  /** And no window of its calls leaves less. */
  lemma NoWindowIsTighter(calls: seq<Call>, limits: map<string, Limit>, key: string, m: nat, i: nat)
    requires KeepsLimits(calls, limits) && ClockRuns(calls) && key in limits && limits[key].rate > 0.0
    requires m <= i < |calls|
    ensures TokensAt(After(calls[..i]), key, limits[key], calls[i].now) <= Room(calls, key, limits[key], m, i, calls[i].now)
  {
    hide TokensAt, Accrued, After, Spent, AllowedBetween;
    var limit := limits[key];
    TokensBelowBurst(After(calls[..m]), key, limit, calls[m].now);
    if m == i {
      NothingSpentYet(calls, key, limit, m);
    } else {
      AllowedArePaidFor(calls, limits, key, m, i);
      RefillIsBounded(After(calls[..i]), key, limit, calls[i - 1].now, calls[i].now);
      AccruedSplits(limit.rate, calls[m].now, calls[i - 1].now, calls[i].now);
    }
  }

  /** Call `i` would not be one too many in the window that begins with call `m`. */
  ghost predicate FitsWindow(calls: seq<Call>, limit: Limit, m: nat, i: nat)
    requires m <= i < |calls|
  {
    (AllowedBetween(calls, calls[i].key, m, i) + 1) as real <= limit.burst + limit.rate * (calls[i].now - calls[m].now)
  }

  lemma FitsIffRoom(calls: seq<Call>, limit: Limit, m: nat, i: nat)
    requires m <= i < |calls|
    ensures FitsWindow(calls, limit, m, i) <==> Room(calls, calls[i].key, limit, m, i, calls[i].now) >= 1.0
  {
    hide AllowedBetween, Accrued;
    AccruedIsProduct(limit.rate, calls[m].now, calls[i].now);
    var brought := limit.rate * (calls[i].now - calls[m].now);
    assert FitsWindow(calls, limit, m, i) <==> (AllowedBetween(calls, calls[i].key, m, i) + 1) as real <= limit.burst + brought;
  }

  /**
   Exactly which calls pass, over every run: a call passes if and only if in no window
   that begins with a call of its key (itself included) it would be more than `burst`
   plus what the rate brought since. Without a rate every call passes.
   */
  lemma PassesIff(calls: seq<Call>, limits: map<string, Limit>, i: nat)
    requires KeepsLimits(calls, limits) && ClockRuns(calls) && i < |calls|
    ensures
      Decide(After(calls[..i]), calls[i]) == Allowed <==>
        || calls[i].rate <= 0.0
        || forall m | 0 <= m <= i && calls[m].key == calls[i].key :: FitsWindow(calls, limits[calls[i].key], m, i)
  {
    hide After, TokensAt, Available, AllowedBetween, FitsWindow, ClockRuns;
    var c := calls[i];
    assert c in calls;
    if c.rate > 0.0 {
      var key, limit := c.key, limits[c.key];
      AvailableIsTokensAt(After(calls[..i]), c, limit);
      forall m | 0 <= m <= i && calls[m].key == key ensures Available(After(calls[..i]), c) >= 1.0 ==> FitsWindow(calls, limit, m, i) {
        NoWindowIsTighter(calls, limits, key, m, i);
        FitsIffRoom(calls, limit, m, i);
      }
      SomeWindowIsTight(calls, limits, key, i, c.now);
      if m :| IsTightest(calls, key, limit, m, i, c.now) {
        FitsIffRoom(calls, limit, m, i);
      } else {
        NothingSpentYet(calls, key, limit, i);
        FitsIffRoom(calls, limit, i, i);
      }
    }
  }

  /** Calls of `key` among `calls[i..j]`. */
  function CallsOf(calls: seq<Call>, key: string, i: nat, j: nat): nat
    requires i <= j <= |calls|
    decreases j - i
  {
    if i == j then 0 else CallsOf(calls, key, i, j - 1) + if calls[j - 1].key == key then 1 else 0
  }

  lemma {:induction false} FewerAreAllowed(calls: seq<Call>, key: string, i: nat, m: nat, j: nat)
    requires i <= m <= j <= |calls|
    ensures AllowedBetween(calls, key, m, j) <= CallsOf(calls, key, i, j)
    decreases j - m
  {
    hide After, Decide;
    if m < j {
      FewerAreAllowed(calls, key, i, m, j - 1);
    }
  }

  lemma FewFitAnyWindow(calls: seq<Call>, limits: map<string, Limit>, m: nat, i: nat)
    requires KeepsLimits(calls, limits) && ClockRuns(calls) && m <= i < |calls| && calls[i].rate > 0.0
    requires CallsOf(calls, calls[i].key, 0, i) as real + 1.0 <= calls[i].burst
    ensures calls[i].key in limits && FitsWindow(calls, limits[calls[i].key], m, i)
  {
    hide AllowedBetween, CallsOf, Accrued, FitsWindow;
    var c := calls[i];
    assert c in calls;
    FewerAreAllowed(calls, c.key, 0, m, i);
    AccruedGrows(c.rate, calls[m].now, c.now);
    FitsIffRoom(calls, limits[c.key], m, i);
  }

  /** The first `floor(burst)` calls of a key pass, even all at one instant. */
  lemma FirstBurstPasses(calls: seq<Call>, limits: map<string, Limit>, i: nat)
    requires KeepsLimits(calls, limits) && ClockRuns(calls) && i < |calls|
    requires CallsOf(calls, calls[i].key, 0, i) as real + 1.0 <= calls[i].burst
    ensures Decide(After(calls[..i]), calls[i]) == Allowed
  {
    hide After, AllowedBetween, CallsOf, Decide;
    var c := calls[i];
    assert c in calls;
    PassesIff(calls, limits, i);
    forall m | 0 <= m <= i && c.rate > 0.0 ensures FitsWindow(calls, limits[c.key], m, i) {
      FewFitAnyWindow(calls, limits, m, i);
    }
  }

  // ---------------------------------------------------------------- retry_after

  /**
   A call made `wait` after a refusal, with none of its key in between, passes exactly when
   the bucket can hold a token at all and `wait` is at least `retry_after`.
   */
  lemma RetryAfterIsExact(buckets: Buckets, c: Call, wait: real)
    requires c.rate > 0.0 && Decide(buckets, c).Limited?
    ensures
      var again := c.(now := c.now + wait);
      Decide(Step(buckets, c), again) == Allowed <==> c.burst >= 1.0 && wait >= Decide(buckets, c).retryAfter
  {
    hide Accrued, Available;
    var tokens := Available(buckets, c);
    var again := c.(now := c.now + wait);
    var due := c.now + (1.0 - tokens) / c.rate;
    assert Step(buckets, c)[c.key] == Bucket(tokens, c.now, c.rate, c.burst);
    FoundInBucket(Step(buckets, c), again);
    AccruedByWaiting(c.rate, c.now, 1.0 - tokens);
    AccruedSplits(c.rate, c.now, due, again.now);
    AccruedSign(c.rate, due, again.now);
  }

  lemma AccruedSign(rate: real, from: real, to: real)
    requires rate > 0.0
    ensures Accrued(rate, from, to) >= 0.0 <==> to >= from
  {
    if to < from {
      AccruedBackwards(from - to, rate);
      assert Accrued(rate, from, to) == -((from - to) * rate) by { NegatedFactor(from - to, rate); }
    } else {
      AccruedGrows(rate, from, to);
    }
  }

  lemma AccruedBackwards(x: real, y: real)
    requires x > 0.0 && y > 0.0
    ensures x * y > 0.0
  {
  }

  lemma NegatedFactor(x: real, y: real)
    ensures (-x) * y == -(x * y)
  {
  }

  lemma FoundInBucket(buckets: Buckets, c: Call)
    requires c.key in buckets
    ensures Available(buckets, c) == Min(c.burst, buckets[c.key].tokens + Accrued(c.rate, buckets[c.key].sampledAt, c.now))
  {
    hide Accrued;
  }

  // ---------------------------------------------------------------- the in-process limiter

  class LocalRateLimiter {
    var buckets: Buckets

    constructor ()
      ensures buckets == map[]
    {
      buckets := map[];
    }

    /** The opportunistic GC: `retain` what has not fully refilled by its own parameters. */
    method Collect(now: real)
      modifies this
      ensures buckets == old(buckets) - Collected(old(buckets), now)
    {
      if |buckets| > GC_THRESHOLD {
        buckets := map k | k in buckets
                           && buckets[k].tokens + (now - buckets[k].sampledAt) * buckets[k].rate < buckets[k].burst
                         :: buckets[k];
      }
    }

    /** `check`: collect, take the entry or a full one, refill, take a token, store. */
    method Check(c: Call) returns (decision: Decision)
      modifies this
      ensures
        var drop := LocalDrop(old(buckets), c);
        && decision == Decide(old(buckets) - drop, c)
        && buckets == Step(old(buckets) - drop, c)
    {
      hide Collected;
      if c.rate <= 0.0 {
        assert buckets - {} == buckets;
        return Allowed;
      }
      Collect(c.now);
      if c.key !in buckets {
        buckets := buckets[c.key := Bucket(c.burst, c.now, c.rate, c.burst)];
      }
      var bucket := buckets[c.key];
      var tokens := Min(c.burst, bucket.tokens + (c.now - bucket.sampledAt) * c.rate);
      assert tokens == Available(old(buckets) - Collected(old(buckets), c.now), c);
      hide Available;
      if tokens >= 1.0 {
        tokens := tokens - 1.0;
        decision := Allowed;
      } else {
        decision := Limited((1.0 - tokens) / c.rate);
      }
      buckets := buckets[c.key := Bucket(tokens, c.now, c.rate, c.burst)];
    }
  }

  // ---------------------------------------------------------------- the Redis script

  /** A stored hash and the instant, in milliseconds, at which it expires. */
  datatype Hash = Hash(tokens: real, ts: real, expiresAt: real)

  function Ceil(x: real): int {
    -((-x).Floor)
  }

  /** `math.ceil(burst / rate * 2000)`. */
  function TimeToLive(rate: real, burst: real): int
    requires rate > 0.0
  {
    Ceil(burst / rate * 2000.0)
  }

  class ScriptStore {
    var hashes: map<string, Hash>

    constructor ()
      ensures hashes == map[]
    {
      hashes := map[];
    }

    /** The token bucket script, on the store's own clock (in seconds). */
    method Eval(c: Call) returns (decision: Decision)
      requires c.rate > 0.0
      modifies this
      ensures
        && decision == Decide(Visible(old(hashes), c), c)
        && hashes == ScriptStep(old(hashes), c)
    {
      var tokens, ts := c.burst, c.now;
      if c.key in hashes && c.now * 1000.0 < hashes[c.key].expiresAt {
        tokens, ts := hashes[c.key].tokens, hashes[c.key].ts;
      }
      tokens := Min(c.burst, tokens + (c.now - ts) * c.rate);
      assert tokens == Available(Visible(hashes, c), c) by { AccruedAtOnce(c.rate, c.now); }
      if tokens >= 1.0 {
        tokens := tokens - 1.0;
        decision := Allowed;
      } else {
        decision := Limited((1.0 - tokens) / c.rate);
      }
      hide Available, TimeToLive;
      hashes := hashes[c.key := Hash(tokens, c.now, c.now * 1000.0 + TimeToLive(c.rate, c.burst) as real)];
    }
  }

  /** What the script sees of its key: nothing, once the key has expired. */
  function Visible(hashes: map<string, Hash>, c: Call): Buckets {
    if c.key in hashes && c.now * 1000.0 < hashes[c.key].expiresAt
    then map[c.key := Bucket(hashes[c.key].tokens, hashes[c.key].ts, c.rate, c.burst)] else map[]
  }

  lemma CeilIsAbove(x: real)
    ensures Ceil(x) as real >= x
  {
  }

  lemma RefillTime(rate: real, burst: real)
    requires rate > 0.0 && burst >= 0.0
    ensures burst / rate >= 0.0
  {
  }

  /** The expiry leaves time for two refills. */
  lemma ExpiryIsLate(ts: real, rate: real, burst: real, now: real)
    requires rate > 0.0 && burst >= 0.0
    requires now * 1000.0 >= ts * 1000.0 + TimeToLive(rate, burst) as real
    ensures now >= ts + burst / rate
  {
    hide Ceil;
    CeilIsAbove(burst / rate * 2000.0);
    RefillTime(rate, burst);
  }

  /** The script's clock for a key: two whole refills, rounded up to the millisecond. */
  lemma ExpiryIsTwoRefills(rate: real, burst: real)
    requires rate > 0.0
    ensures 2_000.0 * (burst / rate) <= TimeToLive(rate, burst) as real < 2_000.0 * (burst / rate) + 1.0
  {
  }

  /** An expired hash stood for a full bucket: two refills have passed. */
  lemma ExpiredMeansFull(hash: Hash, rate: real, burst: real, now: real)
    requires rate > 0.0 && 0.0 <= hash.tokens <= burst
    requires hash.expiresAt == hash.ts * 1000.0 + TimeToLive(rate, burst) as real
    requires now * 1000.0 >= hash.expiresAt
    ensures FullAgain(Bucket(hash.tokens, hash.ts, rate, burst), now)
  {
    hide Accrued, TimeToLive;
    ExpiryIsLate(hash.ts, rate, burst, now);
    AccruedByWaiting(rate, hash.ts, burst);
    AccruedGrows(rate, hash.ts + burst / rate, now);
    AccruedSplits(rate, hash.ts, hash.ts + burst / rate, now);
  }

  function ScriptStep(hashes: map<string, Hash>, c: Call): map<string, Hash> {
    if c.rate <= 0.0 then hashes
    else
      hashes[c.key := Hash(Left(Available(Visible(hashes, c), c)), c.now,
                           c.now * 1000.0 + TimeToLive(c.rate, c.burst) as real)]
  }

  /** The stored hashes are the ideal buckets, with their expiry. */
  predicate Mirrors(hashes: map<string, Hash>, ideal: Buckets) {
    && hashes.Keys == ideal.Keys
    && forall k | k in hashes ::
         && ideal[k].rate > 0.0
         && hashes[k] == Hash(ideal[k].tokens, ideal[k].sampledAt,
                              ideal[k].sampledAt * 1000.0 + TimeToLive(ideal[k].rate, ideal[k].burst) as real)
  }

  /** An expired key reads as a full bucket, which is what it stood for. */
  lemma ExpiryDoesNotShow(hashes: map<string, Hash>, ideal: Buckets, limits: map<string, Limit>, now: real, c: Call)
    requires Mirrors(hashes, ideal) && Settled(ideal, limits, now) && now <= c.now
    requires c.key in limits && c.rate == limits[c.key].rate && c.burst == limits[c.key].burst && c.rate > 0.0
    ensures Available(Visible(hashes, c), c) == Available(ideal, c)
  {
    hide TimeToLive, FullAgain, Available;
    if c.key in ideal && c.now * 1000.0 >= hashes[c.key].expiresAt {
      ExpiredMeansFull(hashes[c.key], c.rate, c.burst, c.now);
    }
    ForgottenIsFull(ideal, Visible(hashes, c), c);
  }

  function ScriptAfter(calls: seq<Call>): map<string, Hash> {
    if calls == [] then map[] else ScriptStep(ScriptAfter(calls[..|calls| - 1]), calls[|calls| - 1])
  }

  lemma {:induction false} ScriptMirrorsIdeal(calls: seq<Call>, limits: map<string, Limit>)
    requires KeepsLimits(calls, limits) && ClockRuns(calls)
    ensures Mirrors(ScriptAfter(calls), After(calls))
  {
    if calls != [] {
      var n := |calls| - 1;
      var c := calls[n];
      PrefixRuns(calls, limits, n);
      ScriptMirrorsIdeal(calls[..n], limits);
      RunsStaySettled(calls[..n], limits, c.now);
      assert c in calls;
      if c.rate > 0.0 {
        ExpiryDoesNotShow(ScriptAfter(calls[..n]), After(calls[..n]), limits, ClockAfter(calls[..n], c.now), c);
      }
    }
  }

  /** The script with its two-refill expiry decides every call of every run as the ideal limiter does. */
  lemma ScriptIsIdeal(calls: seq<Call>, limits: map<string, Limit>, i: nat)
    requires KeepsLimits(calls, limits) && ClockRuns(calls) && i < |calls| && calls[i].rate > 0.0
    ensures Decide(Visible(ScriptAfter(calls[..i]), calls[i]), calls[i]) == Decide(After(calls[..i]), calls[i])
  {
    hide Visible, ScriptAfter, After, Available;
    var c := calls[i];
    PrefixRuns(calls, limits, i);
    ScriptMirrorsIdeal(calls[..i], limits);
    RunsStaySettled(calls[..i], limits, c.now);
    assert c in calls;
    ExpiryDoesNotShow(ScriptAfter(calls[..i]), After(calls[..i]), limits, ClockAfter(calls[..i], c.now), c);
  }
}
