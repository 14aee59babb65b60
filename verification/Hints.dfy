/**
 Hint tokens: the notification ids a hint announces travel from the create (or the
 deliver job) through coalescing and deferral to the `delivered_hint` log.
 */
module Hints {
  import opened Wrappers
  import opened InboxState
  import opened Timeline

  // ---------------------------------------------------------------- jobs that carry ids

  /** A hint's payload: `subscriber_ids` null is the whole environment. */
  datatype Payload = Payload(reason: string, targets: Option<seq<SubId>>, ids: set<NotifId>)

  datatype Carrier = Scheduled(ids: set<NotifId>) | Hint(payload: Payload)

  /** Queued and parked carriers together, the log, and who each notification is for. */
  datatype Outbox = Outbox(live: map<JobId, Carrier>, recipients: map<NotifId, SubId>, log: set<LogRow>)

  const EMPTY_OUTBOX := Outbox(map[], map[], {})

  function IdsIn(c: Carrier): set<NotifId> {
    match c
    case Scheduled(ids) => ids
    case Hint(payload) => payload.ids
  }

  /** Same reason and targets: the coalescing key is the payload without its ids. */
  predicate SameKey(c: Carrier, p: Payload) {
    c.Hint? && c.payload.reason == p.reason && c.payload.targets == p.targets
  }

  // ---------------------------------------------------------------- process_hint

  /** The pending hints absorbed by the claim of `j`: those with its key that nobody holds. */
  function Absorbable(o: Outbox, j: JobId, unlocked: set<JobId>): set<JobId>
    requires j in o.live && o.live[j].Hint?
  {
    set k | k in unlocked && k in o.live && k != j && SameKey(o.live[k], o.live[j].payload)
  }

  /** The claim's own ids and the absorbed ones, sorted and deduplicated. */
  function Gathered(o: Outbox, j: JobId, unlocked: set<JobId>): set<NotifId>
    requires j in o.live && o.live[j].Hint?
  {
    o.live[j].payload.ids + set k, id | k in Absorbable(o, j, unlocked) && id in IdsIn(o.live[k]) :: id
  }

  /** The targets whose window was free (`granted`), or was not. */
  function Those(targets: seq<SubId>, granted: seq<bool>, which: bool): (r: seq<SubId>)
    requires |granted| == |targets|
    ensures forall s :: s in r <==> exists i :: 0 <= i < |targets| && targets[i] == s && granted[i] == which
  {
    if targets == [] then []
    else
      var n := |targets| - 1;
      Those(targets[..n], granted[..n], which) + if granted[n] == which then [targets[n]] else []
  }

  /** The ids whose recipient is one of `subs`. */
  function IdsFor(recipients: map<NotifId, SubId>, ids: set<NotifId>, subs: seq<SubId>): set<NotifId> {
    set id | id in ids && id in recipients && recipients[id] in subs
  }

  /** How many debounce keys a payload tries. */
  function Attempts(p: Payload): nat {
    if p.targets.None? then 1 else |p.targets.value|
  }

  /** `process_hint`, committed together with the job's deletion or deferred payload. */
  function ProcessHint(o: Outbox, j: JobId, unlocked: set<JobId>, granted: seq<bool>, now: Time): Outbox
    requires j in o.live && o.live[j].Hint? && |granted| == Attempts(o.live[j].payload)
  {
    var p := o.live[j].payload;
    var ids := Gathered(o, j, unlocked);
    var kept := o.live - Absorbable(o, j, unlocked);
    if p.targets.None? then
      o.(live := if granted[0] then kept - {j} else kept[j := Hint(p.(ids := {}))])
    else
      var published := Those(p.targets.value, granted, true);
      var deferred := Those(p.targets.value, granted, false);
      var log := Appended(o.log, IdsFor(o.recipients, ids, published), DeliveredHint, now);
      o.(log := log,
         live := if deferred == [] then kept - {j}
                 else kept[j := Hint(Payload(p.reason, Some(deferred), IdsFor(o.recipients, ids, deferred)))])
  }

  /** The worker's object: the outbox it updates, claim by claim. */
  class HintWorker {
    var live: map<JobId, Carrier>
    var recipients: map<NotifId, SubId>
    var log: set<LogRow>

    constructor ()
      ensures State() == EMPTY_OUTBOX
    {
      live, recipients, log := map[], map[], {};
    }

    function State(): Outbox
      reads this
    {
      Outbox(live, recipients, log)
    }

    /** The loop over the targets fills `published` and `deferred`; everything commits at the end. */
    method Process(j: JobId, unlocked: set<JobId>, granted: seq<bool>, now: Time)
      requires j in live && live[j].Hint? && |granted| == Attempts(live[j].payload)
      modifies this
      ensures State() == ProcessHint(old(State()), j, unlocked, granted, now)
    {
      var p := live[j].payload;
      var ids := Gathered(State(), j, unlocked);
      live := live - Absorbable(State(), j, unlocked);
      if p.targets.None? {
        if granted[0] {
          live := live - {j};
        } else {
          live := live[j := Hint(Payload(p.reason, None, {}))];
        }
        return;
      }
      var targets := p.targets.value;
      var published, deferred := [], [];
      for i := 0 to |targets|
        invariant live == old(live) - Absorbable(old(State()), j, unlocked) && recipients == old(recipients) && log == old(log)
        invariant published == Those(targets[..i], granted[..i], true)
        invariant deferred == Those(targets[..i], granted[..i], false)
      {
        assert targets[..i + 1][..i] == targets[..i] && granted[..i + 1][..i] == granted[..i];
        if granted[i] {
          published := published + [targets[i]];
        } else {
          deferred := deferred + [targets[i]];
        }
      }
      assert targets[..|targets|] == targets && granted[..|targets|] == granted;
      log := Appended(log, IdsFor(recipients, ids, published), DeliveredHint, now);
      if deferred == [] {
        live := live - {j};
        return;
      }
      var remaining := IdsFor(recipients, ids, deferred);
      live := live[j := Hint(Payload(p.reason, Some(deferred), remaining))];
    }
  }

  // ---------------------------------------------------------------- tokens

  /** No id rides in two live jobs, and only known notifications ride at all. */
  predicate OneCarrierEach(o: Outbox) {
    && (forall j, k | j in o.live && k in o.live && j != k :: IdsIn(o.live[j]) !! IdsIn(o.live[k]))
    && (forall j | j in o.live :: IdsIn(o.live[j]) <= o.recipients.Keys)
  }

  predicate CarriedBy(o: Outbox, j: JobId, id: NotifId) {
    j in o.live && id in IdsIn(o.live[j])
  }

  predicate IsTarget(o: Outbox, p: Payload, id: NotifId) {
    id in o.recipients && p.targets.Some? && o.recipients[id] in p.targets.value
  }

  /** Every carrier of `o'` other than `j` is one of `o`; `j` carries no more than was gathered. */
  lemma HintKeepsTokens(o: Outbox, j: JobId, unlocked: set<JobId>, granted: seq<bool>, now: Time)
    requires OneCarrierEach(o)
    requires j in o.live && o.live[j].Hint? && |granted| == Attempts(o.live[j].payload)
    ensures OneCarrierEach(ProcessHint(o, j, unlocked, granted, now))
  {
    hide Appended, Those;
    var o' := ProcessHint(o, j, unlocked, granted, now);
    var gathered := Gathered(o, j, unlocked);
    assert j in o'.live ==> IdsIn(o'.live[j]) <= gathered;
    forall k | k in o'.live && k != j ensures k in o.live && o'.live[k] == o.live[k] && IdsIn(o.live[k]) !! gathered {
      assert k !in Absorbable(o, j, unlocked);
    }
  }

  /**
   What becomes of a token: each own or absorbed id ends in the log or in the deferred
   payload of the same job exactly when it was logged already or its recipient is a
   target, whatever the debounce answers and whichever duplicates are locked.
   */
  lemma TokenSurvivesIff(o: Outbox, j: JobId, unlocked: set<JobId>, granted: seq<bool>, now: Time, id: NotifId)
    requires j in o.live && o.live[j].Hint? && |granted| == Attempts(o.live[j].payload)
    requires OncePerStatus(o.log) && id in Gathered(o, j, unlocked)
    ensures
      var o' := ProcessHint(o, j, unlocked, granted, now);
      Has(o'.log, id, DeliveredHint) || CarriedBy(o', j, id) <==>
        Has(o.log, id, DeliveredHint) || IsTarget(o, o.live[j].payload, id)
  {
    hide Appended, Has;
    var p := o.live[j].payload;
    if p.targets.Some? {
      var published := Those(p.targets.value, granted, true);
      var deferred := Those(p.targets.value, granted, false);
      AppendKeepsTheLog(o.log, IdsFor(o.recipients, Gathered(o, j, unlocked), published), DeliveredHint, now);
      if IsTarget(o, p, id) {
        var i :| 0 <= i < |p.targets.value| && p.targets.value[i] == o.recipients[id];
        assert granted[i] || !granted[i];
      }
    }
  }

  /** Some position of this target got this answer from the debouncer. */
  predicate Answered(targets: seq<SubId>, granted: seq<bool>, s: SubId, which: bool)
    requires |granted| == |targets|
  {
    exists i :: 0 <= i < |targets| && targets[i] == s && granted[i] == which
  }

  /**
   Where each gathered id goes: into the log exactly with a target just published to, and
   into the deferred payload exactly with a target that was refused.
   */
  lemma TokenGoesWithItsTarget(o: Outbox, j: JobId, unlocked: set<JobId>, granted: seq<bool>, now: Time, id: NotifId)
    requires j in o.live && o.live[j].Hint? && o.live[j].payload.targets.Some?
    requires |granted| == |o.live[j].payload.targets.value|
    requires OncePerStatus(o.log) && id in Gathered(o, j, unlocked)
    ensures
      var o' := ProcessHint(o, j, unlocked, granted, now);
      var targets := o.live[j].payload.targets.value;
      && (Has(o'.log, id, DeliveredHint) <==>
            Has(o.log, id, DeliveredHint) || (id in o.recipients && Answered(targets, granted, o.recipients[id], true)))
      && (CarriedBy(o', j, id) <==> id in o.recipients && Answered(targets, granted, o.recipients[id], false))
      && (forall r | r in o'.log && r !in o.log :: r.at == now)
  {
    hide Appended, Has;
    var p := o.live[j].payload;
    var published := Those(p.targets.value, granted, true);
    var ids := IdsFor(o.recipients, Gathered(o, j, unlocked), published);
    AppendKeepsTheLog(o.log, ids, DeliveredHint, now);
    NewRowsCarryTheTime(o.log, ids, now);
  }

  lemma NewRowsCarryTheTime(log: set<LogRow>, ids: set<NotifId>, now: Time)
    ensures forall r | r in Appended(log, ids, DeliveredHint, now) && r !in log :: r.at == now
  {
  }

  // ---------------------------------------------------------------- targets

  /** One subscriber, or none for the whole environment. */
  type Audience = Option<SubId>

  /** Who a payload addresses. */
  predicate Reaches(p: Payload, audience: Audience) {
    if audience.None? then p.targets.None? else p.targets.Some? && audience.value in p.targets.value
  }

  /** The answer a claim of `p` got for this audience: published to it, or refused. */
  predicate Got(p: Payload, granted: seq<bool>, audience: Audience, which: bool)
    requires |granted| == Attempts(p)
  {
    if audience.None? then p.targets.None? && granted[0] == which
    else p.targets.Some? && Answered(p.targets.value, granted, audience.value, which)
  }

  /** A live hint of this reason is still to be published to the audience. */
  predicate AddressedBy(o: Outbox, j: JobId, reason: string, audience: Audience) {
    j in o.live && o.live[j].Hint? && o.live[j].payload.reason == reason && Reaches(o.live[j].payload, audience)
  }

  /**
   What a claim leaves of its job: it addresses exactly the audiences that were refused, for
   the same reason, and the job is gone exactly when none was.
   */
  lemma RefusedStayAddressed(o: Outbox, j: JobId, unlocked: set<JobId>, granted: seq<bool>, now: Time, audience: Audience)
    requires j in o.live && o.live[j].Hint? && |granted| == Attempts(o.live[j].payload)
    ensures
      var p, o' := o.live[j].payload, ProcessHint(o, j, unlocked, granted, now);
      && (AddressedBy(o', j, p.reason, audience) <==> Got(p, granted, audience, false))
      && (j !in o'.live <==> forall i | 0 <= i < |granted| :: granted[i])
      && (j in o'.live ==> o'.live[j].Hint? && o'.live[j].payload.reason == p.reason)
  {
    hide Appended, IdsFor, Gathered;
    var p := o.live[j].payload;
    if p.targets.Some? {
      var targets := p.targets.value;
      var deferred := Those(targets, granted, false);
      EmptyHasNothing(deferred);
      if i :| 0 <= i < |granted| && !granted[i] {
        assert targets[i] in deferred;
      }
    }
  }

  lemma EmptyHasNothing(q: seq<SubId>)
    ensures q == [] <==> !exists s :: s in q
  {
    assert q == [] || q[0] in q;
  }

  /**
   Coalescing: of the other jobs exactly the unlocked hints of the same reason and targets
   are gone, and what they would have published their absorber answers for.
   */
  lemma DuplicatesAreAbsorbed(o: Outbox, j: JobId, unlocked: set<JobId>, granted: seq<bool>, now: Time, k: JobId)
    requires j in o.live && o.live[j].Hint? && |granted| == Attempts(o.live[j].payload)
    requires k in o.live && k != j
    ensures
      var p, o' := o.live[j].payload, ProcessHint(o, j, unlocked, granted, now);
      var duplicate := o.live[k].Hint? && o.live[k].payload.reason == p.reason && o.live[k].payload.targets == p.targets;
      && (k in o'.live <==> !(duplicate && k in unlocked))
      && (k in o'.live ==> o'.live[k] == o.live[k])
      && (duplicate && k in unlocked ==> forall id | id in o.live[k].payload.ids :: id in Gathered(o, j, unlocked))
  {
    hide Those, Appended;
    assert k in Absorbable(o, j, unlocked) ==> forall id | id in IdsIn(o.live[k]) :: id in Gathered(o, j, unlocked);
  }

  // ---------------------------------------------------------------- runs

  /**
   What touches carriers and the log. Deliver chunks, failures, parking and replays move
   a job between tables or advance its cursor; it stays live with the same ids.
   */
  datatype Step =
    | CreateNow(recipients: seq<SubId>, ids: seq<NotifId>, job: JobId)
    | CreateLater(recipients: seq<SubId>, ids: seq<NotifId>, job: JobId)
    | FinishDeliver(j: JobId, targets: seq<SubId>, job: JobId)
    | Announce(reason: string, targets: seq<SubId>, job: JobId)
    | Claim(j: JobId, unlocked: set<JobId>, granted: seq<bool>, now: Time)
    | MoveTo(moved: set<NotifId>, dst: SubId)

  function SetOf<T>(q: seq<T>): set<T> {
    set x | x in q
  }

  /** `enqueue_hint`: no subscribers means the whole environment. */
  function Enqueued(reason: string, targets: seq<SubId>, ids: set<NotifId>): Carrier {
    Hint(Payload(reason, if targets == [] then None else Some(targets), ids))
  }

  function Inserted(recipients: map<NotifId, SubId>, ids: seq<NotifId>, subs: seq<SubId>): (r: map<NotifId, SubId>)
    requires |ids| == |subs|
    ensures r.Keys == recipients.Keys + SetOf(ids)
    ensures forall id | id in recipients && id !in ids :: r[id] == recipients[id]
    ensures forall id | id in ids :: r[id] in subs
  {
    if ids == [] then recipients
    else
      var n := |ids| - 1;
      Inserted(recipients, ids[..n], subs[..n])[ids[n] := subs[n]]
  }

  predicate Enabled(o: Outbox, step: Step) {
    match step
    case CreateNow(subs, ids, job) =>
      |ids| == |subs| && (forall id | id in ids :: id !in o.recipients) && job !in o.live
    case CreateLater(subs, ids, job) =>
      |ids| == |subs| && (forall id | id in ids :: id !in o.recipients) && job !in o.live
    case FinishDeliver(j, targets, job) =>
      // The distinct recipients of the job's rows, in whatever order the query returns them.
      && j in o.live && o.live[j].Scheduled? && job !in o.live
      && SetOf(targets) == set id | id in IdsIn(o.live[j]) && id in o.recipients :: o.recipients[id]
    case Announce(_, _, job) => job !in o.live
    case Claim(j, _, granted, _) =>
      j in o.live && o.live[j].Hint? && |granted| == Attempts(o.live[j].payload)
    case MoveTo(_, _) => true
  }

  function Next(o: Outbox, step: Step): Outbox
    requires Enabled(o, step)
  {
    match step
    case CreateNow(subs, ids, job) =>
      o.(recipients := Inserted(o.recipients, ids, subs), live := o.live[job := Enqueued("notification", subs, SetOf(ids))])
    case CreateLater(subs, ids, job) =>
      o.(recipients := Inserted(o.recipients, ids, subs), live := o.live[job := Scheduled(SetOf(ids))])
    case FinishDeliver(j, targets, job) =>
      o.(live := (o.live - {j})[job := Enqueued("notification", targets, IdsIn(o.live[j]))])
    case Announce(reason, targets, job) => o.(live := o.live[job := Enqueued(reason, targets, {})])
    case Claim(j, unlocked, granted, now) => ProcessHint(o, j, unlocked, granted, now)
    case MoveTo(ids, dst) =>
      o.(recipients := map id | id in o.recipients :: if id in ids then dst else o.recipients[id])
  }

  function After(steps: seq<Step>): Outbox {
    if steps == [] then EMPTY_OUTBOX
    else
      var o := After(steps[..|steps| - 1]);
      if Enabled(o, steps[|steps| - 1]) then Next(o, steps[|steps| - 1]) else o
  }

  lemma StepKeepsTokens(o: Outbox, step: Step)
    requires OneCarrierEach(o) && OncePerStatus(o.log) && Enabled(o, step)
    ensures OneCarrierEach(Next(o, step)) && OncePerStatus(Next(o, step).log)
  {
    hide ProcessHint, OncePerStatus;
    match step
    case Claim(j, unlocked, granted, now) =>
      HintKeepsTokens(o, j, unlocked, granted, now);
      HintAppends(o, j, unlocked, granted, now);
    case _ =>
  }

  lemma HintAppends(o: Outbox, j: JobId, unlocked: set<JobId>, granted: seq<bool>, now: Time)
    requires j in o.live && o.live[j].Hint? && |granted| == Attempts(o.live[j].payload) && OncePerStatus(o.log)
    ensures
      var o' := ProcessHint(o, j, unlocked, granted, now);
      && OncePerStatus(o'.log) && o'.recipients == o.recipients
      && forall id | Has(o.log, id, DeliveredHint) :: Has(o'.log, id, DeliveredHint)
  {
  }

  /** In every reachable state an id rides in at most one live job and is logged at most once. */
  lemma {:induction false} TokensNeverSplit(steps: seq<Step>)
    ensures OneCarrierEach(After(steps)) && OncePerStatus(After(steps).log)
  {
    if steps != [] {
      var o, step := After(steps[..|steps| - 1]), steps[|steps| - 1];
      TokensNeverSplit(steps[..|steps| - 1]);
      if Enabled(o, step) {
        StepKeepsTokens(o, step);
      }
    }
  }

  // ---------------------------------------------------------------- nothing is lost

  /** A live job will still announce `id` to its recipient. */
  predicate CarriesFor(o: Outbox, j: JobId, id: NotifId) {
    CarriedBy(o, j, id) && (o.live[j].Hint? ==> IsTarget(o, o.live[j].payload, id))
  }

  /** Announced, or still to be. */
  predicate Accounted(o: Outbox, id: NotifId) {
    Has(o.log, id, DeliveredHint) || exists j | j in o.live :: CarriesFor(o, j, id)
  }

  lemma ClaimKeepsAccounts(o: Outbox, j: JobId, unlocked: set<JobId>, granted: seq<bool>, now: Time, id: NotifId)
    requires OncePerStatus(o.log) && Accounted(o, id)
    requires j in o.live && o.live[j].Hint? && |granted| == Attempts(o.live[j].payload)
    ensures Accounted(ProcessHint(o, j, unlocked, granted, now), id)
  {
    var o' := ProcessHint(o, j, unlocked, granted, now);
    HintAppends(o, j, unlocked, granted, now);
    if !Has(o.log, id, DeliveredHint) {
      var k :| k in o.live && CarriesFor(o, k, id);
      if k == j || k in Absorbable(o, j, unlocked) {
        assert id in Gathered(o, j, unlocked) && IsTarget(o, o.live[j].payload, id);
        TokenSurvivesIff(o, j, unlocked, granted, now, id);
        assert Has(o'.log, id, DeliveredHint) || CarriesFor(o', j, id);
      } else {
        assert CarriesFor(o', k, id);
      }
    }
  }

  lemma StepKeepsAccounts(o: Outbox, step: Step, id: NotifId)
    requires OneCarrierEach(o) && OncePerStatus(o.log) && Enabled(o, step) && !step.MoveTo?
    requires id in o.recipients ==> Accounted(o, id)
    requires id in Next(o, step).recipients
    ensures Accounted(Next(o, step), id)
  {
    hide ProcessHint, OncePerStatus, Has, OneCarrierEach, Inserted;
    var o' := Next(o, step);
    match step
    case Claim(j, unlocked, granted, now) =>
      HintAppends(o, j, unlocked, granted, now);
      ClaimKeepsAccounts(o, j, unlocked, granted, now, id);
    case CreateNow(_, ids, job) =>
      if id in ids {
        assert CarriesFor(o', job, id);
      } else {
        StillCarried(o, o', id);
      }
    case CreateLater(_, ids, job) =>
      if id in ids {
        assert CarriesFor(o', job, id);
      } else {
        StillCarried(o, o', id);
      }
    case FinishDeliver(j, targets, job) =>
      if id in IdsIn(o.live[j]) {
        assert o.recipients[id] in SetOf(targets);
        assert CarriesFor(o', job, id);
      } else if k :| k in o.live && CarriesFor(o, k, id) {
        assert CarriesFor(o', k, id);
      }
    case Announce(_, _, _) => StillCarried(o, o', id);
  }

  lemma StillCarried(o: Outbox, o': Outbox, id: NotifId)
    requires Accounted(o, id) && o'.log == o.log && id in o.recipients
    requires id in o'.recipients && o'.recipients[id] == o.recipients[id]
    requires forall k | k in o.live :: k in o'.live && o'.live[k] == o.live[k]
    ensures Accounted(o', id)
  {
  }

  /** A move that takes `id` to somebody its unpublished hint is not addressed to. */
  predicate MovesAway(o: Outbox, step: Step, id: NotifId) {
    && step.MoveTo? && id in step.moved && id in o.recipients && !Has(o.log, id, DeliveredHint)
    && exists j | j in o.live ::
         CarriedBy(o, j, id) && o.live[j].Hint? && !Addresses(o.live[j].payload, step.dst)
  }

  predicate Addresses(p: Payload, s: SubId) {
    p.targets.Some? && s in p.targets.value
  }

  predicate NeverMovedAway(steps: seq<Step>, id: NotifId) {
    steps == [] ||
    var init := steps[..|steps| - 1];
    NeverMovedAway(init, id) && !MovesAway(After(init), steps[|steps| - 1], id)
  }

  lemma MoveKeepsAccounts(o: Outbox, step: Step, id: NotifId)
    requires step.MoveTo? && id in o.recipients && Accounted(o, id) && !MovesAway(o, step, id)
    ensures Accounted(Next(o, step), id)
  {
    if !Has(o.log, id, DeliveredHint) {
      var j :| j in o.live && CarriesFor(o, j, id);
      assert CarriesFor(Next(o, step), j, id);
    }
  }

  /**
   As long as no notification is moved away from an addressed, unpublished hint, every one
   is announced or still to be. Moves before the hint is addressed, between its targets and
   after its publication are all harmless.
   */
  lemma {:induction false} NothingIsLost(steps: seq<Step>, id: NotifId)
    requires NeverMovedAway(steps, id) && id in After(steps).recipients
    ensures Accounted(After(steps), id)
  {
    hide Accounted, MovesAway, Next, Enabled;
    if steps != [] {
      var init, step := steps[..|steps| - 1], steps[|steps| - 1];
      var o := After(init);
      TokensNeverSplit(init);
      if id in o.recipients {
        NothingIsLost(init, id);
      }
      if Enabled(o, step) {
        if step.MoveTo? {
          MovesAreNoArrivals(o, step, id);
          MoveKeepsAccounts(o, step, id);
        } else {
          StepKeepsAccounts(o, step, id);
        }
      }
    }
  }

  lemma MovesAreNoArrivals(o: Outbox, step: Step, id: NotifId)
    requires step.MoveTo? && Enabled(o, step) && id in Next(o, step).recipients
    ensures id in o.recipients
  {
  }

  // ---------------------------------------------------------------- nobody is forgotten

  /** A step that announces something for this reason to this audience. */
  predicate Announces(o: Outbox, step: Step, reason: string, audience: Audience) {
    Enabled(o, step) &&
    match step
    case CreateNow(subs, _, _) => reason == "notification" && IsFor(subs, audience)
    case FinishDeliver(j, _, _) =>
      reason == "notification"
      && if audience.None? then IdsIn(o.live[j]) == {}
         else exists id :: id in IdsIn(o.live[j]) && id in o.recipients && o.recipients[id] == audience.value
    case Announce(r, subs, _) => reason == r && IsFor(subs, audience)
    case _ => false
  }

  /** No subscriber listed means everybody. */
  predicate IsFor(subs: seq<SubId>, audience: Audience) {
    if audience.None? then subs == [] else audience.value in subs
  }

  /** A claim that publishes for this reason to this audience. */
  predicate Publishes(o: Outbox, step: Step, reason: string, audience: Audience) {
    && step.Claim? && Enabled(o, step)
    && o.live[step.j].payload.reason == reason && Got(o.live[step.j].payload, step.granted, audience, true)
  }

  /** Somebody live still has to publish to the audience. */
  predicate StillAddressed(o: Outbox, reason: string, audience: Audience) {
    exists j | j in o.live :: AddressedBy(o, j, reason, audience)
  }

  lemma AnnouncedIsAddressed(o: Outbox, step: Step, reason: string, audience: Audience)
    requires OneCarrierEach(o) && Announces(o, step, reason, audience)
    ensures StillAddressed(Next(o, step), reason, audience)
  {
    if step.FinishDeliver? {
      DeliverTargets(o, step.j, step.targets, audience);
    }
    assert AddressedBy(Next(o, step), step.job, reason, audience);
  }

  lemma DeliverTargets(o: Outbox, j: JobId, targets: seq<SubId>, audience: Audience)
    requires OneCarrierEach(o) && j in o.live
    requires SetOf(targets) == set id | id in IdsIn(o.live[j]) && id in o.recipients :: o.recipients[id]
    ensures IsFor(targets, audience) <==>
              if audience.None? then IdsIn(o.live[j]) == {}
              else exists id :: id in IdsIn(o.live[j]) && id in o.recipients && o.recipients[id] == audience.value
  {
    if audience.None? {
      assert targets == [] || targets[0] in SetOf(targets);
      forall id | id in IdsIn(o.live[j]) ensures id in o.recipients && o.recipients[id] in SetOf(targets) {
      }
    } else {
      assert audience.value in targets <==> audience.value in SetOf(targets);
    }
  }

  lemma ClaimKeepsAddressed(o: Outbox, step: Step, reason: string, audience: Audience)
    requires step.Claim? && Enabled(o, step) && StillAddressed(o, reason, audience)
    ensures StillAddressed(Next(o, step), reason, audience) || Publishes(o, step, reason, audience)
  {
    hide ProcessHint, Those;
    var k :| k in o.live && AddressedBy(o, k, reason, audience);
    var j, p := step.j, o.live[step.j].payload;
    RefusedStayAddressed(o, j, step.unlocked, step.granted, step.now, audience);
    if k != j {
      DuplicatesAreAbsorbed(o, j, step.unlocked, step.granted, step.now, k);
    }
    if k != j && k in Next(o, step).live {
      assert AddressedBy(Next(o, step), k, reason, audience);
    } else {
      assert p.reason == reason && Reaches(p, audience);
      ReachedIsAnswered(p, step.granted, audience);
      if !Got(p, step.granted, audience, true) {
        assert AddressedBy(Next(o, step), j, reason, audience);
      }
    }
  }

  lemma ReachedIsAnswered(p: Payload, granted: seq<bool>, audience: Audience)
    requires |granted| == Attempts(p) && Reaches(p, audience)
    ensures Got(p, granted, audience, true) || Got(p, granted, audience, false)
  {
    if audience.Some? {
      var i :| 0 <= i < |p.targets.value| && p.targets.value[i] == audience.value;
      assert granted[i] || !granted[i];
    }
  }

  lemma StepKeepsAddressed(o: Outbox, step: Step, reason: string, audience: Audience)
    requires Enabled(o, step) && StillAddressed(o, reason, audience)
    ensures StillAddressed(Next(o, step), reason, audience) || Publishes(o, step, reason, audience)
  {
    hide ProcessHint, Reaches, Publishes;
    if step.Claim? {
      ClaimKeepsAddressed(o, step, reason, audience);
    } else {
      var k :| k in o.live && AddressedBy(o, k, reason, audience);
      assert AddressedBy(Next(o, step), k, reason, audience);
    }
  }

  /**
   Over every run: whoever a step announces something to is published to by some later
   claim of that reason, or a live hint of that reason still addresses them. A suppressed
   hint is deferred, never dropped.
   */
  lemma {:induction false} NobodyIsForgotten(steps: seq<Step>, n: nat, reason: string, audience: Audience)
    requires n < |steps| && Announces(After(steps[..n]), steps[n], reason, audience)
    ensures StillAddressed(After(steps), reason, audience)
         || exists k | n < k < |steps| :: Publishes(After(steps[..k]), steps[k], reason, audience)
    decreases |steps|
  {
    hide Announces, Publishes, StillAddressed, Next;
    var last := |steps| - 1;
    var init, step := steps[..last], steps[last];
    var o := After(init);
    if n == last {
      TokensNeverSplit(init);
      AnnouncedIsAddressed(o, step, reason, audience);
      OnlyEnabledAnnounces(o, step, reason, audience);
    } else {
      assert init[..n] == steps[..n];
      NobodyIsForgotten(init, n, reason, audience);
      if StillAddressed(o, reason, audience) {
        if Enabled(o, step) {
          StepKeepsAddressed(o, step, reason, audience);
          assert Publishes(o, step, reason, audience) ==> Publishes(After(steps[..last]), steps[last], reason, audience);
        }
      } else {
        var k :| n < k < |init| && Publishes(After(init[..k]), init[k], reason, audience);
        assert init[..k] == steps[..k];
        assert Publishes(After(steps[..k]), steps[k], reason, audience);
      }
    }
  }

  lemma OnlyEnabledAnnounces(o: Outbox, step: Step, reason: string, audience: Audience)
    requires Announces(o, step, reason, audience)
    ensures Enabled(o, step)
  {
  }

  // ---------------------------------------------------------------- exactly what is lost

  /** Logged, or riding in a live job, whoever that job is addressed to. */
  predicate Held(o: Outbox, id: NotifId) {
    Has(o.log, id, DeliveredHint) || exists j | j in o.live :: CarriedBy(o, j, id)
  }

  /** A claim that gathers `id`, not announced before, while its recipient is no target. */
  predicate Misses(o: Outbox, step: Step, id: NotifId) {
    && step.Claim? && Enabled(o, step) && id in Gathered(o, step.j, step.unlocked)
    && !Has(o.log, id, DeliveredHint) && !IsTarget(o, o.live[step.j].payload, id)
  }

  predicate NeverMissed(steps: seq<Step>, id: NotifId) {
    steps == [] ||
    var init := steps[..|steps| - 1];
    NeverMissed(init, id) && !Misses(After(init), steps[|steps| - 1], id)
  }

  lemma ClaimHoldsIff(o: Outbox, step: Step, id: NotifId)
    requires OneCarrierEach(o) && OncePerStatus(o.log) && Enabled(o, step) && step.Claim?
    ensures Held(Next(o, step), id) <==> Held(o, id) && !Misses(o, step, id)
  {
    var j, unlocked, granted, now := step.j, step.unlocked, step.granted, step.now;
    var o' := Next(o, step);
    HintAppends(o, j, unlocked, granted, now);
    OthersStay(o, j, unlocked, granted, now);
    hide ProcessHint, Has, OncePerStatus, IsTarget;
    if id in Gathered(o, j, unlocked) {
      TokenSurvivesIff(o, j, unlocked, granted, now, id);
      assert exists k | k in o.live :: CarriedBy(o, k, id);
    } else {
      LogGrowsByGathered(o, j, unlocked, granted, now, id);
      if k :| k in o.live && CarriedBy(o, k, id) {
        assert CarriedBy(o', k, id);
      }
    }
  }

  /** A claim changes no job but its own and the absorbed ones, and takes its ids from those. */
  lemma OthersStay(o: Outbox, j: JobId, unlocked: set<JobId>, granted: seq<bool>, now: Time)
    requires j in o.live && o.live[j].Hint? && |granted| == Attempts(o.live[j].payload)
    ensures
      var o' := ProcessHint(o, j, unlocked, granted, now);
      && (forall k | k in o.live && k != j && k !in Absorbable(o, j, unlocked) :: k in o'.live && o'.live[k] == o.live[k])
      && (forall k | k in o'.live && k != j :: k in o.live && k !in Absorbable(o, j, unlocked) && o'.live[k] == o.live[k])
      && (j in o'.live ==> IdsIn(o'.live[j]) <= Gathered(o, j, unlocked))
  {
    hide Those, Appended;
  }

  lemma LogGrowsByGathered(o: Outbox, j: JobId, unlocked: set<JobId>, granted: seq<bool>, now: Time, id: NotifId)
    requires j in o.live && o.live[j].Hint? && |granted| == Attempts(o.live[j].payload) && OncePerStatus(o.log)
    requires id !in Gathered(o, j, unlocked)
    ensures Has(ProcessHint(o, j, unlocked, granted, now).log, id, DeliveredHint) == Has(o.log, id, DeliveredHint)
  {
    hide Those;
  }

  lemma OtherStepsHold(o: Outbox, step: Step, id: NotifId)
    requires OneCarrierEach(o) && Enabled(o, step) && !step.Claim? && id in o.recipients
    ensures Held(Next(o, step), id) <==> Held(o, id)
  {
    hide Has;
    var o' := Next(o, step);
    if k :| k in o.live && CarriedBy(o, k, id) {
      assert CarriedBy(o', if step.FinishDeliver? && k == step.j then step.job else k, id);
    }
  }

  lemma ArrivalsAreHeld(o: Outbox, step: Step, id: NotifId)
    requires Enabled(o, step) && id !in o.recipients && id in Next(o, step).recipients
    ensures Held(Next(o, step), id) && !step.Claim?
  {
    hide Has;
    assert CarriedBy(Next(o, step), step.job, id);
  }

  /** Unknown notifications have been missed by nobody. */
  lemma {:induction false} UnknownIsNotMissed(steps: seq<Step>, id: NotifId)
    requires id !in After(steps).recipients
    ensures NeverMissed(steps, id)
  {
    if steps != [] {
      var init, step := steps[..|steps| - 1], steps[|steps| - 1];
      TokensNeverSplit(init);
      hide Misses;
      if id in After(init).recipients && Enabled(After(init), step) {
        KnownStays(After(init), step, id);
      }
      UnknownIsNotMissed(init, id);
      UnknownIsNotGathered(After(init), step, id);
    }
  }

  lemma KnownStays(o: Outbox, step: Step, id: NotifId)
    requires Enabled(o, step) && id in o.recipients
    ensures id in Next(o, step).recipients
  {
    hide Those, Appended;
  }

  lemma UnknownIsNotGathered(o: Outbox, step: Step, id: NotifId)
    requires OneCarrierEach(o) && id !in o.recipients
    ensures !Misses(o, step, id)
  {
  }

  /**
   Over every run, a notification is logged or still carried if and only if no claim ever
   gathered it while its recipient was no target; once nothing is live, if and only if it
   is logged.
   */
  lemma {:induction false} HeldUnlessMissed(steps: seq<Step>, id: NotifId)
    requires id in After(steps).recipients
    ensures Held(After(steps), id) <==> NeverMissed(steps, id)
    ensures After(steps).live == map[] ==> (Has(After(steps).log, id, DeliveredHint) <==> NeverMissed(steps, id))
  {
    hide Held, Misses, Next, Enabled;
    if steps != [] {
      var init, step := steps[..|steps| - 1], steps[|steps| - 1];
      var o := After(init);
      TokensNeverSplit(init);
      if !Enabled(o, step) {
        DisabledMissesNothing(o, step, id);
        HeldUnlessMissed(init, id);
      } else if id !in o.recipients {
        UnknownIsNotMissed(init, id);
        UnknownIsNotGathered(o, step, id);
        ArrivalsAreHeld(o, step, id);
      } else {
        HeldUnlessMissed(init, id);
        if step.Claim? {
          ClaimHoldsIff(o, step, id);
        } else {
          OtherStepsHold(o, step, id);
          OnlyClaimsMiss(o, step, id);
        }
      }
    }
    NothingLive(After(steps), id);
  }

  lemma DisabledMissesNothing(o: Outbox, step: Step, id: NotifId)
    requires !Enabled(o, step)
    ensures !Misses(o, step, id)
  {
  }

  lemma OnlyClaimsMiss(o: Outbox, step: Step, id: NotifId)
    requires !step.Claim?
    ensures !Misses(o, step, id)
  {
  }

  lemma NothingLive(o: Outbox, id: NotifId)
    ensures o.live == map[] ==> (Held(o, id) <==> Has(o.log, id, DeliveredHint))
  {
  }

  const CREATE := CreateNow([1], [5], 9)
  const MOVE := MoveTo({5}, 2)
  const CLAIM := Claim(9, {}, [true], 0)
  const CREATED := Outbox(map[9 := Hint(Payload("notification", Some([1]), {5}))], map[5 := 1], {})
  const MOVED := CREATED.(recipients := map[5 := 2])

  lemma CreateThenMove()
    ensures Enabled(EMPTY_OUTBOX, CREATE) && Next(EMPTY_OUTBOX, CREATE) == CREATED
    ensures Enabled(CREATED, MOVE) && Next(CREATED, MOVE) == MOVED
  {
    assert SetOf<NotifId>([5]) == {5};
    assert Inserted(map[], [5], [1]) == map[5 := 1];
    assert Next(EMPTY_OUTBOX, CREATE).live == CREATED.live;
    assert Next(CREATED, MOVE).recipients == map[5 := 2];
  }

  lemma ThenClaim()
    ensures Enabled(MOVED, CLAIM)
    ensures 5 in Next(MOVED, CLAIM).recipients && !Accounted(Next(MOVED, CLAIM), 5)
  {
  }

  lemma AfterOneMore(steps: seq<Step>, step: Step)
    requires Enabled(After(steps), step)
    ensures After(steps + [step]) == Next(After(steps), step)
  {
  }

  /**
   A move breaks it: notification 5, created for subscriber 1 and moved to 2 before its
   hint is published, is neither logged nor carried once the hint has been.
   */
  lemma MovedBeforeItsHint()
    ensures
      var o := After([] + [CREATE] + [MOVE] + [CLAIM]);
      5 in o.recipients && !Accounted(o, 5)
  {
    hide Next, Enabled, After;
    CreateThenMove();
    ThenClaim();
    assert After([]) == EMPTY_OUTBOX by { NoStepsYet(); }
    AfterOneMore([], CREATE);
    AfterOneMore([] + [CREATE], MOVE);
    AfterOneMore([] + [CREATE] + [MOVE], CLAIM);
  }

  lemma NoStepsYet()
    ensures After([]) == EMPTY_OUTBOX
  {
  }
}
