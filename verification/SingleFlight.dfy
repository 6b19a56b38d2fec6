/**
 One authenticate call per cache key at a time: concurrent requests join the flight in progress.

 Between two awaits a request runs alone, so its steps are: look in the cache, enter the flight table
 under the lock, wake when the flight has landed, leave the table under the lock. Nothing is cancelled.
 */
module SingleFlight {
  import opened Common
  import opened AuthCache

  /** What an authenticate task came to: an answer, or the error every one of its waiters sees. */
  datatype Outcome = Gave(answer: Answer) | Refused

  datatype Phase =
    | Asking
    | Missed
    | Waiting(task: nat)
    | Leaving(task: nat, outcome: Outcome)
    | Answered(flight: Option<nat>, outcome: Outcome)

  datatype Request = Request(key: string, phase: Phase)

  datatype Task = Task(key: string, outcome: Option<Outcome>)

  datatype System = System(requests: seq<Request>, tasks: seq<Task>, flights: map<string, nat>, cache: Cache)

  /** A rate-limit reject is passed on but not cached. */
  const TOO_MANY_REQUESTS := 429

  datatype Step =
    | Arrive(key: string)
    | Look(r: nat, now: Time)
    | Enter(r: nat)
    | Finish(t: nat, outcome: Outcome, storeKey: string, now: Time)
    | Wake(r: nat)
    | Leave(r: nat)
    | Administer(call: Call)

  predicate Enabled(sys: System, step: Step) {
    match step
    case Arrive(_) => true
    case Look(r, _) => r < |sys.requests| && sys.requests[r].phase.Asking?
    case Enter(r) => r < |sys.requests| && sys.requests[r].phase.Missed?
    case Finish(t, _, _, _) => t < |sys.tasks| && sys.tasks[t].outcome.None?
    case Wake(r) =>
      r < |sys.requests| && sys.requests[r].phase.Waiting? && sys.requests[r].phase.task < |sys.tasks|
      && sys.tasks[sys.requests[r].phase.task].outcome.Some?
    case Leave(r) => r < |sys.requests| && sys.requests[r].phase.Leaving?
    case Administer(call) => call.Invalidate? || call.InvalidateWhere? || call.Clear?
  }

  function Moved(sys: System, r: nat, phase: Phase): seq<Request>
    requires r < |sys.requests|
  {
    sys.requests[r := sys.requests[r].(phase := phase)]
  }

  predicate Cacheable(outcome: Outcome) {
    outcome.Gave? && outcome.answer != Reject(TOO_MANY_REQUESTS)
  }

  /** One step; a step that is not enabled does nothing. */
  function Next(sys: System, step: Step): System {
    if !Enabled(sys, step) then sys
    else
      match step
      case Arrive(key) => sys.(requests := sys.requests + [Request(key, Asking)])
      case Look(r, now) =>
        var (cache, result) := After(sys.cache, Get(sys.requests[r].key, now));
        var phase := if result.Found? then Answered(None, Gave(result.answer)) else Missed;
        sys.(cache := cache, requests := Moved(sys, r, phase))
      case Enter(r) =>
        var key := sys.requests[r].key;
        if key in sys.flights then sys.(requests := Moved(sys, r, Waiting(sys.flights[key])))
        else
          var t := |sys.tasks|;
          System(Moved(sys, r, Waiting(t)), sys.tasks + [Task(key, None)], sys.flights[key := t], sys.cache)
      case Finish(t, outcome, storeKey, now) =>
        sys.(tasks := sys.tasks[t := sys.tasks[t].(outcome := Some(outcome))],
             cache := if Cacheable(outcome) then After(sys.cache, Put(storeKey, outcome.answer, now)).0 else sys.cache)
      case Wake(r) =>
        var t := sys.requests[r].phase.task;
        sys.(requests := Moved(sys, r, Leaving(t, sys.tasks[t].outcome.value)))
      case Leave(r) =>
        var (key, t) := (sys.requests[r].key, sys.requests[r].phase.task);
        sys.(requests := Moved(sys, r, Answered(Some(t), sys.requests[r].phase.outcome)),
             flights := if key in sys.flights && sys.flights[key] == t then sys.flights - {key} else sys.flights)
      case Administer(call) => sys.(cache := After(sys.cache, call).0)
  }

  function Run(ttl: Time, max: nat, steps: seq<Step>): System {
    if steps == [] then System([], [], map[], Cache(ttl, max, [], 0))
    else Next(Run(ttl, max, steps[..|steps| - 1]), steps[|steps| - 1])
  }

  // ---------------------------------------------------------------- what every step keeps

  /** The flight a request joined, if it did. */
  function Joined(phase: Phase): Option<nat> {
    match phase
    case Waiting(t) => Some(t)
    case Leaving(t, _) => Some(t)
    case Answered(flight, _) => flight
    case _ => None
  }

  predicate Inside(phase: Phase, t: nat) {
    (phase.Waiting? || phase.Leaving?) && phase.task == t
  }

  /** A request that joined a flight joined one of its own key, and what it holds is that outcome. */
  ghost predicate Served(request: Request, tasks: seq<Task>) {
    Joined(request.phase).Some? ==>
      var t := Joined(request.phase).value;
      && t < |tasks| && tasks[t].key == request.key
      && (request.phase.Leaving? || request.phase.Answered? ==> tasks[t].outcome == Some(request.phase.outcome))
  }

  /** An unfinished task is the flight of its key. */
  ghost predicate Flying(sys: System) {
    forall t :: 0 <= t < |sys.tasks| && sys.tasks[t].outcome.None? ==>
      sys.tasks[t].key in sys.flights && sys.flights[sys.tasks[t].key] == t
  }

  predicate SomeoneInside(requests: seq<Request>, key: string, t: nat) {
    exists q :: 0 <= q < |requests| && requests[q].key == key && Inside(requests[q].phase, t)
  }

  /** A flight in the table has someone inside who will leave it. */
  ghost predicate Attended(sys: System) {
    forall key :: key in sys.flights ==>
      && sys.flights[key] < |sys.tasks| && sys.tasks[sys.flights[key]].key == key
      && SomeoneInside(sys.requests, key, sys.flights[key])
  }

  ghost predicate Inv(sys: System) {
    && (forall r :: 0 <= r < |sys.requests| ==> Served(sys.requests[r], sys.tasks))
    && Flying(sys)
    && Attended(sys)
  }

  lemma ServedNext(sys: System, step: Step)
    requires Inv(sys)
    ensures forall r :: 0 <= r < |Next(sys, step).requests| ==>
      Served(Next(sys, step).requests[r], Next(sys, step).tasks)
  {
    hide After, Flying;
    var next := Next(sys, step);
    forall r | 0 <= r < |next.requests|
      ensures Served(next.requests[r], next.tasks)
    {
      if r < |sys.requests| { assert Served(sys.requests[r], sys.tasks); }
    }
  }

  lemma FlyingNext(sys: System, step: Step)
    requires Inv(sys)
    ensures Flying(Next(sys, step))
  {
    hide After;
    if Enabled(sys, step) && step.Leave? {
      assert Served(sys.requests[step.r], sys.tasks);
    }
  }

  /** Moving a request that stays inside, or was not inside, empties no flight. */
  lemma StillAttended(sys: System, next: System, r: nat)
    requires Attended(sys) && next.flights == sys.flights && r < |sys.requests| && |next.requests| == |sys.requests|
    requires |sys.tasks| <= |next.tasks| && forall t :: 0 <= t < |sys.tasks| ==> next.tasks[t].key == sys.tasks[t].key
    requires forall q :: 0 <= q < |sys.requests| && q != r ==> next.requests[q] == sys.requests[q]
    requires next.requests[r].key == sys.requests[r].key
    requires forall t :: Inside(sys.requests[r].phase, t) ==> Inside(next.requests[r].phase, t)
    ensures Attended(next)
  {
    forall key | key in next.flights
      ensures SomeoneInside(next.requests, key, next.flights[key])
    {
      var q :| 0 <= q < |sys.requests| && sys.requests[q].key == key && Inside(sys.requests[q].phase, sys.flights[key]);
      assert next.requests[q].key == key && Inside(next.requests[q].phase, next.flights[key]);
    }
  }

  lemma SameRequestsAttended(sys: System, next: System)
    requires Attended(sys) && next.flights == sys.flights && sys.requests <= next.requests
    requires |sys.tasks| == |next.tasks| && forall t :: 0 <= t < |sys.tasks| ==> next.tasks[t].key == sys.tasks[t].key
    ensures Attended(next)
  {
    forall key | key in next.flights
      ensures SomeoneInside(next.requests, key, next.flights[key])
    {
      var q :| 0 <= q < |sys.requests| && sys.requests[q].key == key && Inside(sys.requests[q].phase, sys.flights[key]);
      assert next.requests[q] == sys.requests[q];
    }
  }

  lemma EnterAttended(sys: System, r: nat)
    requires Inv(sys) && Enabled(sys, Enter(r))
    ensures Attended(Next(sys, Enter(r)))
  {
    var next, key := Next(sys, Enter(r)), sys.requests[r].key;
    if key in sys.flights {
      StillAttended(sys, next, r);
    } else {
      forall k | k in next.flights
        ensures SomeoneInside(next.requests, k, next.flights[k])
      {
        if k == key {
          assert next.requests[r].key == k && Inside(next.requests[r].phase, next.flights[k]);
        } else {
          var q :| 0 <= q < |sys.requests| && sys.requests[q].key == k && Inside(sys.requests[q].phase, sys.flights[k]);
          assert next.requests[q] == sys.requests[q];
        }
      }
    }
  }

  lemma LeaveAttended(sys: System, r: nat)
    requires Inv(sys) && Enabled(sys, Leave(r))
    ensures Attended(Next(sys, Leave(r)))
  {
    var next := Next(sys, Leave(r));
    assert Served(sys.requests[r], sys.tasks);
    forall k | k in next.flights
      ensures SomeoneInside(next.requests, k, next.flights[k])
    {
      var q :| 0 <= q < |sys.requests| && sys.requests[q].key == k && Inside(sys.requests[q].phase, sys.flights[k]);
      assert next.requests[q] == sys.requests[q];
    }
  }

  lemma InvNext(sys: System, step: Step)
    requires Inv(sys)
    ensures Inv(Next(sys, step))
  {
    hide After, Served, Flying, Attended;
    ServedNext(sys, step);
    FlyingNext(sys, step);
    var next := Next(sys, step);
    if Enabled(sys, step) {
      match step
      case Arrive(_) => SameRequestsAttended(sys, next);
      case Look(r, _) => StillAttended(sys, next, r);
      case Enter(r) => EnterAttended(sys, r);
      case Finish(_, _, _, _) => SameRequestsAttended(sys, next);
      case Wake(r) => StillAttended(sys, next, r);
      case Leave(r) => LeaveAttended(sys, r);
      case Administer(_) => SameRequestsAttended(sys, next);
    }
  }

  lemma {:induction false} RunKeepsInv(ttl: Time, max: nat, steps: seq<Step>)
    ensures Inv(Run(ttl, max, steps))
  {
    hide Inv, Next;
    if steps == [] {
      NobodyYet(ttl, max);
    } else {
      RunKeepsInv(ttl, max, steps[..|steps| - 1]);
      InvNext(Run(ttl, max, steps[..|steps| - 1]), steps[|steps| - 1]);
    }
  }

  lemma NobodyYet(ttl: Time, max: nat)
    ensures Inv(Run(ttl, max, []))
  {
  }

  predicate Unfinished(sys: System, t: nat)
    requires t < |sys.tasks|
  {
    sys.tasks[t].outcome.None?
  }

  /**
   In every interleaving: at most one unfinished task per key; a request that joined a flight of its key
   holds that flight's outcome when it is answered; and once every request is answered, the table is empty.
   */
  lemma OneFlightPerKey(ttl: Time, max: nat, steps: seq<Step>)
    ensures var sys := Run(ttl, max, steps);
      && (forall t, u :: 0 <= t < |sys.tasks| && 0 <= u < |sys.tasks| && Unfinished(sys, t) && Unfinished(sys, u)
                         && sys.tasks[t].key == sys.tasks[u].key ==>
            t == u)
      && (forall r :: 0 <= r < |sys.requests|
                      && sys.requests[r].phase.Answered? && sys.requests[r].phase.flight.Some? ==>
            var t := sys.requests[r].phase.flight.value;
            t < |sys.tasks| && sys.tasks[t] == Task(sys.requests[r].key, Some(sys.requests[r].phase.outcome)))
      && ((forall r :: 0 <= r < |sys.requests| ==> sys.requests[r].phase.Answered?) ==> sys.flights == map[])
  {
    hide Run, Served, Attended, Flying;
    RunKeepsInv(ttl, max, steps);
    var sys := Run(ttl, max, steps);
    UnfinishedIsOne(sys);
    forall r | 0 <= r < |sys.requests| && sys.requests[r].phase.Answered? && sys.requests[r].phase.flight.Some?
      ensures var t := sys.requests[r].phase.flight.value;
        t < |sys.tasks| && sys.tasks[t] == Task(sys.requests[r].key, Some(sys.requests[r].phase.outcome))
    {
      AnsweredIsServed(sys.requests[r], sys.tasks);
    }
    if forall r :: 0 <= r < |sys.requests| ==> sys.requests[r].phase.Answered? {
      NobodyInside(sys);
    }
  }

  lemma UnfinishedIsOne(sys: System)
    requires Flying(sys)
    ensures forall t, u :: 0 <= t < |sys.tasks| && 0 <= u < |sys.tasks| && Unfinished(sys, t) && Unfinished(sys, u)
                           && sys.tasks[t].key == sys.tasks[u].key ==>
              t == u
  {
  }

  lemma AnsweredIsServed(request: Request, tasks: seq<Task>)
    requires Served(request, tasks) && request.phase.Answered? && request.phase.flight.Some?
    ensures var t := request.phase.flight.value;
      t < |tasks| && tasks[t] == Task(request.key, Some(request.phase.outcome))
  {
  }

  lemma NobodyInside(sys: System)
    requires Attended(sys) && forall r :: 0 <= r < |sys.requests| ==> sys.requests[r].phase.Answered?
    ensures sys.flights == map[]
  {
    assert sys.flights.Keys == {};
  }

  /** In every run, whoever leaves, and however late, the flight of a task that is not finished stays in the table. */
  lemma LeavingSparesUnfinishedFlights(ttl: Time, max: nat, steps: seq<Step>, r: nat, t: nat)
    requires t < |Run(ttl, max, steps).tasks| && Unfinished(Run(ttl, max, steps), t)
    ensures var sys, next := Run(ttl, max, steps), Run(ttl, max, steps + [Leave(r)]);
      && next.tasks == sys.tasks
      && sys.tasks[t].key in next.flights && next.flights[sys.tasks[t].key] == t
  {
    hide Run, Served, Attended;
    var sys := Run(ttl, max, steps);
    RunKeepsInv(ttl, max, steps);
    InvNext(sys, Leave(r));
    OneMoreStep(ttl, max, steps, Leave(r));
    assert Next(sys, Leave(r)).tasks == sys.tasks;
  }

  lemma OneMoreStep(ttl: Time, max: nat, steps: seq<Step>, step: Step)
    ensures Run(ttl, max, steps + [step]) == Next(Run(ttl, max, steps), step)
  {
    hide Next;
    assert (steps + [step])[..|steps + [step]| - 1] == steps;
  }

  // ---------------------------------------------------------------- what the cache is given

  ghost predicate Unlimited(items: seq<Item>) {
    forall i :: 0 <= i < |items| ==> items[i].answer != Reject(TOO_MANY_REQUESTS)
  }

  lemma {:induction false} SparedAreItems(items: seq<Item>, doomed: set<Answer>, now: Time)
    ensures Unlimited(items) ==> Unlimited(Spared(items, doomed, now))
  {
    if items != [] {
      SparedAreItems(items[..|items| - 1], doomed, now);
    }
  }

  lemma GetStaysUnlimited(c: Cache, key: string, now: Time)
    requires Unlimited(c.items)
    ensures var (after, result) := After(c, Get(key, now));
      Unlimited(after.items) && (result.Found? ==> result.answer != Reject(TOO_MANY_REQUESTS))
  {
  }

  lemma PutStaysUnlimited(c: Cache, key: string, answer: Answer, now: Time)
    requires Unlimited(c.items) && answer != Reject(TOO_MANY_REQUESTS)
    ensures Unlimited(After(c, Put(key, answer, now)).0.items)
  {
  }

  lemma AdminStaysUnlimited(c: Cache, call: Call)
    requires Unlimited(c.items) && (call.Invalidate? || call.InvalidateWhere? || call.Clear?)
    ensures Unlimited(After(c, call).0.items)
  {
    hide Spared;
    if call.InvalidateWhere? {
      SparedAreItems(c.items[..FirstStale(c.items, call.now)], call.doomed, call.now);
    }
  }

  /** A rate-limit reject reaches those who joined its flight, and nobody else. */
  lemma {:induction false} RateLimitIsNeverCached(ttl: Time, max: nat, steps: seq<Step>)
    ensures var sys := Run(ttl, max, steps);
      && Unlimited(sys.cache.items)
      && (forall r :: 0 <= r < |sys.requests| ==>
         sys.requests[r].phase != Answered(None, Gave(Reject(TOO_MANY_REQUESTS))))
  {
    hide After, Unlimited;
    if steps == [] {
      assert Unlimited([]) by { NoItems(); }
    } else {
      var sys, step := Run(ttl, max, steps[..|steps| - 1]), steps[|steps| - 1];
      RateLimitIsNeverCached(ttl, max, steps[..|steps| - 1]);
      match step
      case Look(r, now) => if Enabled(sys, step) { GetStaysUnlimited(sys.cache, sys.requests[r].key, now); }
      case Finish(_, outcome, key, now) =>
        if Cacheable(outcome) { PutStaysUnlimited(sys.cache, key, outcome.answer, now); }
      case Administer(call) => if Enabled(sys, step) { AdminStaysUnlimited(sys.cache, call); }
      case Leave(r) => RunKeepsInv(ttl, max, steps[..|steps| - 1]);
      case _ =>
    }
  }

  lemma NoItems()
    ensures Unlimited([])
  {
  }

  // ---------------------------------------------------------------- what the cache answers

  /** Step `k` finished a task with this answer, which is not a rate-limit reject, and stored it under the key. */
  ghost predicate StoredAt(ttl: Time, max: nat, steps: seq<Step>, k: int, key: string, answer: Answer,
                            until: Time) {
    && 0 <= k < |steps| && steps[k].Finish? && Enabled(Run(ttl, max, steps[..k]), steps[k])
    && steps[k].storeKey == key && steps[k].now + ttl == until
    && steps[k].outcome == Gave(answer) && answer != Reject(TOO_MANY_REQUESTS)
    && steps[k].t < |Run(ttl, max, steps).tasks|
    && Run(ttl, max, steps).tasks[steps[k].t].outcome == Some(Gave(answer))
  }

  ghost predicate Given(ttl: Time, max: nat, steps: seq<Step>, item: Item) {
    exists k :: StoredAt(ttl, max, steps, k, item.key, item.answer, item.expires)
  }

  /** The request looked while an answer stored under its key was younger than the time to live. */
  ghost predicate LookedUp(ttl: Time, max: nat, steps: seq<Step>, r: nat, key: string, answer: Answer) {
    exists k, m, until :: StoredAt(ttl, max, steps, k, key, answer, until) && LooksAt(steps, k, m, r, until)
  }

  /** Step `m` is the request's look, after step `k` and before the moment. */
  ghost predicate LooksAt(steps: seq<Step>, k: int, m: int, r: nat, until: Time) {
    k < m < |steps| && m >= 0 && steps[m].Look? && steps[m].r == r && steps[m].now < until
  }

  lemma OutcomesStay(sys: System, step: Step, t: nat)
    requires t < |sys.tasks| && sys.tasks[t].outcome.Some?
    ensures t < |Next(sys, step).tasks| && Next(sys, step).tasks[t] == sys.tasks[t]
  {
    hide After;
  }

  lemma StoredStays(ttl: Time, max: nat, steps: seq<Step>, k: int, key: string, answer: Answer, until: Time)
    requires steps != [] && StoredAt(ttl, max, steps[..|steps| - 1], k, key, answer, until)
    ensures StoredAt(ttl, max, steps, k, key, answer, until)
  {
    hide Next, Enabled;
    var front := steps[..|steps| - 1];
    assert front[..k] == steps[..k];
    OutcomesStay(Run(ttl, max, front), steps[|steps| - 1], steps[k].t);
  }

  lemma StoredNow(ttl: Time, max: nat, steps: seq<Step>)
    requires steps != [] && steps[|steps| - 1].Finish? && Cacheable(steps[|steps| - 1].outcome)
    requires Enabled(Run(ttl, max, steps[..|steps| - 1]), steps[|steps| - 1])
    ensures var last := steps[|steps| - 1];
      StoredAt(ttl, max, steps, |steps| - 1, last.storeKey, last.outcome.answer, last.now + ttl)
  {
    hide After;
  }

  lemma GetTakesFromItems(c: Cache, key: string, now: Time)
    ensures var (after, result) := After(c, Get(key, now));
      && after.ttl == c.ttl && (forall item :: item in after.items ==> item in c.items)
      && (result.Found? ==>
        exists item :: item in c.items && item.key == key && item.answer == result.answer && now < item.expires)
  {
  }

  lemma PutAddsOne(c: Cache, key: string, answer: Answer, now: Time)
    ensures var after := After(c, Put(key, answer, now)).0;
      after.ttl == c.ttl
      && forall item :: item in after.items ==> item in c.items || item == Item(key, now + c.ttl, answer)
  {
    hide Forget, Evicted;
    ForgetTakesFrom(c.items, key);
    EvictedTakesFrom(Forget(c.items, key) + [Item(key, now + c.ttl, answer)], c.max);
  }

  lemma ForgetTakesFrom(items: seq<Item>, key: string)
    ensures forall item :: item in Forget(items, key) ==> item in items
  {
    hide IndexOf;
  }

  lemma EvictedTakesFrom(items: seq<Item>, max: nat)
    ensures forall item :: item in Evicted(items, max) ==> item in items
  {
  }

  lemma {:induction false} SparedFromItems(items: seq<Item>, doomed: set<Answer>, now: Time)
    ensures forall item :: item in Spared(items, doomed, now) ==> item in items
  {
    if items != [] { SparedFromItems(items[..|items| - 1], doomed, now); }
  }

  lemma AdminAddsNothing(c: Cache, call: Call)
    requires call.Invalidate? || call.InvalidateWhere? || call.Clear?
    ensures var after := After(c, call).0; after.ttl == c.ttl && forall item :: item in after.items ==> item in c.items
  {
    hide Spared;
    if call.InvalidateWhere? { SparedFromItems(c.items[..FirstStale(c.items, call.now)], call.doomed, call.now); }
  }

  /** Only a finish that may be cached adds an item. */
  lemma CacheGrowsByFinish(sys: System, step: Step, item: Item)
    requires item in Next(sys, step).cache.items && item !in sys.cache.items
    ensures step.Finish? && Enabled(sys, step) && Cacheable(step.outcome)
    ensures item == Item(step.storeKey, step.now + sys.cache.ttl, step.outcome.answer)
  {
    hide After;
    if Enabled(sys, step) {
      match step
      case Look(r, now) => GetTakesFromItems(sys.cache, sys.requests[r].key, now);
      case Finish(_, outcome, key, now) => if Cacheable(outcome) { PutAddsOne(sys.cache, key, outcome.answer, now); }
      case Administer(call) => AdminAddsNothing(sys.cache, call);
      case _ =>
    }
  }

  lemma {:induction false} LimitsStay(ttl: Time, max: nat, steps: seq<Step>)
    ensures Run(ttl, max, steps).cache.ttl == ttl && Run(ttl, max, steps).cache.max == max
  {
    if steps != [] { LimitsStay(ttl, max, steps[..|steps| - 1]); }
  }

  /** In every run, each cached answer was given by a task that finished and was stored under that key then. */
  lemma {:induction false} CachedAnswersWereGiven(ttl: Time, max: nat, steps: seq<Step>)
    ensures forall item :: item in Run(ttl, max, steps).cache.items ==> Given(ttl, max, steps, item)
  {
    hide Next, StoredAt;
    if steps != [] {
      var front, last := steps[..|steps| - 1], steps[|steps| - 1];
      CachedAnswersWereGiven(ttl, max, front);
      LimitsStay(ttl, max, front);
      forall item | item in Run(ttl, max, steps).cache.items
        ensures Given(ttl, max, steps, item)
      {
        if item in Run(ttl, max, front).cache.items {
          var k :| StoredAt(ttl, max, front, k, item.key, item.answer, item.expires);
          StoredStays(ttl, max, steps, k, item.key, item.answer, item.expires);
        } else {
          CacheGrowsByFinish(Run(ttl, max, front), last, item);
          StoredNow(ttl, max, steps);
        }
      }
    }
  }

  lemma LookFinds(sys: System, r: nat, now: Time)
    requires Enabled(sys, Look(r, now)) && Next(sys, Look(r, now)).requests[r].phase.Answered?
    ensures var request := Next(sys, Look(r, now)).requests[r];
      && request.key == sys.requests[r].key && request.phase.flight == None && request.phase.outcome.Gave?
      && exists item :: item in sys.cache.items && item.key == request.key
                        && item.answer == request.phase.outcome.answer && now < item.expires
  {
    hide After;
    GetTakesFromItems(sys.cache, sys.requests[r].key, now);
  }

  /** A request is answered without a flight by its look alone, and keeps its answer. */
  lemma AnsweredByLook(sys: System, step: Step, r: nat)
    requires Inv(sys) && r < |Next(sys, step).requests|
    requires Next(sys, step).requests[r].phase.Answered? && Next(sys, step).requests[r].phase.flight.None?
    ensures (r < |sys.requests| && Next(sys, step).requests[r] == sys.requests[r])
            || (step.Look? && step.r == r && Enabled(sys, step))
  {
    hide After, Served, Flying, Attended;
  }

  lemma LookedUpStays(ttl: Time, max: nat, steps: seq<Step>, r: nat, key: string, answer: Answer)
    requires steps != [] && LookedUp(ttl, max, steps[..|steps| - 1], r, key, answer)
    ensures LookedUp(ttl, max, steps, r, key, answer)
  {
    hide StoredAt;
    var front := steps[..|steps| - 1];
    var k, m, until :| StoredAt(ttl, max, front, k, key, answer, until) && LooksAt(front, k, m, r, until);
    StoredStays(ttl, max, steps, k, key, answer, until);
    assert LooksAt(steps, k, m, r, until);
  }

  lemma LookedUpNow(ttl: Time, max: nat, steps: seq<Step>, r: nat, now: Time, item: Item)
    requires steps != [] && steps[|steps| - 1] == Look(r, now) && now < item.expires
    requires Given(ttl, max, steps[..|steps| - 1], item)
    ensures LookedUp(ttl, max, steps, r, item.key, item.answer)
  {
    hide Next, Enabled;
    var k :| StoredAt(ttl, max, steps[..|steps| - 1], k, item.key, item.answer, item.expires);
    StoredStays(ttl, max, steps, k, item.key, item.answer, item.expires);
    assert LooksAt(steps, k, |steps| - 1, r, item.expires);
  }

  /**
   In every run, a request answered without a flight holds an answer a finished task had stored under the
   request's key, and it looked before that answer was as old as the time to live.
   */
  lemma {:induction false} CacheAnswersWithWhatWasGiven(ttl: Time, max: nat, steps: seq<Step>, r: nat)
    requires r < |Run(ttl, max, steps).requests|
    requires Run(ttl, max, steps).requests[r].phase.Answered? && Run(ttl, max, steps).requests[r].phase.flight.None?
    ensures var request := Run(ttl, max, steps).requests[r];
      request.phase.outcome.Gave? && LookedUp(ttl, max, steps, r, request.key, request.phase.outcome.answer)
  {
    hide Next, Inv, LookedUp, Given, Enabled;
    if steps == [] {
      NobodyAsked(ttl, max, r);
    } else {
      var front, last := steps[..|steps| - 1], steps[|steps| - 1];
      var sys, request := Run(ttl, max, front), Run(ttl, max, steps).requests[r];
      RunKeepsInv(ttl, max, front);
      AnsweredByLook(sys, last, r);
      if r < |sys.requests| && request == sys.requests[r] {
        CacheAnswersWithWhatWasGiven(ttl, max, front, r);
        LookedUpStays(ttl, max, steps, r, request.key, request.phase.outcome.answer);
      } else {
        LookFinds(sys, r, last.now);
        var item :| item in sys.cache.items && item.key == request.key
                    && item.answer == request.phase.outcome.answer && last.now < item.expires;
        CachedAnswersWereGiven(ttl, max, front);
        LookedUpNow(ttl, max, steps, r, last.now, item);
      }
    }
  }

  lemma NobodyAsked(ttl: Time, max: nat, r: nat)
    ensures r >= |Run(ttl, max, []).requests|
  {
  }

  /** Steps of other requests and of flights, between a finish and a look. */
  predicate LeavesCache(step: Step) {
    step.Arrive? || step.Enter? || step.Wake? || step.Leave?
  }

  lemma CacheLeftAlone(sys: System, step: Step)
    requires LeavesCache(step)
    ensures Next(sys, step).cache == sys.cache
  {
    hide After;
  }

  lemma {:induction false} SameCache(ttl: Time, max: nat, steps: seq<Step>, more: seq<Step>)
    requires forall step :: step in more ==> LeavesCache(step)
    ensures Run(ttl, max, steps + more).cache == Run(ttl, max, steps).cache
  {
    hide Next, LeavesCache;
    if more == [] {
      assert steps + more == steps;
    } else {
      var front, last := more[..|more| - 1], more[|more| - 1];
      SameCache(ttl, max, steps, front);
      assert steps + more == (steps + front) + [last];
      OneMoreStep(ttl, max, steps + front, last);
      CacheLeftAlone(Run(ttl, max, steps + front), last);
    }
  }

  lemma PutIsFound(c: Cache, key: string, answer: Answer, now: Time, later: Time)
    requires c.max >= 1 && later < now + c.ttl
    ensures After(After(c, Put(key, answer, now)).0, Get(key, later)).1 == Found(answer)
  {
    hide Forget;
    var items := After(c, Put(key, answer, now)).0.items;
    assert items[|items| - 1] == Item(key, now + c.ttl, answer);
  }

  lemma FinishPuts(sys: System, finish: Step)
    requires finish.Finish? && Enabled(sys, finish) && Cacheable(finish.outcome)
    ensures Next(sys, finish).cache == After(sys.cache, Put(finish.storeKey, finish.outcome.answer, finish.now)).0
  {
    hide After;
  }

  lemma LookAnswers(sys: System, look: Step, answer: Answer)
    requires look.Look? && Enabled(sys, look)
    requires After(sys.cache, Get(sys.requests[look.r].key, look.now)).1 == Found(answer)
    ensures Next(sys, look).requests[look.r].phase == Answered(None, Gave(answer))
    ensures Next(sys, look).tasks == sys.tasks
  {
    hide After;
  }

  /**
   Once a task has finished with an answer that may be cached, a look under the key it stored under,
   before the answer is as old as the time to live, is answered with it and starts no task.
   */
  lemma FinishedAnswersTheNext(ttl: Time, max: nat, steps: seq<Step>, finish: Step, more: seq<Step>, look: Step)
    requires max >= 1 && finish.Finish? && Enabled(Run(ttl, max, steps), finish)
    requires finish.outcome.Gave? && finish.outcome.answer != Reject(429)
    requires (forall step :: step in more ==> LeavesCache(step)) && look.Look? && look.now < finish.now + ttl
    requires var sys := Run(ttl, max, steps + [finish] + more);
      Enabled(sys, look) && sys.requests[look.r].key == finish.storeKey
    ensures var sys := Run(ttl, max, steps + [finish] + more + [look]);
      && sys.requests[look.r].phase == Answered(None, finish.outcome)
      && sys.tasks == Run(ttl, max, steps + [finish] + more).tasks
  {
    hide After, Next, Run;
    LimitsStay(ttl, max, steps);
    FinishPuts(Run(ttl, max, steps), finish);
    OneMoreStep(ttl, max, steps, finish);
    SameCache(ttl, max, steps + [finish], more);
    OneMoreStep(ttl, max, steps + [finish] + more, look);
    PutIsFound(Run(ttl, max, steps).cache, finish.storeKey, finish.outcome.answer, finish.now, look.now);
    LookAnswers(Run(ttl, max, steps + [finish] + more), look, finish.outcome.answer);
  }

  // ---------------------------------------------------------------- the table in place

  /** A task, by identity. */
  class Flight {
    const key: string

    constructor (key: string)
      ensures this.key == key
    {
      this.key := key;
    }
  }

  class Flights {
    var table: map<string, Flight>

    constructor ()
      ensures table == map[]
    {
      table := map[];
    }

    /** Under the lock: join the flight of the key, or start one. */
    method Enter(key: string) returns (task: Flight, started: bool)
      modifies this
      ensures started == (key !in old(table)) && (started ==> fresh(task) && task.key == key)
      ensures !started ==> task == old(table)[key]
      ensures table == old(table)[key := task]
    {
      if key in table {
        task, started := table[key], false;
        assert table == table[key := task];
      } else {
        task := new Flight(key);
        started := true;
        table := table[key := task];
      }
    }

    /** Under the lock: take the flight out if it is still the one that was joined. */
    method Leave(key: string, task: Flight)
      modifies this
      ensures table == if key in old(table) && old(table)[key] == task then old(table) - {key} else old(table)
    {
      if key in table && table[key] == task {
        table := table - {key};
      }
    }
  }
}
