/**
 WorkflowScheduler.check_and_trigger for one schedule: any number of workers, each with a clock of
 its own, behind a lock in Redis that expires on Redis's clock and is deleted unconditionally.
 */
module Scheduling {
  import opened Options

  /** Seconds. */
  type Time = real

  const LOCK_TTL: Time := 120.0

  /** `next` is croniter: the least slot strictly after its argument. */
  ghost predicate IsCron(slot: Time -> bool, next: Time -> Time) {
    && (forall t: Time :: next(t) > t && slot(next(t)))
    && (forall t: Time, s: Time | slot(s) && s > t :: next(t) <= s)
  }

  datatype Schedule = Schedule(active: bool, nextRunAt: Option<Time>, lastRunAt: Option<Time>, totalRuns: nat)

  /** A trigger sent to the queue: the slot it consumed, and the sender's clock. */
  datatype Firing = Firing(slot: Time, now: Time)

  datatype Action = Leave | Initialise(first: Time) | Fire(slot: Time)

  /** What a worker does with the row it has refreshed. */
  function Decide(row: Schedule, now: Time, workflowActive: bool, next: Time -> Time): Action {
    if !row.active then Leave
    else
      match row.nextRunAt
      case None => Initialise(next(now))
      case Some(nxt) => if nxt > now || !workflowActive then Leave else Fire(nxt)
  }

  /** The row a commit leaves behind; only the columns assigned are written, from the refreshed copy. */
  function Committed(row: Schedule, copy: Schedule, action: Action, now: Time, next: Time -> Time): Schedule {
    match action
    case Leave => row
    case Initialise(first) => row.(nextRunAt := Some(first))
    case Fire(_) => row.(nextRunAt := Some(next(now)), lastRunAt := Some(now), totalRuns := copy.totalRuns + 1)
  }

  datatype Worker =
    | Idle
    | Started(now: Time)                                                    // has listed the active schedules
    | Holding(now: Time, deadline: Time)                                    // has the lock
    | Refreshed(now: Time, deadline: Time, copy: Schedule)
    | Writing(now: Time, deadline: Time, copy: Schedule, action: Action)    // enqueued; not yet committed
    | Leaving(deadline: Time)

  type WorkerId = nat

  datatype State = State(
    clock: Time,                      // Redis's
    lock: Option<Time>,               // when the key expires
    row: Schedule,
    workflowActive: bool,
    queue: seq<Firing>,
    workers: map<WorkerId, Worker>)

  datatype Event =
    | Start(k: WorkerId, now: Time) | Acquire(k: WorkerId) | Refresh(k: WorkerId) | Choose(k: WorkerId)
    | Commit(k: WorkerId) | Release(k: WorkerId)
    | Pass(clock: Time) | Toggle | SetWorkflow(active: bool)

  function At(s: State, k: WorkerId): Worker {
    if k in s.workers then s.workers[k] else Idle
  }

  predicate InSection(p: Worker) {
    !p.Idle? && !p.Started?
  }

  function Goto(s: State, k: WorkerId, p: Worker): State {
    s.(workers := s.workers[k := p])
  }

  /** SET NX sees a key that has not expired. */
  predicate Locked(s: State) {
    s.lock.Some? && s.clock < s.lock.value
  }

  predicate Enabled(s: State, e: Event) {
    match e
    case Start(k, _) => At(s, k).Idle? && s.row.active
    case Acquire(k) => At(s, k).Started?
    case Refresh(k) => At(s, k).Holding?
    case Choose(k) => At(s, k).Refreshed?
    case Commit(k) => At(s, k).Writing?
    case Release(k) => At(s, k).Leaving?
    case Pass(clock) => s.clock <= clock
    case Toggle => true
    case SetWorkflow(_) => true
  }

  function AcquireStep(s: State, k: WorkerId): State
    requires At(s, k).Started?
  {
    if Locked(s) then Goto(s, k, Idle)
    else Goto(s, k, Holding(At(s, k).now, s.clock + LOCK_TTL)).(lock := Some(s.clock + LOCK_TTL))
  }

  function ChooseStep(s: State, k: WorkerId, next: Time -> Time): State
    requires At(s, k).Refreshed?
  {
    var p := At(s, k);
    var action := Decide(p.copy, p.now, s.workflowActive, next);
    var s1 := Goto(s, k, if action.Leave? then Leaving(p.deadline) else Writing(p.now, p.deadline, p.copy, action));
    if action.Fire? then s1.(queue := s.queue + [Firing(action.slot, p.now)]) else s1
  }

  function CommitStep(s: State, k: WorkerId, next: Time -> Time): State
    requires At(s, k).Writing?
  {
    var p := At(s, k);
    Goto(s, k, Leaving(p.deadline)).(row := Committed(s.row, p.copy, p.action, p.now, next))
  }

  function Apply(s: State, e: Event, next: Time -> Time): State
    requires Enabled(s, e)
  {
    match e
    case Start(k, now) => Goto(s, k, Started(now))
    case Acquire(k) => AcquireStep(s, k)
    case Refresh(k) => Goto(s, k, Refreshed(At(s, k).now, At(s, k).deadline, s.row))
    case Choose(k) => ChooseStep(s, k, next)
    case Commit(k) => CommitStep(s, k, next)
    case Release(k) => Goto(s, k, Idle).(lock := None)
    case Pass(clock) => s.(clock := clock)
    case Toggle => s.(row := s.row.(active := !s.row.active))
    case SetWorkflow(active) => s.(workflowActive := active)
  }

  ghost predicate Next(s: State, e: Event, s': State, next: Time -> Time) {
    Enabled(s, e) && s' == Apply(s, e, next)
  }

  /** No worker of a new run is at work; whatever the row says is where the run begins. */
  ghost predicate Trace(es: seq<Event>, ss: seq<State>, next: Time -> Time) {
    && |ss| == |es| + 1
    && ss[0].queue == [] && ss[0].workers == map[]
    && forall i | 0 <= i < |es| :: Next(ss[i], es[i], ss[i + 1], next)
  }

  /** No critical section has outlived its lock. */
  ghost predicate Timely(s: State) {
    forall k | InSection(At(s, k)) :: s.clock < At(s, k).deadline
  }

  ghost predicate TimelyRun(es: seq<Event>, ss: seq<State>, next: Time -> Time) {
    Trace(es, ss, next) && forall i | 0 <= i < |ss| :: Timely(ss[i])
  }

  // ---- The invariant ----

  ghost predicate OneHolder(s: State) {
    && (forall k | InSection(At(s, k)) :: s.lock == Some(At(s, k).deadline))
    && (forall j, k | InSection(At(s, j)) && InSection(At(s, k)) :: j == k)
  }

  /** The copy of the worker in the section is still the row, apart from `active`. */
  ghost predicate Fresh(p: Worker, s: State, next: Time -> Time) {
    && (p.Refreshed? || p.Writing? ==> p.copy.nextRunAt == s.row.nextRunAt && p.copy.totalRuns == s.row.totalRuns)
    && (p.Writing? ==> match p.action
                       case Leave => false
                       case Initialise(first) => s.row.nextRunAt.None? && first == next(p.now)
                       case Fire(slot) => s.row.nextRunAt == Some(slot) && slot <= p.now
                                          && |s.queue| > 0 && s.queue[|s.queue| - 1] == Firing(slot, p.now))
  }

  /** Some worker has enqueued a trigger and not committed it. */
  ghost predicate InFlight(s: State) {
    exists k :: At(s, k).Writing? && At(s, k).action.Fire?
  }

  /** Every firing was due, and consumed the slot that follows the clock of the firing before. */
  ghost predicate Chain(queue: seq<Firing>, next: Time -> Time) {
    && (forall i | 0 <= i < |queue| :: queue[i].slot <= queue[i].now)
    && (forall i | 0 <= i < |queue| - 1 :: queue[i + 1].slot == next(queue[i].now))
  }

  ghost predicate Accounts(s: State, base: nat, next: Time -> Time) {
    if InFlight(s) then s.row.totalRuns + 1 == base + |s.queue|
    else
      && s.row.totalRuns == base + |s.queue|
      && (|s.queue| > 0 ==> s.row.nextRunAt == Some(next(s.queue[|s.queue| - 1].now)))
  }

  ghost predicate Inv(s: State, base: nat, next: Time -> Time) {
    && OneHolder(s) && Chain(s.queue, next) && Accounts(s, base, next)
    && forall k :: Fresh(At(s, k), s, next)
  }

  /** Events that a worker outside the section can take, or that are nobody's. */
  predicate Outside(e: Event) {
    e.Start? || e.Acquire? || e.Pass? || e.Toggle? || e.SetWorkflow?
  }

  lemma OthersStay(s: State, e: Event, s': State, next: Time -> Time, k: WorkerId)
    requires Next(s, e, s', next) && (e.Pass? || e.Toggle? || e.SetWorkflow? || e.k != k)
    ensures At(s', k) == At(s, k)
  {
  }

  lemma OutsideKeepsHolder(s: State, e: Event, s': State, next: Time -> Time)
    requires OneHolder(s) && Timely(s) && Next(s, e, s', next) && Outside(e)
    ensures OneHolder(s')
  {
    hide Decide, Committed;
    forall k ensures InSection(At(s', k)) && !InSection(At(s, k)) ==> e == Acquire(k) && !Locked(s) {
      if e.Pass? || e.Toggle? || e.SetWorkflow? || e.k != k { OthersStay(s, e, s', next, k); }
    }
    forall k | InSection(At(s', k)) && InSection(At(s, k)) ensures At(s', k) == At(s, k) {
      if e.Pass? || e.Toggle? || e.SetWorkflow? || e.k != k { OthersStay(s, e, s', next, k); }
    }
  }

  lemma SectionKeepsHolder(s: State, e: Event, s': State, next: Time -> Time)
    requires OneHolder(s) && Next(s, e, s', next) && !Outside(e)
    ensures OneHolder(s')
  {
    hide Decide, Committed;
    assert InSection(At(s, e.k));
    forall k | k != e.k ensures !InSection(At(s', k)) { OthersStay(s, e, s', next, k); }
  }

  lemma OutsideKeeps(s: State, e: Event, s': State, base: nat, next: Time -> Time)
    requires Inv(s, base, next) && Timely(s) && Next(s, e, s', next) && Outside(e)
    ensures Inv(s', base, next)
  {
    OutsideKeepsHolder(s, e, s', next);
    forall k ensures Fresh(At(s', k), s', next) && (At(s', k).Writing? ==> At(s, k) == At(s', k)) {
      if e.Pass? || e.Toggle? || e.SetWorkflow? || e.k != k { OthersStay(s, e, s', next, k); }
      assert Fresh(At(s, k), s, next);
    }
    assert InFlight(s') <==> InFlight(s) by {
      if k :| At(s, k).Writing? && At(s, k).action.Fire? {
        if e.Pass? || e.Toggle? || e.SetWorkflow? || e.k != k { OthersStay(s, e, s', next, k); }
        assert At(s', k).Writing? && At(s', k).action.Fire?;
      }
    }
  }

  /** Whoever is in the section is the only one who can be writing. */
  lemma SoleWriter(s: State, k: WorkerId)
    requires OneHolder(s) && InSection(At(s, k))
    ensures InFlight(s) <==> At(s, k).Writing? && At(s, k).action.Fire?
  {
    if j :| At(s, j).Writing? && At(s, j).action.Fire? { assert InSection(At(s, j)); }
  }

  lemma SectionKeepsFresh(s: State, e: Event, s': State, base: nat, next: Time -> Time, k: WorkerId)
    requires Inv(s, base, next) && Timely(s) && Next(s, e, s', next) && !Outside(e)
    ensures Fresh(At(s', k), s', next)
  {
    if e.k != k {
      OthersStay(s, e, s', next, k);
      assert InSection(At(s, e.k));
    } else {
      assert Fresh(At(s, k), s, next);
    }
  }

  lemma SectionKeeps(s: State, e: Event, s': State, base: nat, next: Time -> Time)
    requires Inv(s, base, next) && Timely(s) && Next(s, e, s', next) && !Outside(e)
    ensures Inv(s', base, next)
  {
    SectionKeepsHolder(s, e, s', next);
    forall k ensures Fresh(At(s', k), s', next) { SectionKeepsFresh(s, e, s', base, next, k); }
    var k := e.k;
    SoleWriter(s, k);
    assert Fresh(At(s, k), s, next);
    if e.Release? {
      forall j ensures !InSection(At(s', j)) { if j != k { OthersStay(s, e, s', next, j); } }
      assert !InFlight(s');
    } else {
      assert InSection(At(s', k));
      SoleWriter(s', k);
    }
  }

  lemma {:induction false} RunKeeps(es: seq<Event>, ss: seq<State>, next: Time -> Time, i: nat)
    requires TimelyRun(es, ss, next) && i < |ss|
    ensures Inv(ss[i], ss[0].row.totalRuns, next)
  {
    if i > 0 {
      RunKeeps(es, ss, next, i - 1);
      assert Next(ss[i - 1], es[i - 1], ss[i - 1 + 1], next);
      assert Timely(ss[i - 1]);
      if Outside(es[i - 1]) {
        OutsideKeeps(ss[i - 1], es[i - 1], ss[i], ss[0].row.totalRuns, next);
      } else {
        SectionKeeps(ss[i - 1], es[i - 1], ss[i], ss[0].row.totalRuns, next);
      }
    }
  }

  // ---- What a timely run guarantees, whatever the workers' clocks say ----

  /** Two workers are never in the critical section together. */
  lemma MutualExclusion(es: seq<Event>, ss: seq<State>, next: Time -> Time, i: nat, j: WorkerId, k: WorkerId)
    requires TimelyRun(es, ss, next) && i < |ss| && InSection(At(ss[i], j)) && InSection(At(ss[i], k))
    ensures j == k
  {
    RunKeeps(es, ss, next, i);
  }

  lemma {:induction false} ChainAdvances(queue: seq<Firing>, slot: Time -> bool, next: Time -> Time, a: nat, b: nat)
    requires IsCron(slot, next) && Chain(queue, next) && a < b < |queue|
    ensures queue[a].now < queue[b].slot
    decreases b
  {
    assert queue[b - 1 + 1].slot == next(queue[b - 1].now);
    if a < b - 1 { ChainAdvances(queue, slot, next, a, b - 1); }
  }

  /**
   The slots of the firings strictly increase, each was due by the clock that fired it, each after the
   first is a cron slot, and it is the first slot after the clock of the firing before.
   */
  lemma FiringsAdvance(es: seq<Event>, ss: seq<State>, slot: Time -> bool, next: Time -> Time, i: nat, a: nat, b: nat)
    requires IsCron(slot, next) && TimelyRun(es, ss, next) && i < |ss| && a < b < |ss[i].queue|
    ensures ss[i].queue[a].slot <= ss[i].queue[a].now < ss[i].queue[b].slot
    ensures slot(ss[i].queue[b].slot)
    ensures b == a + 1 ==> forall x: Time | slot(x) && ss[i].queue[a].now < x :: ss[i].queue[b].slot <= x
  {
    RunKeeps(es, ss, next, i);
    var queue := ss[i].queue;
    ChainAdvances(queue, slot, next, a, b);
    assert queue[b - 1 + 1].slot == next(queue[b - 1].now);
  }

  ghost function Slots(queue: seq<Firing>): set<Time> {
    set f | f in queue :: f.slot
  }

  lemma SlotsOfLonger(queue: seq<Firing>, f: Firing)
    ensures Slots(queue + [f]) == Slots(queue) + {f.slot}
  {
    assert forall g :: g in queue + [f] <==> g in queue || g == f;
  }

  ghost predicate SlotsIncrease(queue: seq<Firing>) {
    forall a, b | 0 <= a < b < |queue| :: queue[a].slot < queue[b].slot
  }

  lemma LastSlotIsNew(queue: seq<Firing>, f: Firing)
    requires SlotsIncrease(queue + [f])
    ensures SlotsIncrease(queue) && f.slot !in Slots(queue)
  {
    var longer := queue + [f];
    forall a | 0 <= a < |queue| ensures queue[a].slot < f.slot {
      assert longer[a].slot < longer[|queue|].slot;
    }
    forall a, b | 0 <= a < b < |queue| ensures queue[a].slot < queue[b].slot {
      assert longer[a].slot < longer[b].slot;
    }
  }

  lemma {:induction false} DistinctSlots(queue: seq<Firing>)
    requires SlotsIncrease(queue)
    ensures |Slots(queue)| == |queue|
  {
    if queue == [] {
      assert Slots(queue) == {};
    } else {
      hide Slots, SlotsIncrease;
      var rest, f := queue[..|queue| - 1], queue[|queue| - 1];
      assert queue == rest + [f];
      LastSlotIsNew(rest, f);
      DistinctSlots(rest);
      SlotsOfLonger(rest, f);
    }
  }

  ghost predicate OnSlots(s: State, slot: Time -> bool) {
    (s.row.nextRunAt.Some? ==> slot(s.row.nextRunAt.value)) && forall f | f in s.queue :: slot(f.slot)
  }

  lemma StepStaysOnSlots(s: State, e: Event, s': State, base: nat, slot: Time -> bool, next: Time -> Time)
    requires IsCron(slot, next) && Inv(s, base, next) && Next(s, e, s', next) && OnSlots(s, slot)
    ensures OnSlots(s', slot)
  {
    if !Outside(e) { assert Fresh(At(s, e.k), s, next); }
  }

  lemma {:induction false} RunStaysOnSlots(es: seq<Event>, ss: seq<State>, slot: Time -> bool, next: Time -> Time,
      i: nat)
    requires IsCron(slot, next) && TimelyRun(es, ss, next) && i < |ss|
    requires ss[0].row.nextRunAt.Some? ==> slot(ss[0].row.nextRunAt.value)
    ensures OnSlots(ss[i], slot)
  {
    if i > 0 {
      RunStaysOnSlots(es, ss, slot, next, i - 1);
      RunKeeps(es, ss, next, i - 1);
      assert Next(ss[i - 1], es[i - 1], ss[i - 1 + 1], next);
      StepStaysOnSlots(ss[i - 1], es[i - 1], ss[i], ss[0].row.totalRuns, slot, next);
    }
  }

  /**
   Firings map one to one to cron slots, and total_runs has grown by one for each of them, except for
   the one a worker has enqueued and not yet committed.
   */
  lemma RunsAreSlots(es: seq<Event>, ss: seq<State>, slot: Time -> bool, next: Time -> Time, i: nat)
    requires IsCron(slot, next) && TimelyRun(es, ss, next) && i < |ss|
    requires ss[0].row.nextRunAt.Some? ==> slot(ss[0].row.nextRunAt.value)
    ensures var queue := ss[i].queue;
            && |Slots(queue)| == |queue| && (forall x | x in Slots(queue) :: slot(x))
            && ss[i].row.totalRuns + (if InFlight(ss[i]) then 1 else 0) == ss[0].row.totalRuns + |queue|
  {
    RunKeeps(es, ss, next, i);
    var queue := ss[i].queue;
    forall a, b | 0 <= a < b < |queue| ensures queue[a].slot < queue[b].slot {
      FiringsAdvance(es, ss, slot, next, i, a, b);
    }
    DistinctSlots(queue);
    RunStaysOnSlots(es, ss, slot, next, i);
  }

  /** However many slots were missed by time `t`, only the first firing at or after `t` can consume one of them. */
  lemma DowntimeFiresOnce(es: seq<Event>, ss: seq<State>, slot: Time -> bool, next: Time -> Time, i: nat, t: Time,
      a: nat, b: nat)
    requires IsCron(slot, next) && TimelyRun(es, ss, next) && i < |ss| && a < b < |ss[i].queue|
    requires ss[i].queue[a].now >= t
    ensures ss[i].queue[b].slot > t
  {
    FiringsAdvance(es, ss, slot, next, i, a, b);
  }

  lemma TraceGrows(es: seq<Event>, ss: seq<State>, e: Event, s: State, next: Time -> Time)
    requires Trace(es, ss, next) && Next(ss[|es|], e, s, next)
    ensures Trace(es + [e], ss + [s], next)
    ensures |ss| == |es| + 1 && (ss + [s])[|es + [e]|] == s
  {
    hide Next;
    var es', ss' := es + [e], ss + [s];
    forall i | 0 <= i < |es'| ensures Next(ss'[i], es'[i], ss'[i + 1], next) {
      if i < |es| { assert Next(ss[i], es[i], ss[i + 1], next); }
    }
  }

  // ---- What a visit does, in the row's own fields ----

  /** A lock taken at one moment is held for 120 seconds from it, and one that is held is not taken. */
  lemma AcquireMeans(s: State, k: WorkerId, s': State, next: Time -> Time, t: Time)
    requires Next(s, Acquire(k), s', next)
    ensures s.lock.None? || s.lock.value <= s.clock ==>
              && (Locked(s'.(clock := t)) <==> t < s.clock + 120.0)
              && At(s', k) == Holding(At(s, k).now, s.clock + 120.0)
    ensures s.lock.Some? && s.clock < s.lock.value ==> s' == s.(workers := s.workers[k := Idle])
  {
  }

  /** A worker sends one trigger, for the row's slot, exactly if row and workflow are active and the slot is due. */
  lemma ChooseMeans(s: State, k: WorkerId, s': State, next: Time -> Time)
    requires Next(s, Choose(k), s', next)
    ensures var row, now := At(s, k).copy, At(s, k).now;
            && s'.row == s.row
            && (forall x: Time | row.active && s.workflowActive && row.nextRunAt == Some(x) && x <= now ::
                  s'.queue == s.queue + [Firing(x, now)] && At(s', k).Writing?)
            && (!row.active || row.nextRunAt.None? || !s.workflowActive || row.nextRunAt.value > now ==>
                  s'.queue == s.queue)
            && (row.active && row.nextRunAt.None? ==> At(s', k).Writing?)
            && (!row.active || (row.nextRunAt.Some? && (!s.workflowActive || row.nextRunAt.value > now)) ==>
                  At(s', k).Leaving?)
  {
  }

  /** Inside the lock a worker works from a copy of the row as it is then, and at the end it frees the lock. */
  lemma RefreshAndReleaseMean(s: State, e: Event, s': State, next: Time -> Time)
    requires Next(s, e, s', next) && (e.Refresh? || e.Release?)
    ensures e.Refresh? ==> s' == s.(workers := s.workers[e.k := Refreshed(At(s, e.k).now, At(s, e.k).deadline, s.row)])
    ensures e.Release? ==> s' == s.(lock := None, workers := s.workers[e.k := Idle]) && !Locked(s')
  {
  }

  /** A worker starts by listing an active schedule; toggling it, or its workflow, changes that and nothing else. */
  lemma StartAndToggleMean(s: State, e: Event, s': State, next: Time -> Time)
    requires Next(s, e, s', next) && (e.Start? || e.Toggle? || e.SetWorkflow? || e.Pass?)
    ensures e.Start? ==> s.row.active && s' == s.(workers := s.workers[e.k := Started(e.now)])
    ensures e.Toggle? ==> s'.row.active != s.row.active && s' == s.(row := s.row.(active := s'.row.active))
    ensures e.SetWorkflow? ==> s' == s.(workflowActive := e.active)
    ensures e.Pass? ==> s'.clock >= s.clock && s' == s.(clock := e.clock)
  {
  }

  /** A commit writes what follows from the copy and the worker's clock, whatever has happened to the row since. */
  lemma CommitWrites(s: State, k: WorkerId, s': State, next: Time -> Time)
    requires Next(s, Commit(k), s', next)
    ensures var p := At(s, k);
            && s'.queue == s.queue && s'.lock == s.lock && At(s', k) == Leaving(p.deadline)
            && (forall x: Time | p.action == Fire(x) ::
                  s'.row == Schedule(s.row.active, Some(next(p.now)), Some(p.now), p.copy.totalRuns + 1))
            && (forall x: Time | p.action == Initialise(x) ::
                  s'.row == Schedule(s.row.active, Some(x), s.row.lastRunAt, s.row.totalRuns))
  {
  }

  /**
   What is then committed: a row with no next run gets the first slot after the worker's clock; a fired
   one gets that too, with its last run and one more in the count. Nothing else of the row changes.
   */
  lemma CommitMeans(es: seq<Event>, ss: seq<State>, next: Time -> Time, i: nat, k: WorkerId)
    requires TimelyRun(es, ss, next) && i < |es| && es[i] == Commit(k)
    ensures At(ss[i], k).Writing?
    ensures var row, now := ss[i].row, At(ss[i], k).now;
            && (row.nextRunAt.None? ==> ss[i + 1].row == row.(nextRunAt := Some(next(now))))
            && (row.nextRunAt.Some? ==>
                  && row.nextRunAt.value <= now
                  && ss[i + 1].row == Schedule(row.active, Some(next(now)), Some(now), row.totalRuns + 1))
  {
    RunKeeps(es, ss, next, i);
    assert Next(ss[i], es[i], ss[i + 1], next);
    assert Fresh(At(ss[i], k), ss[i], next);
  }

  /** One worker's visit from the start until it has enqueued a trigger, by any clock past the slot. */
  lemma Visit(es: seq<Event>, ss: seq<State>, next: Time -> Time, k: WorkerId, nxt: Time, now: Time)
    returns (es': seq<Event>, ss': seq<State>)
    requires Trace(es, ss, next) && nxt <= now
    requires var s := ss[|es|];
             At(s, k).Idle? && !Locked(s) && s.row.active && s.row.nextRunAt == Some(nxt) && s.workflowActive
    ensures Trace(es', ss', next)
    ensures |ss'| == |es'| + 1 && es <= es' && ss <= ss'
    ensures var s, s' := ss[|es|], ss'[|es'|];
            && s'.row == s.row && s'.clock == s.clock && s'.lock == Some(s.clock + LOCK_TTL)
            && s'.workflowActive == s.workflowActive && s'.queue == s.queue + [Firing(nxt, now)]
            && forall j | j != k :: At(s', j) == At(s, j)
  {
    var s := ss[|es|];
    hide Trace;
    var s1 := Apply(s, Start(k, now), next);
    var s2 := Apply(s1, Acquire(k), next);
    var s3 := Apply(s2, Refresh(k), next);
    var s4 := Apply(s3, Choose(k), next);
    es', ss' := es, ss;
    TraceGrows(es', ss', Start(k, now), s1, next);
    es', ss' := es' + [Start(k, now)], ss' + [s1];
    TraceGrows(es', ss', Acquire(k), s2, next);
    es', ss' := es' + [Acquire(k)], ss' + [s2];
    TraceGrows(es', ss', Refresh(k), s3, next);
    es', ss' := es' + [Refresh(k)], ss' + [s3];
    TraceGrows(es', ss', Choose(k), s4, next);
    es', ss' := es' + [Choose(k)], ss' + [s4];
  }

  /** The hypothesis is needed: a worker that outlives its lock lets another fire the same slot. */
  lemma OverrunFiresTwice(next: Time -> Time) returns (es: seq<Event>, ss: seq<State>)
    ensures Trace(es, ss, next) && ss[|es|].queue == [Firing(0.0, 0.0), Firing(0.0, 0.0)]
  {
    var s0 := State(0.0, None, Schedule(true, Some(0.0), None, 0), true, [], map[]);
    es, ss := Visit([], [s0], next, 0, 0.0, 0.0);
    var s := ss[|es|];
    var late := s.(clock := LOCK_TTL);
    assert At(s, 1) == At(s0, 1) == At(late, 1);
    TraceGrows(es, ss, Pass(LOCK_TTL), late, next);
    es, ss := es + [Pass(LOCK_TTL)], ss + [late];
    assert ss[|es|] == late;
    es, ss := Visit(es, ss, next, 1, 0.0, 0.0);
  }
}
