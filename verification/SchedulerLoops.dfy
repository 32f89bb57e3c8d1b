/** check_and_trigger as one worker's loop over all schedules, with the lock of each in Redis. */
module SchedulerLoops {
  import opened Options
  import opened Scheduling

  type ScheduleId = string

  class RedisClient {
    var clock: Time
    var keys: map<string, Time>    // when each key expires

    constructor ()
      ensures keys == map[]
    {
      clock, keys := 0.0, map[];
    }

    predicate Held(key: string)
      reads this
    {
      key in keys && clock < keys[key]
    }

    /** SET key 1 NX EX ttl. */
    method AcquireLock(key: string, ttl: Time) returns (ok: bool)
      modifies this`keys
      ensures ok == !old(Held(key))
      ensures keys == if ok then old(keys)[key := clock + ttl] else old(keys)
    {
      ok := !(key in keys && clock < keys[key]);
      if ok { keys := keys[key := clock + ttl]; }
    }

    /** DEL key, whoever holds it. */
    method ReleaseLock(key: string)
      modifies this`keys
      ensures keys == old(keys) - {key}
    {
      keys := keys - {key};
    }
  }

  function LockKey(id: ScheduleId): string {
    "schedule_lock:" + id
  }

  /** No two schedules share a lock. */
  lemma LockKeysDiffer(a: ScheduleId, b: ScheduleId)
    requires LockKey(a) == LockKey(b)
    ensures a == b
  {
    var n := |"schedule_lock:"|;
    assert a == LockKey(a)[n..] && b == LockKey(b)[n..];
  }

  /** A visit that nothing interrupts: refresh, decide and commit. */
  function Visited(row: Schedule, now: Time, workflowActive: bool, next: Time -> Time): Schedule {
    Committed(row, row, Decide(row, now, workflowActive, next), now, next)
  }

  datatype Trigger = Trigger(id: ScheduleId, firing: Firing)

  /** The rows after visiting, in order, those of `ids` that are free. */
  function AfterVisits(rows: map<ScheduleId, Schedule>, ids: seq<ScheduleId>, free: set<ScheduleId>, now: Time,
                       workflowActive: ScheduleId -> bool, next: ScheduleId -> Time -> Time):
                           (after: map<ScheduleId, Schedule>)
    requires forall id | id in ids :: id in rows
    ensures after.Keys == rows.Keys
  {
    if ids == [] then rows
    else
      var id := ids[|ids| - 1];
      var before := AfterVisits(rows, ids[..|ids| - 1], free, now, workflowActive, next);
      if id in free then before[id := Visited(before[id], now, workflowActive(id), next(id))] else before
  }

  /** The triggers those visits send. */
  function Sent(rows: map<ScheduleId, Schedule>, ids: seq<ScheduleId>, free: set<ScheduleId>, now: Time,
                workflowActive: ScheduleId -> bool, next: ScheduleId -> Time -> Time): seq<Trigger>
    requires forall id | id in ids :: id in rows
  {
    if ids == [] then []
    else
      var id, init := ids[|ids| - 1], ids[..|ids| - 1];
      var action := Decide(AfterVisits(rows, init, free, now, workflowActive, next)[id], now,
          workflowActive(id), next(id));
      Sent(rows, init, free, now, workflowActive, next)
        + if id in free && action.Fire? then [Trigger(id, Firing(action.slot, now))] else []
  }

  /** A schedule listed once is visited once if it is free, on the row it had, and the others keep theirs. */
  lemma {:induction false} VisitsAreSeparate(rows: map<ScheduleId, Schedule>, ids: seq<ScheduleId>,
      free: set<ScheduleId>, now: Time, workflowActive: ScheduleId -> bool, next: ScheduleId -> Time -> Time,
      x: ScheduleId)
    requires forall id | id in ids :: id in rows
    requires forall i, j | 0 <= i < j < |ids| :: ids[i] != ids[j]
    requires x in rows
    ensures AfterVisits(rows, ids, free, now, workflowActive, next)[x]
         == if x in ids && x in free then Visited(rows[x], now, workflowActive(x), next(x)) else rows[x]
  {
    if ids != [] {
      var init, last := ids[..|ids| - 1], ids[|ids| - 1];
      assert ids == init + [last];
      assert last !in init;
      VisitsAreSeparate(rows, init, free, now, workflowActive, next, x);
    }
  }

  /**
   What a check leaves in the row of a listed schedule that is free: with no next run, the first slot
   after the clock; due and with an active workflow, that slot too, the last run and one more in the
   count. Every other row is unchanged.
   */
  lemma CheckedRow(rows: map<ScheduleId, Schedule>, ids: seq<ScheduleId>, free: set<ScheduleId>, now: Time,
      workflowActive: ScheduleId -> bool, next: ScheduleId -> Time -> Time, x: ScheduleId)
    requires forall id | id in ids :: id in rows
    requires forall i, j | 0 <= i < j < |ids| :: ids[i] != ids[j]
    requires x in rows
    ensures var row, row' := rows[x], AfterVisits(rows, ids, free, now, workflowActive, next)[x];
            if x !in ids || x !in free || !row.active then row' == row
            else if row.nextRunAt == None then row' == row.(nextRunAt := Some(next(x)(now)))
            else if row.nextRunAt.value <= now && workflowActive(x) then
              row' == Schedule(true, Some(next(x)(now)), Some(now), row.totalRuns + 1)
            else row' == row
  {
    VisitsAreSeparate(rows, ids, free, now, workflowActive, next, x);
  }

  lemma {:induction false} SentIffFired(rows: map<ScheduleId, Schedule>, ids: seq<ScheduleId>, free: set<ScheduleId>,
      now: Time, workflowActive: ScheduleId -> bool, next: ScheduleId -> Time -> Time, t: Trigger)
    requires forall id | id in ids :: id in rows
    requires forall i, j | 0 <= i < j < |ids| :: ids[i] != ids[j]
    ensures var n := multiset(Sent(rows, ids, free, now, workflowActive, next))[t];
            var fired := && t.id in ids && t.id in free && t.firing.now == now
                         && Decide(rows[t.id], now, workflowActive(t.id), next(t.id)) == Fire(t.firing.slot);
            n == if fired then 1 else 0
  {
    hide Decide;
    if ids != [] {
      var init, last := ids[..|ids| - 1], ids[|ids| - 1];
      assert ids == init + [last];
      assert last !in init;
      SentIffFired(rows, init, free, now, workflowActive, next, t);
      VisitsAreSeparate(rows, init, free, now, workflowActive, next, last);
    }
  }

  /**
   A check sends a trigger once if it is for a listed schedule that is free and active, whose workflow is
   active, whose next run is the slot, and whose slot is not after the clock; otherwise it does not.
   */
  lemma SentIffDue(rows: map<ScheduleId, Schedule>, ids: seq<ScheduleId>, free: set<ScheduleId>,
      now: Time, workflowActive: ScheduleId -> bool, next: ScheduleId -> Time -> Time, t: Trigger)
    requires forall id | id in ids :: id in rows
    requires forall i, j | 0 <= i < j < |ids| :: ids[i] != ids[j]
    ensures var n := multiset(Sent(rows, ids, free, now, workflowActive, next))[t];
            var due := && t.id in ids && t.id in free && rows[t.id].active && workflowActive(t.id)
                       && rows[t.id].nextRunAt == Some(t.firing.slot) && t.firing.slot <= now && t.firing.now == now;
            n == if due then 1 else 0
  {
    hide Sent;
    SentIffFired(rows, ids, free, now, workflowActive, next, t);
  }

  class WorkflowScheduler {
    const redis: RedisClient
    const next: ScheduleId -> Time -> Time
    const workflowActive: ScheduleId -> bool
    var rows: map<ScheduleId, Schedule>
    var queue: seq<Trigger>

    constructor (redis: RedisClient, next: ScheduleId -> Time -> Time,
        workflowActive: ScheduleId -> bool, rows: map<ScheduleId, Schedule>)
      ensures this.redis == redis && this.rows == rows && queue == []
    {
      this.redis, this.next, this.workflowActive, this.rows, queue := redis, next, workflowActive, rows, [];
    }

    /** Lines 47-70, inside the lock. */
    method VisitSchedule(id: ScheduleId, now: Time)
      requires id in rows
      modifies this
      ensures rows == old(rows)[id := Visited(old(rows)[id], now, workflowActive(id), next(id))]
      ensures var row := old(rows)[id];
              var due := row.active && row.nextRunAt.Some? && row.nextRunAt.value <= now && workflowActive(id);
              && queue == old(queue) + (if due then [Trigger(id, Firing(row.nextRunAt.value, now))] else [])
              && rows[id] == if due then Schedule(true, Some(next(id)(now)), Some(now), row.totalRuns + 1)
                             else if row.active && row.nextRunAt.None? then row.(nextRunAt := Some(next(id)(now)))
                             else row
      ensures var action := Decide(old(rows)[id], now, workflowActive(id), next(id));
              queue == old(queue) + if action.Fire? then [Trigger(id, Firing(action.slot, now))] else []
    {
      var sched := rows[id];
      if !sched.active { return; }
      if sched.nextRunAt.None? {
        rows := rows[id := sched.(nextRunAt := Some(next(id)(now)))];
        return;
      }
      var nxt := sched.nextRunAt.value;
      if nxt > now { return; }
      if !workflowActive(id) { return; }
      queue := queue + [Trigger(id, Firing(nxt, now))];
      sched := sched.(lastRunAt := Some(now));
      sched := sched.(totalRuns := sched.totalRuns + 1);
      sched := sched.(nextRunAt := Some(next(id)(now)));
      rows := rows[id := sched];
    }

    /** Visits the listed schedules whose locks are free, and gives back every lock it takes. */
    method CheckAndTrigger(schedules: seq<ScheduleId>, now: Time)
      requires forall id | id in schedules :: id in rows
      modifies this, redis
      ensures var free := set id | id in schedules && !old(redis.Held(LockKey(id)));
              && rows == AfterVisits(old(rows), schedules, free, now, workflowActive, next)
              && queue == old(queue) + Sent(old(rows), schedules, free, now, workflowActive, next)
      ensures forall key :: redis.Held(key) == old(redis.Held(key))
    {
      hide Visited, Decide;
      ghost var free := set id | id in schedules && !redis.Held(LockKey(id));
      var i := 0;
      while i < |schedules|
        invariant 0 <= i <= |schedules| && redis.clock == old(redis.clock)
        invariant rows == AfterVisits(old(rows), schedules[..i], free, now, workflowActive, next)
        invariant queue == old(queue) + Sent(old(rows), schedules[..i], free, now, workflowActive, next)
        invariant forall key :: redis.Held(key) == old(redis.Held(key))
      {
        var id := schedules[i];
        assert schedules[..i + 1][..i] == schedules[..i];
        var acquired := redis.AcquireLock(LockKey(id), LOCK_TTL);
        if acquired {
          VisitSchedule(id, now);
          redis.ReleaseLock(LockKey(id));
        }
        i := i + 1;
      }
      assert schedules[..i] == schedules;
    }
  }
}
