/** Worker processes with bounded slot pools, polling, claiming and running jobs against one table. */
module JobQueue {
  import opened Results
  import opened JobTable

  /** Handler running; its outcome written (or the write failed); slot given back. */
  datatype Phase = Working | Recorded | Released

  datatype Task = Task(job: nat, attempt: nat, since: int, phase: Phase)

  /** One process: taken slots, whether the poll loop holds one while it claims, and the goroutines it has started. */
  datatype Pool = Pool(slots: nat, claiming: bool, tasks: map<nat, Task>)

  datatype System = System(table: Table, pools: map<string, Pool>, capacity: nat, stale: nat, handlers: set<string>)

  datatype Outcome = Succeeds | Errs | Panics

  datatype Action =
    | StartWorker(worker: string)
    | Acquire(worker: string)
    | Claim(worker: string, task: nat, skipped: set<nat>, dbOk: bool)
    | Finish(worker: string, task: nat, outcome: Outcome, dbOk: bool)
    | Release(worker: string, task: nat)
    | Exit(worker: string, task: nat)
    | CrashWorker(worker: string)
    | Tick(seconds: nat)
    | EnqueueAny(kind: string, runAt: Option<int>, maxAttempts: int)
    | AdminRetry(job: nat)

  /** Success completes the job; an error, a panic or an unknown kind fails it. */
  function Written(t: Table, handlers: set<string>, task: Task, outcome: Outcome): Table
  {
    if task.job < |t.jobs| && t.jobs[task.job].kind !in handlers then Fail(t, task.job, 0).0
    else if outcome.Succeeds? then Complete(t, task.job).0
    else Fail(t, task.job, RetryBackoff(task.attempt)).0
  }

  function HasTask(s: System, w: string, t: nat, phase: Phase): bool
  {
    w in s.pools && t in s.pools[w].tasks && s.pools[w].tasks[t].phase == phase
  }

  function WithPool(s: System, w: string, p: Pool): System
  {
    s.(pools := s.pools[w := p])
  }

  function WithPhase(s: System, w: string, t: nat, phase: Phase): System
    requires w in s.pools && t in s.pools[w].tasks
  {
    var p := s.pools[w];
    WithPool(s, w, p.(tasks := p.tasks[t := p.tasks[t].(phase := phase)]))
  }

  function Step(s: System, action: Action): System
  {
    match action
    case StartWorker(w) => if w in s.pools then s else WithPool(s, w, Pool(0, false, map[]))
    case Acquire(w) =>
      if w in s.pools && !s.pools[w].claiming && s.pools[w].slots < s.capacity
      then WithPool(s, w, s.pools[w].(slots := s.pools[w].slots + 1, claiming := true))
      else s
    case Claim(w, t, skipped, dbOk) =>
      if w !in s.pools || !s.pools[w].claiming || t in s.pools[w].tasks then s
      else
        var p := s.pools[w].(claiming := false);
        var next := Next(s.table, s.stale, skipped);
        if !dbOk || next.None? then WithPool(s, w, p.(slots := if p.slots > 0 then p.slots - 1 else 0))
        else
          var task := Task(next.value, s.table.jobs[next.value].attempts + 1, s.table.now, Working);
          WithPool(s, w, p.(tasks := p.tasks[t := task])).(table := Taken(s.table, next.value, w))
    case Finish(w, t, outcome, dbOk) =>
      if !HasTask(s, w, t, Working) then s
      else WithPhase(s, w, t, Recorded).(table := if dbOk
        then Written(s.table, s.handlers, s.pools[w].tasks[t], outcome) else s.table)
    case Release(w, t) =>
      if !HasTask(s, w, t, Recorded) then s
      else
        var r := WithPhase(s, w, t, Released);
        WithPool(r, w, r.pools[w].(slots := if r.pools[w].slots > 0 then r.pools[w].slots - 1 else 0))
    case Exit(w, t) =>
      if !HasTask(s, w, t, Released) then s else WithPool(s, w, s.pools[w].(tasks := s.pools[w].tasks - {t}))
    case CrashWorker(w) => s.(pools := s.pools - {w})
    case Tick(seconds) => s.(table := s.table.(now := s.table.now + seconds))
    case EnqueueAny(kind, runAt, maxAttempts) => s.(table := Enqueue(s.table, kind, runAt, maxAttempts))
    case AdminRetry(i) => s.(table := Retry(s.table, i).0)
  }

  function Start(now: int, capacity: nat, stale: nat, handlers: set<string>): System
  {
    System(Table(now, []), map[], capacity, stale, handlers)
  }

  function After(s: System, run: seq<Action>): System
  {
    if run == [] then s else Step(After(s, run[..|run| - 1]), run[|run| - 1])
  }

  // ----- rows over any run -----

  lemma StepKeepsRows(s: System, action: Action)
    requires TableOk(s.table)
    ensures TableOk(Step(s, action).table)
  {
    hide RetryBackoff, Next, Ahead;
    forall i | 0 <= i < |Step(s, action).table.jobs| ensures JobOk(Step(s, action).table.jobs[i]) { }
  }

  /** In every run: failed means attempts remain, dead means they are used up, queued means none were made, a lease is
      set exactly when claimed, and attempts since the last queueing exceed the maximum by at most the stale leases
      taken over. */
  lemma {:induction false} RowsStayOk(now: int, capacity: nat, stale: nat, handlers: set<string>, run: seq<Action>)
    ensures TableOk(After(Start(now, capacity, stale, handlers), run).table)
  {
    if run != [] {
      RowsStayOk(now, capacity, stale, handlers, run[..|run| - 1]);
      StepKeepsRows(After(Start(now, capacity, stale, handlers), run[..|run| - 1]), run[|run| - 1]);
      hide Step, TableOk;
    }
  }

  /** Done absorbs; a dead job changes only through the admin retry; no row disappears. */
  lemma DoneAndDeadStay(s: System, action: Action, i: nat)
    requires i < |s.table.jobs|
    ensures i < |Step(s, action).table.jobs|
    ensures s.table.jobs[i].status == Done ==> Step(s, action).table.jobs[i] == s.table.jobs[i]
    ensures s.table.jobs[i].status == Dead && action != AdminRetry(i) ==>
      Step(s, action).table.jobs[i] == s.table.jobs[i]
  {
    hide RetryBackoff, Next;
    match action
    case Claim(w, t, skipped, dbOk) =>
      assert IsNext(s.table, s.stale, skipped, Next(s.table, s.stale, skipped)); hide Ahead;
    case _ =>
  }

  /** Over any continuation: a finished job is finished for good, and only the admin revives a dead one. */
  lemma {:induction false} DoneForever(s: System, run: seq<Action>, i: nat)
    requires i < |s.table.jobs|
    ensures i < |After(s, run).table.jobs|
    ensures s.table.jobs[i].status == Done ==> After(s, run).table.jobs[i] == s.table.jobs[i]
    ensures s.table.jobs[i].status == Dead && AdminRetry(i) !in run ==> After(s, run).table.jobs[i] == s.table.jobs[i]
    decreases |run|
  {
    if run != [] {
      var n := |run| - 1;
      DoneForever(s, run[..n], i);
      DoneAndDeadStay(After(s, run[..n]), run[n], i);
      assert run == run[..n] + [run[n]];
      hide Step;
    }
  }

  // ----- due dates over any run -----

  lemma ClockAndWaiting(s: System, action: Action, i: nat)
    requires i < |s.table.jobs|
    ensures Step(s, action).table.now >= s.table.now && i < |Step(s, action).table.jobs|
    ensures ((s.table.jobs[i].status == Queued || s.table.jobs[i].status == Failed)
        && s.table.now < s.table.jobs[i].runAt && action != AdminRetry(i)) ==>
      Step(s, action).table.jobs[i] == s.table.jobs[i]
  {
    hide RetryBackoff, Next, Eligible, IsNext, Ahead;
    match action
    case Claim(w, t, skipped, dbOk) =>
      if Next(s.table, s.stale, skipped).Some? { NextIsDue(s.table, s.stale, skipped); }
    case _ =>
  }

  /** Unless the admin retries it, a queued or failed job is left alone until the clock reaches its due date, whatever
      the workers do. */
  lemma {:induction false} NothingBeforeItsTime(s: System, run: seq<Action>, i: nat)
    requires i < |s.table.jobs| && (s.table.jobs[i].status == Queued || s.table.jobs[i].status == Failed)
    requires AdminRetry(i) !in run && After(s, run).table.now < s.table.jobs[i].runAt
    ensures i < |After(s, run).table.jobs| && After(s, run).table.jobs[i] == s.table.jobs[i]
    decreases |run|
  {
    if run != [] {
      var n := |run| - 1;
      DoneForever(s, run[..n], i);
      ClockAndWaiting(After(s, run[..n]), run[n], i);
      assert run == run[..n] + [run[n]];
      NothingBeforeItsTime(s, run[..n], i);
      hide Step;
    }
  }

  /** A job that fails with attempts left is due again when the backoff for its attempt is over, and no worker touches
      it before then. */
  lemma BackoffIsKept(s: System, w: string, t: nat, outcome: Outcome, run: seq<Action>)
    requires HasTask(s, w, t, Working) && outcome != Succeeds
    requires var task := s.pools[w].tasks[t];
      && task.job < |s.table.jobs| && s.table.jobs[task.job].status == Claimed
      && s.table.jobs[task.job].attempts < s.table.jobs[task.job].maxAttempts
      && s.table.jobs[task.job].kind in s.handlers && AdminRetry(task.job) !in run
    ensures var task, failed := s.pools[w].tasks[t], Step(s, Finish(w, t, outcome, true));
      && task.job < |failed.table.jobs| && failed.table.jobs[task.job].status == Failed
      && failed.table.jobs[task.job].runAt == s.table.now + RetryBackoff(task.attempt)
      && (After(failed, run).table.now < s.table.now + RetryBackoff(task.attempt) ==>
            task.job < |After(failed, run).table.jobs|
              && After(failed, run).table.jobs[task.job] == failed.table.jobs[task.job])
  {
    var task, failed := s.pools[w].tasks[t], Step(s, Finish(w, t, outcome, true));
    assert failed.table == Fail(s.table, task.job, RetryBackoff(task.attempt)).0;
    hide Step, RetryBackoff, After;
    if After(failed, run).table.now < s.table.now + RetryBackoff(task.attempt) {
      NothingBeforeItsTime(failed, run, task.job);
    }
  }

  // ----- slots -----

  function Held(p: Pool): set<nat>
  {
    set t | t in p.tasks && !p.tasks[t].phase.Released?
  }

  /** Taken slots are the goroutines that have not given theirs back, plus the one the poll loop holds while it
      claims. */
  ghost predicate PoolOk(p: Pool, capacity: nat)
  {
    p.slots == |Held(p)| + (if p.claiming then 1 else 0) <= capacity
  }

  ghost predicate PoolsOk(s: System)
  {
    forall w :: w in s.pools ==> PoolOk(s.pools[w], s.capacity)
  }

  lemma StepKeepsSlots(s: System, action: Action)
    requires PoolsOk(s)
    ensures PoolsOk(Step(s, action)) && Step(s, action).capacity == s.capacity
  {
    hide Next, Written, Taken, Enqueue, Retry, PoolOk;
    var s' := Step(s, action);
    forall w | w in s'.pools ensures PoolOk(s'.pools[w], s.capacity) {
      if w in s.pools {
        PoolStep(s, action, w);
      } else {
        EmptyPoolOk(s.capacity);
      }
    }
  }

  lemma EmptyPoolOk(capacity: nat)
    ensures PoolOk(Pool(0, false, map[]), capacity)
  {
    assert Held(Pool(0, false, map[])) == {};
  }

  lemma PoolStep(s: System, action: Action, w: string)
    requires w in s.pools && PoolOk(s.pools[w], s.capacity) && w in Step(s, action).pools
    ensures PoolOk(Step(s, action).pools[w], s.capacity)
  {
    hide Next, Written, Taken, Enqueue, Retry, Held;
    var p, p' := s.pools[w], Step(s, action).pools[w];
    if p' != p {
      match action
      case Acquire(_) => SameHeld(p, p');
      case Claim(_, t, _, _) => if p'.tasks == p.tasks { SameHeld(p, p'); } else { OneMoreHeld(p, p', t); }
      case Finish(_, t, _, _) => PhaseHeld(p, p', t);
      case Release(_, t) => PhaseHeld(p, p', t);
      case Exit(_, t) => ExitHeld(p, p', t);
    }
  }

  lemma SameHeld(p: Pool, p': Pool)
    requires p'.tasks == p.tasks
    ensures Held(p') == Held(p)
  {
  }

  lemma OneMoreHeld(p: Pool, p': Pool, t: nat)
    requires t !in p.tasks && t in p'.tasks && p'.tasks == p.tasks[t := p'.tasks[t]] && p'.tasks[t].phase == Working
    ensures |Held(p')| == |Held(p)| + 1
  {
    assert Held(p') == Held(p) + {t};
  }

  lemma PhaseHeld(p: Pool, p': Pool, t: nat)
    requires t in p.tasks && t in p'.tasks && p'.tasks == p.tasks[t := p'.tasks[t]] && p.tasks[t].phase != Released
    ensures |Held(p')| == |Held(p)| - if p'.tasks[t].phase.Released? then 1 else 0
    ensures |Held(p)| > 0
  {
    assert t in Held(p);
    if p'.tasks[t].phase.Released? { assert Held(p') == Held(p) - {t}; } else { assert Held(p') == Held(p); }
  }

  lemma ExitHeld(p: Pool, p': Pool, t: nat)
    requires t in p.tasks && p.tasks[t].phase == Released && p'.tasks == p.tasks - {t}
    ensures Held(p') == Held(p)
  {
  }

  /** In every run, on success, error and panic alike, no process ever has more jobs in flight than its slots. */
  lemma {:induction false} InFlightWithinSlots(now: int, capacity: nat, stale: nat, handlers: set<string>,
    run: seq<Action>, w: string)
    requires w in After(Start(now, capacity, stale, handlers), run).pools
    ensures var p := After(Start(now, capacity, stale, handlers), run).pools[w];
      p.slots == |Held(p)| + (if p.claiming then 1 else 0) <= capacity
  {
    SlotsInEveryRun(now, capacity, stale, handlers, run);
    hide After, Held;
  }

  lemma {:induction false} SlotsInEveryRun(now: int, capacity: nat, stale: nat, handlers: set<string>, run: seq<Action>)
    ensures PoolsOk(After(Start(now, capacity, stale, handlers), run))
      && After(Start(now, capacity, stale, handlers), run).capacity == capacity
  {
    if run != [] {
      SlotsInEveryRun(now, capacity, stale, handlers, run[..|run| - 1]);
      StepKeepsSlots(After(Start(now, capacity, stale, handlers), run[..|run| - 1]), run[|run| - 1]);
      hide Step, PoolsOk;
    }
  }

  // ----- exclusive processing -----

  predicate Busy(s: System, w: string, t: nat)
  {
    HasTask(s, w, t, Working)
  }

  function TaskOf(s: System, w: string, t: nat): Task
    requires Busy(s, w, t)
  {
    s.pools[w].tasks[t]
  }

  /** A running task still holds the lease it claimed under. */
  predicate HoldsLease(s: System, w: string, t: nat)
    requires Busy(s, w, t)
  {
    var task := TaskOf(s, w, t);
    task.job < |s.table.jobs| && s.table.jobs[task.job].status == Claimed
      && s.table.jobs[task.job].lease == Some(Lease(w, task.since))
  }

  ghost predicate Exclusive(s: System)
  {
    && (forall w, t :: Busy(s, w, t) ==> HoldsLease(s, w, t))
    && (forall w, t, w', t' ::
      Busy(s, w, t) && Busy(s, w', t') && (w != w' || t != t') ==> TaskOf(s, w, t).job != TaskOf(s, w', t').job)
  }

  /** No task has been running for longer than the stale threshold. */
  ghost predicate Timely(s: System)
  {
    forall w, t :: Busy(s, w, t) ==> s.table.now - TaskOf(s, w, t).since <= s.stale
  }

  /** A job under way can be claimed again exactly when its task has outlived the stale threshold. */
  lemma ReclaimableExactlyWhenLate(s: System, w: string, t: nat)
    requires Exclusive(s) && Busy(s, w, t)
    ensures HoldsLease(s, w, t)
    ensures Eligible(s.table.jobs[TaskOf(s, w, t).job], s.table.now, s.stale) <==>
      s.table.now - TaskOf(s, w, t).since > s.stale
  {
    assert HoldsLease(s, w, t);
  }

  lemma StepKeepsExclusive(s: System, action: Action)
    requires Exclusive(s) && Timely(s)
    ensures Exclusive(Step(s, action))
  {
    var s' := Step(s, action);
    hide RetryBackoff;
    match action
    case Claim(w, t, skipped, dbOk) => ClaimKeepsExclusive(s, w, t, skipped, dbOk);
    case Finish(w, t, outcome, dbOk) => FinishKeepsExclusive(s, w, t, outcome, dbOk);
    case _ =>
      forall w, t | Busy(s', w, t)
        ensures Busy(s, w, t) && TaskOf(s', w, t) == TaskOf(s, w, t) && HoldsLease(s', w, t)
      {
        assert HoldsLease(s, w, t);
      }
  }

  lemma ClaimKeepsExclusive(s: System, w: string, t: nat, skipped: set<nat>, dbOk: bool)
    requires Exclusive(s) && Timely(s)
    ensures Exclusive(Step(s, Claim(w, t, skipped, dbOk)))
  {
    var s' := Step(s, Claim(w, t, skipped, dbOk));
    var next := Next(s.table, s.stale, skipped);
    hide Next, Exclusive, Timely;
    forall w', t' | Busy(s, w', t')
      ensures HoldsLease(s, w', t') && (next.Some? ==> TaskOf(s, w', t').job != next.value)
    {
      LeaseOf(s, w', t');
    }
    OthersApart(s);
    hide Ahead, Eligible, IsNext;
    forall w', t' | Busy(s', w', t')
      ensures HoldsLease(s', w', t')
    {
      if w' != w || t' != t { assert Busy(s, w', t'); }
    }
    forall w1, t1, w2, t2 | Busy(s', w1, t1) && Busy(s', w2, t2) && (w1 != w2 || t1 != t2)
      ensures TaskOf(s', w1, t1).job != TaskOf(s', w2, t2).job
    {
      assert (w1 != w || t1 != t) ==> Busy(s, w1, t1);
      assert (w2 != w || t2 != t) ==> Busy(s, w2, t2);
    }
    assert Exclusive(s') by { ExclusiveIntro(s'); }
  }

  lemma LeaseOf(s: System, w: string, t: nat)
    requires Exclusive(s) && Timely(s) && Busy(s, w, t)
    ensures HoldsLease(s, w, t) && !Eligible(s.table.jobs[TaskOf(s, w, t).job], s.table.now, s.stale)
  {
    ReclaimableExactlyWhenLate(s, w, t);
  }

  lemma OthersApart(s: System)
    requires Exclusive(s)
    ensures forall w, t, w', t' ::
      Busy(s, w, t) && Busy(s, w', t') && (w != w' || t != t') ==> TaskOf(s, w, t).job != TaskOf(s, w', t').job
  {
  }

  lemma ExclusiveIntro(s: System)
    requires forall w, t :: Busy(s, w, t) ==> HoldsLease(s, w, t)
    requires forall w, t, w', t' ::
      Busy(s, w, t) && Busy(s, w', t') && (w != w' || t != t') ==> TaskOf(s, w, t).job != TaskOf(s, w', t').job
    ensures Exclusive(s)
  {
  }

  lemma FinishKeepsExclusive(s: System, w: string, t: nat, outcome: Outcome, dbOk: bool)
    requires Exclusive(s)
    ensures Exclusive(Step(s, Finish(w, t, outcome, dbOk)))
  {
    var s' := Step(s, Finish(w, t, outcome, dbOk));
    OthersApart(s);
    hide Written;
    forall w', t' | Busy(s', w', t')
      ensures Busy(s, w', t') && TaskOf(s', w', t') == TaskOf(s, w', t') && HoldsLease(s', w', t')
    {
      assert Busy(s, w', t') && HoldsLease(s, w', t');
      if Busy(s, w, t) { WritesOwnRow(s.table, s.handlers, TaskOf(s, w, t), outcome, TaskOf(s, w', t').job); }
    }
    hide Step;
  }

  lemma WritesOwnRow(table: Table, handlers: set<string>, task: Task, outcome: Outcome, i: nat)
    ensures var after := Written(table, handlers, task, outcome);
      |after.jobs| == |table.jobs| && (i < |table.jobs| && i != task.job ==> after.jobs[i] == table.jobs[i])
  {
    hide RetryBackoff;
  }

  /** Every state along the run is timely. */
  ghost predicate TimelyRun(s: System, run: seq<Action>)
  {
    forall k :: 0 <= k <= |run| ==> Timely(After(s, run[..k]))
  }

  /** If every task finishes within the stale threshold, no two workers ever process the same job at once. */
  lemma {:induction false} NoDoubleProcessing(now: int, capacity: nat, stale: nat, handlers: set<string>,
    run: seq<Action>)
    requires TimelyRun(Start(now, capacity, stale, handlers), run)
    ensures Exclusive(After(Start(now, capacity, stale, handlers), run))
  {
    var s := Start(now, capacity, stale, handlers);
    if run != [] {
      var n := |run| - 1;
      assert forall k :: 0 <= k <= n ==> run[..n][..k] == run[..k];
      NoDoubleProcessing(now, capacity, stale, handlers, run[..n]);
      assert Timely(After(s, run[..n]));
      StepKeepsExclusive(After(s, run[..n]), run[n]);
      hide Step, Exclusive, Timely;
    }
  }

  /** One queued job, two idle workers. */
  function TwoIdle(stale: nat, capacity: nat): System
  {
    var pool := Pool(0, false, map[]);
    System(Table(0, [Job("kind", Queued, 0, 1, 0, None, 0)]), map["a" := pool, "b" := pool], capacity, stale, {})
  }

  /** The first worker has claimed it, some time ago. */
  function OneClaimed(stale: nat, capacity: nat, now: int): System
  {
    var held := Job("kind", Claimed, 1, 1, 0, Some(Lease("a", 0)), 0);
    var busy := Pool(1, false, map[0 := Task(0, 1, 0, Working)]);
    System(Table(now, [held]), map["a" := busy, "b" := Pool(0, false, map[])], capacity, stale, {})
  }

  lemma FirstClaims(stale: nat, capacity: nat)
    requires capacity >= 1
    ensures Step(Step(TwoIdle(stale, capacity), Acquire("a")), Claim("a", 0, {}, true))
      == OneClaimed(stale, capacity, 0)
  {
    OnlyRow(TwoIdle(stale, capacity).table, stale);
    hide Next;
  }

  lemma SecondClaims(stale: nat, capacity: nat)
    requires capacity >= 1
    ensures var s := Step(Step(OneClaimed(stale, capacity, stale + 1), Acquire("b")), Claim("b", 0, {}, true));
      Busy(s, "a", 0) && Busy(s, "b", 0) && TaskOf(s, "a", 0).job == TaskOf(s, "b", 0).job
  {
    OnlyRow(OneClaimed(stale, capacity, stale + 1).table, stale);
    hide Next;
  }

  lemma WorkersStart(stale: nat, capacity: nat)
    ensures var s := Step(Start(0, capacity, stale, {}), EnqueueAny("kind", None, 1));
      Step(Step(s, StartWorker("a")), StartWorker("b")) == TwoIdle(stale, capacity)
  {
  }

  lemma TimePasses(stale: nat, capacity: nat)
    ensures Step(OneClaimed(stale, capacity, 0), Tick(stale + 1)) == OneClaimed(stale, capacity, stale + 1)
  {
  }

  /** Without that, two workers do process one job: the second claims it once the first is late. */
  lemma LateTaskIsDoubled(stale: nat, capacity: nat) returns (run: seq<Action>)
    requires capacity >= 1
    ensures var s := After(Start(0, capacity, stale, {}), run);
      Busy(s, "a", 0) && Busy(s, "b", 0) && TaskOf(s, "a", 0).job == TaskOf(s, "b", 0).job
  {
    hide *;
    run := [EnqueueAny("kind", None, 1), StartWorker("a"), StartWorker("b"), Acquire("a"), Claim("a", 0, {}, true),
      Tick(stale + 1), Acquire("b"), Claim("b", 0, {}, true)];
    EightSteps(Start(0, capacity, stale, {}), run);
    WorkersStart(stale, capacity);
    FirstClaims(stale, capacity);
    TimePasses(stale, capacity);
    SecondClaims(stale, capacity);
  }

  lemma EightSteps(s: System, run: seq<Action>)
    requires |run| == 8
    ensures After(s, run)
      == Step(Step(Step(Step(Step(Step(Step(Step(s, run[0]), run[1]), run[2]), run[3]), run[4]), run[5]), run[6]),
        run[7])
  {
    hide Step;
    LastStep(s, run, 0);
    LastStep(s, run, 1);
    LastStep(s, run, 2);
    LastStep(s, run, 3);
    LastStep(s, run, 4);
    LastStep(s, run, 5);
    LastStep(s, run, 6);
    LastStep(s, run, 7);
    assert run[..8] == run && run[..0] == [];
  }

  lemma LastStep(s: System, run: seq<Action>, k: nat)
    requires k < |run|
    ensures After(s, run[..k + 1]) == Step(After(s, run[..k]), run[k])
  {
    hide Step;
    assert run[..k + 1][..k] == run[..k];
  }

  lemma OnlyRow(t: Table, stale: nat)
    requires |t.jobs| == 1 && Eligible(t.jobs[0], t.now, stale)
    ensures Next(t, stale, {}) == Some(0)
  {
    assert Available(t, stale, {}, 0);
    NextIsUnique(t, stale, {}, Next(t, stale, {}), Some(0));
  }

  // ----- the poll loop and the handler wrapper -----

  /** What the loop meets on one turn: nothing unusual, a claim that fails in the database, or a cancelled context. */
  datatype Turn = Goes | ClaimFails | Cancelled

  function TurnAt(turns: seq<Turn>, i: nat): Turn
  {
    if i < |turns| then turns[i] else Goes
  }

  class Worker {
    const name: string
    const capacity: nat
    var slots: nat

    constructor (name: string, capacity: nat)
      ensures this.name == name && this.capacity == capacity && slots == 0
    {
      this.name, this.capacity, slots := name, capacity, 0;
    }

    /** Takes a slot, then a job, until the pool is full, nothing can be claimed, the claim fails, or the process is
        told to stop; a slot without a job is given back on every path. */
    method Poll(table: Jobs, stale: nat, skipped: set<nat>, turns: seq<Turn>) returns (claimed: seq<nat>)
      requires slots <= capacity
      modifies this`slots, table`jobs
      ensures slots == old(slots) + |claimed| <= capacity
      ensures slots == capacity || Next(table.Rows(), stale, skipped).None? || !TurnAt(turns, |claimed|).Goes?
      ensures forall k :: 0 <= k < |claimed| ==> TurnAt(turns, k).Goes?
      ensures forall k :: 0 <= k < |claimed| ==>
        claimed[k] < |table.jobs| && table.jobs[claimed[k]].status == Claimed
          && table.jobs[claimed[k]].lease == Some(Lease(name, table.now))
      ensures forall k, l :: 0 <= k < l < |claimed| ==> claimed[k] != claimed[l]
    {
      hide Next, IsNext, Ahead;
      claimed := [];
      while slots < capacity
        invariant slots == old(slots) + |claimed| <= capacity
        invariant forall k :: 0 <= k < |claimed| ==> TurnAt(turns, k).Goes?
        invariant forall k :: 0 <= k < |claimed| ==>
          claimed[k] < |table.jobs| && table.jobs[claimed[k]].status == Claimed
            && table.jobs[claimed[k]].lease == Some(Lease(name, table.now))
        invariant forall k, l :: 0 <= k < l < |claimed| ==> claimed[k] != claimed[l]
        decreases capacity - slots
      {
        var turn := TurnAt(turns, |claimed|);
        if turn.Cancelled? {
          return;
        }
        slots := slots + 1;
        NextIsAvailable(table.Rows(), stale, skipped);
        var job: Option<nat> := None;
        if turn.Goes? {
          job := table.ClaimJob(name, stale, skipped);
        }
        if job.None? {
          slots := slots - 1;
          return;
        }
        claimed := claimed + [job.value];
      }
    }

    /** One job to its end; the slot is given back on every path. */
    method Process(table: Jobs, handlers: set<string>, task: Task, outcome: Outcome)
      requires slots > 0 && task.job < |table.jobs|
      modifies this`slots, table`jobs
      ensures table.Rows() == Written(old(table.Rows()), handlers, task, outcome)
      ensures slots == old(slots) - 1
      ensures old(table.jobs)[task.job].status != Claimed ==> table.jobs == old(table.jobs)
      ensures old(table.jobs)[task.job].status == Claimed ==>
        var j, handled := old(table.jobs)[task.job], old(table.jobs)[task.job].kind in handlers;
        table.jobs == old(table.jobs)[task.job :=
          if handled && outcome == Succeeds then j.(status := Done, lease := None)
          else if j.attempts >= j.maxAttempts then j.(status := Dead, lease := None)
          else j.(status := Failed, lease := None,
            runAt := table.now + if handled then RetryBackoff(task.attempt) else 0)]
    {
      hide RetryBackoff;
      if table.jobs[task.job].kind !in handlers {
        var status := table.FailJob(task.job, 0);
      } else {
        match outcome {
          case Succeeds => var ok := table.CompleteJob(task.job);
          case Errs => var status := table.FailJob(task.job, RetryBackoff(task.attempt));
          case Panics => var status := table.FailJob(task.job, RetryBackoff(task.attempt));
        }
      }
      slots := slots - 1;
    }
  }

  lemma NextIsAvailable(t: Table, stale: nat, skipped: set<nat>)
    ensures Next(t, stale, skipped).Some? ==> Available(t, stale, skipped, Next(t, stale, skipped).value)
  {
  }
}
