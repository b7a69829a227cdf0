/** The job rows: enqueue, claim under a lease, complete, fail with backoff or dead-letter, and the admin retry. */
module JobTable {
  import opened Results

  datatype JobStatus = Queued | Claimed | Done | Failed | Dead

  datatype Lease = Lease(worker: string, at: int)

  /** A row; `reclaims` counts, for reasoning, the stale leases taken over since the job was last queued. */
  datatype Job = Job(kind: string, status: JobStatus, attempts: nat, maxAttempts: nat, runAt: int,
    lease: Option<Lease>, reclaims: nat)

  datatype Table = Table(now: int, jobs: seq<Job>)

  // ----- statements as functions -----

  function Enqueue(t: Table, kind: string, runAt: Option<int>, maxAttempts: int): Table
  {
    var limit := if maxAttempts < 1 then 1 else maxAttempts;
    var due := if runAt.Some? then runAt.value else t.now;
    t.(jobs := t.jobs + [Job(kind, Queued, 0, limit, due, None, 0)])
  }

  /** Due and waiting, or held under a lease that has gone stale. */
  predicate Eligible(j: Job, now: int, stale: nat)
  {
    ((j.status.Queued? || j.status.Failed?) && j.runAt <= now)
    || (j.status.Claimed? && j.lease.Some? && j.lease.value.at < now - stale)
  }

  /** Earlier due date first, then lower id. */
  predicate Ahead(jobs: seq<Job>, i: nat, j: nat)
    requires i < |jobs| && j < |jobs|
  {
    jobs[i].runAt < jobs[j].runAt || (jobs[i].runAt == jobs[j].runAt && i <= j)
  }

  predicate Available(t: Table, stale: nat, skipped: set<nat>, i: nat)
  {
    i < |t.jobs| && i !in skipped && Eligible(t.jobs[i], t.now, stale)
  }

  /** The row a claim takes: the first available one in claiming order, if any. */
  ghost predicate IsNext(t: Table, stale: nat, skipped: set<nat>, next: Option<nat>)
  {
    match next
    case None => forall i: nat :: !Available(t, stale, skipped, i)
    case Some(n) =>
      Available(t, stale, skipped, n) && forall i: nat :: Available(t, stale, skipped, i) ==> Ahead(t.jobs, n, i)
  }

  lemma NextIsUnique(t: Table, stale: nat, skipped: set<nat>, a: Option<nat>, b: Option<nat>)
    requires IsNext(t, stale, skipped, a) && IsNext(t, stale, skipped, b)
    ensures a == b
  {
    if a.Some? && b.Some? {
      assert Ahead(t.jobs, a.value, b.value) && Ahead(t.jobs, b.value, a.value);
    }
  }

  /** The winner among the first n rows. */
  function NextOf(t: Table, stale: nat, skipped: set<nat>, n: nat): (r: Option<nat>)
    requires n <= |t.jobs|
    ensures r.None? ==> forall i: nat :: i < n ==> !Available(t, stale, skipped, i)
    ensures r.Some? ==> r.value < n && Available(t, stale, skipped, r.value)
    ensures r.Some? ==> forall i: nat :: i < n && Available(t, stale, skipped, i) ==> Ahead(t.jobs, r.value, i)
  {
    if n == 0 then None
    else
      var best := NextOf(t, stale, skipped, n - 1);
      if !Available(t, stale, skipped, n - 1) then best
      else if best.Some? && Ahead(t.jobs, best.value, n - 1) then best
      else Some(n - 1)
  }

  function Next(t: Table, stale: nat, skipped: set<nat>): (r: Option<nat>)
    ensures IsNext(t, stale, skipped, r)
  {
    NextOf(t, stale, skipped, |t.jobs|)
  }

  /** What comes next is one of these itself. */
  lemma NextIsDue(t: Table, stale: nat, skipped: set<nat>)
    requires Next(t, stale, skipped).Some?
    ensures var n := Next(t, stale, skipped).value; n < |t.jobs| && n !in skipped
    ensures var j := t.jobs[Next(t, stale, skipped).value];
      ((j.status == Queued || j.status == Failed) && j.runAt <= t.now)
      || (j.status == Claimed && j.lease.Some? && j.lease.value.at < t.now - stale)
  {
  }

  /** Ahead of every row that is queued or failed and due, or claimed under a lease older than the threshold, by due
      date and then id; nothing comes next only when no row outside the skipped ones is any of these. */
  lemma NextIsFirstDue(t: Table, stale: nat, skipped: set<nat>)
    ensures forall i: nat ::
      (i < |t.jobs| && i !in skipped
       && (((t.jobs[i].status == Queued || t.jobs[i].status == Failed) && t.jobs[i].runAt <= t.now)
           || (t.jobs[i].status == Claimed && t.jobs[i].lease.Some? && t.jobs[i].lease.value.at < t.now - stale))) ==>
        (var n := Next(t, stale, skipped);
         n.Some? && (t.jobs[n.value].runAt < t.jobs[i].runAt
           || (t.jobs[n.value].runAt == t.jobs[i].runAt && n.value <= i)))
  {
    hide Next;
    forall i: nat | i < |t.jobs| && i !in skipped && Eligible(t.jobs[i], t.now, stale)
      ensures Next(t, stale, skipped).Some? && Ahead(t.jobs, Next(t, stale, skipped).value, i)
    {
      assert Available(t, stale, skipped, i);
    }
  }

  function Taken(t: Table, i: nat, worker: string): Table
    requires i < |t.jobs|
  {
    var j := t.jobs[i];
    t.(jobs := t.jobs[i := j.(status := Claimed, lease := Some(Lease(worker, t.now)), attempts := j.attempts + 1,
      reclaims := j.reclaims + if j.status.Claimed? then 1 else 0)])
  }

  function Complete(t: Table, i: nat): (Table, bool)
  {
    if i < |t.jobs| && t.jobs[i].status.Claimed?
    then (t.(jobs := t.jobs[i := t.jobs[i].(status := Done, lease := None)]), true)
    else (t, false)
  }

  function Fail(t: Table, i: nat, backoff: nat): (Table, Option<JobStatus>)
  {
    if i < |t.jobs| && t.jobs[i].status.Claimed? then
      var j := t.jobs[i];
      var status := if j.attempts >= j.maxAttempts then Dead else Failed;
      (t.(jobs := t.jobs[i := j.(status := status, lease := None, runAt := if j.attempts < j.maxAttempts
        then t.now + backoff else j.runAt)]), Some(status))
    else (t, None)
  }

  function Retry(t: Table, i: nat): (Table, bool)
  {
    if i < |t.jobs| && (t.jobs[i].status.Dead? || t.jobs[i].status.Failed?)
    then (t.(jobs := t.jobs[i := t.jobs[i].(status := Queued, attempts := 0, lease := None, runAt := t.now,
      reclaims := 0)]), true)
    else (t, false)
  }

  function ShiftedOne(n: nat): (r: nat)
    ensures r >= 1
  {
    if n == 0 then 1 else 2 * ShiftedOne(n - 1)
  }

  lemma {:induction false} ShiftsGrow(m: nat, n: nat)
    requires m <= n
    ensures ShiftedOne(m) <= ShiftedOne(n)
  {
    if m < n { ShiftsGrow(m, n - 1); }
  }

  /** Seconds before the next attempt: doubling, up to 64. */
  function RetryBackoff(attempt: nat): (seconds: nat)
    ensures 1 <= seconds <= 64
  {
    var exponent := if attempt > 6 then 6 else attempt;
    ShiftsGrow(exponent, 6);
    assert ShiftedOne(6) == 64;
    ShiftedOne(exponent)
  }

  lemma BackoffDoubles(attempt: nat)
    ensures RetryBackoff(0) == 1
    ensures RetryBackoff(attempt + 1) == if 2 * RetryBackoff(attempt) <= 64 then 2 * RetryBackoff(attempt) else 64
  {
    assert ShiftedOne(6) == 64;
    if attempt < 6 { ShiftsGrow(attempt + 1, 6); }
  }

  // ----- what every row satisfies -----

  predicate JobOk(j: Job)
  {
    && j.maxAttempts >= 1
    && (j.lease.Some? <==> j.status.Claimed?)
    && (j.status.Queued? ==> j.attempts == 0)
    && (j.status.Claimed? ==> j.attempts >= 1)
    && (j.status.Failed? ==> j.attempts < j.maxAttempts)
    && (j.status.Dead? ==> j.attempts >= j.maxAttempts)
    && j.attempts <= j.maxAttempts + j.reclaims
  }

  predicate TableOk(t: Table)
  {
    forall i :: 0 <= i < |t.jobs| ==> JobOk(t.jobs[i])
  }

  // ----- the rows in memory -----

  class Jobs {
    var now: int
    var jobs: seq<Job>

    function Rows(): Table
      reads this
    {
      Table(now, jobs)
    }

    method EnqueueJob(kind: string, runAt: Option<int>, maxAttempts: int) returns (id: nat)
      modifies this`jobs
      ensures Rows() == Enqueue(old(Rows()), kind, runAt, maxAttempts) && id == |old(jobs)|
      ensures jobs == old(jobs) + [Job(kind, Queued, 0, if maxAttempts < 1 then 1 else maxAttempts,
        if runAt.Some? then runAt.value else now, None, 0)]
    {
      var limit := maxAttempts;
      if limit < 1 {
        limit := 1;
      }
      var due := now;
      if runAt.Some? {
        due := runAt.value;
      }
      id := |jobs|;
      jobs := jobs + [Job(kind, Queued, 0, limit, due, None, 0)];
    }

    /** Takes the first available row in claiming order, passing over rows another statement has locked. */
    method ClaimJob(worker: string, stale: nat, skipped: set<nat>) returns (r: Option<nat>)
      modifies this`jobs
      ensures r == Next(old(Rows()), stale, skipped)
      ensures Rows() == if r.Some? then Taken(old(Rows()), r.value, worker) else old(Rows())
      ensures r.None? ==> jobs == old(jobs)
      ensures r.None? ==> forall i: nat :: i < |jobs| && i !in skipped ==>
        && ((jobs[i].status == Queued || jobs[i].status == Failed) ==> jobs[i].runAt > now)
        && (jobs[i].status == Claimed && jobs[i].lease.Some? ==> jobs[i].lease.value.at >= now - stale)
      ensures r.Some? ==>
        var j := old(jobs)[r.value];
        && r.value !in skipped
        && (((j.status == Queued || j.status == Failed) && j.runAt <= now)
            || (j.status == Claimed && j.lease.Some? && j.lease.value.at < now - stale))
        && jobs[r.value].status == Claimed && jobs[r.value].lease == Some(Lease(worker, now))
        && jobs[r.value].attempts == j.attempts + 1 && jobs[r.value].maxAttempts == j.maxAttempts
        && jobs[r.value].kind == j.kind && jobs == old(jobs)[r.value := jobs[r.value]]
      ensures r.Some? ==> forall i: nat :: i < |jobs| && i !in skipped && i != r.value ==>
        (((jobs[i].status == Queued || jobs[i].status == Failed) && jobs[i].runAt <= now)
         || (jobs[i].status == Claimed && jobs[i].lease.Some? && jobs[i].lease.value.at < now - stale)) ==>
          old(jobs)[r.value].runAt < jobs[i].runAt || (old(jobs)[r.value].runAt == jobs[i].runAt && r.value < i)
    {
      r := None;
      for i := 0 to |jobs|
        invariant r == NextOf(Rows(), stale, skipped, i)
      {
        if i !in skipped && Eligible(jobs[i], now, stale) {
          if r.None? || jobs[i].runAt < jobs[r.value].runAt {
            r := Some(i);
          }
        }
      }
      NextIsFirstDue(Rows(), stale, skipped);
      if r.Some? {
        NextIsDue(Rows(), stale, skipped);
        var j := jobs[r.value];
        var more := if j.status.Claimed? then 1 else 0;
        jobs := jobs[r.value := j.(status := Claimed, lease := Some(Lease(worker, now)), attempts := j.attempts + 1,
          reclaims := j.reclaims + more)];
      }
    }

    method CompleteJob(i: nat) returns (ok: bool)
      modifies this`jobs
      ensures (Rows(), ok) == Complete(old(Rows()), i)
      ensures ok <==> i < |old(jobs)| && old(jobs)[i].status == Claimed
      ensures jobs == if ok then old(jobs)[i := old(jobs)[i].(status := Done, lease := None)] else old(jobs)
    {
      ok := i < |jobs| && jobs[i].status == Claimed;
      if ok {
        jobs := jobs[i := jobs[i].(status := Done, lease := None)];
      }
    }

    /** Dead once the attempts are used up; otherwise failed, and due again when the backoff is over. */
    method FailJob(i: nat, backoff: nat) returns (r: Option<JobStatus>)
      modifies this`jobs
      ensures (Rows(), r) == Fail(old(Rows()), i, backoff)
      ensures r.None? <==> i >= |old(jobs)| || old(jobs)[i].status != Claimed
      ensures r.None? ==> jobs == old(jobs)
      ensures r.Some? && old(jobs)[i].attempts >= old(jobs)[i].maxAttempts ==>
        r.value == Dead && jobs == old(jobs)[i := old(jobs)[i].(status := Dead, lease := None)]
      ensures r.Some? && old(jobs)[i].attempts < old(jobs)[i].maxAttempts ==>
        r.value == Failed
          && jobs == old(jobs)[i := old(jobs)[i].(status := Failed, lease := None, runAt := now + backoff)]
    {
      if i >= |jobs| || jobs[i].status != Claimed {
        return None;
      }
      var j := jobs[i];
      var status := if j.attempts >= j.maxAttempts then Dead else Failed;
      if j.attempts < j.maxAttempts {
        j := j.(runAt := now + backoff);
      }
      jobs := jobs[i := j.(status := status, lease := None)];
      r := Some(status);
    }

    method RetryJob(i: nat) returns (ok: bool)
      modifies this`jobs
      ensures (Rows(), ok) == Retry(old(Rows()), i)
      ensures ok <==> i < |old(jobs)| && (old(jobs)[i].status == Dead || old(jobs)[i].status == Failed)
      ensures jobs == if ok
        then old(jobs)[i := old(jobs)[i].(status := Queued, attempts := 0, lease := None, runAt := now, reclaims := 0)]
        else old(jobs)
    {
      ok := i < |jobs| && jobs[i].status in {Dead, Failed};
      if ok {
        jobs := jobs[i := jobs[i].(status := Queued, attempts := 0, lease := None, runAt := now, reclaims := 0)];
      }
    }
  }
}
