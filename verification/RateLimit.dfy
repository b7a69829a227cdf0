/** The fixed-window rate limiter. */
module RateLimit {

  datatype Bucket = Bucket(count: nat, reset: int)

  type Buckets = map<string, Bucket>

  /** One event: a fresh bucket when there is none or it has run out, otherwise one more in the current one. */
  function Allowed(limit: nat, window: nat, b: Buckets, key: string, now: int): (Buckets, bool)
  {
    if key !in b || now > b[key].reset then (b[key := Bucket(1, now + window)], true)
    else (b[key := b[key].(count := b[key].count + 1)], b[key].count + 1 <= limit)
  }

  function Cleaned(b: Buckets, now: int): (r: Buckets)
    ensures forall k :: k in r <==> k in b && now <= b[k].reset
    ensures forall k :: k in r ==> r[k] == b[k]
  {
    map k | k in b && now <= b[k].reset :: b[k]
  }

  class RateLimiter {
    const window: nat
    const limit: nat
    var buckets: Buckets

    constructor (limit: int, window: nat)
      ensures this.limit >= 1 && (limit >= 1 ==> this.limit == limit) && this.window == window && buckets == map[]
    {
      this.limit := if limit < 1 then 1 else limit;
      this.window := window;
      buckets := map[];
    }

    method Allow(key: string, now: int) returns (ok: bool)
      modifies this`buckets
      ensures (buckets, ok) == Allowed(limit, window, old(buckets), key, now)
      ensures key !in old(buckets) || now > old(buckets)[key].reset ==>
        ok && buckets == old(buckets)[key := Bucket(1, now + window)]
      ensures key in old(buckets) && now <= old(buckets)[key].reset ==>
        (ok <==> old(buckets)[key].count < limit)
          && buckets == old(buckets)[key := Bucket(old(buckets)[key].count + 1, old(buckets)[key].reset)]
    {
      if key !in buckets || now > buckets[key].reset {
        buckets := buckets[key := Bucket(1, now + window)];
        return true;
      }
      var count := buckets[key].count + 1;
      buckets := buckets[key := buckets[key].(count := count)];
      ok := count <= limit;
    }

    method Cleanup(now: int)
      modifies this`buckets
      ensures buckets == Cleaned(old(buckets), now)
    {
      ghost var before := buckets;
      var left := buckets.Keys;
      while left != {}
        invariant left <= buckets.Keys
        invariant forall k :: k in buckets <==> k in before && (k in left || now <= before[k].reset)
        invariant forall k :: k in buckets ==> buckets[k] == before[k]
        decreases |left|
      {
        var k :| k in left;
        left := left - {k};
        if now > buckets[k].reset {
          buckets := buckets - {k};
        }
      }
      assert buckets == Cleaned(before, now);
    }
  }

  // ----- whole runs -----

  /** A call takes its time before it takes the lock, so the times along a run need not be in order. */
  datatype Call = Allow(key: string, at: int) | Cleanup(at: int)

  /** The buckets after a run, and the answers along it (true for a cleanup, which answers nothing). */
  function Replay(limit: nat, window: nat, calls: seq<Call>): (r: (Buckets, seq<bool>))
    ensures |r.1| == |calls|
  {
    if calls == [] then (map[], [])
    else
      var (b, answers) := Replay(limit, window, calls[..|calls| - 1]);
      var last := calls[|calls| - 1];
      if last.Allow? then
        var (b', ok) := Allowed(limit, window, b, last.key, last.at);
        (b', answers + [ok])
      else (Cleaned(b, last.at), answers + [true])
  }

  lemma ReplayStep(limit: nat, window: nat, calls: seq<Call>, c: Call)
    ensures var (b, answers) := Replay(limit, window, calls);
      Replay(limit, window, calls + [c])
        == if c.Allow?
           then (Allowed(limit, window, b, c.key, c.at).0, answers + [Allowed(limit, window, b, c.key, c.at).1])
           else (Cleaned(b, c.at), answers + [true])
  {
    assert (calls + [c])[..|calls|] == calls;
  }

  function WithoutCleanups(calls: seq<Call>): (r: seq<Call>)
    ensures forall c :: c in r ==> c.Allow?
  {
    if calls == [] then []
    else WithoutCleanups(calls[..|calls| - 1]) + if calls[|calls| - 1].Allow? then [calls[|calls| - 1]] else []
  }

  /** The answers to the events alone. */
  function Verdicts(calls: seq<Call>, answers: seq<bool>): seq<bool>
    requires |answers| == |calls|
  {
    if calls == [] then []
    else
      var n := |calls| - 1;
      Verdicts(calls[..n], answers[..n]) + if calls[n].Allow? then [answers[n]] else []
  }

  lemma WithoutStep(calls: seq<Call>, c: Call)
    ensures WithoutCleanups(calls + [c]) == if c.Allow? then WithoutCleanups(calls) + [c] else WithoutCleanups(calls)
  {
    assert (calls + [c])[..|calls|] == calls;
  }

  lemma VerdictsStep(calls: seq<Call>, answers: seq<bool>, c: Call, ok: bool)
    requires |answers| == |calls|
    ensures Verdicts(calls + [c], answers + [ok])
      == if c.Allow? then Verdicts(calls, answers) + [ok] else Verdicts(calls, answers)
  {
    assert (calls + [c])[..|calls|] == calls && (answers + [ok])[..|answers|] == answers;
  }

  // ----- when cleanups make a difference -----

  /** Cleanups change none of the answers. */
  predicate Agree(limit: nat, window: nat, calls: seq<Call>)
  {
    Verdicts(calls, Replay(limit, window, calls).1) == Replay(limit, window, WithoutCleanups(calls)).1
  }

  /** For one event after one cleanup: its answer changes exactly when its time lies within the bucket's life, the
      cleanup's past it, and the bucket is full. */
  lemma CleanupMatters(limit: nat, window: nat, b: Buckets, key: string, swept: int, now: int)
    requires limit >= 1
    ensures Allowed(limit, window, Cleaned(b, swept), key, now).1 != Allowed(limit, window, b, key, now).1
      <==> (key in b && now <= b[key].reset < swept && b[key].count >= limit)
  {
  }

  /** The buckets of a run with cleanups, and those it would have without; which they are does not depend on the
      limit. */
  function Swept(window: nat, calls: seq<Call>): Buckets
  {
    Replay(1, window, calls).0
  }

  function Kept(window: nat, calls: seq<Call>): Buckets
  {
    Swept(window, WithoutCleanups(calls))
  }

  lemma {:induction false} AnyLimit(limit: nat, window: nat, calls: seq<Call>)
    ensures Replay(limit, window, calls).0 == Swept(window, calls)
  {
    if calls != [] {
      var n := |calls| - 1;
      AnyLimit(limit, window, calls[..n]);
      assert calls == calls[..n] + [calls[n]];
      ReplayStep(limit, window, calls[..n], calls[n]);
      ReplayStep(1, window, calls[..n], calls[n]);
      hide Replay, Cleaned;
    }
  }

  lemma BucketsStep(window: nat, calls: seq<Call>, c: Call)
    ensures Swept(window, calls + [c])
      == if c.Allow? then Allowed(1, window, Swept(window, calls), c.key, c.at).0
        else Cleaned(Swept(window, calls), c.at)
    ensures Kept(window, calls + [c])
      == if c.Allow? then Allowed(1, window, Kept(window, calls), c.key, c.at).0 else Kept(window, calls)
  {
    ReplayStep(1, window, calls, c);
    WithoutStep(calls, c);
    ReplayStep(1, window, WithoutCleanups(calls), c);
    hide Replay, WithoutCleanups, Allowed, Cleaned;
  }

  /** No event of the key between two calls. */
  predicate Untouched(calls: seq<Call>, i: int, j: int, key: string)
    requires j <= |calls| && -1 <= i
  {
    forall k :: i < k < j ==> !(calls[k].Allow? && calls[k].key == key)
  }

  /** Cleanup i removes the key's bucket, although event j, the next one of that key, has a time within its life. */
  predicate Uncounts(window: nat, calls: seq<Call>, i: nat, j: nat)
  {
    && i < j < |calls| && calls[i].Cleanup? && calls[j].Allow? && Untouched(calls, i, j, calls[j].key)
    && var b, key := Kept(window, calls[..i]), calls[j].key;
      key in b && calls[j].at <= b[key].reset < calls[i].at
  }

  ghost predicate Harmless(window: nat, calls: seq<Call>)
  {
    forall i: nat, j: nat :: !Uncounts(window, calls, i, j)
  }

  /** The bucket that the key would have without cleanups went with cleanup i, and no event of the key came since. */
  predicate Removed(window: nat, calls: seq<Call>, i: nat, key: string)
  {
    && i < |calls| && calls[i].Cleanup? && Untouched(calls, i, |calls|, key)
    && key in Kept(window, calls) && key in Kept(window, calls[..i])
    && Kept(window, calls[..i])[key] == Kept(window, calls)[key] && Kept(window, calls)[key].reset < calls[i].at
  }

  ghost predicate Gone(window: nat, calls: seq<Call>, key: string)
  {
    exists i: nat :: Removed(window, calls, i, key)
  }

  /** What cleanups leave is what there would be without them, less what they removed. */
  ghost predicate Fewer(window: nat, calls: seq<Call>)
  {
    forall key ::
      && (key in Swept(window, calls) ==>
        key in Kept(window, calls) && Swept(window, calls)[key] == Kept(window, calls)[key])
      && (key in Kept(window, calls) && key !in Swept(window, calls) ==> Gone(window, calls, key))
  }

  lemma HarmlessBefore(window: nat, calls: seq<Call>, c: Call)
    requires Harmless(window, calls + [c])
    ensures Harmless(window, calls)
  {
    hide Kept;
    forall i: nat, j: nat ensures !Uncounts(window, calls, i, j) {
      if j < |calls| && i < j { assert (calls + [c])[..i] == calls[..i]; }
      assert !Uncounts(window, calls + [c], i, j);
    }
  }

  lemma StaysGone(window: nat, calls: seq<Call>, c: Call, key: string)
    requires Gone(window, calls, key) && !(c.Allow? && c.key == key)
    ensures Gone(window, calls + [c], key)
  {
    var i: nat :| Removed(window, calls, i, key);
    BucketsStep(window, calls, c);
    assert (calls + [c])[..i] == calls[..i];
    hide Swept, Kept;
    assert Removed(window, calls + [c], i, key);
  }

  lemma {:induction false} HarmlessFewer(window: nat, calls: seq<Call>)
    requires Harmless(window, calls)
    ensures Fewer(window, calls)
  {
    if calls != [] {
      var before, c := calls[..|calls| - 1], calls[|calls| - 1];
      assert calls == before + [c];
      HarmlessBefore(window, before, c);
      HarmlessFewer(window, before);
      forall key
        ensures key in Swept(window, calls) ==>
          key in Kept(window, calls) && Swept(window, calls)[key] == Kept(window, calls)[key]
        ensures key in Kept(window, calls) && key !in Swept(window, calls) ==> Gone(window, calls, key)
      {
        FewerAt(window, before, c, key);
      }
    }
  }

  lemma FewerAt(window: nat, before: seq<Call>, c: Call, key: string)
    requires Fewer(window, before) && Harmless(window, before + [c])
    ensures var swept, kept := Swept(window, before + [c]), Kept(window, before + [c]);
      && (key in swept ==> key in kept && swept[key] == kept[key])
      && (key in kept && key !in swept ==> Gone(window, before + [c], key))
  {
    var calls, swept, kept := before + [c], Swept(window, before), Kept(window, before);
    BucketsStep(window, before, c);
    hide Swept, Kept;
    if c.Allow? && c.key == key {
      if key in kept && key !in swept { ComesAfter(window, before, c); }
    } else if key in kept && key !in swept {
      StaysGone(window, before, c, key);
    } else if c.Cleanup? && key in kept && kept[key].reset < c.at {
      assert calls[..|before|] == before;
      assert Removed(window, calls, |before|, key);
    }
  }

  /** An event of a key whose bucket is gone comes after that bucket's life. */
  lemma ComesAfter(window: nat, before: seq<Call>, c: Call)
    requires Harmless(window, before + [c]) && c.Allow? && Gone(window, before, c.key)
    ensures c.key in Kept(window, before) && c.at > Kept(window, before)[c.key].reset
  {
    var i: nat :| Removed(window, before, i, c.key);
    assert (before + [c])[..i] == before[..i];
    hide Kept;
    assert !Uncounts(window, before + [c], i, |before|);
  }

  lemma {:induction false} HarmlessAgree(limit: nat, window: nat, calls: seq<Call>)
    requires Harmless(window, calls)
    ensures Agree(limit, window, calls)
  {
    if calls != [] {
      var before, c := calls[..|calls| - 1], calls[|calls| - 1];
      assert calls == before + [c];
      HarmlessBefore(window, before, c);
      HarmlessAgree(limit, window, before);
      HarmlessFewer(window, before);
      AgreeStep(limit, window, before, c);
      hide *;
      if c.Allow? { SameAnswer(limit, window, before, c); }
    }
  }

  lemma SameAnswer(limit: nat, window: nat, before: seq<Call>, c: Call)
    requires Harmless(window, before + [c]) && Fewer(window, before) && c.Allow?
    ensures Allowed(limit, window, Swept(window, before), c.key, c.at).1
      == Allowed(limit, window, Kept(window, before), c.key, c.at).1
  {
    hide Swept, Kept, Gone, Harmless;
    if c.key in Kept(window, before) && c.key !in Swept(window, before) { ComesAfter(window, before, c); }
  }

  /** Runs that agree so far agree on one more call if and only if its answers are the same; those that do not never
      will. */
  lemma AgreeStep(limit: nat, window: nat, before: seq<Call>, c: Call)
    ensures Agree(limit, window, before + [c]) <==>
      (Agree(limit, window, before)
        && (c.Allow? ==>
          Allowed(limit, window, Swept(window, before), c.key, c.at).1
            == Allowed(limit, window, Kept(window, before), c.key, c.at).1))
  {
    var kept := WithoutCleanups(before);
    var with, without := Replay(limit, window, before), Replay(limit, window, kept);
    AnyLimit(limit, window, before);
    AnyLimit(limit, window, kept);
    ReplayStep(limit, window, before, c);
    WithoutStep(before, c);
    ReplayStep(limit, window, kept, c);
    var answer := if c.Allow? then Allowed(limit, window, with.0, c.key, c.at).1 else true;
    VerdictsStep(before, with.1, c, answer);
    SameLength(before, with.1);
    hide Replay, WithoutCleanups, Verdicts, Allowed, Cleaned;
    if c.Allow? {
      var answer' := Allowed(limit, window, without.0, c.key, c.at).1;
      AppendOne(Verdicts(before, with.1), answer, without.1, answer');
    }
  }

  lemma AppendOne(s: seq<bool>, x: bool, t: seq<bool>, y: bool)
    requires |s| == |t|
    ensures s + [x] == t + [y] <==> s == t && x == y
  {
    if s + [x] == t + [y] {
      assert (s + [x])[..|s|] == s && (t + [y])[..|t|] == t;
      assert (s + [x])[|s|] == x && (t + [y])[|t|] == y;
    }
  }

  lemma {:induction false} SameLength(calls: seq<Call>, answers: seq<bool>)
    requires |answers| == |calls|
    ensures |Verdicts(calls, answers)| == |WithoutCleanups(calls)|
  {
    if calls != [] { SameLength(calls[..|calls| - 1], answers[..|calls| - 1]); }
  }

  lemma {:induction false} CountsArePositive(window: nat, calls: seq<Call>, key: string)
    requires key in Swept(window, calls)
    ensures Swept(window, calls)[key].count >= 1
  {
    var n := |calls| - 1;
    assert calls == calls[..n] + [calls[n]];
    BucketsStep(window, calls[..n], calls[n]);
    if key in Swept(window, calls[..n]) { CountsArePositive(window, calls[..n], key); }
    hide Swept;
  }

  /** A bucket removed and not opened again is not there. */
  lemma {:induction false} RemovedIsGone(window: nat, calls: seq<Call>, i: nat, key: string, n: nat)
    requires i < n <= |calls| && calls[i].Cleanup? && Untouched(calls, i, n, key) && Fewer(window, calls[..i])
    requires key in Kept(window, calls[..i]) && Kept(window, calls[..i])[key].reset < calls[i].at
    ensures key !in Swept(window, calls[..n])
    ensures key in Kept(window, calls[..n]) && Kept(window, calls[..n])[key] == Kept(window, calls[..i])[key]
    decreases n
  {
    hide Swept, Kept, Gone;
    assert calls[..n] == calls[..n - 1] + [calls[n - 1]];
    BucketsStep(window, calls[..n - 1], calls[n - 1]);
    if n > i + 1 {
      hide Fewer;
      RemovedIsGone(window, calls, i, key, n - 1);
    }
  }

  /** A cleanup that uncounts shows under some limit: that of the bucket it removes. */
  lemma {:induction false} HarmShows(window: nat, calls: seq<Call>) returns (limit: nat)
    requires !Harmless(window, calls)
    ensures limit >= 1 && !Agree(limit, window, calls)
    decreases |calls|
  {
    var i: nat, j: nat :| Uncounts(window, calls, i, j);
    var n := |calls| - 1;
    var before, c := calls[..n], calls[n];
    assert calls == before + [c];
    if !Harmless(window, before) {
      limit := HarmShows(window, before);
    } else {
      UncountsLast(window, before, c, i, j);
      HarmlessFewer(window, before[..i]) by { HarmlessPrefix(window, before, i); }
      assert calls[..i] == before[..i];
      RemovedIsGone(window, before, i, c.key, n);
      assert before[..n] == before;
      CountsArePositive(window, WithoutCleanups(before), c.key);
      limit := Kept(window, before)[c.key].count;
    }
    AgreeStep(limit, window, before, c);
    hide *;
    if Harmless(window, before) { Answers(limit, window, Swept(window, before), Kept(window, before), c); }
  }

  lemma UncountsLast(window: nat, before: seq<Call>, c: Call, i: nat, j: nat)
    requires Harmless(window, before) && Uncounts(window, before + [c], i, j)
    ensures j == |before| && c.Allow? && i < |before| && before[i].Cleanup? && Untouched(before, i, |before|, c.key)
    ensures c.key in Kept(window, before[..i]) && c.at <= Kept(window, before[..i])[c.key].reset < before[i].at
  {
    hide Kept;
    assert (before + [c])[..i] == before[..i];
    SameCalls(before, c);
    if j < |before| { UncountsBefore(window, before, c, i, j); }
  }

  lemma UncountsBefore(window: nat, before: seq<Call>, c: Call, i: nat, j: nat)
    requires Uncounts(window, before + [c], i, j) && j < |before|
    ensures Uncounts(window, before, i, j)
  {
    hide Kept;
    assert (before + [c])[..i] == before[..i];
    SameCalls(before, c);
  }

  lemma SameCalls(before: seq<Call>, c: Call)
    ensures forall k :: 0 <= k < |before| ==> before[k] == (before + [c])[k]
  {
  }

  lemma HarmlessPrefix(window: nat, calls: seq<Call>, n: nat)
    requires Harmless(window, calls) && n <= |calls|
    ensures Harmless(window, calls[..n])
  {
    hide Kept;
    forall i: nat, j: nat ensures !Uncounts(window, calls[..n], i, j) {
      if i < n { assert calls[..n][..i] == calls[..i]; }
      assert !Uncounts(window, calls, i, j);
    }
  }

  /** Where the bucket is gone the event opens a new one; where it is full the event is refused. */
  lemma Answers(limit: nat, window: nat, swept: Buckets, kept: Buckets, c: Call)
    requires c.Allow? && c.key !in swept && c.key in kept && c.at <= kept[c.key].reset && limit == kept[c.key].count
    ensures Allowed(limit, window, swept, c.key, c.at).1 != Allowed(limit, window, kept, c.key, c.at).1
  {
  }

  /** Cleanups change no answer, whatever the limit, if and only if none of them removes a bucket that the next event
      of its key, whose time was taken before the cleanup's, would have been counted in. */
  lemma CleanupsMatterIff(window: nat, calls: seq<Call>)
    ensures (forall limit: nat :: limit >= 1 ==> Agree(limit, window, calls)) <==> Harmless(window, calls)
  {
    hide *;
    if Harmless(window, calls) {
      forall limit: nat | limit >= 1 ensures Agree(limit, window, calls) { HarmlessAgree(limit, window, calls); }
    } else {
      var limit := HarmShows(window, calls);
    }
  }

  /** No event follows a cleanup with a later time. */
  predicate SweepsInOrder(calls: seq<Call>)
  {
    forall i, j :: 0 <= i < j < |calls| && calls[i].Cleanup? && calls[j].Allow? ==> calls[i].at <= calls[j].at
  }

  /** So when no event that took its time before a cleanup gets the lock after it, cleanups change no answer. */
  lemma CleanupNeverMatters(limit: nat, window: nat, calls: seq<Call>)
    requires SweepsInOrder(calls)
    ensures Agree(limit, window, calls)
  {
    hide Kept, Agree;
    assert Harmless(window, calls);
    HarmlessAgree(limit, window, calls);
  }

  /** Otherwise they can: an event takes its time, a cleanup with a later time gets the lock first, and the limiter of
      one event a window lets two through. */
  lemma CleanupCanUncount(key: string)
    ensures var calls := [Allow(key, 0), Cleanup(2), Allow(key, 1)];
      && Granted(calls, Replay(1, 1, calls).1, key, 0, 1) == 2
      && Granted(WithoutCleanups(calls), Replay(1, 1, WithoutCleanups(calls)).1, key, 0, 1) == 1
  {
    hide Replay, Granted, WithoutCleanups;
    var first, swept, third := Allow(key, 0), Cleanup(2), Allow(key, 1);
    assert [first, swept, third] == [first, swept] + [third] && [first, swept] == [first] + [swept];
    FirstOpens(key);
    ReplayStep(1, 1, [first], swept);
    ReplayStep(1, 1, [first, swept], third);
    ReplayStep(1, 1, [first], third);
    WithoutStep([first], swept);
    WithoutStep([first, swept], third);
    GrantedStep([first], [true], swept, true, key, 0, 1);
    GrantedStep([first, swept], [true] + [true], third, true, key, 0, 1);
    GrantedStep([first], [true], third, false, key, 0, 1);
  }

  lemma FirstOpens(key: string)
    ensures Replay(1, 1, [Allow(key, 0)]) == (map[key := Bucket(1, 1)], [true])
    ensures WithoutCleanups([Allow(key, 0)]) == [Allow(key, 0)]
    ensures Granted([Allow(key, 0)], [true], key, 0, 1) == 1
  {
    ReplayStep(1, 1, [], Allow(key, 0));
    WithoutStep([], Allow(key, 0));
    GrantedStep([], [], Allow(key, 0), true, key, 0, 1);
    assert [] + [Allow(key, 0)] == [Allow(key, 0)] && [] + [true] == [true];
  }

  // ----- how many events get through -----

  /** How many events of a key were let through with times between two moments, both included. */
  function Granted(calls: seq<Call>, answers: seq<bool>, key: string, lo: int, hi: int): nat
    requires |answers| == |calls|
  {
    if calls == [] then 0
    else
      var n := |calls| - 1;
      Granted(calls[..n], answers[..n], key, lo, hi)
      + if calls[n].Allow? && calls[n].key == key && lo <= calls[n].at <= hi && answers[n] then 1 else 0
  }

  lemma GrantedStep(calls: seq<Call>, answers: seq<bool>, c: Call, ok: bool, key: string, lo: int, hi: int)
    requires |answers| == |calls|
    ensures Granted(calls + [c], answers + [ok], key, lo, hi)
         == Granted(calls, answers, key, lo, hi) + if c.Allow? && c.key == key && lo <= c.at <= hi && ok then 1 else 0
  {
    assert (calls + [c])[..|calls|] == calls && (answers + [ok])[..|answers|] == answers;
  }

  /** No event has a time more than so far behind that of an earlier call: what the wait for the lock can do to a clock
      that never runs backwards. */
  predicate Lagging(calls: seq<Call>, lag: nat)
  {
    forall i, j :: 0 <= i < j < |calls| ==> calls[i].at - lag <= calls[j].at
  }

  /** The times at which buckets opened, each after the life of the one before. */
  predicate Spaced(births: seq<int>, window: nat)
  {
    forall i :: 0 < i < |births| ==> births[i] > births[i - 1] + window
  }

  function Within(births: seq<int>, lo: int, hi: int): nat
  {
    if births == [] then 0
    else Within(births[..|births| - 1], lo, hi) + if lo <= births[|births| - 1] <= hi then 1 else 0
  }

  lemma WithinStep(births: seq<int>, birth: int, lo: int, hi: int)
    ensures Within(births + [birth], lo, hi) == Within(births, lo, hi) + if lo <= birth <= hi then 1 else 0
  {
    assert (births + [birth])[..|births|] == births;
  }

  /** However many lie within a stretch, all but the last are a window and more apart from the next. */
  lemma {:induction false} FewUpTo(births: seq<int>, window: nat, lo: int, hi: int)
    requires births != [] && Spaced(births, window)
    ensures Within(births, lo, hi) > 0 ==>
      (Within(births, lo, hi) - 1) * (window + 1) <= births[|births| - 1] - lo
  {
    var n := |births| - 1;
    if n > 0 {
      FewUpTo(births[..n], window, lo, hi);
      assert births[n] > births[n - 1] + window && births[..n][n - 1] == births[n - 1];
      Distribute(Within(births[..n], lo, hi), window + 1);
    }
  }

  lemma {:induction false} FewWithin(births: seq<int>, window: nat, lo: int, hi: int)
    requires Spaced(births, window)
    ensures Within(births, lo, hi) > 0 ==> (Within(births, lo, hi) - 1) * (window + 1) <= hi - lo
  {
    if births != [] {
      var n := |births| - 1;
      if lo <= births[n] <= hi {
        FewUpTo(births, window, lo, hi);
      } else {
        FewWithin(births[..n], window, lo, hi);
      }
    }
  }

  lemma Distribute(k: int, d: int)
    ensures k * d == (k - 1) * d + d && d * k == d * (k - 1) + d
  {
  }

  lemma Fits(k: nat, d: nat, span: nat)
    requires d > 0 && k * d <= span
    ensures k <= span / d
  {
    var q := span / d;
    assert span == d * q + span % d;
    if k > q { AtLeast(k, q + 1, d); }
  }

  lemma AtLeast(m: nat, n: nat, d: nat)
    requires m >= n
    ensures m * d >= n * d
  {
  }

  // ----- the bound -----

  /** Buckets that can let through events with times from t to t + window: those whose lives reach it, and those that
      opened after it but not too late for an event that lags. */
  function Near(births: seq<int>, window: nat, lag: nat, t: int): nat
  {
    Within(births, t - window, t + window + lag)
  }

  lemma NearStep(births: seq<int>, birth: int, window: nat, lag: nat, t: int)
    ensures Near(births + [birth], window, lag, t)
      == Near(births, window, lag, t) + if t - window <= birth <= t + window + lag then 1 else 0
  {
    WithinStep(births, birth, t - window, t + window + lag);
  }

  /** What a bucket that reaches the stretch has not let through yet. */
  function Left(limit: nat, window: nat, lag: nat, bucket: Bucket, t: int): nat
  {
    if t - window <= bucket.reset - window <= t + window + lag && bucket.count < limit then limit - bucket.count else 0
  }

  /** Every bucket that reaches the stretch lets through less than the limit there, or the limit if it opens there. */
  predicate Fitting(limit: nat, window: nat, lag: nat, granted: nat, births: seq<int>, bucket: Bucket, t: int)
  {
    granted + Left(limit, window, lag, bucket, t)
      <= (limit - 1) * Near(births, window, lag, t) + Within(births, t, t + window)
  }

  predicate StretchOk(limit: nat, window: nat, lag: nat, calls: seq<Call>, answers: seq<bool>, key: string,
    births: seq<int>, bucket: Bucket, t: int)
    requires |answers| == |calls|
  {
    Fitting(limit, window, lag, Granted(calls, answers, key, t, t + window), births, bucket, t)
  }

  /** The key's most recent bucket, the last of those that opened at `births`, in a run without cleanups. */
  ghost predicate BucketOk(limit: nat, window: nat, lag: nat, calls: seq<Call>, answers: seq<bool>, bucket: Bucket,
    key: string, births: seq<int>)
    requires |answers| == |calls|
  {
    var birth := bucket.reset - window;
    && births != [] && births[|births| - 1] == birth && Spaced(births, window) && bucket.count >= 1
    && (exists i :: 0 <= i < |calls| && calls[i].at == birth)
    && (forall lo, hi :: lo > bucket.reset ==> Granted(calls, answers, key, lo, hi) == 0)
    && (forall hi :: Granted(calls, answers, key, birth, hi) <= limit)
    && (forall hi :: Granted(calls, answers, key, birth, hi) <= bucket.count)
    && (forall t :: StretchOk(limit, window, lag, calls, answers, key, births, bucket, t))
  }

  ghost predicate KeyOk(limit: nat, window: nat, lag: nat, calls: seq<Call>, answers: seq<bool>, b: Buckets,
    key: string, births: seq<int>)
    requires |answers| == |calls|
  {
    && (key !in b ==> births == [] && forall lo, hi :: Granted(calls, answers, key, lo, hi) == 0)
    && (key in b ==> BucketOk(limit, window, lag, calls, answers, b[key], key, births))
  }

  /** An event of another key changes nothing for this one. */
  lemma OtherKey(limit: nat, window: nat, lag: nat, calls: seq<Call>, answers: seq<bool>, b: Buckets, key: string,
    births: seq<int>, c: Call, ok: bool, b': Buckets)
    requires |answers| == |calls| && KeyOk(limit, window, lag, calls, answers, b, key, births)
    requires c.Allow? && c.key != key && (key in b <==> key in b') && (key in b ==> b'[key] == b[key])
    ensures KeyOk(limit, window, lag, calls + [c], answers + [ok], b', key, births)
  {
    forall lo, hi ensures Granted(calls + [c], answers + [ok], key, lo, hi) == Granted(calls, answers, key, lo, hi) {
      GrantedStep(calls, answers, c, ok, key, lo, hi);
    }
    hide Granted, Fitting;
    if key in b {
      var i :| 0 <= i < |calls| && calls[i].at == b[key].reset - window;
      assert (calls + [c])[i] == calls[i];
      forall t
        ensures StretchOk(limit, window, lag, calls + [c], answers + [ok], key, births, b[key], t)
      {
        assert StretchOk(limit, window, lag, calls, answers, key, births, b[key], t);
      }
    }
  }

  /** One more event in the current bucket. */
  lemma SameBucket(limit: nat, window: nat, lag: nat, calls: seq<Call>, answers: seq<bool>, bucket: Bucket, key: string,
    births: seq<int>, now: int)
    requires |answers| == |calls| && BucketOk(limit, window, lag, calls, answers, bucket, key, births)
    requires Lagging(calls + [Allow(key, now)], lag) && now <= bucket.reset
    ensures BucketOk(limit, window, lag, calls + [Allow(key, now)], answers + [bucket.count + 1 <= limit],
      bucket.(count := bucket.count + 1), key, births)
  {
    var c, ok, next := Allow(key, now), bucket.count + 1 <= limit, bucket.(count := bucket.count + 1);
    var i :| 0 <= i < |calls| && calls[i].at == bucket.reset - window;
    assert (calls + [c])[i].at - lag <= (calls + [c])[|calls|].at;
    forall lo, hi
      ensures Granted(calls + [c], answers + [ok], key, lo, hi)
        == Granted(calls, answers, key, lo, hi) + if lo <= now <= hi && ok then 1 else 0
    {
      GrantedStep(calls, answers, c, ok, key, lo, hi);
    }
    hide Granted, Lagging, Near, Within, Spaced, Fitting;
    forall t
      ensures StretchOk(limit, window, lag, calls + [c], answers + [ok], key, births, next, t)
    {
      assert StretchOk(limit, window, lag, calls, answers, key, births, bucket, t);
      OneMore(limit, window, lag, Granted(calls, answers, key, t, t + window), births, bucket, t, now);
    }
  }

  lemma OneMore(limit: nat, window: nat, lag: nat, granted: nat, births: seq<int>, bucket: Bucket, t: int, now: int)
    requires Fitting(limit, window, lag, granted, births, bucket, t)
    requires bucket.reset - window - lag <= now <= bucket.reset
    ensures Fitting(limit, window, lag, granted
      + (if t <= now <= t + window && bucket.count + 1 <= limit then 1 else 0), births,
      bucket.(count := bucket.count + 1), t)
  {
    hide Near, Within;
  }

  /** A fresh bucket: the old one, if any, ran out before. */
  lemma NewBucket(limit: nat, window: nat, lag: nat, calls: seq<Call>, answers: seq<bool>, b: Buckets, key: string,
    births: seq<int>, now: int)
    requires limit >= 1 && |answers| == |calls| && KeyOk(limit, window, lag, calls, answers, b, key, births)
      && (key in b ==> now > b[key].reset)
    ensures BucketOk(limit, window, lag, calls + [Allow(key, now)], answers + [true], Bucket(1, now + window), key,
      births + [now])
  {
    var c := Allow(key, now);
    forall lo, hi
      ensures Granted(calls + [c], answers + [true], key, lo, hi)
        == Granted(calls, answers, key, lo, hi) + if lo <= now <= hi then 1 else 0
    {
      GrantedStep(calls, answers, c, true, key, lo, hi);
    }
    assert (calls + [c])[|calls|].at == now;
    hide Granted, Near, Within, Fitting;
    var calls', answers', births', bucket := calls + [c], answers + [true], births + [now], Bucket(1, now + window);
    forall t ensures StretchOk(limit, window, lag, calls', answers', key, births', bucket, t) {
      if key in b {
        assert StretchOk(limit, window, lag, calls, answers, key, births, b[key], t);
        SoFar(limit, window, lag, Granted(calls, answers, key, t, t + window), births, b[key], t);
      } else {
        NoneYet(limit, window, lag, t);
      }
      OneOpens(limit, window, lag, Granted(calls, answers, key, t, t + window), births, t, now);
    }
  }

  lemma SoFar(limit: nat, window: nat, lag: nat, granted: nat, births: seq<int>, bucket: Bucket, t: int)
    requires Fitting(limit, window, lag, granted, births, bucket, t)
    ensures granted <= (limit - 1) * Near(births, window, lag, t) + Within(births, t, t + window)
  {
    hide Near, Within;
  }

  lemma NoneYet(limit: nat, window: nat, lag: nat, t: int)
    ensures (limit - 1) * Near([], window, lag, t) + Within([], t, t + window) == 0
  {
    assert Near([], window, lag, t) == 0;
    hide Near;
  }

  lemma OneOpens(limit: nat, window: nat, lag: nat, granted: nat, births: seq<int>, t: int, now: int)
    requires limit >= 1 && granted <= (limit - 1) * Near(births, window, lag, t) + Within(births, t, t + window)
    ensures Fitting(limit, window, lag, granted + (if t <= now <= t + window then 1 else 0), births + [now],
      Bucket(1, now + window), t)
  {
    hide Within, Near;
    var before, after := Near(births, window, lag, t), Near(births + [now], window, lag, t);
    NearStep(births, now, window, lag, t);
    WithinStep(births, now, t, t + window);
    if after > before { Distribute(after, limit - 1); }
  }

  lemma {:induction false} EveryKeyOk(limit: nat, window: nat, lag: nat, calls: seq<Call>, key: string)
    returns (births: seq<int>)
    requires limit >= 1 && Lagging(calls, lag) && forall c :: c in calls ==> c.Allow?
    ensures var (b, answers) := Replay(limit, window, calls); KeyOk(limit, window, lag, calls, answers, b, key, births)
    decreases |calls|
  {
    if calls == [] {
      births := [];
    } else {
      var before, c := calls[..|calls| - 1], calls[|calls| - 1];
      assert calls == before + [c] && c in calls;
      births := EveryKeyOk(limit, window, lag, before, key);
      ReplayStep(limit, window, before, c);
      hide *;
      var (b, answers) := Replay(limit, window, before);
      births := KeyStep(limit, window, lag, before, answers, b, key, births, c);
    }
  }

  lemma KeyStep(limit: nat, window: nat, lag: nat, before: seq<Call>, answers: seq<bool>, b: Buckets, key: string,
    births: seq<int>, c: Call)
    returns (births': seq<int>)
    requires limit >= 1 && |answers| == |before| && KeyOk(limit, window, lag, before, answers, b, key, births)
      && Lagging(before + [c], lag) && c.Allow?
    ensures var (b', ok) := Allowed(limit, window, b, c.key, c.at);
      KeyOk(limit, window, lag, before + [c], answers + [ok], b', key, births')
  {
    hide Granted, BucketOk, Lagging;
    var (b', ok) := Allowed(limit, window, b, c.key, c.at);
    births' := births;
    if c.key != key {
      OtherKey(limit, window, lag, before, answers, b, key, births, c, ok, b');
    } else {
      assert c == Allow(key, c.at);
      if key in b && c.at <= b[key].reset {
        SameBucket(limit, window, lag, before, answers, b[key], key, births, c.at);
      } else {
        NewBucket(limit, window, lag, before, answers, b, key, births, c.at);
        births' := births + [c.at];
      }
    }
  }

  /** As many buckets as can let through events of one stretch, each less than the limit, and one event for the bucket
      that opens in it. */
  function Bound(limit: nat, window: nat, lag: nat): int
  {
    ((2 * window + lag) / (window + 1) + 1) * (limit - 1) + 1
  }

  lemma SpacedBound(limit: nat, window: nat, lag: nat, granted: nat, births: seq<int>, t: int)
    requires limit >= 1 && Spaced(births, window)
    requires granted <= (limit - 1) * Near(births, window, lag, t) + Within(births, t, t + window)
    ensures granted <= Bound(limit, window, lag)
  {
    hide Spaced, Within;
    FewWithin(births, window, t - window, t + window + lag);
    FewWithin(births, window, t, t + window);
    var near, opening := Near(births, window, lag, t), Within(births, t, t + window);
    if near > 0 { Fits(near - 1, window + 1, 2 * window + lag); }
    if opening > 0 { Fits(opening - 1, window + 1, window); }
    Under(window, window + 1, 1);
    MoreBuckets(limit, near, (2 * window + lag) / (window + 1) + 1);
  }

  lemma MoreBuckets(limit: nat, near: nat, most: nat)
    requires limit >= 1 && (near > 0 ==> near <= most)
    ensures (limit - 1) * near <= most * (limit - 1)
  {
    AtLeast(most, near, limit - 1);
  }

  // ----- the same with cleanups -----

  lemma NothingGranted(key: string, lo: int, hi: int)
    ensures Verdicts([], []) == [] && WithoutCleanups([]) == [] && Granted([], [], key, lo, hi) == 0
  {
  }

  lemma {:induction false} GrantedOfVerdicts(calls: seq<Call>, answers: seq<bool>, key: string, lo: int, hi: int)
    requires |answers| == |calls|
    ensures |Verdicts(calls, answers)| == |WithoutCleanups(calls)|
    ensures Granted(calls, answers, key, lo, hi)
      == Granted(WithoutCleanups(calls), Verdicts(calls, answers), key, lo, hi)
  {
    if calls == [] {
      NothingGranted(key, lo, hi);
    } else {
      var n := |calls| - 1;
      hide Verdicts, WithoutCleanups, Granted;
      GrantedOfVerdicts(calls[..n], answers[..n], key, lo, hi);
      assert calls == calls[..n] + [calls[n]] && answers == answers[..n] + [answers[n]];
      OneMoreVerdict(calls[..n], answers[..n], calls[n], answers[n], key, lo, hi);
    }
  }

  lemma OneMoreVerdict(calls: seq<Call>, answers: seq<bool>, c: Call, ok: bool, key: string, lo: int, hi: int)
    requires |answers| == |calls| && |Verdicts(calls, answers)| == |WithoutCleanups(calls)|
    requires Granted(calls, answers, key, lo, hi)
      == Granted(WithoutCleanups(calls), Verdicts(calls, answers), key, lo, hi)
    ensures |Verdicts(calls + [c], answers + [ok])| == |WithoutCleanups(calls + [c])|
    ensures Granted(calls + [c], answers + [ok], key, lo, hi)
      == Granted(WithoutCleanups(calls + [c]), Verdicts(calls + [c], answers + [ok]), key, lo, hi)
  {
    hide Verdicts, WithoutCleanups, Granted;
    VerdictsStep(calls, answers, c, ok);
    WithoutStep(calls, c);
    GrantedStep(calls, answers, c, ok, key, lo, hi);
    if c.Allow? { GrantedStep(WithoutCleanups(calls), Verdicts(calls, answers), c, ok, key, lo, hi); }
  }

  /** Any closed interval one window long lets through at most this many events of a key, wherever cleanups fall that
      keep clear of earlier events, and however far events lag. */
  lemma WithinTheBound(limit: nat, window: nat, lag: nat, calls: seq<Call>, key: string, t: int)
    requires limit >= 1 && SweepsInOrder(calls) && Lagging(WithoutCleanups(calls), lag)
    ensures Granted(calls, Replay(limit, window, calls).1, key, t, t + window) <= Bound(limit, window, lag)
  {
    hide *;
    var kept := WithoutCleanups(calls);
    var (b, answers) := Replay(limit, window, kept);
    SameGrants(limit, window, calls, key, t, t + window);
    var births := EveryKeyOk(limit, window, lag, kept, key);
    KeyBound(limit, window, lag, kept, answers, b, key, births, t);
  }

  lemma SameGrants(limit: nat, window: nat, calls: seq<Call>, key: string, lo: int, hi: int)
    requires SweepsInOrder(calls)
    ensures var kept := WithoutCleanups(calls);
      Granted(calls, Replay(limit, window, calls).1, key, lo, hi)
        == Granted(kept, Replay(limit, window, kept).1, key, lo, hi)
  {
    CleanupNeverMatters(limit, window, calls);
    GrantedOfVerdicts(calls, Replay(limit, window, calls).1, key, lo, hi);
    hide Replay, Granted, WithoutCleanups, Verdicts;
  }

  lemma KeyBound(limit: nat, window: nat, lag: nat, calls: seq<Call>, answers: seq<bool>, b: Buckets, key: string,
    births: seq<int>, t: int)
    requires limit >= 1 && |answers| == |calls| && KeyOk(limit, window, lag, calls, answers, b, key, births)
    ensures Granted(calls, answers, key, t, t + window) <= Bound(limit, window, lag)
  {
    hide Granted, Near, Within, Bound, Fitting, Spaced;
    if key in b {
      assert StretchOk(limit, window, lag, calls, answers, key, births, b[key], t);
      SoFar(limit, window, lag, Granted(calls, answers, key, t, t + window), births, b[key], t);
      SpacedBound(limit, window, lag, Granted(calls, answers, key, t, t + window), births, t);
    } else {
      BoundIsPositive(limit, window, lag);
    }
  }

  lemma BoundIsPositive(limit: nat, window: nat, lag: nat)
    requires limit >= 1
    ensures Bound(limit, window, lag) >= 1
  {
    AtLeast((2 * window + lag) / (window + 1) + 1, 0, limit - 1);
  }

  lemma TwoBuckets(window: nat)
    ensures 2 * window / (window + 1) <= 1
  {
    Under(2 * window, window + 1, 2);
  }

  lemma Under(n: nat, d: nat, q: nat)
    requires d > 0 && n < q * d
    ensures n / d < q
  {
    var k := n / d;
    assert n == d * k + n % d;
    if k >= q { AtLeast(k, q, d); }
  }

  /** With events in the order of their times that is fewer than twice the limit: the event that opened the earlier of
      two buckets lies outside. */
  lemma FewerThanTwiceTheLimit(limit: nat, window: nat, calls: seq<Call>, key: string, t: int)
    requires limit >= 1 && SweepsInOrder(calls) && Lagging(WithoutCleanups(calls), 0)
    ensures Granted(calls, Replay(limit, window, calls).1, key, t, t + window) <= 2 * limit - 1
  {
    WithinTheBound(limit, window, 0, calls, key, t);
    hide Granted, Replay, WithoutCleanups, SweepsInOrder, Lagging;
    TwoBuckets(window);
    AtLeast(2, 2 * window / (window + 1) + 1, limit - 1);
  }

  /** From the moment a bucket opens, no more than the limit gets through before the next one, whatever the order of the
      events. */
  lemma AtMostTheLimitPerBucket(limit: nat, window: nat, calls: seq<Call>, key: string, hi: int)
    requires limit >= 1 && SweepsInOrder(calls) && key in Replay(limit, window, WithoutCleanups(calls)).0
    ensures var birth := Replay(limit, window, WithoutCleanups(calls)).0[key].reset - window;
      Granted(calls, Replay(limit, window, calls).1, key, birth, hi) <= limit
  {
    hide *;
    var kept := WithoutCleanups(calls);
    var (b, answers) := Replay(limit, window, kept);
    var lag := SomeLag(kept);
    var births := EveryKeyOk(limit, window, lag, kept, key);
    InBucket(limit, window, lag, kept, answers, b, key, births, hi);
    SameGrants(limit, window, calls, key, b[key].reset - window, hi);
  }

  lemma InBucket(limit: nat, window: nat, lag: nat, calls: seq<Call>, answers: seq<bool>, b: Buckets, key: string,
    births: seq<int>, hi: int)
    requires |answers| == |calls| && KeyOk(limit, window, lag, calls, answers, b, key, births) && key in b
    ensures Granted(calls, answers, key, b[key].reset - window, hi) <= limit
  {
    hide Granted, StretchOk, Spaced;
  }

  /** In a finite run the lag is bounded. */
  lemma {:induction false} SomeLag(calls: seq<Call>) returns (lag: nat)
    ensures Lagging(calls, lag)
  {
    lag := 0;
    if calls != [] {
      var n := |calls| - 1;
      var shorter := SomeLag(calls[..n]);
      var latest := Latest(calls[..n]);
      lag := if latest - calls[n].at > shorter then latest - calls[n].at else shorter;
      forall i, j | 0 <= i < j < |calls| ensures calls[i].at - lag <= calls[j].at {
        assert calls[i] == calls[..n][i];
        if j < n { assert calls[j] == calls[..n][j]; }
      }
    }
  }

  lemma {:induction false} Latest(calls: seq<Call>) returns (latest: int)
    ensures forall i :: 0 <= i < |calls| ==> calls[i].at <= latest
  {
    latest := 0;
    if calls != [] {
      var n := |calls| - 1;
      latest := Latest(calls[..n]);
      assert forall i :: 0 <= i < n ==> calls[..n][i] == calls[i];
      if calls[n].at > latest { latest := calls[n].at; }
    }
  }

  // ----- the bound is reached -----

  /** The same event n times at one moment. */
  function Burst(key: string, at: int, n: nat): (calls: seq<Call>)
    ensures |calls| == n && forall i :: 0 <= i < n ==> calls[i] == Allow(key, at)
  {
    seq(n, _ => Allow(key, at))
  }

  /** When bucket k opens, each just after the one before has run out. */
  function Birth(window: nat, k: nat): nat
  {
    k * (window + 1)
  }

  /** When the rest of bucket k comes: within the stretch from window to twice the window. */
  function Rush(window: nat, k: nat): nat
  {
    if k == 0 then window else 2 * window
  }

  /** Each bucket is opened by one event and filled up by others, which from some bucket on have waited long. */
  function Rounds(key: string, limit: nat, window: nat, k: nat): seq<Call>
    requires limit >= 1
  {
    if k == 0 then []
    else
      var before := Rounds(key, limit, window, k - 1);
      before + [Allow(key, Birth(window, k - 1))] + Burst(key, Rush(window, k - 1), limit - 1)
  }

  /** For every limit, window and lag the bound is reached. */
  lemma BoundIsReached(key: string, limit: nat, window: nat, lag: nat)
    requires limit >= 1
    ensures var calls := Rounds(key, limit, window, (2 * window + lag) / (window + 1) + 1);
      && (forall c :: c in calls ==> c.Allow?) && Lagging(calls, lag)
      && Granted(calls, Replay(limit, window, calls).1, key, window, 2 * window) == Bound(limit, window, lag)
  {
    hide *;
    var k := (2 * window + lag) / (window + 1) + 1;
    RoundsLag(key, limit, window, lag, k) by { LastInTime(window, lag, k); }
    RoundsFit(key, limit, window, k);
    StatusCounts(limit, window, key, Rounds(key, limit, window, k), Bucket(limit, Birth(window, k - 1) + window),
      k * (limit - 1) + Opens(window, k));
    BoundIs(limit, window, lag);
  }

  /** So a limiter that admits more than one event a window can let through any number of events of one window, if they
      wait long enough for the lock. */
  lemma NoBoundForAnyLag(key: string, limit: nat, window: nat, n: nat) returns (calls: seq<Call>)
    requires limit >= 2
    ensures forall c :: c in calls ==> c.Allow?
    ensures Granted(calls, Replay(limit, window, calls).1, key, window, 2 * window) >= n
  {
    hide Granted, Replay, Rounds, Lagging;
    var lag := n * (window + 1);
    BoundIsReached(key, limit, window, lag);
    calls := Rounds(key, limit, window, (2 * window + lag) / (window + 1) + 1);
    Fits(n, window + 1, 2 * window + lag);
    AtLeast(limit - 1, 1, (2 * window + lag) / (window + 1) + 1);
  }

  lemma LastInTime(window: nat, lag: nat, k: nat)
    requires k == (2 * window + lag) / (window + 1) + 1
    ensures Birth(window, k - 1) <= 2 * window + lag
  {
    assert (k - 1) * (window + 1) <= 2 * window + lag by { Divided(2 * window + lag, window + 1); }
  }

  lemma Divided(n: nat, d: nat)
    requires d > 0
    ensures (n / d) * d <= n
  {
  }

  lemma BoundIs(limit: nat, window: nat, lag: nat)
    requires limit >= 1
    ensures var k := (2 * window + lag) / (window + 1) + 1;
      Bound(limit, window, lag) == k * (limit - 1) + Opens(window, k)
  {
    if window >= 1 { Fits(1, window + 1, 2 * window + lag); }
  }

  /** Whether one of the first k buckets opens in the stretch. */
  function Opens(window: nat, k: nat): nat
  {
    if (window == 0 && k >= 1) || k >= 2 then 1 else 0
  }

  lemma {:induction false} RoundsLag(key: string, limit: nat, window: nat, lag: nat, k: nat)
    requires limit >= 1 && (k > 0 ==> Birth(window, k - 1) <= 2 * window + lag)
    ensures var calls := Rounds(key, limit, window, k);
      && Lagging(calls, lag) && (forall c :: c in calls ==> c.Allow?)
      && forall i :: 0 <= i < |calls| ==> calls[i].at < Birth(window, k)
  {
    if k > 0 {
      NextBirth(window, k);
      RoundsLag(key, limit, window, lag, k - 1);
      var before := Rounds(key, limit, window, k - 1);
      var calls := Rounds(key, limit, window, k);
      var birth, rush := Birth(window, k - 1), Rush(window, k - 1);
      hide Rounds, Birth;
      assert calls == before + [Allow(key, birth)] + Burst(key, rush, limit - 1);
      forall i | |before| < i < |calls| ensures calls[i] == Allow(key, rush) { }
    }
  }

  lemma NextBirth(window: nat, k: nat)
    requires k > 0
    ensures Birth(window, k) == Birth(window, k - 1) + window + 1
    ensures Rush(window, k - 1) < Birth(window, k)
    ensures Rush(window, k - 1) <= Birth(window, k - 1) + window
    ensures window <= Birth(window, k - 1) <= 2 * window <==> (k == 1 && window == 0) || (k == 2 && window >= 1)
  {
    Distribute(k, window + 1);
    if k >= 2 { AtLeast(k - 1, 1, window + 1); }
    if k >= 3 { AtLeast(k - 1, 2, window + 1); }
  }

  /** The key's bucket after a run, and how many of its events in the stretch got through. */
  ghost predicate Status(limit: nat, window: nat, key: string, calls: seq<Call>, bucket: Bucket, granted: nat)
  {
    var (b, answers) := Replay(limit, window, calls);
    key in b && b[key] == bucket && Granted(calls, answers, key, window, 2 * window) == granted
  }

  lemma StatusCounts(limit: nat, window: nat, key: string, calls: seq<Call>, bucket: Bucket, granted: nat)
    requires Status(limit, window, key, calls, bucket, granted)
    ensures Granted(calls, Replay(limit, window, calls).1, key, window, 2 * window) == granted
  {
  }

  lemma RoundStarts(limit: nat, window: nat, key: string, at: int)
    requires limit >= 1
    ensures Status(limit, window, key, [Allow(key, at)], Bucket(1, at + window),
      if window <= at <= 2 * window then 1 else 0)
  {
    ReplayStep(limit, window, [], Allow(key, at));
    GrantedStep([], [], Allow(key, at), true, key, window, 2 * window);
    assert [] + [Allow(key, at)] == [Allow(key, at)] && [] + [true] == [true];
    hide Replay, Granted;
    assert Granted([], [], key, window, 2 * window) == 0 by { NoneGranted(key, window, 2 * window); }
    assert Replay(limit, window, []) == (map[], []) by { NothingReplayed(limit, window); }
  }

  lemma NoneGranted(key: string, lo: int, hi: int)
    ensures Granted([], [], key, lo, hi) == 0
  {
  }

  lemma NothingReplayed(limit: nat, window: nat)
    ensures Replay(limit, window, []) == (map[], [])
  {
  }

  /** After a bucket's life an event opens the next. */
  lemma RoundOpens(limit: nat, window: nat, key: string, calls: seq<Call>, bucket: Bucket, granted: nat, at: int)
    requires Status(limit, window, key, calls, bucket, granted) && at > bucket.reset
    ensures Status(limit, window, key, calls + [Allow(key, at)], Bucket(1, at + window),
      granted + if window <= at <= 2 * window then 1 else 0)
  {
    ReplayStep(limit, window, calls, Allow(key, at));
    GrantedStep(calls, Replay(limit, window, calls).1, Allow(key, at), true, key, window, 2 * window);
    hide Replay, Granted;
  }

  /** Within the life of a bucket, events up to the limit all get through. */
  lemma {:induction false} BurstFits(limit: nat, window: nat, key: string, calls: seq<Call>, bucket: Bucket,
    granted: nat, at: int, n: nat)
    requires Status(limit, window, key, calls, bucket, granted)
    requires window <= at <= 2 * window && at <= bucket.reset && bucket.count + n <= limit
    ensures Status(limit, window, key, calls + Burst(key, at, n), Bucket(bucket.count + n, bucket.reset), granted + n)
    decreases n
  {
    if n == 0 {
      assert calls + Burst(key, at, n) == calls;
    } else {
      hide Status;
      BurstFits(limit, window, key, calls, bucket, granted, at, n - 1);
      RoundGoesOn(limit, window, key, calls + Burst(key, at, n - 1), Bucket(bucket.count + n - 1, bucket.reset),
        granted + n - 1, at);
      assert calls + Burst(key, at, n) == calls + Burst(key, at, n - 1) + [Allow(key, at)];
    }
  }

  lemma RoundGoesOn(limit: nat, window: nat, key: string, calls: seq<Call>, bucket: Bucket, granted: nat, at: int)
    requires Status(limit, window, key, calls, bucket, granted)
    requires window <= at <= 2 * window && at <= bucket.reset && bucket.count < limit
    ensures Status(limit, window, key, calls + [Allow(key, at)], Bucket(bucket.count + 1, bucket.reset), granted + 1)
  {
    ReplayStep(limit, window, calls, Allow(key, at));
    GrantedStep(calls, Replay(limit, window, calls).1, Allow(key, at), true, key, window, 2 * window);
    hide Replay, Granted;
  }

  lemma {:induction false} RoundsFit(key: string, limit: nat, window: nat, k: nat)
    requires limit >= 1 && k > 0
    ensures Status(limit, window, key, Rounds(key, limit, window, k), Bucket(limit, Birth(window, k - 1) + window),
      k * (limit - 1) + Opens(window, k))
  {
    var before, birth, rush := Rounds(key, limit, window, k - 1), Birth(window, k - 1), Rush(window, k - 1);
    var calls := before + [Allow(key, birth)];
    var sofar := (k - 1) * (limit - 1) + Opens(window, k);
    NextBirth(window, k);
    Distribute(k, limit - 1);
    if k == 1 {
      RoundStarts(limit, window, key, birth);
      assert before + [Allow(key, birth)] == [Allow(key, birth)];
    } else {
      RoundsFit(key, limit, window, k - 1);
      NextBirth(window, k - 1);
      hide Status, Replay, Granted, Rounds, Birth, Rush;
      RoundOpens(limit, window, key, before, Bucket(limit, Birth(window, k - 2) + window),
        (k - 1) * (limit - 1) + Opens(window, k - 1), birth);
    }
    hide *;
    assert Status(limit, window, key, calls, Bucket(1, birth + window), sofar);
    BurstFits(limit, window, key, calls, Bucket(1, birth + window), sofar, rush, limit - 1);
  }
}
