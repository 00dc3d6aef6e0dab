/**
 * The distributed job lock as a protocol of any number of processes over one Redis
 * (backend/app/core/scheduler_lock.py). A process may stop anywhere; tokens are never drawn twice.
 */
module SchedulerLock {
  import opened Clock
  import opened Redis

  function LockKey(job: string): string {
    "sched:lock:" + job
  }

  /** The time to live of a lock, at least one second. */
  function Px(ttlSeconds: int): int {
    if ttlSeconds < 1 then SECOND else ttlSeconds * SECOND
  }

  /** Where a process is in run_with_lock; `until` is the instant its lock was set plus the time to live. */
  datatype Phase =
    | Idle
    | Running(job: string, token: string, until: int)
    | Finished(job: string, token: string, until: int)

  /** `used` are the tokens drawn so far. */
  datatype State = State(now: int, keys: Keys, procs: map<int, Phase>, used: set<string>)

  function PhaseOf(s: State, p: int): Phase {
    if p in s.procs then s.procs[p] else Idle
  }

  datatype Step =
    | Acquire(proc: int, job: string, token: string, ttlSeconds: int)
    | AcquireError(proc: int, job: string, token: string, ttlSeconds: int, applied: bool)
    | Finish(proc: int)
    | Release(proc: int)
    | ReleaseError(proc: int, applied: bool)
    | Crash(proc: int)
    | Wait(millis: nat)

  predicate Enabled(s: State, step: Step) {
    match step
    case Acquire(p, _, token, _) => PhaseOf(s, p).Idle? && token !in s.used
    case AcquireError(p, _, token, _, _) => PhaseOf(s, p).Idle? && token !in s.used
    case Finish(p) => PhaseOf(s, p).Running?
    case Release(p) => PhaseOf(s, p).Finished?
    case ReleaseError(p, _) => PhaseOf(s, p).Finished?
    case Crash(_) => true
    case Wait(_) => true
  }

  function Set(s: State, job: string, token: string, ttlSeconds: int): State {
    s.(keys := SetNx(s.keys, LockKey(job), token, Px(ttlSeconds), s.now), used := s.used + {token})
  }

  function Go(s: State, p: int, phase: Phase): State {
    s.(procs := s.procs[p := phase])
  }

  function Released(s: State, p: int): State
    requires PhaseOf(s, p).Finished?
  {
    s.(keys := CompareAndDelete(s.keys, LockKey(s.procs[p].job), s.procs[p].token, s.now))
  }

  /** An error may hide that Redis did carry out the command. */
  function Next(s: State, step: Step): State
    requires Enabled(s, step)
  {
    match step
    case Acquire(p, job, token, ttl) =>
      if Live(s.keys, LockKey(job), s.now) then s.(used := s.used + {token})
      else Go(Set(s, job, token, ttl), p, Running(job, token, s.now + Px(ttl)))
    case AcquireError(_, job, token, ttl, applied) =>
      if applied then Set(s, job, token, ttl) else s.(used := s.used + {token})
    case Finish(p) =>
      Go(s, p, Finished(s.procs[p].job, s.procs[p].token, s.procs[p].until))
    case Release(p) => Go(Released(s, p), p, Idle)
    case ReleaseError(p, applied) => Go(if applied then Released(s, p) else s, p, Idle)
    case Crash(p) => Go(s, p, Idle)
    case Wait(d) => s.(now := s.now + d)
  }

  // ---------- the invariant ----------

  /** The key holds something else than the token, or expires at the given instant. */
  predicate EndsAt(keys: Keys, key: string, token: string, until: int) {
    key in keys && keys[key].value == token ==> keys[key].expiresAt == until
  }

  /** A lock that has not outlived its time to live is stored under its own token. */
  predicate Owned(s: State, p: int) {
    var phase := PhaseOf(s, p);
    !phase.Idle? ==>
      && phase.token in s.used
      && (s.now < phase.until ==> LockKey(phase.job) in s.keys && s.keys[LockKey(phase.job)] == Entry(phase.token, phase.until))
      && EndsAt(s.keys, LockKey(phase.job), phase.token, phase.until)
  }

  predicate TokensDiffer(s: State, p: int, q: int) {
    p != q && !PhaseOf(s, p).Idle? && !PhaseOf(s, q).Idle? ==> PhaseOf(s, p).token != PhaseOf(s, q).token
  }

  ghost predicate Inv(s: State) {
    (forall p :: Owned(s, p)) && (forall p, q :: TokensDiffer(s, p, q)) && (forall key | key in s.keys :: s.keys[key].value in s.used)
  }

  lemma LockKeyInjective(job: string, other: string)
    requires LockKey(job) == LockKey(other)
    ensures job == other
  {
    assert LockKey(job)[|"sched:lock:"|..] == job;
    assert LockKey(other)[|"sched:lock:"|..] == other;
  }

  lemma SetKeepsInv(s: State, job: string, token: string, ttl: int)
    requires Inv(s) && token !in s.used
    ensures Inv(Set(s, job, token, ttl))
  {
    var r := Set(s, job, token, ttl);
    forall p ensures Owned(r, p) {
      assert Owned(s, p);
    }
    forall p, q ensures TokensDiffer(r, p, q) {
      assert TokensDiffer(s, p, q);
    }
  }

  lemma ReleaseKeepsInv(s: State, p: int)
    requires Inv(s) && PhaseOf(s, p).Finished?
    ensures Inv(Go(Released(s, p), p, Idle))
  {
    var r := Go(Released(s, p), p, Idle);
    forall q ensures Owned(r, q) {
      assert Owned(s, q) && TokensDiffer(s, p, q);
    }
    forall q, o ensures TokensDiffer(r, q, o) {
      assert TokensDiffer(s, q, o);
    }
  }

  lemma AcquireKeepsInv(s: State, p: int, job: string, token: string, ttl: int)
    requires Inv(s) && token !in s.used && !Live(s.keys, LockKey(job), s.now)
    ensures Inv(Go(Set(s, job, token, ttl), p, Running(job, token, s.now + Px(ttl))))
  {
    SetKeepsInv(s, job, token, ttl);
    var s1 := Set(s, job, token, ttl);
    var r := Go(s1, p, Running(job, token, s.now + Px(ttl)));
    forall q ensures Owned(r, q) {
      assert Owned(s1, q);
    }
    forall q, o ensures TokensDiffer(r, q, o) {
      assert TokensDiffer(s, q, o) && Owned(s, q) && Owned(s, o);
    }
  }

  lemma PhaseKeepsInv(s: State, p: int, phase: Phase)
    requires Inv(s)
    requires phase.Idle? || (!PhaseOf(s, p).Idle? && phase.Finished? &&
             phase == Finished(PhaseOf(s, p).job, PhaseOf(s, p).token, PhaseOf(s, p).until))
    ensures Inv(Go(s, p, phase))
  {
    var r := Go(s, p, phase);
    forall q ensures Owned(r, q) {
      assert Owned(s, q);
    }
    forall q, o ensures TokensDiffer(r, q, o) {
      assert TokensDiffer(s, q, o);
    }
  }

  lemma SmallStepKeepsInv(s: State, token: string, d: nat)
    requires Inv(s)
    ensures Inv(s.(used := s.used + {token})) && Inv(s.(now := s.now + d))
  {
    forall r | r in {s.(used := s.used + {token}), s.(now := s.now + d)} ensures Inv(r) {
      forall q ensures Owned(r, q) {
        assert Owned(s, q);
      }
      forall q, o ensures TokensDiffer(r, q, o) {
        assert TokensDiffer(s, q, o);
      }
    }
  }

  /** Every step of every process keeps the invariant. */
  lemma StepKeepsInv(s: State, step: Step)
    requires Inv(s) && Enabled(s, step)
    ensures Inv(Next(s, step))
  {
    match step
    case Acquire(p, job, token, ttl) =>
      if Live(s.keys, LockKey(job), s.now) {
        SmallStepKeepsInv(s, token, 0);
      } else {
        AcquireKeepsInv(s, p, job, token, ttl);
      }
    case AcquireError(_, job, token, ttl, _) =>
      SetKeepsInv(s, job, token, ttl);
      SmallStepKeepsInv(s, token, 0);
    case Finish(p) => PhaseKeepsInv(s, p, Next(s, step).procs[p]);
    case Release(p) => ReleaseKeepsInv(s, p);
    case ReleaseError(p, _) =>
      ReleaseKeepsInv(s, p);
      PhaseKeepsInv(s, p, Idle);
    case Crash(p) => PhaseKeepsInv(s, p, Idle);
    case Wait(d) => SmallStepKeepsInv(s, "", d);
  }

  // ---------- runs ----------

  datatype Run = Run(states: seq<State>, steps: seq<Step>)

  predicate StepFollows(run: Run, k: nat)
    requires k < |run.steps| && |run.states| == |run.steps| + 1
  {
    Enabled(run.states[k], run.steps[k]) && run.states[k + 1] == Next(run.states[k], run.steps[k])
  }

  ghost predicate IsRun(run: Run) {
    |run.states| == |run.steps| + 1 &&
    run.states[0].keys == map[] && run.states[0].procs == map[] && run.states[0].used == {} &&
    forall k: nat | k < |run.steps| :: StepFollows(run, k)
  }

  lemma {:induction false} ReachableInv(run: Run, k: nat)
    requires IsRun(run) && k <= |run.steps|
    ensures Inv(run.states[k])
  {
    if k > 0 {
      ReachableInv(run, k - 1);
      assert StepFollows(run, k - 1);
      StepKeepsInv(run.states[k - 1], run.steps[k - 1]);
    }
  }

  predicate WithinTtl(s: State, p: int) {
    !PhaseOf(s, p).Idle? && s.now < PhaseOf(s, p).until
  }

  /** A process whose lock has not outlived its time to live finds its own token stored. */
  lemma HolderIsStored(run: Run, k: nat, p: int)
    requires IsRun(run) && k <= |run.steps| && WithinTtl(run.states[k], p)
    ensures var phase, keys := PhaseOf(run.states[k], p), run.states[k].keys;
            LockKey(phase.job) in keys && keys[LockKey(phase.job)] == Entry(phase.token, phase.until)
  {
    ReachableInv(run, k);
    assert Owned(run.states[k], p);
  }

  /** Two processes run the same job at once only if one of them has outlived its time to live. */
  lemma MutualExclusion(run: Run, k: nat, p: int, q: int)
    requires IsRun(run) && k <= |run.steps| && p != q
    requires PhaseOf(run.states[k], p).Running? && PhaseOf(run.states[k], q).Running?
    requires PhaseOf(run.states[k], p).job == PhaseOf(run.states[k], q).job
    ensures !WithinTtl(run.states[k], p) || !WithinTtl(run.states[k], q)
  {
    ReachableInv(run, k);
    var s := run.states[k];
    assert Owned(s, p) && Owned(s, q) && TokensDiffer(s, p, q);
  }

  /** A process gets a lock exactly when the key is free, and then everyone else on the job has outlived its own. */
  lemma AcquisitionIsExact(run: Run, k: nat, p: int, job: string, token: string, ttl: int)
    requires IsRun(run) && k < |run.steps| && run.steps[k] == Acquire(p, job, token, ttl)
    ensures PhaseOf(run.states[k + 1], p).Running? <==> !Live(run.states[k].keys, LockKey(job), run.states[k].now)
    ensures PhaseOf(run.states[k + 1], p).Running? ==>
              PhaseOf(run.states[k + 1], p) == Running(job, token, run.states[k].now + Px(ttl)) &&
              forall q | !PhaseOf(run.states[k], q).Idle? && PhaseOf(run.states[k], q).job == job :: !WithinTtl(run.states[k], q)
  {
    ReachableInv(run, k);
    assert StepFollows(run, k);
    forall q | !PhaseOf(run.states[k], q).Idle? && PhaseOf(run.states[k], q).job == job && WithinTtl(run.states[k], q)
      ensures Live(run.states[k].keys, LockKey(job), run.states[k].now)
    {
      assert Owned(run.states[k], q);
    }
  }

  /** The lock does not protect a job that outlives its time to live: a second process may then run it too. */
  lemma OutlivingTheLockLetsAnotherIn() returns (run: Run)
    ensures IsRun(run)
    ensures var s := run.states[|run.steps|];
            PhaseOf(s, 1).Running? && PhaseOf(s, 2).Running? && PhaseOf(s, 1).job == PhaseOf(s, 2).job
  {
    var steps := [Acquire(1, "job", "a", 1), Wait(SECOND), Acquire(2, "job", "b", 1)];
    var s0 := State(0, map[], map[], {});
    var s1 := Next(s0, steps[0]);
    var s2 := Next(s1, steps[1]);
    var s3 := Next(s2, steps[2]);
    run := Run([s0, s1, s2, s3], steps);
    assert StepFollows(run, 0) && StepFollows(run, 1) && StepFollows(run, 2);
  }

  /** A release removes nothing but the releasing process's own lock, however stale the release is. */
  lemma ReleaseIsOwn(run: Run, k: nat, p: int, key: string)
    requires IsRun(run) && k < |run.steps|
    requires run.steps[k].Release? || run.steps[k].ReleaseError?
    requires run.steps[k].proc == p
    requires key in run.states[k].keys && (key !in run.states[k + 1].keys || run.states[k + 1].keys[key] != run.states[k].keys[key])
    ensures PhaseOf(run.states[k], p).Finished?
    ensures run.states[k].keys[key].value == PhaseOf(run.states[k], p).token && key == LockKey(PhaseOf(run.states[k], p).job)
    ensures forall q | q != p && !PhaseOf(run.states[k], q).Idle? ::
              PhaseOf(run.states[k], q).token != run.states[k].keys[key].value
  {
    assert StepFollows(run, k);
    ReachableInv(run, k);
    forall q | q != p && !PhaseOf(run.states[k], q).Idle?
      ensures PhaseOf(run.states[k], q).token != run.states[k].keys[key].value
    {
      assert TokensDiffer(run.states[k], p, q);
    }
  }

  // ---------- getting the lock back ----------

  /** The step stores a new lock for the job. */
  predicate Stores(run: Run, k: nat, job: string)
    requires k < |run.steps| && |run.states| == |run.steps| + 1
  {
    var step := run.steps[k];
    && (step.Acquire? || (step.AcquireError? && step.applied)) && step.job == job
    && !Live(run.states[k].keys, LockKey(job), run.states[k].now)
  }

  /** No lock is stored for longer than `px`. */
  predicate TtlBound(run: Run, px: int) {
    forall k | 0 <= k < |run.steps| && (run.steps[k].Acquire? || run.steps[k].AcquireError?) :: Px(run.steps[k].ttlSeconds) <= px
  }

  predicate ExpiresBy(keys: Keys, key: string, at: int) {
    key in keys ==> keys[key].expiresAt <= at
  }

  lemma {:induction false} EntriesExpire(run: Run, k: nat, px: int, key: string)
    requires IsRun(run) && k <= |run.steps| && TtlBound(run, px)
    ensures ExpiresBy(run.states[k].keys, key, run.states[k].now + px)
  {
    if k > 0 {
      EntriesExpire(run, k - 1, px, key);
      assert StepFollows(run, k - 1);
    }
  }

  lemma {:induction false} NothingStored(run: Run, i: nat, k: nat, job: string, at: int)
    requires IsRun(run) && i <= k <= |run.steps| && ExpiresBy(run.states[i].keys, LockKey(job), at)
    requires forall m | i <= m < k :: !Stores(run, m, job)
    ensures ExpiresBy(run.states[k].keys, LockKey(job), at)
  {
    if k > i {
      NothingStored(run, i, k - 1, job, at);
      assert StepFollows(run, k - 1) && !Stores(run, k - 1, job);
      var step := run.steps[k - 1];
      if (step.Acquire? || step.AcquireError?) && LockKey(step.job) == LockKey(job) {
        LockKeyInjective(step.job, job);
      }
    }
  }

  /** Unless a new lock is stored for it, a job can be locked again as soon as the stored lock's own time is over. */
  lemma LockComesBack(run: Run, i: nat, k: nat, job: string)
    requires IsRun(run) && i <= k <= |run.steps| && ExpiresBy(run.states[i].keys, LockKey(job), run.states[k].now)
    requires forall m | i <= m < k :: !Stores(run, m, job)
    ensures !Live(run.states[k].keys, LockKey(job), run.states[k].now)
  {
    NothingStored(run, i, k, job, run.states[k].now);
  }

  /** After a crash the job can be locked again once the crashed process's own time to live is over. */
  lemma CrashFreesTheLock(run: Run, i: nat, k: nat, p: int)
    requires IsRun(run) && i < k <= |run.steps| && run.steps[i] == Crash(p) && WithinTtl(run.states[i], p)
    requires forall m | i <= m < k :: !Stores(run, m, PhaseOf(run.states[i], p).job)
    requires run.states[k].now >= PhaseOf(run.states[i], p).until
    ensures !Live(run.states[k].keys, LockKey(PhaseOf(run.states[i], p).job), run.states[k].now)
  {
    HolderIsStored(run, i, p);
    LockComesBack(run, i, k, PhaseOf(run.states[i], p).job);
  }

  lemma {:induction false} TokenEnds(run: Run, i: nat, k: nat, key: string, token: string, until: int)
    requires IsRun(run) && i <= k <= |run.steps| && token in run.states[i].used && EndsAt(run.states[i].keys, key, token, until)
    ensures token in run.states[k].used && EndsAt(run.states[k].keys, key, token, until)
  {
    if k > i {
      TokenEnds(run, i, k - 1, key, token, until);
      assert StepFollows(run, k - 1);
    }
  }

  /**
   * Whatever happens to a process and to the others, the lock it holds now holds nobody up beyond its time to live:
   * from then on no live key carries its token.
   */
  lemma OwnLockEnds(run: Run, i: nat, k: nat, p: int)
    requires IsRun(run) && i <= k <= |run.steps| && !PhaseOf(run.states[i], p).Idle?
    requires run.states[k].now >= PhaseOf(run.states[i], p).until
    ensures var phase, s := PhaseOf(run.states[i], p), run.states[k];
            !(Live(s.keys, LockKey(phase.job), s.now) && s.keys[LockKey(phase.job)].value == phase.token)
  {
    ReachableInv(run, i);
    var phase := PhaseOf(run.states[i], p);
    assert Owned(run.states[i], p);
    TokenEnds(run, i, k, LockKey(phase.job), phase.token, phase.until);
  }

  /** With `px` the longest time to live of the run, a job can be locked again that long after the last lock was stored. */
  lemma LockComesBackWithinTtl(run: Run, i: nat, k: nat, job: string, px: int)
    requires IsRun(run) && i <= k <= |run.steps| && TtlBound(run, px)
    requires forall m | i <= m < k :: !Stores(run, m, job)
    requires run.states[k].now >= run.states[i].now + px
    ensures !Live(run.states[k].keys, LockKey(job), run.states[k].now)
  {
    EntriesExpire(run, i, px, LockKey(job));
    LockComesBack(run, i, k, job);
  }

  // ---------- the code of one process ----------

  /** The two calls run_with_lock makes around the job. */
  class Lock {
    const redis: Client

    constructor (redis: Client)
      ensures this.redis == redis
    {
      this.redis := redis;
    }

    method TryAcquire(job: string, token: string, ttlSeconds: int, now: int) returns (acquired: bool)
      modifies redis
      ensures redis.keys == SetNx(old(redis.keys), LockKey(job), token, Px(ttlSeconds), now)
      ensures acquired <==> !Live(old(redis.keys), LockKey(job), now)
      ensures acquired ==> redis.keys[LockKey(job)] == Entry(token, now + Px(ttlSeconds))
    {
      var seconds := if ttlSeconds > 1 then ttlSeconds else 1;
      acquired := redis.Set(LockKey(job), token, seconds * SECOND, now);
    }

    method Release(job: string, token: string, now: int)
      modifies redis
      ensures redis.keys == CompareAndDelete(old(redis.keys), LockKey(job), token, now)
    {
      var deleted := redis.Delete(LockKey(job), token, now);
    }
  }
}
