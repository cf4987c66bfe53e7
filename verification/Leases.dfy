/** The media job lease protocol: claim, heartbeat, complete, fail, exhaust and owner retry, fenced by the
    attempt number (src/media_indexer.rs, src/media_admin.rs). */
module Leases {
  import opened Common

  const MAX_ATTEMPTS: nat := 5
  const LEASE_SECONDS: int := 300

  datatype JobState = Queued | RetryWait | Running | Completed | FailedJob | Unsupported
  datatype Failure = Retryable | Permanent | UnsupportedInput
  /** `priority` orders the kinds of job: image preview, video thumbnail, video preview, face index. */
  datatype Job = Job(priority: nat, state: JobState, attempts: nat, available: int, lease: Option<int>)

  // ----- the row updates

  predicate Claimable(j: Job, now: int) {
    j.attempts < MAX_ATTEMPTS
    && (((j.state.Queued? || j.state.RetryWait?) && j.available <= now)
      || (j.state.Running? && j.lease.Some? && j.lease.value <= now))
  }

  function Claimed(j: Job, now: int): Job {
    j.(state := Running, attempts := j.attempts + 1, available := now, lease := Some(now + LEASE_SECONDS))
  }

  predicate Exhausted(j: Job, now: int) {
    j.state.Running? && j.lease.Some? && j.lease.value <= now && j.attempts >= MAX_ATTEMPTS
  }

  function FailedRow(j: Job): Job {
    j.(state := FailedJob, lease := None)
  }

  /** The guard of every write a worker makes to its job. */
  predicate Fenced(j: Job, attempt: nat) {
    j.state.Running? && j.attempts == attempt
  }

  function Renewed(j: Job, now: int): Job {
    j.(lease := Some(now + LEASE_SECONDS))
  }

  function CompletedRow(j: Job): Job {
    j.(state := Completed, lease := None)
  }

  function Power2(n: nat): nat {
    if n == 0 then 1 else 2 * Power2(n - 1)
  }

  function Delay(attempt: nat): nat {
    var e := if attempt == 0 then 0 else attempt - 1;
    10 * Power2(if e < 8 then e else 8)
  }

  function AfterFailure(j: Job, attempt: nat, failure: Failure, now: int): Job {
    match failure
    case UnsupportedInput => j.(state := Unsupported, available := now, lease := None)
    case Permanent => j.(state := FailedJob, available := now, lease := None)
    case Retryable =>
      if attempt >= MAX_ATTEMPTS then j.(state := FailedJob, available := now, lease := None)
      else j.(state := RetryWait, available := now + Delay(attempt), lease := None)
  }

  function Retried(j: Job, now: int): Job {
    j.(state := Queued, attempts := 0, available := now, lease := None)
  }

  /** Retry delays are 10, 20, 40 and 80 seconds, for the attempts that can still be retried. */
  lemma RetryDelays(j: Job, attempt: nat, now: int)
    requires 1 <= attempt <= MAX_ATTEMPTS
    ensures AfterFailure(j, attempt, Retryable, now).state.RetryWait? <==> attempt < MAX_ATTEMPTS
    ensures attempt < MAX_ATTEMPTS ==>
      AfterFailure(j, attempt, Retryable, now).available == now + [10, 20, 40, 80][attempt - 1]
  {
    assert Power2(0) == 1 && Power2(1) == 2 && Power2(2) == 4 && Power2(3) == 8;
  }

  // ----- runs

  /** A worker's memory of its claim; `retries` is history: how often the owner had retried the job by then. */
  datatype Claim = Claim(job: Id, attempt: nat, retries: nat)

  /** Per-job history: owner retries, completions, the newest claim and who wrote derivative rows. */
  datatype History = History(retries: nat, completions: nat, latest: Option<Id>, writers: seq<Id>)

  datatype State = State(jobs: map<Id, Job>, history: map<Id, History>, claims: map<Id, Claim>, now: int, paused: bool)

  datatype Op =
    | Advance(seconds: nat)
    | SetPause(on: bool)
    | Enqueue(job: Id, priority: nat)
    | ClaimOne(job: Id, worker: Id)
    | FailExhausted
    | Renew(worker: Id)
    | Complete(worker: Id)
    | RecordFailure(worker: Id, failure: Failure)
    | RetryFailed(only: Option<Id>)

  const Initial := State(map[], map[], map[], 0, false)

  /** The worker's claim still passes the fence. */
  predicate MayWrite(s: State, w: Id) {
    w in s.claims && s.claims[w].job in s.jobs && s.claims[w].job in s.history
      && Fenced(s.jobs[s.claims[w].job], s.claims[w].attempt)
  }

  /** The rows an owner retry resets: one failed job, or all of them. */
  predicate Retryables(jobs: map<Id, Job>, only: Option<Id>, j: Id) {
    j in jobs && jobs[j].state.FailedJob? && (only.Some? ==> only.value == j)
  }

  function SetJob(s: State, j: Id, row: Job): State {
    s.(jobs := s.jobs[j := row])
  }

  function Step(s: State, op: Op): State {
    match op
    case Advance(d) => s.(now := s.now + d)
    case SetPause(on) => s.(paused := on)
    case Enqueue(j, p) =>
      if j in s.jobs then s
      else SetJob(s, j, Job(p, Queued, 0, s.now, None)).(history := s.history[j := History(0, 0, None, [])])
    case ClaimOne(j, w) =>
      if j in s.jobs && j in s.history && w !in s.claims && !s.paused && Claimable(s.jobs[j], s.now)
      then SetJob(s, j, Claimed(s.jobs[j], s.now))
           .(claims := s.claims[w := Claim(j, s.jobs[j].attempts + 1, s.history[j].retries)],
             history := s.history[j := s.history[j].(latest := Some(w))])
      else s
    case FailExhausted =>
      s.(jobs := map j | j in s.jobs :: if Exhausted(s.jobs[j], s.now) then FailedRow(s.jobs[j]) else s.jobs[j])
    case Renew(w) =>
      if MayWrite(s, w) then SetJob(s, s.claims[w].job, Renewed(s.jobs[s.claims[w].job], s.now)) else s
    case Complete(w) =>
      if MayWrite(s, w) then
        var j := s.claims[w].job;
        SetJob(s, j, CompletedRow(s.jobs[j]))
        .(history := s.history[j := s.history[j].(completions := s.history[j].completions + 1,
                                                  writers := s.history[j].writers + [w])])
      else s
    case RecordFailure(w, failure) =>
      if MayWrite(s, w)
        then SetJob(s, s.claims[w].job, AfterFailure(s.jobs[s.claims[w].job], s.claims[w].attempt, failure, s.now))
        else s
    case RetryFailed(only) =>
      s.(jobs := map j | j in s.jobs :: if Retryables(s.jobs, only, j) then Retried(s.jobs[j], s.now) else s.jobs[j],
         history := map j | j in s.history ::
           if Retryables(s.jobs, only, j) then s.history[j].(retries := s.history[j].retries + 1) else s.history[j])
  }

  function Execute(s: State, ops: seq<Op>): State {
    if ops == [] then s else Step(Execute(s, ops[..|ops| - 1]), ops[|ops| - 1])
  }

  // ----- the invariant

  ghost predicate JobOk(s: State, j: Id)
    requires j in s.jobs && j in s.history
  {
    var job, h := s.jobs[j], s.history[j];
    && job.attempts <= MAX_ATTEMPTS
    && (job.state.Running? <==> job.lease.Some?)
    && (job.state.Queued? ==> job.attempts == 0) && (job.state.RetryWait? ==> 1 <= job.attempts < MAX_ATTEMPTS)
    && (job.state.Running? ==> job.attempts >= 1)
    && h.completions == (if job.state.Completed? then 1 else 0) && |h.writers| == h.completions
    && (job.attempts > 0 ==>
      h.latest.Some? && h.latest.value in s.claims && s.claims[h.latest.value] == Claim(j, job.attempts, h.retries))
  }

  /** A claim made since the last owner retry has a smaller number than the newest one, or is the newest one. */
  ghost predicate ClaimOk(s: State, w: Id)
    requires w in s.claims
  {
    var c := s.claims[w];
    && c.job in s.jobs && c.job in s.history && 1 <= c.attempt <= MAX_ATTEMPTS && c.retries <= s.history[c.job].retries
    && (c.retries == s.history[c.job].retries ==> c.attempt <= s.jobs[c.job].attempts)
    && (c.retries == s.history[c.job].retries && c.attempt == s.jobs[c.job].attempts ==>
      s.history[c.job].latest == Some(w))
  }

  ghost predicate Inv(s: State) {
    && s.jobs.Keys == s.history.Keys
    && (forall j {:trigger JobOk(s, j)} :: j in s.jobs ==> JobOk(s, j))
    && (forall w {:trigger ClaimOk(s, w)} :: w in s.claims ==> ClaimOk(s, w))
  }

  lemma WorkerKeepsJob(s: State, op: Op, j: Id)
    requires Inv(s) && j in Step(s, op).jobs && ByWorker(op)
    ensures Step(s, op).jobs.Keys == Step(s, op).history.Keys && JobOk(Step(s, op), j)
  {
    assert JobOk(s, j);
    if op.worker in s.claims {
      assert ClaimOk(s, op.worker);
    }
  }

  lemma StepKeepsJob(s: State, op: Op, j: Id)
    requires Inv(s) && j in Step(s, op).jobs
    ensures Step(s, op).jobs.Keys == Step(s, op).history.Keys && JobOk(Step(s, op), j)
  {
    if ByWorker(op) {
      WorkerKeepsJob(s, op, j);
    } else {
      assert j in s.jobs ==> JobOk(s, j);
    }
  }

  lemma StepKeepsClaim(s: State, op: Op, w: Id)
    requires Inv(s) && w in Step(s, op).claims
    ensures Step(s, op).jobs.Keys == Step(s, op).history.Keys && ClaimOk(Step(s, op), w)
  {
    if w in s.claims {
      assert ClaimOk(s, w);
    }
    if op.ClaimOne? && op.job in s.jobs {
      assert JobOk(s, op.job);
    }
  }

  lemma StepKeepsInv(s: State, op: Op)
    requires Inv(s)
    ensures Inv(Step(s, op))
  {
    var t := Step(s, op);
    assert t.jobs.Keys == t.history.Keys;
    forall j | j in t.jobs ensures JobOk(t, j) {
      StepKeepsJob(s, op, j);
    }
    forall w | w in t.claims ensures ClaimOk(t, w) {
      StepKeepsClaim(s, op, w);
    }
  }

  lemma {:induction false} RunKeepsInv(ops: seq<Op>)
    ensures Inv(Execute(Initial, ops))
  {
    if ops != [] {
      RunKeepsInv(ops[..|ops| - 1]);
      StepKeepsInv(Execute(Initial, ops[..|ops| - 1]), ops[|ops| - 1]);
    }
  }

  // ----- fencing

  predicate ByWorker(op: Op) {
    op.Renew? || op.Complete? || op.RecordFailure?
  }

  /** A worker's write that takes effect comes from the job's newest claim, unless the owner has retried the job
      since that worker claimed it. */
  lemma StaleWriteNeedsRetry(ops: seq<Op>, op: Op)
    requires ByWorker(op) && Step(Execute(Initial, ops), op) != Execute(Initial, ops)
    ensures var s := Execute(Initial, ops);
            && op.worker in s.claims && s.claims[op.worker].job in s.history
            && (s.history[s.claims[op.worker].job].latest == Some(op.worker)
                || s.history[s.claims[op.worker].job].retries > s.claims[op.worker].retries)
  {
    RunKeepsInv(ops);
    assert ClaimOk(Execute(Initial, ops), op.worker);
  }

  lemma {:induction false} NoRetryNoCount(ops: seq<Op>, j: Id)
    requires forall k :: 0 <= k < |ops| ==> !ops[k].RetryFailed?
    ensures j in Execute(Initial, ops).history ==> Execute(Initial, ops).history[j].retries == 0
  {
    if ops != [] {
      NoRetryNoCount(ops[..|ops| - 1], j);
    }
  }

  /** In a run without owner retries a worker whose job was claimed again can no longer change anything. */
  lemma ReclaimedWorkerIsFenced(ops: seq<Op>, op: Op)
    requires (forall k :: 0 <= k < |ops| ==> !ops[k].RetryFailed?) && ByWorker(op)
    requires var s := Execute(Initial, ops);
             op.worker in s.claims && s.claims[op.worker].job in s.history
               && s.history[s.claims[op.worker].job].latest != Some(op.worker)
    ensures Step(Execute(Initial, ops), op) == Execute(Initial, ops)
  {
    NoRetryNoCount(ops, Execute(Initial, ops).claims[op.worker].job);
    if Step(Execute(Initial, ops), op) != Execute(Initial, ops) {
      StaleWriteNeedsRetry(ops, op);
    }
  }

  /** In any run a job completes at most once, and its derivative rows are written exactly then. */
  lemma CompletesOnce(ops: seq<Op>, j: Id)
    requires j in Execute(Initial, ops).jobs
    ensures var s := Execute(Initial, ops);
            && j in s.history && s.history[j].completions <= 1 && |s.history[j].writers| == s.history[j].completions
            && (s.history[j].completions == 1 <==> s.jobs[j].state.Completed?)
  {
    RunKeepsInv(ops);
    assert JobOk(Execute(Initial, ops), j);
  }

  /** Claims are numbered 1 to 5, and those between two owner retries all differently. */
  lemma ClaimsAreBounded(ops: seq<Op>, w: Id)
    requires w in Execute(Initial, ops).claims
    ensures 1 <= Execute(Initial, ops).claims[w].attempt <= MAX_ATTEMPTS
    ensures var s := Execute(Initial, ops);
            forall v | v in s.claims && v != w && s.claims[v].job == s.claims[w].job
                       && s.claims[v].retries == s.claims[w].retries ::
              s.claims[v].attempt != s.claims[w].attempt
  {
    RunKeepsInv(ops);
    assert ClaimOk(Execute(Initial, ops), w);
    forall v | v in Execute(Initial, ops).claims && v != w
               && Execute(Initial, ops).claims[v].job == Execute(Initial, ops).claims[w].job
               && Execute(Initial, ops).claims[v].retries == Execute(Initial, ops).claims[w].retries
      ensures Execute(Initial, ops).claims[v].attempt != Execute(Initial, ops).claims[w].attempt
    {
      ClaimNumbersDiffer(ops, v, w);
    }
  }

  lemma StepOnClaims(s: State, op: Op, v: Id)
    requires v in Step(s, op).claims
    ensures v in s.claims ==> Step(s, op).claims[v] == s.claims[v]
    ensures v !in s.claims ==>
              && op.ClaimOne? && op.worker == v && op.job in s.jobs && op.job in s.history
              && Step(s, op).claims[v] == Claim(op.job, s.jobs[op.job].attempts + 1, s.history[op.job].retries)
  {
  }

  lemma {:induction false} ClaimNumbersDiffer(ops: seq<Op>, v: Id, w: Id)
    requires var s := Execute(Initial, ops);
             && v in s.claims && w in s.claims && v != w
             && s.claims[v].job == s.claims[w].job && s.claims[v].retries == s.claims[w].retries
    ensures Execute(Initial, ops).claims[v].attempt != Execute(Initial, ops).claims[w].attempt
  {
    var front, op := ops[..|ops| - 1], ops[|ops| - 1];
    var s := Execute(Initial, front);
    StepOnClaims(s, op, v);
    StepOnClaims(s, op, w);
    if v in s.claims && w in s.claims {
      ClaimNumbersDiffer(front, v, w);
    } else {
      var earlier := if v in s.claims then v else w;
      assert ClaimOk(s, earlier) by {
        RunKeepsInv(front);
      }
    }
  }

  /** Claims of a job between the `r`-th and the next owner retry. */
  function ClaimsOf(s: State, j: Id, r: nat): set<Id> {
    set w | w in s.claims && s.claims[w].job == j && s.claims[w].retries == r
  }

  lemma {:induction false} DistinctNumbers(ws: set<Id>, number: map<Id, nat>, n: nat)
    requires ws <= number.Keys && (forall w :: w in ws ==> 1 <= number[w] <= n)
    requires forall v, w :: v in ws && w in ws && v != w ==> number[v] != number[w]
    ensures |ws| <= n
  {
    if n > 0 {
      if w :| w in ws && number[w] == n {
        DistinctNumbers(ws - {w}, number, n - 1);
      } else {
        DistinctNumbers(ws, number, n - 1);
      }
    } else {
      assert ws == {};
    }
  }

  /** In every run a job is claimed at most five times between two owner retries. */
  lemma AtMostFiveClaims(ops: seq<Op>, j: Id, r: nat)
    ensures |ClaimsOf(Execute(Initial, ops), j, r)| <= MAX_ATTEMPTS
  {
    var s := Execute(Initial, ops);
    var number := map w | w in s.claims :: s.claims[w].attempt;
    forall w | w in ClaimsOf(s, j, r) ensures 1 <= number[w] <= MAX_ATTEMPTS {
      ClaimsAreBounded(ops, w);
    }
    forall v, w | v in ClaimsOf(s, j, r) && w in ClaimsOf(s, j, r) && v != w ensures number[v] != number[w] {
      ClaimNumbersDiffer(ops, v, w);
    }
    DistinctNumbers(ClaimsOf(s, j, r), number, MAX_ATTEMPTS);
  }

  // ----- exactly when a claim passes the fence

  /** The attempt number counts the claims since the last owner retry. */
  ghost predicate CountOk(s: State, j: Id)
    requires j in s.jobs && j in s.history
  {
    s.jobs[j].attempts == |ClaimsOf(s, j, s.history[j].retries)|
  }

  lemma ClaimCounts(s: State, j: Id, w: Id)
    requires Inv(s) && j in s.jobs && CountOk(s, j)
    ensures j in Step(s, ClaimOne(j, w)).history && CountOk(Step(s, ClaimOne(j, w)), j)
  {
    var t := Step(s, ClaimOne(j, w));
    if t != s {
      assert ClaimsOf(t, j, t.history[j].retries) == ClaimsOf(s, j, s.history[j].retries) + {w};
    }
  }

  lemma RetryCounts(s: State, j: Id, only: Option<Id>)
    requires Inv(s) && j in s.jobs && CountOk(s, j)
    ensures j in Step(s, RetryFailed(only)).history && CountOk(Step(s, RetryFailed(only)), j)
  {
    var t := Step(s, RetryFailed(only));
    assert t.claims == s.claims;
    if Retryables(s.jobs, only, j) {
      forall w | w in s.claims ensures w !in ClaimsOf(t, j, t.history[j].retries) {
        assert ClaimOk(s, w);
      }
      assert ClaimsOf(t, j, t.history[j].retries) == {};
    } else {
      assert ClaimsOf(t, j, t.history[j].retries) == ClaimsOf(s, j, s.history[j].retries);
    }
  }

  lemma NewJobCounts(s: State, j: Id, p: nat)
    requires Inv(s) && j !in s.jobs
    ensures CountOk(Step(s, Enqueue(j, p)), j)
  {
    var t := Step(s, Enqueue(j, p));
    forall w | w in s.claims ensures w !in ClaimsOf(t, j, 0) {
      assert ClaimOk(s, w);
    }
    assert ClaimsOf(t, j, 0) == {};
  }

  /** Every other step leaves the claims and numbers of the job alone. */
  lemma OthersCount(s: State, op: Op, j: Id)
    requires Inv(s) && j in s.jobs && CountOk(s, j) && !op.RetryFailed? && !(op.ClaimOne? && op.job == j)
    ensures j in Step(s, op).jobs && j in Step(s, op).history && CountOk(Step(s, op), j)
  {
    var t := Step(s, op);
    assert t.jobs[j].attempts == s.jobs[j].attempts && t.history[j].retries == s.history[j].retries;
    assert ClaimsOf(t, j, t.history[j].retries) == ClaimsOf(s, j, s.history[j].retries);
  }

  lemma {:induction false} RunKeepsCount(ops: seq<Op>, j: Id)
    requires j in Execute(Initial, ops).jobs
    ensures j in Execute(Initial, ops).history && CountOk(Execute(Initial, ops), j)
  {
    var front, op := ops[..|ops| - 1], ops[|ops| - 1];
    var s := Execute(Initial, front);
    RunKeepsInv(front);
    if j !in s.jobs {
      NewJobCounts(s, j, op.priority);
    } else {
      RunKeepsCount(front, j);
      if op.RetryFailed? {
        RetryCounts(s, j, op.only);
      } else if op.ClaimOne? && op.job == j {
        ClaimCounts(s, j, op.worker);
      } else {
        OthersCount(s, op, j);
      }
    }
  }

  /** Over every run a claim passes the fence exactly while its job runs and the claim is the newest, or, if the owner
      has retried the job since, while the number of claims since the last retry is the claim's own number again. */
  lemma FencePassedIff(ops: seq<Op>, w: Id)
    requires w in Execute(Initial, ops).claims
    ensures var s, c := Execute(Initial, ops), Execute(Initial, ops).claims[w];
            && c.job in s.jobs && c.job in s.history
            && (MayWrite(s, w) <==>
                && s.jobs[c.job].state.Running?
                && if c.retries == s.history[c.job].retries then s.history[c.job].latest == Some(w)
                   else |ClaimsOf(s, c.job, s.history[c.job].retries)| == c.attempt)
  {
    var s := Execute(Initial, ops);
    RunKeepsInv(ops);
    assert ClaimOk(s, w);
    assert JobOk(s, s.claims[w].job);
    RunKeepsCount(ops, s.claims[w].job);
  }

  /** Completing and recording a failure change something exactly when the worker's claim passes the fence. */
  lemma WritesIffFenced(ops: seq<Op>, op: Op)
    requires op.Complete? || op.RecordFailure?
    ensures Step(Execute(Initial, ops), op) != Execute(Initial, ops) <==> MayWrite(Execute(Initial, ops), op.worker)
  {
    var s := Execute(Initial, ops);
    if MayWrite(s, op.worker) {
      var j := s.claims[op.worker].job;
      assert Step(s, op).jobs[j].state != Running;
    }
  }

  // ----- progress

  predicate Unfinished(st: JobState) {
    st.Queued? || st.RetryWait? || st.Running?
  }

  /** Left alone, an unfinished job becomes claimable, or (after five attempts) the sweep fails it. */
  lemma NothingIsStuck(ops: seq<Op>, j: Id) returns (wait: nat)
    requires j in Execute(Initial, ops).jobs && Unfinished(Execute(Initial, ops).jobs[j].state)
    ensures var s := Execute(Initial, ops);
            forall d: nat :: d >= wait ==>
              var t := Step(s, Advance(d));
              Claimable(t.jobs[j], t.now) || Step(t, FailExhausted).jobs[j].state.FailedJob?
  {
    var s := Execute(Initial, ops);
    RunKeepsInv(ops);
    assert JobOk(s, j);
    var due := if s.jobs[j].state.Running? then s.jobs[j].lease.value else s.jobs[j].available;
    wait := if due > s.now then due - s.now else 0;
  }

  // ----- what an owner retry undoes

  lemma Extend(ops: seq<Op>, s: State, op: Op) returns (ops': seq<Op>, s': State)
    requires Execute(Initial, ops) == s
    ensures ops' == ops + [op] && s' == Step(s, op) && Execute(Initial, ops') == s'
  {
    ops', s' := ops + [op], Step(s, op);
    assert ops'[..|ops|] == ops;
  }

  /** Worker 10 claims job 1 and loses it to worker 11. */
  lemma JobChangesHands() returns (ops: seq<Op>, s: State)
    ensures |ops| == 4 && s == Execute(Initial, ops)
    ensures s.jobs == map[1 := Job(0, Running, 2, 300, Some(600))] && s.history == map[1 := History(0, 0, Some(11), [])]
    ensures s.claims == map[10 := Claim(1, 1, 0), 11 := Claim(1, 2, 0)] && s.now == 300 && !s.paused
  {
    ops, s := Extend([], Initial, Enqueue(1, 0));
    assert s.jobs == map[1 := Job(0, Queued, 0, 0, None)];
    ops, s := Extend(ops, s, ClaimOne(1, 10));
    assert s.jobs == map[1 := Job(0, Running, 1, 0, Some(300))];
    ops, s := Extend(ops, s, Advance(300));
    ops, s := Extend(ops, s, ClaimOne(1, 11));
  }

  /** Worker 11 fails, the owner retries and worker 12 holds the lease. */
  lemma JobIsRetried() returns (ops: seq<Op>, s: State)
    ensures |ops| == 7 && s == Execute(Initial, ops)
    ensures s.jobs == map[1 := Job(0, Running, 1, 300, Some(600))] && s.history == map[1 := History(1, 0, Some(12), [])]
    ensures 10 in s.claims && s.claims[10] == Claim(1, 1, 0)
  {
    ops, s := JobChangesHands();
    ops, s := Extend(ops, s, RecordFailure(11, Permanent));
    assert s.jobs == map[1 := Job(0, FailedJob, 2, 300, None)];
    ops, s := Extend(ops, s, RetryFailed(Some(1)));
    assert s.jobs == map[1 := Job(0, Queued, 0, 300, None)];
    ops, s := Extend(ops, s, ClaimOne(1, 12));
  }

  /** The retry resets the attempt number, so an old worker's number comes up again: worker 10 lost the job to
      worker 11, yet it is worker 10 that completes it while worker 12 holds the lease. */
  lemma StaleWriteAfterRetry() returns (ops: seq<Op>)
    ensures var s := Execute(Initial, ops);
            |ops| == 8 && ops[7] == Complete(10) && 1 in s.history
              && s.history[1].writers == [10] && s.history[1].latest == Some(12)
  {
    var s;
    ops, s := JobIsRetried();
    ops, s := Extend(ops, s, Complete(10));
  }

  /** `n` more claims of a job by new workers, each after the previous lease ran out. */
  lemma {:induction false} ClaimAgain(ops: seq<Op>, j: Id, n: nat) returns (ops': seq<Op>)
    requires var s := Execute(Initial, ops);
             j in s.jobs && !s.paused && Claimable(s.jobs[j], s.now) && 1 <= n && s.jobs[j].attempts + n <= MAX_ATTEMPTS
    ensures var s, t := Execute(Initial, ops), Execute(Initial, ops');
            && ops <= ops' && j in t.jobs && j in t.history && Fenced(t.jobs[j], s.jobs[j].attempts + n)
            && (forall w :: w in s.claims ==> w in t.claims && t.claims[w] == s.claims[w])
            && t.history[j].latest.Some? && t.history[j].latest.value !in s.claims
    decreases n
  {
    var s := Execute(Initial, ops);
    RunKeepsInv(ops);
    FreshExists(s.claims.Keys);
    var w: Id :| w !in s.claims;
    var t;
    ops', t := Extend(ops, s, ClaimOne(j, w));
    if n > 1 {
      ops', t := Extend(ops', t, Advance(LEASE_SECONDS));
      ops' := ClaimAgain(ops', j, n - 1);
    }
  }

  /** So fencing holds only between retries: from every reachable state in which a job has failed, one owner retry and
      as many claims as the old worker's number let that worker through the fence again, although it never is the
      newest claimant. */
  lemma RetryUnfences(ops: seq<Op>, w: Id) returns (ops': seq<Op>)
    requires var s := Execute(Initial, ops);
             w in s.claims && s.claims[w].job in s.jobs && s.jobs[s.claims[w].job].state.FailedJob? && !s.paused
    ensures var s, t := Execute(Initial, ops), Execute(Initial, ops');
            && ops <= ops' && MayWrite(t, w) && t.claims[w] == s.claims[w]
            && s.claims[w].job in t.history && t.history[s.claims[w].job].latest != Some(w)
  {
    var s := Execute(Initial, ops);
    RunKeepsInv(ops);
    assert ClaimOk(s, w);
    var j := s.claims[w].job;
    var t;
    ops', t := Extend(ops, s, RetryFailed(Some(j)));
    assert t.jobs[j] == Retried(s.jobs[j], s.now);
    ops' := ClaimAgain(ops', j, s.claims[w].attempt);
  }

  // ----- the job table

  predicate Precedes(jobs: map<Id, Job>, i: Id, j: Id)
    requires i in jobs && j in jobs
  {
    var a, b := jobs[i], jobs[j];
    var x, y := a.lease.GetOr(a.available), b.lease.GetOr(b.available);
    a.priority < b.priority || (a.priority == b.priority && (x < y || (x == y && i <= j)))
  }

  /** The rows of `media_index_jobs` and the pause flag. `Shows` ties them to a state of a run; the clock is an
      argument, and the history kept in that state is not stored anywhere. */
  class JobTable {
    var jobs: map<Id, Job>
    var paused: bool

    ghost predicate Shows(s: State)
      reads this
    {
      jobs == s.jobs && paused == s.paused
    }

    constructor ()
      ensures Shows(Initial)
    {
      jobs, paused := map[], false;
    }

    /** The owner's switch: while it is on nothing is claimed; running jobs go on. */
    method SetPaused(ghost s: State, on: bool)
      requires Shows(s)
      modifies this
      ensures Shows(Step(s, SetPause(on))) && paused == on && jobs == old(jobs)
    {
      paused := on;
    }

    /** `claim_one`: the first claimable job by priority of its kind, then by waiting time, then by id; none only if the
        worker is paused or nothing is claimable. */
    method ClaimNext(ghost s: State, now: int, ghost worker: Id) returns (claim: Option<(Id, nat)>)
      requires Shows(s) && s.now == now && s.jobs.Keys == s.history.Keys && worker !in s.claims
      modifies this
      ensures claim.None? <==> (s.paused || forall j :: j in s.jobs ==> !Claimable(s.jobs[j], now))
      ensures claim.None? ==> Shows(s)
      ensures claim.Some? ==>
                var j := claim.value.0;
                && j in s.jobs && Claimable(s.jobs[j], now) && claim.value.1 == s.jobs[j].attempts + 1
                && (forall k :: k in s.jobs && Claimable(s.jobs[k], now) ==> Precedes(s.jobs, j, k))
                && Shows(Step(s, ClaimOne(j, worker)))
    {
      claim := None;
      if paused {
        return;
      }
      var todo := jobs.Keys;
      var best: Option<Id> := None;
      while todo != {}
        invariant todo <= jobs.Keys
        invariant best.Some? ==> best.value in jobs && Claimable(jobs[best.value], now)
        invariant forall k :: k in jobs && k !in todo && Claimable(jobs[k], now) ==>
          best.Some? && Precedes(jobs, best.value, k)
        decreases |todo|
      {
        var j :| j in todo;
        todo := todo - {j};
        if Claimable(jobs[j], now) && (best.None? || Precedes(jobs, j, best.value)) {
          best := Some(j);
        }
      }
      if best.Some? {
        var j := best.value;
        claim := Some((j, jobs[j].attempts + 1));
        jobs := jobs[j := Claimed(jobs[j], now)];
      }
    }

    /** `fail_exhausted_leases`. */
    method FailExhaustedLeases(ghost s: State, now: int)
      requires Shows(s) && s.now == now
      modifies this
      ensures Shows(Step(s, FailExhausted))
    {
      jobs := map j | j in jobs :: if Exhausted(jobs[j], now) then FailedRow(jobs[j]) else jobs[j];
    }

    /** The heartbeat and `set_stage`; `held` reports whether the row was still the caller's. */
    method RenewLease(ghost s: State, job: Id, attempt: nat, now: int, ghost worker: Id) returns (held: bool)
      requires Shows(s) && s.now == now && Inv(s) && worker in s.claims
        && s.claims[worker].job == job && s.claims[worker].attempt == attempt
      modifies this
      ensures held == MayWrite(s, worker) && Shows(Step(s, Renew(worker)))
    {
      assert ClaimOk(s, worker);
      held := job in jobs && Fenced(jobs[job], attempt);
      if held {
        jobs := jobs[job := Renewed(jobs[job], now)];
      }
    }

    /** `owns_lease`: the fence, and a lease that has not run out. */
    method OwnsLease(ghost s: State, job: Id, attempt: nat, now: int, ghost worker: Id) returns (owns: bool)
      requires Shows(s) && s.now == now && Inv(s) && worker in s.claims
        && s.claims[worker].job == job && s.claims[worker].attempt == attempt
      ensures owns ==> MayWrite(s, worker) && !Claimable(s.jobs[job], now)
      ensures MayWrite(s, worker) && attempt < MAX_ATTEMPTS && !Claimable(s.jobs[job], now) ==> owns
    {
      assert ClaimOk(s, worker) && JobOk(s, job);
      owns := job in jobs && Fenced(jobs[job], attempt) && jobs[job].lease.Some? && jobs[job].lease.value > now;
    }

    /** `publish_and_complete`: the guarded update decides whether the transaction commits or rolls back. */
    method PublishAndComplete(ghost s: State, job: Id, attempt: nat, ghost worker: Id) returns (committed: bool)
      requires Shows(s) && Inv(s) && worker in s.claims && s.claims[worker].job == job
        && s.claims[worker].attempt == attempt
      modifies this
      ensures committed == MayWrite(s, worker) && Shows(Step(s, Complete(worker)))
    {
      assert ClaimOk(s, worker);
      committed := job in jobs && Fenced(jobs[job], attempt);
      if committed {
        jobs := jobs[job := CompletedRow(jobs[job])];
      }
    }

    /** `record_failure`. */
    method RecordOutcome(ghost s: State, job: Id, attempt: nat, failure: Failure, now: int, ghost worker: Id)
      requires Shows(s) && s.now == now && Inv(s) && worker in s.claims
        && s.claims[worker].job == job && s.claims[worker].attempt == attempt
      modifies this
      ensures Shows(Step(s, RecordFailure(worker, failure)))
    {
      assert ClaimOk(s, worker);
      if job in jobs && Fenced(jobs[job], attempt) {
        jobs := jobs[job := AfterFailure(jobs[job], attempt, failure, now)];
      }
    }

    /** `retry_failed`, for one job or for all; returns the number of rows reset. */
    method RetryFailedJobs(ghost s: State, only: Option<Id>, now: int) returns (retried: nat)
      requires Shows(s) && s.now == now
      modifies this
      ensures Shows(Step(s, RetryFailed(only)))
      ensures retried == |set j | j in s.jobs && Retryables(s.jobs, only, j)|
    {
      var hit := set j | j in jobs && Retryables(jobs, only, j);
      retried := |hit|;
      jobs := map j | j in jobs :: if Retryables(jobs, only, j) then Retried(jobs[j], now) else jobs[j];
    }
  }
}
