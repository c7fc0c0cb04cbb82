// A batch of tool calls: parallel-safe calls are started ahead of their turn, every other call is
// an ordering barrier, and results are consumed in the model's order. The goroutines, the budget
// channel and the cancellation are interleaved freely
// (server/agent/parallel_tools.go; the batch loop and the retries in server/agent/engine.go).
module Scheduler {

  const MAX_RETRIES: nat := 3

  /** Why a call is not admitted. */
  datatype Objection = Unknown | NotApproved | RepeatedFailure | InvalidArguments | Unavailable

  datatype Kind = Denied(objection: Objection) | Suspending | Exclusive | Safe

  /** One call with its decisions resolved; only an idempotent tool may be run again. */
  datatype Planned = Planned(id: string, kind: Kind, idempotent: bool)

  datatype Verdict = Success | Failure | Transient

  /** A result names the execution it came from: the call that started it, by its place in the batch. */
  datatype Result = Returned(starter: nat, attempt: nat, verdict: Verdict) | GaveUp(attempts: nat)

  /** One execution: queued for the budget, about to try, in the tool, sleeping before the next try, done. */
  datatype Job =
    | Queued
    | Trying(n: nat)
    | Calling(n: nat)
    | Sleeping(n: nat)
    | Done(result: Result)

  datatype Ending = Cancelled | Suspended | Delivered | Failed

  datatype Mode = Head | Awaiting | Stopped(why: Ending)

  datatype Entry = Blocked(id: string) | Consumed(id: string, result: Result)

  /** `futures` has the calls started ahead, by id; `jobs` all executions, by the call that started them. */
  datatype State = State(
    cursor: nat, mode: Mode, futures: map<string, nat>, jobs: map<nat, Job>, cancelled: bool,
    consumed: seq<Entry>, begun: multiset<nat>)

  const FRESH := State(0, Head, map[], map[], false, [], multiset{})

  /** `Deliver`, `Suspend` and `Fail` are the ways a call ends the whole run. */
  datatype Action =
    | BlockCall
    | Suspend
    | Dispatch
    | Consume
    | Deliver
    | Fail
    | Abort
    | Cancel
    | Acquire(j: nat)
    | GiveUp(j: nat)
    | Begin(j: nat)
    | Finish(j: nat, verdict: Verdict)
    | Wake(j: nat)

  predicate Idempotent(plan: seq<Planned>, j: nat) {
    j < |plan| && plan[j].idempotent
  }

  predicate IsSafe(plan: seq<Planned>, j: nat) {
    j < |plan| && plan[j].kind.Safe?
  }

  /** The calls that are executed at all. */
  predicate Executable(plan: seq<Planned>, j: nat) {
    j < |plan| && (plan[j].kind.Safe? || plan[j].kind.Exclusive?)
  }

  predicate Holding(job: Job) {
    job.Trying? || job.Calling? || job.Sleeping?
  }

  /** The executions that hold a slot of the budget. */
  function Holders(plan: seq<Planned>, jobs: map<nat, Job>): set<nat> {
    set j | j in jobs && Holding(jobs[j]) && IsSafe(plan, j)
  }

  /** Starts the maximal run of parallel-safe calls from position i on. */
  function StartRun(plan: seq<Planned>, i: nat, futures: map<string, nat>, jobs: map<nat, Job>): (map<string, nat>, map<nat, Job>)
    requires i <= |plan|
    decreases |plan|, |plan| - i
  {
    if i == |plan| || !plan[i].kind.Safe? then (futures, jobs)
    else if plan[i].id in futures then StartRun(plan, i + 1, futures, jobs)
    else StartRun(plan, i + 1, futures[plan[i].id := i], jobs[i := Queued])
  }

  /** Call k is in the maximal run of parallel-safe calls from position i on. */
  predicate InRun(plan: seq<Planned>, i: nat, k: nat) {
    i <= k < |plan| && forall j :: i <= j <= k ==> plan[j].kind.Safe?
  }

  /** Call k is the first one of that run with its id, and the id is not started yet. */
  predicate StartsAt(plan: seq<Planned>, i: nat, futures: map<string, nat>, k: nat) {
    InRun(plan, i, k) && plan[k].id !in futures && forall j :: i <= j < k ==> plan[j].id != plan[k].id
  }

  /** Exactly those calls are started, each under its id, and nothing else changes. */
  ghost predicate StartsExactly(plan: seq<Planned>, i: nat, futures: map<string, nat>, jobs: map<nat, Job>, f: map<string, nat>, r: map<nat, Job>) {
    && (forall id :: id in futures ==> id in f && f[id] == futures[id])
    && (forall id :: id in f && id !in futures ==> StartsAt(plan, i, futures, f[id]) && plan[f[id]].id == id)
    && (forall k: nat :: InRun(plan, i, k) ==> plan[k].id in f)
    && (forall k: nat :: StartsAt(plan, i, futures, k) ==> k in r && r[k] == Queued)
    && (forall k :: k in r && !StartsAt(plan, i, futures, k) ==> k in jobs && r[k] == jobs[k])
    && (forall k :: k in jobs ==> k in r)
  }

  lemma SkippedStarts(plan: seq<Planned>, i: nat, futures: map<string, nat>, k: nat)
    requires i < |plan| && plan[i].kind.Safe? && plan[i].id in futures
    ensures StartsAt(plan, i, futures, k) <==> StartsAt(plan, i + 1, futures, k)
    ensures InRun(plan, i, k) <==> k == i || InRun(plan, i + 1, k)
  {
  }

  lemma FirstStarts(plan: seq<Planned>, i: nat, futures: map<string, nat>, k: nat)
    requires i < |plan| && plan[i].kind.Safe? && plan[i].id !in futures
    ensures StartsAt(plan, i, futures, k) <==> k == i || StartsAt(plan, i + 1, futures[plan[i].id := i], k)
    ensures InRun(plan, i, k) <==> k == i || InRun(plan, i + 1, k)
  {
  }

  lemma {:induction false} StartRunExactly(plan: seq<Planned>, i: nat, futures: map<string, nat>, jobs: map<nat, Job>)
    requires i <= |plan|
    ensures var (f, r) := StartRun(plan, i, futures, jobs); StartsExactly(plan, i, futures, jobs, f, r)
    decreases |plan| - i
  {
    if i < |plan| && plan[i].kind.Safe? {
      if plan[i].id in futures {
        StartRunExactly(plan, i + 1, futures, jobs);
        forall k: nat { SkippedStarts(plan, i, futures, k); }
      } else {
        StartRunExactly(plan, i + 1, futures[plan[i].id := i], jobs[i := Queued]);
        forall k: nat { FirstStarts(plan, i, futures, k); }
      }
    }
  }

  method StartParallelRun(plan: seq<Planned>, start: nat, futures: map<string, nat>, jobs: map<nat, Job>)
    returns (f: map<string, nat>, r: map<nat, Job>)
    requires start <= |plan|
    ensures (f, r) == StartRun(plan, start, futures, jobs)
    ensures StartsExactly(plan, start, futures, jobs, f, r)
  {
    StartRunExactly(plan, start, futures, jobs);
    f, r := futures, jobs;
    var i := start;
    while i < |plan| && plan[i].kind.Safe?
      invariant start <= i <= |plan|
      invariant StartRun(plan, i, f, r) == StartRun(plan, start, futures, jobs)
    {
      if plan[i].id !in f {
        f, r := f[plan[i].id := i], r[i := Queued];
      }
      i := i + 1;
    }
  }

  /** The execution the loop waits for: one started ahead under the call's id, or else the call's own. */
  function Awaited(plan: seq<Planned>, s: State): nat
    requires s.cursor < |plan|
  {
    if plan[s.cursor].id in s.futures then s.futures[plan[s.cursor].id] else s.cursor
  }

  /** The execution the loop waits for is done. */
  predicate Settled(plan: seq<Planned>, s: State) {
    s.mode.Awaiting? && s.cursor < |plan| && Awaited(plan, s) in s.jobs && s.jobs[Awaited(plan, s)].Done?
  }

  /** The call at the cursor is answered without being executed. */
  predicate AtUnrun(plan: seq<Planned>, s: State) {
    s.mode.Head? && s.cursor < |plan| && !Executable(plan, s.cursor)
  }

  /** A suspending call with invalid arguments is answered like a denied one. */
  predicate Enabled(plan: seq<Planned>, budget: nat, s: State, a: Action) {
    match a
    case BlockCall => AtUnrun(plan, s)
    case Suspend => AtUnrun(plan, s) && plan[s.cursor].kind.Suspending?
    case Dispatch => s.mode.Head? && Executable(plan, s.cursor)
    case Consume => Settled(plan, s) && !s.cancelled
    case Deliver => Settled(plan, s) && !s.cancelled
    case Fail => AtUnrun(plan, s) || (Settled(plan, s) && !s.cancelled)
    case Abort => Settled(plan, s) && s.cancelled
    case Cancel => !s.cancelled
    case Acquire(j) => j in s.jobs && s.jobs[j].Queued? && |Holders(plan, s.jobs)| < budget
    case GiveUp(j) =>
      s.cancelled && j in s.jobs &&
      (s.jobs[j].Queued? || s.jobs[j].Sleeping? || (s.jobs[j].Trying? && Idempotent(plan, j)))
    case Begin(j) => j in s.jobs && s.jobs[j].Trying? && (s.cancelled ==> !Idempotent(plan, j))
    case Finish(j, _) => j in s.jobs && s.jobs[j].Calling?
    case Wake(j) => j in s.jobs && s.jobs[j].Sleeping?
  }

  function Attempts(job: Job): nat {
    match job
    case Queued => 0
    case Trying(n) => n
    case Calling(n) => n + 1
    case Sleeping(n) => n + 1
    case Done(r) => if r.Returned? then r.attempt + 1 else r.attempts
  }

  /** A transient failure of an idempotent tool is tried again, three times at most. */
  function AfterCall(plan: seq<Planned>, j: nat, n: nat, verdict: Verdict): Job {
    if Idempotent(plan, j) && verdict.Transient? && n < MAX_RETRIES then Sleeping(n) else Done(Returned(j, n, verdict))
  }

  predicate OfJob(a: Action) {
    a.Acquire? || a.GiveUp? || a.Begin? || a.Finish? || a.Wake?
  }

  /** Where one execution's own step takes it. */
  function NextJob(plan: seq<Planned>, job: Job, a: Action): Job
    requires OfJob(a) && (a.Begin? ==> job.Trying?) && (a.Finish? ==> job.Calling?) && (a.Wake? ==> job.Sleeping?)
  {
    match a
    case Acquire(_) => Trying(0)
    case GiveUp(_) => Done(GaveUp(Attempts(job)))
    case Begin(_) => Calling(job.n)
    case Finish(j, verdict) => AfterCall(plan, j, job.n, verdict)
    case Wake(_) => Trying(job.n + 1)
  }

  function Move(plan: seq<Planned>, s: State, a: Action): State
    requires OfJob(a) && a.j in s.jobs
    requires var job := s.jobs[a.j];
             (a.Begin? ==> job.Trying?) && (a.Finish? ==> job.Calling?) && (a.Wake? ==> job.Sleeping?)
  {
    s.(jobs := s.jobs[a.j := NextJob(plan, s.jobs[a.j], a)])
  }

  /** The call at the cursor is passed with the result of the execution it waited for. */
  function Pass(plan: seq<Planned>, s: State, mode: Mode): State
    requires Settled(plan, s)
  {
    s.(cursor := s.cursor + 1, mode := mode,
       consumed := s.consumed + [Consumed(plan[s.cursor].id, s.jobs[Awaited(plan, s)].result)])
  }

  function Step(plan: seq<Planned>, budget: nat, s: State, a: Action): State
    requires Enabled(plan, budget, s, a)
  {
    match a
    case BlockCall => s.(cursor := s.cursor + 1, consumed := s.consumed + [Blocked(plan[s.cursor].id)])
    case Suspend => s.(mode := Stopped(Suspended))
    case Dispatch =>
      var c := plan[s.cursor];
      if c.kind.Safe? then
        var (f, r) := StartRun(plan, s.cursor, s.futures, s.jobs);
        s.(mode := Awaiting, futures := f, jobs := r)
      else if c.id in s.futures then s.(mode := Awaiting)
      else s.(mode := Awaiting, jobs := s.jobs[s.cursor := Trying(0)])
    case Consume => Pass(plan, s, Head)
    case Deliver => Pass(plan, s, Stopped(Delivered))
    case Fail => s.(mode := Stopped(Failed))
    case Abort => s.(mode := Stopped(Cancelled))
    case Cancel => s.(cancelled := true)
    case Begin(j) => Move(plan, s, a).(begun := s.begun + multiset{j})
    case _ => Move(plan, s, a)
  }

  // ----- what every step keeps -----

  /** No parallel-safe call before i has its id. */
  predicate FirstOfId(plan: seq<Planned>, i: nat)
    requires i < |plan|
  {
    forall j :: 0 <= j < i && plan[j].kind.Safe? ==> plan[j].id != plan[i].id
  }

  /** Call i gets the result of execution j: that of the first parallel-safe call with its id up to i, or else its own. */
  predicate Serves(plan: seq<Planned>, j: nat, i: nat)
    requires i < |plan|
  {
    j <= i && plan[j].id == plan[i].id && FirstOfId(plan, j) && (j != i ==> plan[j].kind.Safe?)
  }

  lemma ServedByOne(plan: seq<Planned>, i: nat, j: nat, k: nat)
    requires i < |plan| && Serves(plan, j, i) && Serves(plan, k, i)
    ensures j == k
  {
  }

  /** Which calls may have been started: those already passed, and the safe run the cursor is in. */
  predicate Startable(plan: seq<Planned>, cursor: nat, mode: Mode, i: nat)
  {
    && Executable(plan, i) && FirstOfId(plan, i)
    && (i >= cursor ==>
          && (forall j :: cursor <= j < i ==> plan[j].kind.Safe?)
          && (plan[i].kind.Safe? || (i == cursor && !mode.Head?)))
  }

  /** Calls started ahead are found under their ids, the first of each. */
  predicate Ahead(plan: seq<Planned>, futures: map<string, nat>, jobs: map<nat, Job>) {
    && (forall id :: id in futures ==>
          && futures[id] in jobs && IsSafe(plan, futures[id])
          && plan[futures[id]].id == id && FirstOfId(plan, futures[id]))
    && (forall j :: j in jobs && IsSafe(plan, j) ==> plan[j].id in futures)
  }

  /** The first calls of the batch, up to the given number, are under way as far as they are parallel-safe. */
  predicate Covered(plan: seq<Planned>, futures: map<string, nat>, n: nat)
    requires n <= |plan|
  {
    forall i :: 0 <= i < n && plan[i].kind.Safe? ==> plan[i].id in futures
  }

  predicate Placed(plan: seq<Planned>, s: State) {
    && s.cursor <= |plan|
    && (s.mode.Awaiting? ==>
          && s.cursor < |plan| && Executable(plan, s.cursor)
          && Serves(plan, Awaited(plan, s), s.cursor) && Awaited(plan, s) in s.jobs)
    && (forall j :: j in s.jobs ==> Startable(plan, s.cursor, s.mode, j))
    && Ahead(plan, s.futures, s.jobs)
    && Covered(plan, s.futures, s.cursor)
  }

  /** Call i was passed with the result of the execution that serves it. */
  ghost predicate Passed(plan: seq<Planned>, jobs: map<nat, Job>, i: nat, entry: Entry)
    requires i < |plan|
  {
    if !Executable(plan, i) then entry == Blocked(plan[i].id)
    else exists j ::
           && Serves(plan, j, i) && j in jobs && jobs[j].Done? && jobs[j].result.Returned?
           && entry == Consumed(plan[i].id, jobs[j].result)
  }

  /** Results are consumed in the model's order, each at its own place. */
  ghost predicate InOrder(plan: seq<Planned>, s: State) {
    && |s.consumed| == s.cursor <= |plan|
    && forall i :: 0 <= i < s.cursor ==> Passed(plan, s.jobs, i, s.consumed[i])
  }

  /** How far an execution may be: only an idempotent call is tried again, at most three times more. */
  predicate WellRun(plan: seq<Planned>, cancelled: bool, j: nat, job: Job) {
    && (Attempts(job) > 1 || job.Sleeping? || (job.Trying? && job.n > 0) ==> Idempotent(plan, j))
    && Attempts(job) <= 4 && (job.Sleeping? ==> job.n < MAX_RETRIES) && (job.Trying? ==> job.n <= MAX_RETRIES)
    && (job.Queued? ==> IsSafe(plan, j))
    && (job.Done? ==> match job.result
                      case Returned(k, n, verdict) => k == j && (Idempotent(plan, j) && verdict.Transient? ==> n == MAX_RETRIES)
                      case GaveUp(n) => cancelled && n <= MAX_RETRIES)
  }

  predicate Runs(plan: seq<Planned>, cancelled: bool, jobs: map<nat, Job>) {
    forall j :: j in jobs ==> WellRun(plan, cancelled, j, jobs[j])
  }

  function AttemptsOf(jobs: map<nat, Job>, j: nat): nat {
    if j in jobs then Attempts(jobs[j]) else 0
  }

  /** Every execution begun is counted by its job. */
  ghost predicate Counted(begun: multiset<nat>, jobs: map<nat, Job>) {
    forall j: nat :: begun[j] == AttemptsOf(jobs, j)
  }

  ghost predicate Inv(plan: seq<Planned>, budget: nat, s: State) {
    && Placed(plan, s) && InOrder(plan, s) && Runs(plan, s.cancelled, s.jobs) && Counted(s.begun, s.jobs)
    && |Holders(plan, s.jobs)| <= budget
    && (s.mode == Stopped(Cancelled) ==> s.cancelled)
  }

  predicate Extends(jobs: map<nat, Job>, jobs': map<nat, Job>) {
    forall j :: j in jobs ==> j in jobs' && jobs'[j] == jobs[j]
  }

  /** What was added are queued executions of safe calls from i on, each the first of its id. */
  predicate Queues(plan: seq<Planned>, i: nat, jobs: map<nat, Job>, jobs': map<nat, Job>) {
    && Extends(jobs, jobs')
    && (forall j :: j in jobs' && j !in jobs ==>
          i <= j < |plan| && jobs'[j] == Queued && FirstOfId(plan, j) && forall k :: i <= k <= j ==> plan[k].kind.Safe?)
  }

  lemma QueuesFrom(plan: seq<Planned>, i: nat, jobs: map<nat, Job>, jobs': map<nat, Job>)
    requires i < |plan| && plan[i].kind.Safe? && Queues(plan, i + 1, jobs, jobs')
    ensures Queues(plan, i, jobs, jobs')
  {
  }

  lemma QueuesFirst(plan: seq<Planned>, i: nat, jobs: map<nat, Job>, jobs': map<nat, Job>)
    requires i < |plan| && plan[i].kind.Safe? && FirstOfId(plan, i) && i !in jobs
    requires Queues(plan, i + 1, jobs[i := Queued], jobs')
    ensures Queues(plan, i, jobs, jobs')
  {
  }

  lemma {:induction false} StartRunQueues(plan: seq<Planned>, i: nat, futures: map<string, nat>, jobs: map<nat, Job>)
    requires i <= |plan| && Ahead(plan, futures, jobs) && Covered(plan, futures, i)
    ensures var (f, r) := StartRun(plan, i, futures, jobs);
            && Ahead(plan, f, r) && Queues(plan, i, jobs, r)
            && (forall id :: id in futures ==> id in f && f[id] == futures[id])
            && (i < |plan| && plan[i].kind.Safe? ==> plan[i].id in f)
    decreases |plan| - i
  {
    if i < |plan| && plan[i].kind.Safe? {
      var r := StartRun(plan, i, futures, jobs).1;
      if plan[i].id in futures {
        StartRunQueues(plan, i + 1, futures, jobs);
        QueuesFrom(plan, i, jobs, r);
      } else {
        FirstStarted(plan, i, futures, jobs);
        StartRunQueues(plan, i + 1, futures[plan[i].id := i], jobs[i := Queued]);
        QueuesFirst(plan, i, jobs, r);
      }
    }
  }

  lemma FirstStarted(plan: seq<Planned>, i: nat, futures: map<string, nat>, jobs: map<nat, Job>)
    requires i < |plan| && Ahead(plan, futures, jobs) && Covered(plan, futures, i)
    requires plan[i].kind.Safe? && plan[i].id !in futures
    ensures FirstOfId(plan, i) && i !in jobs
    ensures Ahead(plan, futures[plan[i].id := i], jobs[i := Queued])
    ensures Covered(plan, futures[plan[i].id := i], i + 1)
  {
  }

  lemma HoldersKept(plan: seq<Planned>, jobs: map<nat, Job>, jobs': map<nat, Job>)
    requires forall j :: j in jobs' && Holding(jobs'[j]) && IsSafe(plan, j) ==> j in jobs && Holding(jobs[j])
    ensures |Holders(plan, jobs')| <= |Holders(plan, jobs)|
  {
    Smaller(Holders(plan, jobs'), Holders(plan, jobs));
  }

  lemma {:induction false} Smaller(a: set<nat>, b: set<nat>)
    requires a <= b
    ensures |a| <= |b|
    decreases |a|
  {
    if a != {} {
      var x :| x in a;
      Smaller(a - {x}, b - {x});
    }
  }

  /** Results consumed stand as long as the executions that are done stay. */
  lemma OrderKept(plan: seq<Planned>, s: State, s': State)
    requires InOrder(plan, s) && s'.cursor == s.cursor && s'.consumed == s.consumed
    requires forall j :: j in s.jobs && s.jobs[j].Done? ==> j in s'.jobs && s'.jobs[j] == s.jobs[j]
    ensures InOrder(plan, s')
  {
    forall i | 0 <= i < s.cursor ensures Passed(plan, s'.jobs, i, s'.consumed[i]) {
      assert Passed(plan, s.jobs, i, s.consumed[i]);
    }
  }

  /** Newly created executions have begun nothing. */
  lemma JobsAdded(plan: seq<Planned>, cancelled: bool, begun: multiset<nat>, jobs: map<nat, Job>, jobs': map<nat, Job>)
    requires Runs(plan, cancelled, jobs) && Counted(begun, jobs) && Extends(jobs, jobs')
    requires forall j :: j in jobs' && j !in jobs ==> jobs'[j] == Trying(0) || (jobs'[j] == Queued && IsSafe(plan, j))
    ensures Runs(plan, cancelled, jobs') && Counted(begun, jobs')
  {
    forall j: nat ensures begun[j] == AttemptsOf(jobs', j) {
      assert begun[j] == AttemptsOf(jobs, j);
    }
  }

  lemma QueuedStartable(plan: seq<Planned>, s: State, jobs: map<nat, Job>)
    requires Placed(plan, s) && s.mode.Head? && s.cursor < |plan| && Queues(plan, s.cursor, s.jobs, jobs)
    ensures forall j :: j in jobs ==> Startable(plan, s.cursor, Awaiting, j)
  {
    forall j | j in jobs ensures Startable(plan, s.cursor, Awaiting, j) {
      if j in s.jobs { assert Startable(plan, s.cursor, s.mode, j); }
    }
  }

  lemma QueuedHolders(plan: seq<Planned>, i: nat, jobs: map<nat, Job>, jobs': map<nat, Job>)
    requires Queues(plan, i, jobs, jobs')
    ensures |Holders(plan, jobs')| <= |Holders(plan, jobs)|
    ensures forall j :: j in jobs' && j !in jobs ==> jobs'[j] == Queued && IsSafe(plan, j)
  {
    HoldersKept(plan, jobs, jobs');
  }

  lemma DispatchSafe(plan: seq<Planned>, budget: nat, s: State)
    requires Inv(plan, budget, s) && Enabled(plan, budget, s, Dispatch) && plan[s.cursor].kind.Safe?
    ensures Inv(plan, budget, Step(plan, budget, s, Dispatch))
  {
    var s' := Step(plan, budget, s, Dispatch);
    StartRunQueues(plan, s.cursor, s.futures, s.jobs);
    QueuedStartable(plan, s, s'.jobs);
    QueuedHolders(plan, s.cursor, s.jobs, s'.jobs);
    JobsAdded(plan, s.cancelled, s.begun, s.jobs, s'.jobs);
    OrderKept(plan, s, s');
    FirstServes(plan, s'.futures, s'.jobs, s.cursor);
  }

  /** The execution found under a call's id serves it. */
  lemma FirstServes(plan: seq<Planned>, futures: map<string, nat>, jobs: map<nat, Job>, i: nat)
    requires i < |plan| && Ahead(plan, futures, jobs) && plan[i].id in futures
    requires plan[i].kind.Safe? || futures[plan[i].id] <= i
    ensures Serves(plan, futures[plan[i].id], i) && futures[plan[i].id] in jobs
  {
    assert FirstOfId(plan, futures[plan[i].id]);
  }

  lemma DispatchExclusive(plan: seq<Planned>, budget: nat, s: State)
    requires Inv(plan, budget, s) && Enabled(plan, budget, s, Dispatch) && plan[s.cursor].kind.Exclusive?
    ensures Inv(plan, budget, Step(plan, budget, s, Dispatch))
  {
    var s' := Step(plan, budget, s, Dispatch);
    var c := s.cursor;
    assert c !in s.jobs by {
      assert !Startable(plan, s.cursor, s.mode, c);
    }
    if plan[c].id in s.futures {
      var f := s.futures[plan[c].id];
      assert Startable(plan, s.cursor, s.mode, f);
      FirstServes(plan, s.futures, s.jobs, c);
    } else {
      assert FirstOfId(plan, c);
    }
    JobsAdded(plan, s.cancelled, s.begun, s.jobs, s'.jobs);
    OrderKept(plan, s, s');
    HoldersKept(plan, s.jobs, s'.jobs);
    forall j | j in s'.jobs ensures Startable(plan, s'.cursor, s'.mode, j) {
      if j in s.jobs { assert Startable(plan, s.cursor, s.mode, j); }
    }
  }

  lemma BlockKeeps(plan: seq<Planned>, budget: nat, s: State)
    requires Inv(plan, budget, s) && Enabled(plan, budget, s, BlockCall)
    ensures Inv(plan, budget, Step(plan, budget, s, BlockCall))
  {
    var s' := Step(plan, budget, s, BlockCall);
    forall i | 0 <= i < s'.cursor ensures Passed(plan, s'.jobs, i, s'.consumed[i]) {
      if i < s.cursor { assert Passed(plan, s.jobs, i, s.consumed[i]); }
    }
    forall j | j in s'.jobs ensures Startable(plan, s'.cursor, s'.mode, j) {
      assert Startable(plan, s.cursor, s.mode, j);
    }
  }

  lemma PassKeeps(plan: seq<Planned>, budget: nat, s: State, mode: Mode)
    requires Inv(plan, budget, s) && Settled(plan, s) && !s.cancelled && !mode.Awaiting? && mode != Stopped(Cancelled)
    ensures Inv(plan, budget, Pass(plan, s, mode))
  {
    var s' := Pass(plan, s, mode);
    var j := Awaited(plan, s);
    assert WellRun(plan, s.cancelled, j, s.jobs[j]);
    assert Passed(plan, s'.jobs, s.cursor, s'.consumed[s.cursor]);
    forall i | 0 <= i < s'.cursor ensures Passed(plan, s'.jobs, i, s'.consumed[i]) {
      if i < s.cursor { assert Passed(plan, s.jobs, i, s.consumed[i]); }
    }
    forall k | k in s'.jobs ensures Startable(plan, s'.cursor, s'.mode, k) {
      assert Startable(plan, s.cursor, s.mode, k);
    }
    CoveredNext(plan, s);
  }

  /** The call waited for is under way if it is parallel-safe. */
  lemma CoveredNext(plan: seq<Planned>, s: State)
    requires Placed(plan, s) && s.mode.Awaiting?
    ensures Covered(plan, s.futures, s.cursor + 1)
  {
    var j := Awaited(plan, s);
    if plan[s.cursor].kind.Safe? {
      assert IsSafe(plan, j);
    }
  }

  lemma StopKeeps(plan: seq<Planned>, budget: nat, s: State, why: Ending)
    requires Inv(plan, budget, s) && (why.Cancelled? ==> s.cancelled)
    ensures Inv(plan, budget, s.(mode := Stopped(why)))
  {
    var s' := s.(mode := Stopped(why));
    forall j | j in s'.jobs ensures Startable(plan, s'.cursor, s'.mode, j) {
      assert Startable(plan, s.cursor, s.mode, j);
    }
    OrderKept(plan, s, s');
  }

  lemma CancelKeeps(plan: seq<Planned>, budget: nat, s: State)
    requires Inv(plan, budget, s)
    ensures Inv(plan, budget, s.(cancelled := true))
  {
    var s' := s.(cancelled := true);
    forall j | j in s'.jobs ensures WellRun(plan, true, j, s'.jobs[j]) {
      assert WellRun(plan, s.cancelled, j, s.jobs[j]);
    }
    OrderKept(plan, s, s');
  }

  /** An execution that is not done moves on. */
  lemma MovePlaced(plan: seq<Planned>, s: State, s': State, j: nat)
    requires Placed(plan, s) && InOrder(plan, s) && j in s.jobs && !s.jobs[j].Done? && j in s'.jobs
    requires s' == s.(jobs := s.jobs[j := s'.jobs[j]], begun := s'.begun)
    ensures Placed(plan, s') && InOrder(plan, s')
  {
    assert s'.jobs.Keys == s.jobs.Keys;
    forall k | k in s'.jobs ensures Startable(plan, s'.cursor, s'.mode, k) {
      assert Startable(plan, s.cursor, s.mode, k);
    }
    OrderKept(plan, s, s');
  }

  lemma MoveKeeps(plan: seq<Planned>, budget: nat, s: State, s': State, j: nat)
    requires Inv(plan, budget, s) && j in s.jobs && !s.jobs[j].Done? && j in s'.jobs
    requires s' == s.(jobs := s.jobs[j := s'.jobs[j]], begun := s'.begun)
    requires WellRun(plan, s.cancelled, j, s'.jobs[j])
    requires Attempts(s'.jobs[j]) == Attempts(s.jobs[j]) + s'.begun[j] - s.begun[j]
    requires forall k: nat :: k != j ==> s'.begun[k] == s.begun[k]
    requires |Holders(plan, s'.jobs)| <= budget
    ensures Inv(plan, budget, s')
  {
    MovePlaced(plan, s, s', j);
    assert Runs(plan, s'.cancelled, s'.jobs);
    assert Counted(s'.begun, s'.jobs);
  }

  lemma AcquireHolders(plan: seq<Planned>, jobs: map<nat, Job>, j: nat)
    requires j in jobs && jobs[j].Queued?
    ensures |Holders(plan, jobs[j := Trying(0)])| <= |Holders(plan, jobs)| + 1
  {
    Smaller(Holders(plan, jobs[j := Trying(0)]), Holders(plan, jobs) + {j});
  }

  lemma AcquireKeeps(plan: seq<Planned>, budget: nat, s: State, j: nat)
    requires Inv(plan, budget, s) && Enabled(plan, budget, s, Acquire(j))
    ensures Inv(plan, budget, Step(plan, budget, s, Acquire(j)))
  {
    AcquireHolders(plan, s.jobs, j);
    NextJobRuns(plan, budget, s, Acquire(j));
    MoveKeeps(plan, budget, s, Step(plan, budget, s, Acquire(j)), j);
  }

  lemma NextJobRuns(plan: seq<Planned>, budget: nat, s: State, a: Action)
    requires Runs(plan, s.cancelled, s.jobs) && OfJob(a) && Enabled(plan, budget, s, a)
    ensures var job := NextJob(plan, s.jobs[a.j], a);
            && WellRun(plan, s.cancelled, a.j, job)
            && Attempts(job) == Attempts(s.jobs[a.j]) + (if a.Begin? then 1 else 0)
            && JobRank(job) < JobRank(s.jobs[a.j])
            && (!a.Acquire? && Holding(job) ==> Holding(s.jobs[a.j]))
  {
    assert WellRun(plan, s.cancelled, a.j, s.jobs[a.j]);
  }

  lemma MoveHolders(plan: seq<Planned>, jobs: map<nat, Job>, j: nat, job: Job)
    requires j in jobs && (Holding(job) ==> Holding(jobs[j]))
    ensures |Holders(plan, jobs[j := job])| <= |Holders(plan, jobs)|
  {
    HoldersKept(plan, jobs, jobs[j := job]);
  }

  lemma MoveOn(plan: seq<Planned>, budget: nat, s: State, a: Action)
    requires Inv(plan, budget, s) && Enabled(plan, budget, s, a) && OfJob(a) && !a.Acquire?
    ensures Inv(plan, budget, Step(plan, budget, s, a))
  {
    NextJobRuns(plan, budget, s, a);
    MoveHolders(plan, s.jobs, a.j, NextJob(plan, s.jobs[a.j], a));
    MoveKeeps(plan, budget, s, Step(plan, budget, s, a), a.j);
  }

  lemma StepKeeps(plan: seq<Planned>, budget: nat, s: State, a: Action)
    requires Inv(plan, budget, s) && Enabled(plan, budget, s, a)
    ensures Inv(plan, budget, Step(plan, budget, s, a))
  {
    match a
    case BlockCall => BlockKeeps(plan, budget, s);
    case Suspend => StopKeeps(plan, budget, s, Suspended);
    case Dispatch => if plan[s.cursor].kind.Safe? { DispatchSafe(plan, budget, s); } else { DispatchExclusive(plan, budget, s); }
    case Consume => PassKeeps(plan, budget, s, Head);
    case Deliver => PassKeeps(plan, budget, s, Stopped(Delivered));
    case Fail => StopKeeps(plan, budget, s, Failed);
    case Abort => StopKeeps(plan, budget, s, Cancelled);
    case Cancel => CancelKeeps(plan, budget, s);
    case Acquire(j) => AcquireKeeps(plan, budget, s, j);
    case _ => MoveOn(plan, budget, s, a);
  }

  ghost predicate Legal(plan: seq<Planned>, budget: nat, s: State, actions: seq<Action>)
    decreases |actions|
  {
    actions == [] || (Enabled(plan, budget, s, actions[0]) && Legal(plan, budget, Step(plan, budget, s, actions[0]), actions[1..]))
  }

  ghost function Exec(plan: seq<Planned>, budget: nat, s: State, actions: seq<Action>): State
    requires Legal(plan, budget, s, actions)
    decreases |actions|
  {
    if actions == [] then s else Exec(plan, budget, Step(plan, budget, s, actions[0]), actions[1..])
  }

  lemma {:induction false} RunKeeps(plan: seq<Planned>, budget: nat, s: State, actions: seq<Action>)
    requires Inv(plan, budget, s) && Legal(plan, budget, s, actions)
    ensures Inv(plan, budget, Exec(plan, budget, s, actions))
    decreases |actions|
  {
    if actions != [] {
      StepKeeps(plan, budget, s, actions[0]);
      RunKeeps(plan, budget, Step(plan, budget, s, actions[0]), actions[1..]);
    }
  }

  lemma FreshInv(plan: seq<Planned>, budget: nat)
    ensures Inv(plan, budget, FRESH)
  {
    assert Holders(plan, map[]) == {};
  }

  // ----- what it means, for every interleaving of any batch -----

  /** Every interleaving from a fresh batch. */
  lemma Reaches(plan: seq<Planned>, budget: nat, actions: seq<Action>) returns (s: State)
    requires Legal(plan, budget, FRESH, actions)
    ensures s == Exec(plan, budget, FRESH, actions) && Inv(plan, budget, s)
  {
    FreshInv(plan, budget);
    RunKeeps(plan, budget, FRESH, actions);
    s := Exec(plan, budget, FRESH, actions);
  }

  /**
   * No call is run twice, but for the declared retries: an idempotent one at most four times, any
   * other at most once. A call that is denied or suspends is never run.
   */
  lemma RunsOnce(plan: seq<Planned>, budget: nat, actions: seq<Action>, i: nat)
    requires Legal(plan, budget, FRESH, actions) && i < |plan|
    ensures var runs := Exec(plan, budget, FRESH, actions).begun[i];
            && runs <= (if plan[i].idempotent then 4 else 1)
            && (!Executable(plan, i) ==> runs == 0)
  {
    var s := Reaches(plan, budget, actions);
    assert s.begun[i] == AttemptsOf(s.jobs, i);
    if i in s.jobs {
      assert WellRun(plan, s.cancelled, i, s.jobs[i]);
      assert Startable(plan, s.cursor, s.mode, i);
    }
  }

  /**
   * A call the loop has passed was run itself exactly when no parallel-safe call before it has its
   * id; otherwise it was never run. Either way it got the last attempt of the execution that serves
   * it, its own or that of the first parallel-safe call with its id.
   */
  lemma SharedIdRunsOnce(plan: seq<Planned>, budget: nat, actions: seq<Action>, i: nat) returns (j: nat)
    requires Legal(plan, budget, FRESH, actions)
    requires i < Exec(plan, budget, FRESH, actions).cursor && Executable(plan, i)
    ensures var s := Exec(plan, budget, FRESH, actions);
            && (s.begun[i] > 0 <==> FirstOfId(plan, i))
            && Serves(plan, j, i) && s.begun[j] > 0
            && i < |s.consumed| && s.consumed[i].Consumed? && s.consumed[i].id == plan[i].id
            && s.consumed[i].result.Returned? && s.consumed[i].result.starter == j && s.consumed[i].result.attempt == s.begun[j] - 1
  {
    var s := Reaches(plan, budget, actions);
    assert Passed(plan, s.jobs, i, s.consumed[i]);
    j :| Serves(plan, j, i) && j in s.jobs && s.jobs[j].Done? && s.jobs[j].result.Returned?
         && s.consumed[i] == Consumed(plan[i].id, s.jobs[j].result);
    assert s.begun[j] == AttemptsOf(s.jobs, j) && s.begun[i] == AttemptsOf(s.jobs, i);
    assert WellRun(plan, s.cancelled, j, s.jobs[j]);
    if i in s.jobs {
      assert Startable(plan, s.cursor, s.mode, i);
    }
    if FirstOfId(plan, i) {
      assert j == i;
    }
  }

  /** What was consumed is the calls' results in the model's order, without gaps. */
  lemma ConsumedInOrder(plan: seq<Planned>, budget: nat, actions: seq<Action>)
    requires Legal(plan, budget, FRESH, actions)
    ensures var s := Exec(plan, budget, FRESH, actions);
            && |s.consumed| == s.cursor <= |plan|
            && forall i :: 0 <= i < s.cursor ==> s.consumed[i].id == plan[i].id && (s.consumed[i].Consumed? <==> Executable(plan, i))
  {
    var s := Reaches(plan, budget, actions);
    forall i | 0 <= i < s.cursor ensures s.consumed[i].id == plan[i].id && (s.consumed[i].Consumed? <==> Executable(plan, i)) {
      assert Passed(plan, s.jobs, i, s.consumed[i]);
    }
  }

  predicate InTool(s: State, j: nat) {
    j in s.jobs && s.jobs[j].Calling?
  }

  function Overlapping(s: State): set<nat> {
    set j | j in s.jobs && InTool(s, j)
  }

  /**
   * A call that is not parallel-safe is a barrier: until the loop has passed it, no later call is
   * started, and it is itself started only when every earlier call was passed and is in no tool.
   */
  lemma Barrier(plan: seq<Planned>, budget: nat, actions: seq<Action>, k: nat, i: nat)
    requires Legal(plan, budget, FRESH, actions)
    requires k < |plan| && !plan[k].kind.Safe?
    ensures var s := Exec(plan, budget, FRESH, actions);
            && (i > k && s.cursor <= k ==> i !in s.jobs)
            && (i < k && k in s.jobs ==> i < s.cursor && (i in s.jobs ==> s.jobs[i].Done?))
            && (i != k && InTool(s, k) ==> !InTool(s, i))
  {
    var s := Reaches(plan, budget, actions);
    if i in s.jobs {
      assert Startable(plan, s.cursor, s.mode, i);
      if i < s.cursor { PassedDone(plan, s, i); }
    }
    if k in s.jobs {
      assert Startable(plan, s.cursor, s.mode, k);
      if k < s.cursor { PassedDone(plan, s, k); }
    }
  }

  /** The execution of a call already passed is done. */
  lemma PassedDone(plan: seq<Planned>, s: State, i: nat)
    requires Placed(plan, s) && InOrder(plan, s) && i < s.cursor && i in s.jobs
    ensures s.jobs[i].Done?
  {
    assert Startable(plan, s.cursor, s.mode, i);
    assert Passed(plan, s.jobs, i, s.consumed[i]);
  }

  /** At most the budget of calls is in a tool at any time, unless it is one exclusive call alone. */
  lemma WithinBudget(plan: seq<Planned>, budget: nat, actions: seq<Action>)
    requires Legal(plan, budget, FRESH, actions)
    ensures var s := Exec(plan, budget, FRESH, actions);
            |Overlapping(s)| <= budget || |Overlapping(s)| == 1
  {
    var s := Reaches(plan, budget, actions);
    var o := Overlapping(s);
    if k :| k in o && !IsSafe(plan, k) {
      assert Startable(plan, s.cursor, s.mode, k);
      forall i | i in o ensures i == k {
        Barrier(plan, budget, actions, k, i);
      }
      assert o == {k};
    } else {
      Smaller(o, Holders(plan, s.jobs));
    }
  }

  /** While the loop waits for a parallel-safe call, the whole safe run from there on is started. */
  ghost predicate RunStarted(plan: seq<Planned>, s: State) {
    s.mode.Awaiting? && IsSafe(plan, s.cursor) ==> forall k: nat :: InRun(plan, s.cursor, k) ==> plan[k].id in s.futures
  }

  lemma StepStartsRun(plan: seq<Planned>, budget: nat, s: State, a: Action)
    requires RunStarted(plan, s) && Enabled(plan, budget, s, a)
    ensures RunStarted(plan, Step(plan, budget, s, a))
  {
    if a.Dispatch? && plan[s.cursor].kind.Safe? {
      StartRunExactly(plan, s.cursor, s.futures, s.jobs);
    }
  }

  lemma {:induction false} RunStartsRun(plan: seq<Planned>, budget: nat, s: State, actions: seq<Action>)
    requires RunStarted(plan, s) && Legal(plan, budget, s, actions)
    ensures RunStarted(plan, Exec(plan, budget, s, actions))
    decreases |actions|
  {
    if actions != [] {
      StepStartsRun(plan, budget, s, actions[0]);
      RunStartsRun(plan, budget, Step(plan, budget, s, actions[0]), actions[1..]);
    }
  }

  /**
   * In every interleaving: while the loop waits for a parallel-safe call, each call of the maximal safe
   * run that begins there has an execution under its id, and no call behind that run has one.
   */
  lemma StartsAhead(plan: seq<Planned>, budget: nat, actions: seq<Action>, k: nat)
    requires Legal(plan, budget, FRESH, actions)
    requires var s := Exec(plan, budget, FRESH, actions); s.mode.Awaiting? && IsSafe(plan, s.cursor) && s.cursor <= k < |plan|
    ensures var s := Exec(plan, budget, FRESH, actions);
            && (InRun(plan, s.cursor, k) ==> plan[k].id in s.futures && s.futures[plan[k].id] in s.jobs)
            && (!InRun(plan, s.cursor, k) ==> k !in s.jobs)
  {
    var s := Reaches(plan, budget, actions);
    RunStartsRun(plan, budget, FRESH, actions);
    if k in s.jobs {
      assert Startable(plan, s.cursor, s.mode, k);
    }
  }

  // ----- progress: no interleaving gets stuck, none goes on forever -----

  predicate Over(plan: seq<Planned>, s: State) {
    s.mode.Stopped? || (s.mode.Head? && s.cursor == |plan|)
  }

  /** The step an execution that is not done and not queued can take by itself. */
  function OwnStep(plan: seq<Planned>, s: State, j: nat): Action
    requires j in s.jobs && Holding(s.jobs[j])
  {
    match s.jobs[j]
    case Trying(_) => if s.cancelled && Idempotent(plan, j) then GiveUp(j) else Begin(j)
    case Calling(_) => Finish(j, Success)
    case Sleeping(_) => Wake(j)
  }

  /** A cancellation or a call ends the batch before all calls are passed. */
  predicate Ends(a: Action) {
    a.Suspend? || a.Deliver? || a.Fail? || a.Abort?
  }

  lemma NeverStuck(plan: seq<Planned>, budget: nat, s: State) returns (a: Action)
    requires Inv(plan, budget, s) && budget >= 1 && !Over(plan, s)
    ensures Enabled(plan, budget, s, a) && !a.Cancel? && (Ends(a) ==> s.cancelled)
  {
    if s.mode.Head? {
      a := if Executable(plan, s.cursor) then Dispatch else BlockCall;
    } else {
      var j := Awaited(plan, s);
      if s.jobs[j].Done? {
        a := if s.cancelled then Abort else Consume;
      } else if Holding(s.jobs[j]) {
        a := OwnStep(plan, s, j);
      } else if |Holders(plan, s.jobs)| < budget {
        a := Acquire(j);
      } else {
        var h :| h in Holders(plan, s.jobs);
        a := OwnStep(plan, s, h);
      }
    }
  }

  function JobRank(job: Job): nat {
    match job
    case Queued => 13
    case Trying(n) => if n <= 3 then 12 - 3 * n else 0
    case Calling(n) => if n <= 3 then 11 - 3 * n else 0
    case Sleeping(n) => if n <= 3 then 10 - 3 * n else 0
    case Done(_) => 0
  }

  function Rank(plan: seq<Planned>, jobs: map<nat, Job>, i: nat): nat
    requires i <= |plan|
    decreases |plan|, |plan| - i
  {
    if i == |plan| then 0
    else (if i in jobs then JobRank(jobs[i]) else 14) + Rank(plan, jobs, i + 1)
  }

  function Measure(plan: seq<Planned>, s: State): nat
    requires s.cursor <= |plan|
  {
    3 * (|plan| - s.cursor) + (match s.mode case Head => 2 case Awaiting => 1 case Stopped(_) => 0)
    + Rank(plan, s.jobs, 0) + if s.cancelled then 0 else 1
  }

  predicate NoHigher(jobs: map<nat, Job>, jobs': map<nat, Job>) {
    && (forall j :: j in jobs ==> j in jobs' && JobRank(jobs'[j]) <= JobRank(jobs[j]))
    && (forall j :: j in jobs' ==> JobRank(jobs'[j]) <= 14)
  }

  lemma {:induction false} RankKept(plan: seq<Planned>, jobs: map<nat, Job>, jobs': map<nat, Job>, i: nat)
    requires i <= |plan| && NoHigher(jobs, jobs')
    ensures Rank(plan, jobs', i) <= Rank(plan, jobs, i)
    decreases |plan| - i
  {
    if i < |plan| {
      RankKept(plan, jobs, jobs', i + 1);
    }
  }

  lemma {:induction false} RankDrops(plan: seq<Planned>, jobs: map<nat, Job>, jobs': map<nat, Job>, i: nat, k: nat)
    requires i <= k < |plan| && NoHigher(jobs, jobs')
    requires k in jobs && JobRank(jobs'[k]) < JobRank(jobs[k])
    ensures Rank(plan, jobs', i) < Rank(plan, jobs, i)
    decreases k - i
  {
    if i < k {
      RankDrops(plan, jobs, jobs', i + 1, k);
    } else {
      RankKept(plan, jobs, jobs', i + 1);
    }
  }

  lemma StartRunRanks(plan: seq<Planned>, i: nat, futures: map<string, nat>, jobs: map<nat, Job>)
    requires i <= |plan| && Ahead(plan, futures, jobs) && Covered(plan, futures, i)
    ensures NoHigher(jobs, StartRun(plan, i, futures, jobs).1)
  {
    StartRunQueues(plan, i, futures, jobs);
    var r := StartRun(plan, i, futures, jobs).1;
    forall j | j in r ensures JobRank(r[j]) <= 14 {
      if j in jobs {
        assert r[j] == jobs[j];
      }
    }
  }

  lemma OwnJobRanks(plan: seq<Planned>, s: State)
    requires Placed(plan, s) && s.mode.Head? && s.cursor < |plan| && plan[s.cursor].kind.Exclusive?
    ensures NoHigher(s.jobs, s.jobs[s.cursor := Trying(0)])
  {
    assert !Startable(plan, s.cursor, s.mode, s.cursor);
  }

  lemma DispatchAdvances(plan: seq<Planned>, budget: nat, s: State)
    requires Placed(plan, s) && Enabled(plan, budget, s, Dispatch)
    ensures Measure(plan, Step(plan, budget, s, Dispatch)) < Measure(plan, s)
  {
    var s' := Step(plan, budget, s, Dispatch);
    if plan[s.cursor].kind.Safe? {
      StartRunRanks(plan, s.cursor, s.futures, s.jobs);
    } else {
      OwnJobRanks(plan, s);
    }
    RankKept(plan, s.jobs, s'.jobs, 0);
  }

  /** Every step brings the batch closer to its end. */
  lemma Advances(plan: seq<Planned>, budget: nat, s: State, a: Action)
    requires Inv(plan, budget, s) && Enabled(plan, budget, s, a)
    ensures var s' := Step(plan, budget, s, a); s'.cursor <= |plan| && Measure(plan, s') < Measure(plan, s)
  {
    match a
    case Dispatch => DispatchAdvances(plan, budget, s);
    case BlockCall =>
    case Suspend =>
    case Consume =>
    case Deliver =>
    case Fail =>
    case Abort =>
    case Cancel =>
    case _ => JobStepAdvances(plan, budget, s, a);
  }

  lemma JobStepAdvances(plan: seq<Planned>, budget: nat, s: State, a: Action)
    requires Inv(plan, budget, s) && Enabled(plan, budget, s, a) && OfJob(a)
    ensures var s' := Step(plan, budget, s, a); s'.cursor <= |plan| && Measure(plan, s') < Measure(plan, s)
  {
    NextJobRuns(plan, budget, s, a);
    JobRanks(plan, s, a.j, NextJob(plan, s.jobs[a.j], a));
  }

  lemma JobRanks(plan: seq<Planned>, s: State, j: nat, job: Job)
    requires Placed(plan, s) && j in s.jobs && JobRank(job) < JobRank(s.jobs[j])
    ensures Rank(plan, s.jobs[j := job], 0) < Rank(plan, s.jobs, 0)
  {
    assert Startable(plan, s.cursor, s.mode, j);
    RankDrops(plan, s.jobs, s.jobs[j := job], 0, j);
  }

  lemma {:induction false} RunAdvances(plan: seq<Planned>, budget: nat, s: State, actions: seq<Action>)
    requires Inv(plan, budget, s) && Legal(plan, budget, s, actions)
    ensures |actions| <= Measure(plan, s)
    decreases |actions|
  {
    if actions != [] {
      StepKeeps(plan, budget, s, actions[0]);
      Advances(plan, budget, s, actions[0]);
      RunAdvances(plan, budget, Step(plan, budget, s, actions[0]), actions[1..]);
    }
  }

  lemma {:induction false} FreshRank(plan: seq<Planned>, i: nat)
    requires i <= |plan|
    ensures Rank(plan, map[], i) == 14 * (|plan| - i)
    decreases |plan| - i
  {
    if i < |plan| {
      FreshRank(plan, i + 1);
    }
  }

  /** No interleaving is longer than seventeen steps a call, and three. */
  lemma RunsAreBounded(plan: seq<Planned>, budget: nat, actions: seq<Action>)
    requires Legal(plan, budget, FRESH, actions)
    ensures |actions| <= 17 * |plan| + 3
  {
    FreshInv(plan, budget);
    RunAdvances(plan, budget, FRESH, actions);
    FreshRank(plan, 0);
  }

  /** From every state of a batch that is not over, some run passes all its calls, unless it was cancelled. */
  lemma {:induction false} CanComplete(plan: seq<Planned>, budget: nat, s: State) returns (actions: seq<Action>)
    requires Inv(plan, budget, s) && budget >= 1 && !s.mode.Stopped? && !s.cancelled
    ensures Legal(plan, budget, s, actions) && Exec(plan, budget, s, actions).cursor == |plan|
    decreases Measure(plan, s)
  {
    if Over(plan, s) {
      actions := [];
    } else {
      var a := NeverStuck(plan, budget, s);
      StepKeeps(plan, budget, s, a);
      Advances(plan, budget, s, a);
      var rest := CanComplete(plan, budget, Step(plan, budget, s, a));
      actions := [a] + rest;
      First(plan, budget, s, a, rest);
    }
  }

  lemma First(plan: seq<Planned>, budget: nat, s: State, a: Action, rest: seq<Action>)
    requires Enabled(plan, budget, s, a) && Legal(plan, budget, Step(plan, budget, s, a), rest)
    ensures Legal(plan, budget, s, [a] + rest) && Exec(plan, budget, s, [a] + rest) == Exec(plan, budget, Step(plan, budget, s, a), rest)
  {
    assert ([a] + rest)[0] == a && ([a] + rest)[1..] == rest;
  }

  /** As many executions are in the tool as the budget allows, or all that are not done. */
  predicate Saturated(s: State, budget: nat) {
    |Overlapping(s)| >= budget || forall j :: j in s.jobs ==> s.jobs[j].Calling? || s.jobs[j].Done?
  }

  /** From every state that was not cancelled some run lets the started calls overlap as far as the budget goes. */
  lemma {:induction false} CanOverlap(plan: seq<Planned>, budget: nat, s: State) returns (actions: seq<Action>)
    requires Inv(plan, budget, s) && !s.cancelled
    ensures Legal(plan, budget, s, actions)
    ensures var r := Exec(plan, budget, s, actions);
            Saturated(r, budget) && r.cursor == s.cursor && r.mode == s.mode && r.jobs.Keys == s.jobs.Keys && r.consumed == s.consumed
    decreases Measure(plan, s)
  {
    if j :| j in s.jobs && (s.jobs[j].Trying? || s.jobs[j].Sleeping?) {
      actions := ThenOverlap(plan, budget, s, if s.jobs[j].Trying? then Begin(j) else Wake(j));
    } else if j :| j in s.jobs && s.jobs[j].Queued? && |Holders(plan, s.jobs)| < budget {
      actions := ThenOverlap(plan, budget, s, Acquire(j));
    } else {
      actions := [];
      Smaller(Holders(plan, s.jobs), Overlapping(s));
    }
  }

  lemma {:induction false} ThenOverlap(plan: seq<Planned>, budget: nat, s: State, a: Action) returns (actions: seq<Action>)
    requires Inv(plan, budget, s) && !s.cancelled && Enabled(plan, budget, s, a) && (a.Begin? || a.Wake? || a.Acquire?)
    ensures Legal(plan, budget, s, actions)
    ensures var r := Exec(plan, budget, s, actions);
            Saturated(r, budget) && r.cursor == s.cursor && r.mode == s.mode && r.jobs.Keys == s.jobs.Keys && r.consumed == s.consumed
    decreases Measure(plan, s), 0
  {
    StepKeeps(plan, budget, s, a);
    Advances(plan, budget, s, a);
    var s' := Step(plan, budget, s, a);
    assert s'.jobs.Keys == s.jobs.Keys;
    var rest := CanOverlap(plan, budget, s');
    First(plan, budget, s, a, rest);
    actions := [a] + rest;
  }

  /**
   * When a batch is over, calls were left exactly if a cancellation was noticed, a call suspended the
   * run or failed it, or one before the last delivered the report.
   */
  lemma EndsShort(plan: seq<Planned>, budget: nat, actions: seq<Action>)
    requires Legal(plan, budget, FRESH, actions) && Over(plan, Exec(plan, budget, FRESH, actions))
    ensures var s := Exec(plan, budget, FRESH, actions);
            && (s.cursor < |plan| <==> Abort in actions || Suspend in actions || Fail in actions || (Deliver in actions && |s.consumed| < |plan|))
            && (Abort in actions ==> Cancel in actions)
  {
    var s := Reaches(plan, budget, actions);
    StopsWhen(plan, budget, FRESH, actions);
    match s.mode
    case Head => assert s.cursor == |plan|;
    case Awaiting => assert false;
    case Stopped(why) => assert why.Delivered? || s.cursor < |plan|;
  }

  predicate StopAt(plan: seq<Planned>, s: State) {
    s.cursor <= |plan| && (s.mode.Stopped? && !s.mode.why.Delivered? ==> s.cursor < |plan|)
  }

  lemma {:induction false} StopsWhen(plan: seq<Planned>, budget: nat, s: State, actions: seq<Action>)
    requires StopAt(plan, s) && Legal(plan, budget, s, actions)
    ensures var r := Exec(plan, budget, s, actions);
            && StopAt(plan, r)
            && (r.cancelled <==> s.cancelled || Cancel in actions)
            && (s.mode.Stopped? ==> r.mode == s.mode)
            && (!s.mode.Stopped? ==>
                  && (r.mode == Stopped(Cancelled) <==> Abort in actions)
                  && (r.mode == Stopped(Suspended) <==> Suspend in actions)
                  && (r.mode == Stopped(Failed) <==> Fail in actions)
                  && (r.mode == Stopped(Delivered) <==> Deliver in actions))
            && (s.mode.Stopped? ==> Abort !in actions && Suspend !in actions && Fail !in actions && Deliver !in actions)
            && (Abort in actions ==> r.cancelled)
    decreases |actions|
  {
    if actions != [] {
      assert actions == [actions[0]] + actions[1..];
      StopsWhen(plan, budget, Step(plan, budget, s, actions[0]), actions[1..]);
    }
  }

  /**
   * Once the run is cancelled no result is passed on any more, and no idempotent call is tried again;
   * what was in a tool may still come back.
   */
  lemma {:induction false} AfterCancel(plan: seq<Planned>, budget: nat, s: State, actions: seq<Action>, j: nat)
    requires s.cancelled && Legal(plan, budget, s, actions)
    ensures var r := Exec(plan, budget, s, actions);
            && r.cancelled && (Idempotent(plan, j) ==> r.begun[j] == s.begun[j])
            && s.consumed <= r.consumed && (forall i :: |s.consumed| <= i < |r.consumed| ==> r.consumed[i].Blocked?)
    decreases |actions|
  {
    if actions != [] {
      AfterCancel(plan, budget, Step(plan, budget, s, actions[0]), actions[1..], j);
    }
  }

  // ----- planning a batch -----

  /** A call of the batch with what the registry, the approvals and the probes say of it. */
  datatype Candidate = Candidate(
    id: string, known: bool, approved: bool, repeatedFailure: bool, validArguments: bool, available: bool,
    suspends: bool, concurrencySafe: bool, idempotent: bool)

  /** Nothing is held against the call. */
  predicate Admitted(c: Candidate) {
    c.known && c.approved && !c.repeatedFailure && c.validArguments && c.available
  }

  /** What a candidate's plan says: the objection to it, or how it may be run. */
  function KindOf(c: Candidate): Kind {
    if !c.known then Denied(Unknown)
    else if !c.approved then Denied(NotApproved)
    else if !c.available then Denied(Unavailable)
    else if c.repeatedFailure then Denied(RepeatedFailure)
    else if !c.validArguments then Denied(InvalidArguments)
    else if c.suspends then Suspending
    else if c.concurrencySafe then Safe
    else Exclusive
  }

  /** Decides every call in the model's order; a tool that is down overrides what else there is against an approved call. */
  method PlanToolCalls(calls: seq<Candidate>) returns (plan: seq<Planned>)
    ensures |plan| == |calls|
    ensures forall i :: 0 <= i < |calls| ==> plan[i] == Planned(calls[i].id, KindOf(calls[i]), calls[i].idempotent)
    ensures forall i :: 0 <= i < |calls| ==>
              && (Executable(plan, i) || plan[i].kind.Suspending? <==> Admitted(calls[i]))
              && (plan[i].kind.Safe? <==> Admitted(calls[i]) && !calls[i].suspends && calls[i].concurrencySafe)
              && (plan[i].kind.Suspending? <==> Admitted(calls[i]) && calls[i].suspends)
              && (plan[i].kind == Denied(Unavailable) <==> calls[i].known && calls[i].approved && !calls[i].available)
              && (plan[i].kind == Denied(Unknown) <==> !calls[i].known)
              && (plan[i].kind == Denied(NotApproved) <==> calls[i].known && !calls[i].approved)
              && (plan[i].kind == Denied(InvalidArguments) ==> !calls[i].validArguments && !calls[i].repeatedFailure)
              && (plan[i].kind == Denied(RepeatedFailure) ==> calls[i].repeatedFailure)
  {
    plan := [];
    for k := 0 to |calls|
      invariant |plan| == k
      invariant forall i :: 0 <= i < k ==> plan[i] == Planned(calls[i].id, KindOf(calls[i]), calls[i].idempotent)
    {
      var c := calls[k];
      if !c.known {
        plan := plan + [Planned(c.id, Denied(Unknown), c.idempotent)];
        continue;
      }
      var kind := if c.suspends then Suspending else if c.concurrencySafe then Safe else Exclusive;
      if !c.approved {
        kind := Denied(NotApproved);
      } else {
        if c.repeatedFailure {
          kind := Denied(RepeatedFailure);
        } else if !c.validArguments {
          kind := Denied(InvalidArguments);
        }
        if !c.available {
          kind := Denied(Unavailable);
        }
      }
      plan := plan + [Planned(c.id, kind, c.idempotent)];
    }
  }

  // ----- the retry loop -----

  /** What the tool and the context do at each attempt: cancelled before it, its verdict, cancelled while sleeping. */
  datatype Attempt = Attempt(cancelledBefore: bool, verdict: Verdict, cancelledAfter: bool)

  function At(script: seq<Attempt>, n: nat): Attempt {
    if n < |script| then script[n] else Attempt(true, Failure, true)
  }

  /** One execution of an idempotent tool by itself, from attempt n on. */
  function RetryFrom(j: nat, script: seq<Attempt>, n: nat): Result
    requires n <= MAX_RETRIES
    decreases |script|, MAX_RETRIES - n
  {
    if At(script, n).cancelledBefore then GaveUp(n)
    else if !At(script, n).verdict.Transient? || n == MAX_RETRIES then Returned(j, n, At(script, n).verdict)
    else if At(script, n).cancelledAfter then GaveUp(n + 1)
    else RetryFrom(j, script, n + 1)
  }

  /** Retries transient failures of idempotent tools, and runs any other tool once. */
  method RetryableToolExec(j: nat, idempotent: bool, script: seq<Attempt>) returns (r: Result, executed: nat)
    ensures !idempotent ==> r == Returned(j, 0, At(script, 0).verdict) && executed == 1
    ensures idempotent ==> r == RetryFrom(j, script, 0)
    ensures executed == Attempts(Done(r)) <= 4
  {
    if !idempotent {
      return Returned(j, 0, At(script, 0).verdict), 1;
    }
    executed := 0;
    var verdict := Failure;
    for attempt := 0 to MAX_RETRIES + 1
      invariant executed == attempt
      invariant attempt <= MAX_RETRIES ==> RetryFrom(j, script, 0) == RetryFrom(j, script, attempt)
      invariant attempt == MAX_RETRIES + 1 ==> RetryFrom(j, script, 0) == Returned(j, MAX_RETRIES, verdict)
    {
      if At(script, attempt).cancelledBefore {
        return GaveUp(attempt), executed;
      }
      verdict, executed := At(script, attempt).verdict, executed + 1;
      if !verdict.Transient? {
        return Returned(j, attempt, verdict), executed;
      }
      if attempt < MAX_RETRIES && At(script, attempt).cancelledAfter {
        return GaveUp(attempt + 1), executed;
      }
    }
    return Returned(j, MAX_RETRIES, verdict), executed;
  }

  /** n failed attempts that may be repeated, and a last one. */
  function Failing(n: nat, last: Attempt): seq<Attempt> {
    seq(n, i => Attempt(false, Transient, false)) + [last]
  }

  /**
   * After n transient failures the next attempt decides, if it is cancelled, the fourth, or not a transient
   * failure: idempotent tools are retried up to three times, and not after a cancellation.
   */
  lemma {:induction false} FailingRuns(j: nat, k: nat, n: nat, last: Attempt)
    requires k <= n <= MAX_RETRIES && (last.cancelledBefore || !last.verdict.Transient? || n == MAX_RETRIES || last.cancelledAfter)
    ensures RetryFrom(j, Failing(n, last), k) ==
            if last.cancelledBefore then GaveUp(n)
            else if !last.verdict.Transient? || n == MAX_RETRIES then Returned(j, n, last.verdict)
            else GaveUp(n + 1)
    decreases n - k
  {
    var script := Failing(n, last);
    if k < n {
      assert script[k] == Attempt(false, Transient, false);
      FailingRuns(j, k + 1, n, last);
    } else {
      assert script[n] == last;
    }
  }

  /** Whatever an execution of an idempotent call ends with, in any interleaving, is what the retry loop gives by itself. */
  lemma JobsRetry(plan: seq<Planned>, budget: nat, actions: seq<Action>, j: nat) returns (script: seq<Attempt>)
    requires Legal(plan, budget, FRESH, actions) && Idempotent(plan, j)
    requires var s := Exec(plan, budget, FRESH, actions); j in s.jobs && s.jobs[j].Done?
    ensures Exec(plan, budget, FRESH, actions).jobs[j].result == RetryFrom(j, script, 0)
  {
    var s := Reaches(plan, budget, actions);
    assert WellRun(plan, s.cancelled, j, s.jobs[j]);
    match s.jobs[j].result
    case Returned(k, n, verdict) =>
      script := Failing(n, Attempt(false, verdict, false));
      FailingRuns(j, 0, n, Attempt(false, verdict, false));
    case GaveUp(n) =>
      script := Failing(n, Attempt(true, Failure, true));
      FailingRuns(j, 0, n, Attempt(true, Failure, true));
  }

  /** And the retry loop's course under any script is one of the batch's interleavings. */
  lemma {:induction false} RetriesAreRuns(plan: seq<Planned>, budget: nat, s: State, j: nat, script: seq<Attempt>, n: nat)
    returns (actions: seq<Action>)
    requires n <= MAX_RETRIES && Idempotent(plan, j) && !s.cancelled && j in s.jobs && s.jobs[j] == Trying(n)
    ensures Legal(plan, budget, s, actions)
    ensures var r := Exec(plan, budget, s, actions); j in r.jobs && r.jobs[j] == Done(RetryFrom(j, script, n))
    decreases MAX_RETRIES - n
  {
    var now := At(script, n);
    if now.cancelledBefore {
      actions := TwoSteps(plan, budget, s, Cancel, GiveUp(j));
    } else if !now.verdict.Transient? || n == MAX_RETRIES {
      actions := TwoSteps(plan, budget, s, Begin(j), Finish(j, now.verdict));
    } else {
      var s1 := Step(plan, budget, s, Begin(j));
      var s2 := Step(plan, budget, s1, Finish(j, Transient));
      var rest: seq<Action>;
      if now.cancelledAfter {
        rest := TwoSteps(plan, budget, s2, Cancel, GiveUp(j));
      } else {
        rest := RetriesAreRuns(plan, budget, Step(plan, budget, s2, Wake(j)), j, script, n + 1);
        First(plan, budget, s2, Wake(j), rest);
        rest := [Wake(j)] + rest;
      }
      First(plan, budget, s1, Finish(j, Transient), rest);
      First(plan, budget, s, Begin(j), [Finish(j, Transient)] + rest);
      actions := [Begin(j)] + ([Finish(j, Transient)] + rest);
    }
  }

  lemma TwoSteps(plan: seq<Planned>, budget: nat, s: State, a: Action, b: Action) returns (actions: seq<Action>)
    requires Enabled(plan, budget, s, a) && Enabled(plan, budget, Step(plan, budget, s, a), b)
    ensures Legal(plan, budget, s, actions)
    ensures Exec(plan, budget, s, actions) == Step(plan, budget, Step(plan, budget, s, a), b)
  {
    var s1 := Step(plan, budget, s, a);
    assert Legal(plan, budget, Step(plan, budget, s1, b), []);
    First(plan, budget, s1, b, []);
    First(plan, budget, s, a, [b] + []);
    actions := [a] + ([b] + []);
  }
}
