// Background jobs: a bounded table in which running jobs are never evicted, and one notice per
// finished job (server/agent/jobs.go).
module Jobs {

  const MAX_RETAINED_JOBS: nat := 32

  datatype Status = Running | Succeeded | Failed

  datatype Job = Job(tool: string, status: Status, resultId: string, resultChars: nat, error: string)

  /** The table and the order of submission. */
  datatype Table = Table(jobs: map<string, Job>, order: seq<string>)

  /** `told` are the jobs noticed so far, `finished` those that ended, `executing` those whose goroutine runs. */
  datatype State = State(
    table: Table, unannounced: seq<string>,
    told: seq<string>, finished: set<string>, executing: set<string>, submitted: set<string>)

  const START := State(Table(map[], []), [], [], {}, {}, {})

  predicate Distinct(ids: seq<string>) {
    forall i, j :: 0 <= i < j < |ids| ==> ids[i] != ids[j]
  }

  /** Order and map hold the same ids, each once. */
  ghost predicate Matched(t: Table) {
    Distinct(t.order) && (forall id :: id in t.order <==> id in t.jobs)
  }

  // ----- eviction -----

  predicate Evictable(t: Table, i: nat)
    requires i < |t.order|
  {
    t.order[i] !in t.jobs || !t.jobs[t.order[i]].status.Running?
  }

  /** The first position from i on that may be evicted, or the length of the order. */
  function FirstEvictable(t: Table, i: nat): (k: nat)
    requires i <= |t.order|
    ensures i <= k <= |t.order|
    ensures forall m :: i <= m < k ==> !Evictable(t, m)
    ensures k < |t.order| ==> Evictable(t, k)
    decreases |t.order| - i
  {
    if i == |t.order| || Evictable(t, i) then i else FirstEvictable(t, i + 1)
  }

  function DropAt(t: Table, k: nat): Table
    requires k < |t.order|
  {
    Table(t.jobs - {t.order[k]}, t.order[..k] + t.order[k + 1..])
  }

  function Evict(t: Table): Table
    decreases |t.order|
  {
    if |t.order| <= MAX_RETAINED_JOBS then t
    else
      var k := FirstEvictable(t, 0);
      if k == |t.order| then t else Evict(DropAt(t, k))
  }

  predicate AllRunning(t: Table) {
    forall id :: id in t.jobs ==> t.jobs[id].status.Running?
  }

  lemma DropKeeps(t: Table, k: nat)
    requires Matched(t) && k < |t.order|
    ensures Matched(DropAt(t, k)) && DropAt(t, k).jobs.Keys == t.jobs.Keys - {t.order[k]}
    ensures t.order[k] in t.jobs && |DropAt(t, k).order| == |t.order| - 1
  {
    var d := DropAt(t, k);
    forall id ensures id in d.order <==> id in t.order && id != t.order[k] {
      if id in t.order && id != t.order[k] {
        var i :| 0 <= i < |t.order| && t.order[i] == id;
        assert i < k ==> d.order[i] == id;
        assert i > k ==> d.order[i - 1] == id;
      }
    }
  }

  /** Survivor a finished job, evicted one b: b was submitted earlier. */
  predicate Older(t: Table, b: string, a: string) {
    exists i, j :: 0 <= i < j < |t.order| && t.order[i] == b && t.order[j] == a
  }

  /**
   * After an eviction the table is within its bound or everything left is running. Running jobs all
   * stay, jobs are only dropped, and a finished job stays only if every evicted one is older.
   */
  lemma {:induction false} EvictionKeeps(t: Table)
    requires Matched(t)
    ensures var r := Evict(t);
            && Matched(r) && (|r.order| <= MAX_RETAINED_JOBS || AllRunning(r))
            && (forall id :: id in r.jobs ==> id in t.jobs && r.jobs[id] == t.jobs[id])
            && (forall id :: id in t.jobs && t.jobs[id].status.Running? ==> id in r.jobs)
            && (|t.order| <= MAX_RETAINED_JOBS ==> r == t)
    decreases |t.order|
  {
    if |t.order| > MAX_RETAINED_JOBS {
      var k := FirstEvictable(t, 0);
      if k < |t.order| {
        DropKeeps(t, k);
        EvictionKeeps(DropAt(t, k));
      } else {
        NoneEvictable(t);
      }
    }
  }

  lemma NoneEvictable(t: Table)
    requires Matched(t) && FirstEvictable(t, 0) == |t.order|
    ensures AllRunning(t)
  {
    forall id | id in t.jobs ensures t.jobs[id].status.Running? {
      var i :| 0 <= i < |t.order| && t.order[i] == id;
      assert !Evictable(t, i);
    }
  }

  lemma OlderBeforeDrop(t: Table, k: nat, b: string, a: string)
    requires k < |t.order| && Older(DropAt(t, k), b, a)
    ensures Older(t, b, a)
  {
    var d := DropAt(t, k);
    var i, j :| 0 <= i < j < |d.order| && d.order[i] == b && d.order[j] == a;
    var i', j' := if i < k then i else i + 1, if j < k then j else j + 1;
    assert t.order[i'] == b && t.order[j'] == a;
  }

  lemma DroppedIsOldest(t: Table, k: nat, a: string)
    requires Matched(t) && k == FirstEvictable(t, 0) < |t.order|
    requires a in t.jobs && !t.jobs[a].status.Running? && a != t.order[k]
    ensures Older(t, t.order[k], a)
  {
    var j :| 0 <= j < |t.order| && t.order[j] == a;
    assert Evictable(t, j);
  }

  lemma {:induction false} EvictsOldestFirst(t: Table, a: string, b: string)
    requires Matched(t) && a in t.jobs && !t.jobs[a].status.Running? && a in Evict(t).jobs
    requires b in t.jobs && b !in Evict(t).jobs
    ensures Older(t, b, a)
    decreases |t.order|
  {
    var k := FirstEvictable(t, 0);
    var d := DropAt(t, k);
    DropKeeps(t, k);
    EvictionKeeps(d);
    if b == t.order[k] {
      DroppedIsOldest(t, k, a);
    } else {
      EvictsOldestFirst(d, a, b);
      OlderBeforeDrop(t, k, b, a);
    }
  }

  /** An eviction takes no more than it has to: a table it changed ends exactly at the bound or above it. */
  lemma {:induction false} EvictsOnlyOverBound(t: Table)
    requires |t.order| >= MAX_RETAINED_JOBS
    ensures |Evict(t).order| >= MAX_RETAINED_JOBS
    decreases |t.order|
  {
    if |t.order| > MAX_RETAINED_JOBS {
      var k := FirstEvictable(t, 0);
      if k < |t.order| {
        EvictsOnlyOverBound(DropAt(t, k));
      }
    }
  }

  // ----- the steps -----

  datatype Action =
    | Submit(id: string, tool: string)
    | Finish(id: string, resultId: string, chars: nat, failed: bool, error: string)
    | TakeNotices

  /** A submission gets a fresh id and its own goroutine, which finishes it once. */
  predicate Enabled(s: State, a: Action) {
    match a
    case Submit(id, _) => id !in s.submitted
    case Finish(id, _, _, _, _) => id in s.executing
    case TakeNotices => true
  }

  function Ended(job: Job, resultId: string, chars: nat, failed: bool, error: string): Job {
    job.(status := if failed then Failed else Succeeded, resultId := resultId, resultChars := chars,
         error := if failed then error else job.error)
  }

  /** The jobs to tell of: those of the list that were not evicted since. */
  function Known(ids: seq<string>, jobs: map<string, Job>): seq<string> {
    if ids == [] then []
    else
      var before := Known(ids[..|ids| - 1], jobs);
      if ids[|ids| - 1] in jobs then before + [ids[|ids| - 1]] else before
  }

  function Step(s: State, a: Action): State
    requires Enabled(s, a)
  {
    match a
    case Submit(id, tool) =>
      var t := Table(s.table.jobs[id := Job(tool, Running, "", 0, "")], s.table.order + [id]);
      s.(table := Evict(t), executing := s.executing + {id}, submitted := s.submitted + {id})
    case Finish(id, resultId, chars, failed, error) =>
      var ended := s.(executing := s.executing - {id}, finished := s.finished + {id});
      if id !in s.table.jobs then ended
      else
        ended.(table := s.table.(jobs := s.table.jobs[id := Ended(s.table.jobs[id], resultId, chars, failed, error)]),
               unannounced := s.unannounced + [id])
    case TakeNotices => s.(told := s.told + Known(s.unannounced, s.table.jobs), unannounced := [])
  }

  // ----- what every step keeps -----

  predicate RunningExecutes(s: State) {
    && (forall id :: id in s.executing ==> id in s.table.jobs && s.table.jobs[id].status.Running?)
    && (forall id :: id in s.table.jobs && s.table.jobs[id].status.Running? ==> id in s.executing)
    && (forall id :: id in s.table.jobs ==> id in s.submitted)
  }

  /** Every job told of or to be told of has finished, and stands there once. */
  predicate NoticesOnce(s: State) {
    && Distinct(s.told) && Distinct(s.unannounced)
    && (forall id :: id in s.unannounced ==> id in s.finished && id !in s.told)
    && (forall id :: id in s.told ==> id in s.finished)
    && s.finished <= s.submitted && s.executing <= s.submitted && s.finished !! s.executing
  }

  ghost predicate Inv(s: State) {
    Matched(s.table) && RunningExecutes(s) && NoticesOnce(s)
  }

  lemma MatchedMore(t: Table, id: string, job: Job)
    requires Matched(t) && id !in t.jobs
    ensures Matched(Table(t.jobs[id := job], t.order + [id]))
  {
    var m := Table(t.jobs[id := job], t.order + [id]);
    forall i, j | 0 <= i < j < |m.order| ensures m.order[i] != m.order[j] {
      assert m.order[i] in t.order;
    }
  }

  lemma SubmitKeeps(s: State, id: string, tool: string)
    requires Inv(s) && Enabled(s, Submit(id, tool))
    ensures Inv(Step(s, Submit(id, tool)))
    ensures var t := Step(s, Submit(id, tool)).table; |t.order| <= MAX_RETAINED_JOBS || AllRunning(t)
  {
    var job := Job(tool, Running, "", 0, "");
    var t := Table(s.table.jobs[id := job], s.table.order + [id]);
    MatchedMore(s.table, id, job);
    EvictionKeeps(t);
    var s' := Step(s, Submit(id, tool));
    forall x | x in s'.executing ensures x in s'.table.jobs && s'.table.jobs[x].status.Running? {
      assert x in t.jobs && t.jobs[x].status.Running?;
    }
  }

  lemma DistinctMore(ids: seq<string>, id: string)
    requires Distinct(ids) && id !in ids
    ensures Distinct(ids + [id])
  {
  }

  lemma FinishKeeps(s: State, a: Action)
    requires Inv(s) && a.Finish? && Enabled(s, a)
    ensures Inv(Step(s, a))
  {
    assert a.id !in s.unannounced;
    DistinctMore(s.unannounced, a.id);
    assert Step(s, a).table.jobs.Keys == s.table.jobs.Keys;
  }

  lemma {:induction false} KnownAre(ids: seq<string>, jobs: map<string, Job>)
    requires Distinct(ids)
    ensures Distinct(Known(ids, jobs)) && forall id :: id in Known(ids, jobs) <==> id in ids && id in jobs
  {
    if ids != [] {
      var n := |ids| - 1;
      KnownAre(ids[..n], jobs);
      assert ids == ids[..n] + [ids[n]];
      assert ids[n] !in ids[..n];
      DistinctMore(Known(ids[..n], jobs), ids[n]);
    }
  }

  /** The places of the jobs told of in the list, in order. */
  lemma {:induction false} KnownInOrder(ids: seq<string>, jobs: map<string, Job>) returns (at: seq<nat>)
    ensures |at| == |Known(ids, jobs)| && forall k :: 0 <= k < |at| ==> at[k] < |ids| && Known(ids, jobs)[k] == ids[at[k]]
    ensures forall j, k :: 0 <= j < k < |at| ==> at[j] < at[k]
  {
    if ids == [] {
      at := [];
    } else {
      var n := |ids| - 1;
      at := KnownInOrder(ids[..n], jobs);
      if ids[n] in jobs {
        at := at + [n];
      }
    }
  }

  lemma DistinctConcat(a: seq<string>, b: seq<string>)
    requires Distinct(a) && Distinct(b) && forall id :: id in b ==> id !in a
    ensures Distinct(a + b)
  {
    forall i, j | 0 <= i < j < |a + b| ensures (a + b)[i] != (a + b)[j] {
      if i < |a| <= j {
        assert (a + b)[j] in b && (a + b)[i] in a;
      }
    }
  }

  lemma TakeKeeps(s: State)
    requires Inv(s)
    ensures Inv(Step(s, TakeNotices))
  {
    KnownAre(s.unannounced, s.table.jobs);
    DistinctConcat(s.told, Known(s.unannounced, s.table.jobs));
  }

  lemma StepKeeps(s: State, a: Action)
    requires Inv(s) && Enabled(s, a)
    ensures Inv(Step(s, a))
  {
    match a
    case Submit(id, tool) => SubmitKeeps(s, id, tool);
    case Finish(_, _, _, _, _) => FinishKeeps(s, a);
    case TakeNotices => TakeKeeps(s);
  }

  ghost predicate Legal(s: State, actions: seq<Action>)
    decreases |actions|
  {
    actions == [] || (Enabled(s, actions[0]) && Legal(Step(s, actions[0]), actions[1..]))
  }

  ghost function Exec(s: State, actions: seq<Action>): State
    requires Legal(s, actions)
    decreases |actions|
  {
    if actions == [] then s else Exec(Step(s, actions[0]), actions[1..])
  }

  lemma {:induction false} RunKeeps(s: State, actions: seq<Action>)
    requires Inv(s) && Legal(s, actions)
    ensures Inv(Exec(s, actions))
    decreases |actions|
  {
    if actions != [] {
      StepKeeps(s, actions[0]);
      RunKeeps(Step(s, actions[0]), actions[1..]);
    }
  }

  /** Over the whole life of the table each finished job is told of at most once, and no other ever. */
  lemma AtMostOneNotice(actions: seq<Action>)
    requires Legal(START, actions)
    ensures var s := Exec(START, actions);
            && Distinct(s.told) && (forall id :: id in s.told ==> id in s.finished)
            && Matched(s.table) && (forall id :: id in s.executing ==> id in s.table.jobs && s.table.jobs[id].status.Running?)
  {
    RunKeeps(START, actions);
  }

  /** A finished job has been told of, is about to be, or has been evicted. */
  predicate Accounted(s: State) {
    forall id :: id in s.finished ==> id in s.told || id in s.unannounced || id !in s.table.jobs
  }

  lemma StepAccounts(s: State, a: Action)
    requires Inv(s) && Accounted(s) && Enabled(s, a)
    ensures Accounted(Step(s, a))
  {
    match a
    case Submit(id, tool) =>
      var t := Table(s.table.jobs[id := Job(tool, Running, "", 0, "")], s.table.order + [id]);
      MatchedMore(s.table, id, Job(tool, Running, "", 0, ""));
      EvictionKeeps(t);
    case Finish(_, _, _, _, _) =>
    case TakeNotices => KnownAre(s.unannounced, s.table.jobs);
  }

  lemma {:induction false} RunAccounts(s: State, actions: seq<Action>)
    requires Inv(s) && Accounted(s) && Legal(s, actions)
    ensures Accounted(Exec(s, actions))
    decreases |actions|
  {
    if actions != [] {
      StepKeeps(s, actions[0]);
      StepAccounts(s, actions[0]);
      RunAccounts(Step(s, actions[0]), actions[1..]);
    }
  }

  /** The next take tells of every finished job still in the table: exactly once, then, over its life. */
  lemma NextTakeTells(actions: seq<Action>, id: string)
    requires Legal(START, actions)
    requires var s := Exec(START, actions); id in s.finished && id in s.table.jobs
    ensures var told := Step(Exec(START, actions), TakeNotices).told; id in told && Distinct(told)
  {
    RunKeeps(START, actions);
    RunAccounts(START, actions);
    var s := Exec(START, actions);
    TakeKeeps(s);
    KnownAre(s.unannounced, s.table.jobs);
  }

  /** A job's status moves once, from running to an end, and an ended job never changes. */
  lemma StatusMovesOnce(s: State, a: Action, id: string)
    requires Inv(s) && Enabled(s, a) && id in s.table.jobs
    ensures var jobs := Step(s, a).table.jobs;
            && (s.table.jobs[id].status.Running? ==> id in jobs)
            && (id in jobs && !s.table.jobs[id].status.Running? ==> jobs[id] == s.table.jobs[id])
            && (id in jobs && jobs[id] != s.table.jobs[id] ==> a.Finish? && a.id == id && !jobs[id].status.Running?)
  {
    if a.Submit? {
      var job := Job(a.tool, Running, "", 0, "");
      MatchedMore(s.table, a.id, job);
      EvictionKeeps(Table(s.table.jobs[a.id := job], s.table.order + [a.id]));
    }
  }

  /** A submitted job stands in the table at once, running under its tool. */
  lemma SubmitEnters(s: State, id: string, tool: string)
    requires Inv(s) && Enabled(s, Submit(id, tool))
    ensures var t := Step(s, Submit(id, tool)).table; id in t.jobs && t.jobs[id] == Job(tool, Running, "", 0, "")
  {
    var job := Job(tool, Running, "", 0, "");
    MatchedMore(s.table, id, job);
    EvictionKeeps(Table(s.table.jobs[id := job], s.table.order + [id]));
  }

  /** What a job's end says: failed with the error, or succeeded, with the result's handle and size. */
  predicate EndsAs(job: Job, end: Job, resultId: string, chars: nat, failed: bool, error: string) {
    && end.tool == job.tool && end.resultId == resultId && end.resultChars == chars
    && (end.status.Failed? <==> failed) && (end.status.Succeeded? <==> !failed)
    && end.error == if failed then error else job.error
  }

  lemma {:induction false} EndStays(s: State, actions: seq<Action>, id: string, end: Job)
    requires Inv(s) && Legal(s, actions) && !end.status.Running?
    requires id in s.submitted && (id in s.table.jobs ==> s.table.jobs[id] == end)
    ensures var jobs := Exec(s, actions).table.jobs; id in jobs ==> jobs[id] == end
    decreases |actions|
  {
    if actions != [] {
      var s' := Step(s, actions[0]);
      StepKeeps(s, actions[0]);
      if id in s.table.jobs {
        StatusMovesOnce(s, actions[0], id);
      } else {
        GoneStaysGone(s, actions[0], id);
      }
      EndStays(s', actions[1..], id, end);
    }
  }

  lemma GoneStaysGone(s: State, a: Action, id: string)
    requires Inv(s) && Enabled(s, a) && id in s.submitted && id !in s.table.jobs
    ensures id !in Step(s, a).table.jobs && id in Step(s, a).submitted
  {
    if a.Submit? {
      var job := Job(a.tool, Running, "", 0, "");
      MatchedMore(s.table, a.id, job);
      EvictionKeeps(Table(s.table.jobs[a.id := job], s.table.order + [a.id]));
    }
  }

  /** A job that finishes gets the end its execution had, and keeps it as long as it stands in the table. */
  lemma FinishedAs(s: State, id: string, resultId: string, chars: nat, failed: bool, error: string, more: seq<Action>)
    requires Inv(s) && Enabled(s, Finish(id, resultId, chars, failed, error))
    requires Legal(Step(s, Finish(id, resultId, chars, failed, error)), more)
    ensures var jobs := Exec(Step(s, Finish(id, resultId, chars, failed, error)), more).table.jobs;
            id in s.table.jobs && (id in jobs ==> EndsAs(s.table.jobs[id], jobs[id], resultId, chars, failed, error))
  {
    var a := Finish(id, resultId, chars, failed, error);
    StepKeeps(s, a);
    EndStays(Step(s, a), more, id, Step(s, a).table.jobs[id]);
  }

  // ----- the manager object -----

  predicate AllowedTool(tool: string) {
    tool == "code_run_python" || tool == "data_query_sql"
  }

  class JobManager {
    var jobs: map<string, Job>
    var order: seq<string>
    var unannounced: seq<string>
    var hasRegistry: bool
    ghost var told: seq<string>
    ghost var finished: set<string>
    ghost var executing: set<string>
    ghost var submitted: set<string>

    ghost function View(): State
      reads this
    {
      State(Table(jobs, order), unannounced, told, finished, executing, submitted)
    }

    constructor ()
      ensures View() == START && Inv(View()) && !hasRegistry
    {
      jobs, order, unannounced, hasRegistry := map[], [], [], false;
      told, finished, executing, submitted := [], {}, {}, {};
    }

    method SetRegistry()
      modifies `hasRegistry
      ensures hasRegistry
    {
      hasRegistry := true;
    }

    /** Drops the oldest job that is not running, if any. */
    method EvictOne() returns (evicted: bool)
      modifies `jobs, `order
      ensures var t := old(Table(jobs, order)); var k := FirstEvictable(t, 0);
              && evicted == (k < |t.order|)
              && Table(jobs, order) == if evicted then DropAt(t, k) else t
    {
      for i := 0 to |order|
        invariant Table(jobs, order) == old(Table(jobs, order))
        invariant FirstEvictable(Table(jobs, order), 0) == FirstEvictable(Table(jobs, order), i)
      {
        var id := order[i];
        if id !in jobs {
          assert jobs - {id} == jobs;
          order := order[..i] + order[i + 1..];
          return true;
        }
        if jobs[id].status.Running? {
          continue;
        }
        jobs := jobs - {id};
        order := order[..i] + order[i + 1..];
        return true;
      }
      return false;
    }

    method Evicting()
      modifies `jobs, `order
      ensures Table(jobs, order) == Evict(old(Table(jobs, order)))
    {
      while |order| > MAX_RETAINED_JOBS
        invariant Evict(Table(jobs, order)) == Evict(old(Table(jobs, order)))
        decreases |order|
      {
        var evicted := EvictOne();
        if !evicted {
          return;
        }
      }
    }

    method Insert(id: string, job: Job)
      modifies `jobs, `order
      ensures Table(jobs, order) == Evict(Table(old(jobs)[id := job], old(order) + [id]))
    {
      jobs := jobs[id := job];
      order := order + [id];
      Evicting();
    }

    /** Starts a job, if the tool may run in the background; `newId` is the generator's next id. */
    method Submit(tool: string, hasArguments: bool, newId: string) returns (ok: bool)
      requires Inv(View()) && newId !in submitted
      modifies this
      ensures ok <==> (tool == "code_run_python" || tool == "data_query_sql") && hasArguments && old(hasRegistry)
      ensures View() == if ok then Step(old(View()), Action.Submit(newId, tool)) else old(View())
      ensures Inv(View()) && (ok ==> |order| <= MAX_RETAINED_JOBS || AllRunning(Table(jobs, order)))
      ensures hasRegistry == old(hasRegistry)
    {
      if !AllowedTool(tool) || !hasArguments || !hasRegistry {
        return false;
      }
      SubmitKeeps(View(), newId, tool);
      Insert(newId, Job(tool, Running, "", 0, ""));
      executing, submitted := executing + {newId}, submitted + {newId};
      return true;
    }

    method Finish(id: string, resultId: string, chars: nat, failed: bool, error: string)
      requires Inv(View()) && id in executing
      modifies this
      ensures View() == Step(old(View()), Action.Finish(id, resultId, chars, failed, error))
      ensures Inv(View()) && id in jobs && id in old(jobs) && EndsAs(old(jobs)[id], jobs[id], resultId, chars, failed, error)
      ensures hasRegistry == old(hasRegistry)
    {
      StepKeeps(View(), Action.Finish(id, resultId, chars, failed, error));
      executing, finished := executing - {id}, finished + {id};
      if id !in jobs {
        return;
      }
      jobs := jobs[id := Ended(jobs[id], resultId, chars, failed, error)];
      unannounced := unannounced + [id];
    }

    /** One notice per job that finished since the last call and was not evicted. */
    method TakeCompletedNotices() returns (notices: seq<string>)
      requires Inv(View())
      modifies this
      ensures View() == Step(old(View()), TakeNotices) && Inv(View())
      ensures notices == Known(old(unannounced), jobs) && told == old(told) + notices
    {
      StepKeeps(View(), TakeNotices);
      var ids := unannounced;
      unannounced := [];
      notices := [];
      for i := 0 to |ids|
        invariant notices == Known(ids[..i], jobs)
        invariant View() == old(View()).(unannounced := [])
      {
        assert ids[..i + 1][..i] == ids[..i];
        if ids[i] !in jobs {
          continue;
        }
        notices := notices + [ids[i]];
      }
      assert ids[..|ids|] == ids;
      told := told + notices;
    }
  }
}
