// The event persistence queue: submitters, one worker and the shutdown, interleaved freely
// (server/handler/runtime_events.go). A save is one write attempt, whatever comes of it.
module PersistQueue {

  datatype Outcome = Accepted | Rejected | Panicked

  /**
   * Where one submission stands: not begun, holding the read lock with its job in hand, saving by
   * itself, waiting for the worker's reply, over. A panic ends a submission that saves by itself;
   * the worker turns it into an answer.
   */
  datatype Stage = New | Submitting | Direct | Waiting | Returned(answer: Outcome)

  datatype Worker = Running | Saving(id: nat, draining: bool) | Draining | Exited

  /**
   * `subs` has one stage per submission. `saves` are the write attempts in order, `pushed` the jobs
   * in the order they entered the queue, `outcomes` what came of the attempts, `replies` how often
   * the worker replied, and `mail` with what.
   */
  datatype State = State(
    subs: seq<Stage>, queue: seq<nat>, open: bool, cancelled: bool, worker: Worker,
    saves: seq<nat>, pushed: seq<nat>, outcomes: map<nat, Outcome>, replies: multiset<nat>, mail: map<nat, Outcome>)

  datatype Action =
    | Enter(id: nat)
    | Push(id: nat)
    | Fallback(id: nat)
    | SaveDirect(id: nat, outcome: Outcome)
    | Receive(id: nat)
    | Take
    | SaveJob(outcome: Outcome)
    | StartDrain
    | Exit
    | Stop

  predicate Enabled(cap: nat, s: State, a: Action) {
    match a
    case Enter(id) => id < |s.subs| && s.subs[id].New?
    case Push(id) => id < |s.subs| && s.subs[id].Submitting? && |s.queue| < cap
    case Fallback(id) => id < |s.subs| && s.subs[id].Submitting?
    case SaveDirect(id, _) => id < |s.subs| && s.subs[id].Direct?
    case Receive(id) => id < |s.subs| && s.subs[id].Waiting? && s.replies[id] > 0 && id in s.mail
    case Take => (s.worker.Running? || s.worker.Draining?) && s.queue != []
    case SaveJob(_) => s.worker.Saving?
    case StartDrain => s.worker.Running? && s.cancelled
    case Exit => s.worker.Draining? && s.queue == []
    case Stop => s.open && forall i :: 0 <= i < |s.subs| ==> !s.subs[i].Submitting?
  }

  function Move(s: State, id: nat, stage: Stage): State
    requires id < |s.subs|
  {
    s.(subs := s.subs[id := stage])
  }

  /**
   * The lock makes the look at the queue variable and the push one critical section, and swapping
   * the queue out and cancelling the worker another; Stop is enabled only when no reader holds it.
   */
  function Step(cap: nat, s: State, a: Action): State
    requires Enabled(cap, s, a)
  {
    match a
    case Enter(id) => Move(s, id, if s.open then Submitting else Direct)
    case Push(id) => Move(s, id, Waiting).(queue := s.queue + [id], pushed := s.pushed + [id])
    case Fallback(id) => Move(s, id, Direct)
    case SaveDirect(id, outcome) => Move(s, id, Returned(outcome)).(saves := s.saves + [id], outcomes := s.outcomes[id := outcome])
    case Receive(id) => Move(s, id, Returned(s.mail[id]))
    case Take => s.(queue := s.queue[1..], worker := Saving(s.queue[0], s.worker.Draining?))
    case SaveJob(outcome) =>
      s.(saves := s.saves + [s.worker.id], outcomes := s.outcomes[s.worker.id := outcome],
         replies := s.replies + multiset{s.worker.id}, mail := s.mail[s.worker.id := outcome],
         worker := if s.worker.draining then Draining else Running)
    case StartDrain => s.(worker := Draining)
    case Exit => s.(worker := Exited)
    case Stop => s.(open := false, cancelled := true)
  }

  predicate Fresh(s: State) {
    && (forall i :: 0 <= i < |s.subs| ==> s.subs[i].New?)
    && s == State(s.subs, [], true, false, Running, [], [], map[], multiset{}, map[])
  }

  // ----- what every step keeps -----

  /** What the worker holds in its hands. */
  function Held(w: Worker): seq<nat> {
    if w.Saving? then [w.id] else []
  }

  /** How often a submission stands in the queue or in the worker's hands. */
  function Owed(s: State, id: nat): nat {
    multiset(s.queue)[id] + multiset(Held(s.worker))[id]
  }

  predicate Sound(s: State, id: nat)
    requires id < |s.subs|
  {
    match s.subs[id]
    case New => multiset(s.saves)[id] == 0 && s.replies[id] == 0 && Owed(s, id) == 0
    case Submitting => multiset(s.saves)[id] == 0 && s.replies[id] == 0 && Owed(s, id) == 0 && s.open
    case Direct => multiset(s.saves)[id] == 0 && s.replies[id] == 0 && Owed(s, id) == 0
    case Waiting => Owed(s, id) + s.replies[id] == 1 && multiset(s.saves)[id] == s.replies[id] && Told(s, id)
    case Returned(answer) =>
      && multiset(s.saves)[id] == 1 && s.replies[id] <= 1 && Owed(s, id) == 0
      && id in s.outcomes && s.outcomes[id] == answer
  }

  /** A reply tells what came of the write. */
  predicate Told(s: State, id: nat) {
    s.replies[id] > 0 ==> id in s.mail && id in s.outcomes && s.mail[id] == s.outcomes[id]
  }

  predicate Inv(s: State) {
    && (forall id :: 0 <= id < |s.subs| ==> Sound(s, id))
    && (forall id :: id in s.queue ==> id < |s.subs|)
    && (s.worker.Saving? ==> s.worker.id < |s.subs|)
    && s.cancelled == !s.open
    && (s.worker.Draining? || s.worker.Exited? || (s.worker.Saving? && s.worker.draining) ==> s.cancelled)
    && (s.worker.Exited? ==> s.queue == [])
  }

  lemma TailCounts(queue: seq<nat>)
    requires queue != []
    ensures multiset(queue) == multiset{queue[0]} + multiset(queue[1..])
  {
    assert queue == [queue[0]] + queue[1..];
  }

  lemma TakeKeeps(cap: nat, s: State)
    requires Inv(s) && Enabled(cap, s, Take)
    ensures Inv(Step(cap, s, Take))
  {
    var s' := Step(cap, s, Take);
    TailCounts(s.queue);
    assert s.queue[0] in s.queue;
    assert forall id :: id in s.queue[1..] ==> id in s.queue;
    forall id | 0 <= id < |s'.subs| ensures Sound(s', id) {
      assert Sound(s, id) && Owed(s', id) == Owed(s, id);
    }
  }

  lemma SaveKeeps(cap: nat, s: State, outcome: Outcome)
    requires Inv(s) && Enabled(cap, s, SaveJob(outcome))
    ensures Inv(Step(cap, s, SaveJob(outcome)))
  {
    var s' := Step(cap, s, SaveJob(outcome));
    forall id | 0 <= id < |s'.subs| ensures Sound(s', id) {
      assert Sound(s, id);
    }
  }

  lemma PushKeeps(cap: nat, s: State, id: nat)
    requires Inv(s) && Enabled(cap, s, Push(id))
    ensures Inv(Step(cap, s, Push(id)))
  {
    var s' := Step(cap, s, Push(id));
    assert Sound(s, id);
    forall k | 0 <= k < |s'.subs| ensures Sound(s', k) {
      assert Sound(s, k);
    }
  }

  lemma StepKeeps(cap: nat, s: State, a: Action)
    requires Inv(s) && Enabled(cap, s, a)
    ensures Inv(Step(cap, s, a))
  {
    match a
    case Push(id) => PushKeeps(cap, s, id);
    case Take => TakeKeeps(cap, s);
    case SaveJob(outcome) => SaveKeeps(cap, s, outcome);
    case StartDrain => OthersKeep(cap, s, a);
    case Exit => OthersKeep(cap, s, a);
    case Stop => OthersKeep(cap, s, a);
    case _ => SubmitterKeeps(cap, s, a);
  }

  lemma OthersKeep(cap: nat, s: State, a: Action)
    requires Inv(s) && Enabled(cap, s, a) && (a.StartDrain? || a.Exit? || a.Stop?)
    ensures Inv(Step(cap, s, a))
  {
    var s' := Step(cap, s, a);
    forall k | 0 <= k < |s'.subs| ensures Sound(s', k) {
      assert Sound(s, k);
    }
  }

  lemma SubmitterKeeps(cap: nat, s: State, a: Action)
    requires Inv(s) && Enabled(cap, s, a) && (a.Enter? || a.Fallback? || a.SaveDirect? || a.Receive?)
    ensures Inv(Step(cap, s, a))
  {
    var s' := Step(cap, s, a);
    forall k | 0 <= k < |s'.subs| ensures Sound(s', k) {
      assert Sound(s, k);
    }
  }

  /** Queued jobs are written in the order they were pushed: the queue gives the log its order. */
  ghost predicate Fifo(s: State) {
    QueuedSaves(s.saves, s.pushed) + Held(s.worker) + s.queue == s.pushed
  }

  /** The saves of pushed jobs, in order. */
  function QueuedSaves(saves: seq<nat>, pushed: seq<nat>): seq<nat> {
    if saves == [] then []
    else
      var front := QueuedSaves(saves[..|saves| - 1], pushed);
      if saves[|saves| - 1] in pushed then front + [saves[|saves| - 1]] else front
  }

  lemma QueuedSnoc(saves: seq<nat>, pushed: seq<nat>, id: nat)
    ensures QueuedSaves(saves + [id], pushed) == if id in pushed then QueuedSaves(saves, pushed) + [id] else QueuedSaves(saves, pushed)
  {
    assert (saves + [id])[..|saves|] == saves;
  }

  lemma {:induction false} QueuedMore(saves: seq<nat>, pushed: seq<nat>, id: nat)
    requires id !in saves
    ensures QueuedSaves(saves, pushed + [id]) == QueuedSaves(saves, pushed)
  {
    if saves != [] {
      QueuedMore(saves[..|saves| - 1], pushed, id);
    }
  }

  /** A submission that was pushed waits for the worker or has come back with its reply. */
  predicate PushedOnly(s: State) {
    forall id :: id in s.pushed ==> id < |s.subs| && (s.subs[id].Waiting? || (s.subs[id].Returned? && s.replies[id] == 1))
  }

  lemma PushFifo(cap: nat, s: State, id: nat)
    requires Inv(s) && Fifo(s) && Enabled(cap, s, Push(id))
    ensures Fifo(Step(cap, s, Push(id)))
  {
    assert Sound(s, id);
    QueuedMore(s.saves, s.pushed, id);
    var q := QueuedSaves(s.saves, s.pushed) + Held(s.worker);
    assert q + (s.queue + [id]) == q + s.queue + [id];
  }

  lemma TakeFifo(cap: nat, s: State)
    requires Fifo(s) && Enabled(cap, s, Take)
    ensures Fifo(Step(cap, s, Take))
  {
    var q := QueuedSaves(s.saves, s.pushed);
    assert q + [s.queue[0]] + s.queue[1..] == q + [] + s.queue;
  }

  lemma SaveFifo(cap: nat, s: State, outcome: Outcome)
    requires Fifo(s) && Enabled(cap, s, SaveJob(outcome))
    ensures Fifo(Step(cap, s, SaveJob(outcome)))
  {
    var id := s.worker.id;
    var q := QueuedSaves(s.saves, s.pushed);
    assert s.pushed[|q|] == id;
    QueuedSnoc(s.saves, s.pushed, id);
    assert q + [id] + [] + s.queue == q + [id] + s.queue;
  }

  lemma DirectFifo(cap: nat, s: State, id: nat, outcome: Outcome)
    requires PushedOnly(s) && Fifo(s) && Enabled(cap, s, SaveDirect(id, outcome))
    ensures Fifo(Step(cap, s, SaveDirect(id, outcome)))
  {
    QueuedSnoc(s.saves, s.pushed, id);
  }

  lemma StepPushed(cap: nat, s: State, a: Action)
    requires Inv(s) && PushedOnly(s) && Enabled(cap, s, a)
    ensures PushedOnly(Step(cap, s, a))
  {
    match a
    case SaveJob(_) => assert Sound(s, s.worker.id);
    case Receive(id) => assert Sound(s, id);
    case Push(id) => assert Sound(s, id);
    case _ =>
  }

  /** The other steps touch neither the saves nor the queue nor the worker's hands. */
  lemma OthersFifo(cap: nat, s: State, a: Action)
    requires Fifo(s) && Enabled(cap, s, a)
    requires !a.Push? && !a.Take? && !a.SaveJob? && !a.SaveDirect?
    ensures Fifo(Step(cap, s, a))
  {
    var s' := Step(cap, s, a);
    assert s'.saves == s.saves && s'.pushed == s.pushed && Held(s'.worker) == Held(s.worker) && s'.queue == s.queue;
  }

  lemma StepFifo(cap: nat, s: State, a: Action)
    requires Inv(s) && PushedOnly(s) && Fifo(s) && Enabled(cap, s, a)
    ensures Fifo(Step(cap, s, a))
  {
    match a
    case Push(id) => PushFifo(cap, s, id);
    case Take => TakeFifo(cap, s);
    case SaveJob(outcome) => SaveFifo(cap, s, outcome);
    case SaveDirect(id, outcome) => DirectFifo(cap, s, id, outcome);
    case _ => OthersFifo(cap, s, a);
  }

  ghost predicate Legal(cap: nat, s: State, actions: seq<Action>)
    decreases |actions|
  {
    actions == [] || (Enabled(cap, s, actions[0]) && Legal(cap, Step(cap, s, actions[0]), actions[1..]))
  }

  ghost function Exec(cap: nat, s: State, actions: seq<Action>): State
    requires Legal(cap, s, actions)
    decreases |actions|
  {
    if actions == [] then s else Exec(cap, Step(cap, s, actions[0]), actions[1..])
  }

  lemma {:induction false} RunKeeps(cap: nat, s: State, actions: seq<Action>)
    requires Inv(s) && PushedOnly(s) && Fifo(s) && Legal(cap, s, actions)
    ensures Inv(Exec(cap, s, actions)) && PushedOnly(Exec(cap, s, actions)) && Fifo(Exec(cap, s, actions))
    decreases |actions|
  {
    if actions != [] {
      StepKeeps(cap, s, actions[0]);
      StepPushed(cap, s, actions[0]);
      StepFifo(cap, s, actions[0]);
      RunKeeps(cap, Step(cap, s, actions[0]), actions[1..]);
    }
  }

  lemma {:induction false} Reaches(cap: nat, s: State, actions: seq<Action>) returns (r: State)
    requires Fresh(s) && Legal(cap, s, actions)
    ensures r == Exec(cap, s, actions) && Inv(r) && PushedOnly(r) && Fifo(r)
  {
    RunKeeps(cap, s, actions);
    r := Exec(cap, s, actions);
  }

  /**
   * In every interleaving each submission is written at most once, exactly once when its submitter
   * is back, by the queue or by the submitter itself; a queued one gets exactly one reply, after a
   * panic too, and the answer is what came of that one write.
   */
  lemma SavedExactlyOnce(cap: nat, s: State, actions: seq<Action>, id: nat)
    requires Fresh(s) && Legal(cap, s, actions) && id < |s.subs|
    ensures var r := Exec(cap, s, actions);
            && |r.subs| == |s.subs|
            && multiset(r.saves)[id] <= 1 && r.replies[id] <= 1
            && (r.subs[id].Returned? ==>
                  && multiset(r.saves)[id] == 1 && (id in r.pushed <==> r.replies[id] == 1)
                  && id in r.outcomes && r.subs[id].answer == r.outcomes[id])
  {
    var r := Reaches(cap, s, actions);
    KeepsSubs(cap, s, actions);
    assert Sound(r, id);
    RepliesPushed(cap, s, actions);
  }

  lemma {:induction false} KeepsSubs(cap: nat, s: State, actions: seq<Action>)
    requires Legal(cap, s, actions)
    ensures |Exec(cap, s, actions).subs| == |s.subs|
    decreases |actions|
  {
    if actions != [] {
      KeepsSubs(cap, Step(cap, s, actions[0]), actions[1..]);
    }
  }

  predicate OwedPushed(s: State) {
    && (forall id :: id in s.queue ==> id in s.pushed)
    && (s.worker.Saving? ==> s.worker.id in s.pushed)
    && (forall id :: id in s.replies ==> id in s.pushed)
  }

  lemma {:induction false} RepliesPushed(cap: nat, s: State, actions: seq<Action>)
    requires OwedPushed(s) && Legal(cap, s, actions)
    ensures OwedPushed(Exec(cap, s, actions))
    decreases |actions|
  {
    if actions != [] {
      StepOwedPushed(cap, s, actions[0]);
      RepliesPushed(cap, Step(cap, s, actions[0]), actions[1..]);
    }
  }

  lemma StepOwedPushed(cap: nat, s: State, a: Action)
    requires OwedPushed(s) && Enabled(cap, s, a)
    ensures OwedPushed(Step(cap, s, a))
  {
  }

  /** Once the worker has exited, the queue is empty, nobody waits without a reply, and nobody can queue again. */
  lemma ShutdownDrains(cap: nat, s: State, actions: seq<Action>)
    requires Fresh(s) && Legal(cap, s, actions)
    requires Exec(cap, s, actions).worker.Exited?
    ensures var r := Exec(cap, s, actions);
            && r.queue == []
            && (forall id :: 0 <= id < |r.subs| && r.subs[id].Waiting? ==> r.replies[id] == 1)
            && (forall id :: 0 <= id < |r.subs| ==> !r.subs[id].Submitting?)
            && !r.open
  {
    var r := Reaches(cap, s, actions);
    forall id | 0 <= id < |r.subs| ensures !r.subs[id].Submitting? && (r.subs[id].Waiting? ==> r.replies[id] == 1) {
      assert Sound(r, id);
    }
  }

  /** The writes of queued jobs are a prefix of the jobs in the order they were pushed. */
  lemma SavesInOrder(cap: nat, s: State, actions: seq<Action>)
    requires Fresh(s) && Legal(cap, s, actions)
    ensures var r := Exec(cap, s, actions); QueuedSaves(r.saves, r.pushed) <= r.pushed
    ensures var r := Exec(cap, s, actions); r.worker.Exited? ==> QueuedSaves(r.saves, r.pushed) == r.pushed
  {
    var r := Reaches(cap, s, actions);
    FifoPrefix(QueuedSaves(r.saves, r.pushed), Held(r.worker), r.queue);
    if r.worker.Exited? {
      assert QueuedSaves(r.saves, r.pushed) + [] + [] == QueuedSaves(r.saves, r.pushed);
    }
  }

  lemma FifoPrefix(a: seq<nat>, b: seq<nat>, c: seq<nat>)
    ensures a <= a + b + c
  {
  }

  // ----- progress -----

  function StageRank(stage: Stage): nat {
    match stage
    case New => 6
    case Submitting => 5
    case Direct => 1
    case Waiting => 1
    case Returned(_) => 0
  }

  function Ranks(subs: seq<Stage>): nat {
    if subs == [] then 0 else StageRank(subs[|subs| - 1]) + Ranks(subs[..|subs| - 1])
  }

  function Measure(s: State): nat {
    Ranks(s.subs) + 3 * |s.queue| + (if s.open then 1 else 0)
    + match s.worker
      case Running => 2
      case Saving(_, draining) => 2 + if draining then 1 else 2
      case Draining => 1
      case Exited => 0
  }

  lemma {:induction false} RanksAt(subs: seq<Stage>, id: nat, stage: Stage)
    requires id < |subs|
    ensures Ranks(subs[id := stage]) == Ranks(subs) - StageRank(subs[id]) + StageRank(stage)
  {
    var n := |subs| - 1;
    if id == n {
      assert subs[id := stage][..n] == subs[..n];
    } else {
      assert subs[id := stage][..n] == subs[..n][id := stage];
      RanksAt(subs[..n], id, stage);
    }
  }

  /** Every step brings all submissions, and the shutdown, closer to their end. */
  lemma Advances(cap: nat, s: State, a: Action)
    requires Enabled(cap, s, a)
    ensures Measure(Step(cap, s, a)) < Measure(s)
  {
    match a
    case Enter(id) => RanksAt(s.subs, id, if s.open then Submitting else Direct);
    case Push(id) => RanksAt(s.subs, id, Waiting);
    case Fallback(id) => RanksAt(s.subs, id, Direct);
    case SaveDirect(id, outcome) => RanksAt(s.subs, id, Returned(outcome));
    case Receive(id) => RanksAt(s.subs, id, Returned(s.mail[id]));
    case _ =>
  }

  /** As long as somebody waits or the shutdown is not through, some step can be taken, whatever the contexts do. */
  lemma NeverStuck(cap: nat, s: State, id: nat) returns (a: Action)
    requires cap >= 1 && Inv(s)
    requires (s.cancelled && !s.worker.Exited?) || (id < |s.subs| && !s.subs[id].Returned?)
    ensures Enabled(cap, s, a) && !a.Fallback? && !a.Stop?
  {
    if s.worker.Saving? {
      a := SaveJob(Accepted);
    } else if s.cancelled && !s.worker.Exited? {
      a := if s.worker.Running? then StartDrain else if s.queue == [] then Exit else Take;
    } else {
      assert Sound(s, id);
      match s.subs[id]
      case New => a := Enter(id);
      case Direct => a := SaveDirect(id, Accepted);
      case Submitting => a := if |s.queue| < cap then Push(id) else Take;
      case Waiting =>
        if s.replies[id] > 0 {
          a := Receive(id);
        } else {
          assert multiset(s.queue)[id] > 0;
          a := Take;
        }
    }
  }

  // ----- the queue object -----

  lemma {:induction false} More(cap: nat, s: State, actions: seq<Action>, a: Action)
    requires Legal(cap, s, actions) && Enabled(cap, Exec(cap, s, actions), a)
    ensures Legal(cap, s, actions + [a])
    ensures Exec(cap, s, actions + [a]) == Step(cap, Exec(cap, s, actions), a)
    decreases |actions|
  {
    if actions == [] {
      assert ([a])[1..] == [];
    } else {
      assert (actions + [a])[1..] == actions[1..] + [a];
      More(cap, Step(cap, s, actions[0]), actions[1..], a);
    }
  }

  /**
   * The channel, whether the queue variable is set, the write attempts and the replies, as the
   * source's functions change them. `steps` is the path of the machine that was taken so far.
   */
  class Queue {
    const capacity: nat
    ghost const initial: State
    var jobs: seq<nat>
    var open: bool
    var written: seq<nat>
    var mail: map<nat, Outcome>
    ghost var steps: seq<Action>

    ghost predicate OnPath()
      reads this
    {
      Fresh(initial) && Legal(capacity, initial, steps)
    }

    ghost function View(): State
      requires OnPath()
      reads this
    {
      Exec(capacity, initial, steps)
    }

    /** The object is where the machine is. */
    ghost predicate Agrees()
      reads this
    {
      OnPath() && var s := View(); s.queue == jobs && s.open == open && s.saves == written && s.mail == mail
    }

    ghost predicate Valid()
      reads this
    {
      Agrees() && View().worker == if open then Running else Exited
    }

    constructor (capacity: nat, ghost initial: State)
      requires Fresh(initial)
      ensures Valid() && open && steps == [] && this.capacity == capacity && this.initial == initial
    {
      this.capacity, this.initial := capacity, initial;
      jobs, open, written, mail, steps := [], true, [], map[], [];
    }

    /** Everything proved of the machine's runs holds of the object. */
    lemma OnEveryPath(id: nat)
      requires Agrees() && id < |initial.subs|
      ensures multiset(written)[id] <= 1
      ensures |View().subs| == |initial.subs|
      ensures View().subs[id].Returned? ==> multiset(written)[id] == 1
      ensures QueuedSaves(written, View().pushed) + Held(View().worker) + jobs == View().pushed
    {
      SavedExactlyOnce(capacity, initial, steps, id);
      var _ := Reaches(capacity, initial, steps);
    }

    ghost method Took(a: Action)
      requires OnPath() && Enabled(capacity, View(), a)
      modifies `steps
      ensures steps == old(steps) + [a] && OnPath() && View() == Step(capacity, old(View()), a)
    {
      More(capacity, initial, steps, a);
      steps := steps + [a];
    }

    /** The worker writes one job and replies exactly once: a panic of the write is recovered and becomes the reply. */
    method RunPersistJob(job: nat, outcome: Outcome)
      requires Agrees() && View().worker.Saving? && View().worker.id == job
      modifies `written, `mail, `steps
      ensures Agrees() && steps == old(steps) + [SaveJob(outcome)]
      ensures View() == Step(capacity, old(View()), SaveJob(outcome))
      ensures written == old(written) + [job] && mail == old(mail)[job := outcome]
    {
      Took(SaveJob(outcome));
      written := written + [job];
      if outcome.Panicked? {
        mail := mail[job := Panicked];
        return;
      }
      mail := mail[job := outcome];
    }

    method Enqueue(id: nat)
      requires Valid() && Enabled(capacity, View(), Push(id))
      modifies `jobs, `steps
      ensures Valid() && steps == old(steps) + [Push(id)]
      ensures View() == Step(capacity, old(View()), Push(id))
    {
      Took(Push(id));
      jobs := jobs + [id];
    }

    /** The synchronous write by the submitter. */
    method SaveEventToDBSync(id: nat, outcome: Outcome)
      requires Valid() && Enabled(capacity, View(), SaveDirect(id, outcome))
      modifies `written, `steps
      ensures Valid() && steps == old(steps) + [SaveDirect(id, outcome)]
      ensures View() == Step(capacity, old(View()), SaveDirect(id, outcome))
    {
      Took(SaveDirect(id, outcome));
      written := written + [id];
    }

    /**
     * A submission up to the point where it waits or is over. With a queue, the select pushes the job
     * if there is room or falls back if the context is done; `pushes` is its choice.
     */
    method Submit(id: nat, pushes: bool, outcome: Outcome) returns (queued: bool)
      requires Valid() && id < |View().subs| && View().subs[id].New?
      requires open && pushes ==> |jobs| < capacity
      modifies `jobs, `written, `steps
      ensures Valid() && queued == (open && pushes)
      ensures steps == old(steps) + (if !open then [Enter(id), SaveDirect(id, outcome)]
                                     else if pushes then [Enter(id), Push(id)]
                                     else [Enter(id), Fallback(id), SaveDirect(id, outcome)])
      ensures id < |View().subs| && View().subs[id] == if queued then Waiting else Returned(outcome)
    {
      Took(Enter(id));
      if open && pushes {
        Enqueue(id);
        return true;
      }
      if open {
        Took(Fallback(id));
      }
      SaveEventToDBSync(id, outcome);
      return false;
    }

    /** A submitter that waits takes its reply. */
    method Await(id: nat) returns (answer: Outcome)
      requires Valid() && id < |View().subs| && View().subs[id].Waiting? && View().replies[id] > 0
      modifies `steps
      ensures Valid() && steps == old(steps) + [Receive(id)]
      ensures id < |View().subs| && View().subs[id] == Returned(answer)
      ensures id in View().outcomes && View().outcomes[id] == answer
    {
      var _ := Reaches(capacity, initial, steps);
      assert Sound(View(), id);
      answer := mail[id];
      Took(Receive(id));
    }

    /** One round of the worker's loop, or of its last one that drains the queue. */
    method WorkOne(outcome: Outcome)
      requires Agrees() && (View().worker.Running? || View().worker.Draining?) && jobs != []
      modifies `jobs, `written, `mail, `steps
      ensures Agrees() && View().worker == old(View().worker)
      ensures jobs == old(jobs)[1..] && written == old(written) + [old(jobs)[0]]
      ensures steps == old(steps) + [Take, SaveJob(outcome)]
    {
      var job := jobs[0];
      Took(Take);
      jobs := jobs[1..];
      RunPersistJob(job, outcome);
    }

    /** Shutdown: no new jobs, then the worker drains what is left, in order, one reply each, and exits. */
    method Stop(outcomes: seq<Outcome>)
      requires Valid() && |outcomes| == |jobs|
      requires forall i :: 0 <= i < |View().subs| ==> !View().subs[i].Submitting?
      modifies this
      ensures Valid() && !open && jobs == []
      ensures written == old(written) + old(jobs)
      ensures !old(open) ==> steps == old(steps)
      ensures old(open) ==> old(steps) + [Action.Stop, StartDrain] <= steps && steps[|steps| - 1] == Exit
    {
      if !open {
        var _ := Reaches(capacity, initial, steps);
        return;
      }
      Took(Action.Stop);
      open := false;
      Took(StartDrain);
      var drained := 0;
      while |jobs| > 0
        invariant Agrees() && !open && View().worker.Draining?
        invariant drained + |jobs| == |outcomes| && written + jobs == old(written) + old(jobs)
        invariant old(steps) + [Action.Stop, StartDrain] <= steps
        decreases |jobs|
      {
        WorkOne(outcomes[drained]);
        drained := drained + 1;
      }
      Took(Exit);
    }
  }
}
