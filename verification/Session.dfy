// One session's engine as a state machine: the conversation it holds, the event log it
// emits, and the requests its main loop sends (server/agent/engine.go, Run). What the model
// replies, what tools return, cancellations and restarts are arbitrary inputs to each step.
module Session {
  import opened Conversation
  import opened Compaction
  import opened HistoryFold
  import opened Strings

  /** Where the run stands: between runs, at the loop head, awaiting the reply, in a batch, or on its way out. */
  datatype Phase =
    | Idle
    | Leaving
    | Ready(task: string, afterDraft: bool)
    | Replying(afterDraft: bool)
    | Batch(todo: seq<Call>)

  datatype Waiting = NotWaiting | WaitingOn(run: nat)

  datatype State = State(
    history: seq<Item>, omitted: nat, summary: string, pending: string,
    phase: Phase, waiting: Waiting, run: nat, nextRun: nat,
    log: seq<Event>, sent: seq<seq<Item>>)

  const NEW_SESSION := State([], 0, "", "", Idle, NotWaiting, 0, 1, [], [])

  /** What prepareRequestBundle does under context pressure, if there is any. */
  datatype Pressure = NoPressure | Digest(summary: string) | SummaryFailed

  datatype Closing = Closing(summary: string) | ClosingFailed

  datatype Action =
    | StartRun(text: string)
    | Resume(answer: string)
    | RefuseAnswer(answer: string)
    | Stop
    | Request(pressure: Pressure)
    | FailReply
    | Draft(text: string)
    | RejectFinal(correction: string)
    | Finish(text: string)
    | BadBatch(text: string)
    | CallTools(text: string, calls: seq<Call>)
    | Block(result: string)
    | BadSuspension(result: string)
    | Suspend
    | RunTool(raw: string)
    | CancelInTool
    | CancelAfterTool(raw: string)
    | Finalize(raw: string, closing: Closing)
    | EndBatch
    | Leave
    | Rehydrate(keepWaiting: bool)

  // ----- the pieces of a step -----

  function Emit(s: State, events: seq<Event>): State {
    s.(log := s.log + events)
  }

  function Say(s: State, item: Item): State {
    s.(history := s.history + [item])
  }

  /** Every way out of Run passes through the deferred repair, the step `Leave`. */
  function Exit(s: State): State {
    s.(phase := Leaving)
  }

  /** Run clears an abandoned suspension before anything else. */
  function EnterRun(s: State, task: string): State {
    s.(pending := "", history := Repair(s.history, ""), phase := Ready(task, false))
  }

  function TaskItems(task: string): seq<Item> {
    if task == "" then [] else [User(task)]
  }

  function StatusEvents(text: string): seq<Event> {
    if text == "" then [] else [AssistantStatus(text)]
  }

  predicate Compacts(s: State, p: Pressure) {
    !p.NoPressure? && SelectSpan(s.history).Shadowed() > 0
  }

  function Compacted(s: State, p: Pressure): State {
    if !Compacts(s, p) then s
    else
      var span := SelectSpan(s.history);
      var kept := s.(history := Drop(s.history, span));
      if p.Digest? then
        Emit(kept.(summary := p.summary), [HistoryCompacted(span.pinned, span.Shadowed(), Summarized, p.summary)])
      else
        Emit(kept.(omitted := s.omitted + span.Shadowed()), [HistoryCompacted(span.pinned, span.Shadowed(), Trimmed, "")])
  }

  /** The run-suspending calls of the latest turn that has any. */
  function LatestAsks(history: seq<Item>): seq<Call> {
    if history == [] then []
    else
      var asks := Asks(CallsOf(history[|history| - 1]));
      if asks != [] then asks else LatestAsks(history[..|history| - 1])
  }

  function Asks(calls: seq<Call>): seq<Call> {
    if calls == [] then []
    else (if calls[0].Ask? then [calls[0]] else []) + Asks(calls[1..])
  }

  /** They are those of the last item that has any. */
  lemma {:induction false} LatestAsksByPosition(history: seq<Item>, i: nat)
    requires i < |history| && Asks(CallsOf(history[i])) != []
    requires forall k :: i < k < |history| ==> Asks(CallsOf(history[k])) == []
    ensures LatestAsks(history) == Asks(CallsOf(history[i]))
    decreases |history|
  {
    if i < |history| - 1 {
      LatestAsksByPosition(history[..|history| - 1], i);
    }
  }

  datatype Question = NoQuestion | Question(id: string)

  /** The one suspended call a user's answer belongs to. */
  function OpenQuestion(history: seq<Item>): Question {
    var asks := LatestAsks(history);
    if |asks| == 1 && asks[0].id !in Answered(history) then Question(asks[0].id) else NoQuestion
  }

  predicate ValidBatch(calls: seq<Call>) {
    (exists c :: c in calls && c.Ask?) ==> |calls| == 1
  }

  // ----- the step -----

  predicate Enabled(s: State, a: Action) {
    match a
    case StartRun(text) => s.phase.Idle? && text != ""
    case Resume(_) => s.phase.Idle? && s.waiting.WaitingOn? && OpenQuestion(s.history).Question?
    case RefuseAnswer(_) => s.phase.Idle? && s.waiting.WaitingOn?
    case Stop => s.phase.Ready?
    case Request(p) => s.phase.Ready? && (p.Digest? ==> p.summary != "" && TrimSpace(p.summary) == p.summary)
    case FailReply => s.phase.Replying?
    case Draft(text) => s.phase.Replying? && text != ""
    case RejectFinal(correction) => s.phase.Replying? && !Blank(correction)
    case Finish(text) => s.phase.Replying? && text != ""
    case BadBatch(_) => s.phase.Replying?
    case CallTools(_, calls) => s.phase.Replying? && calls != [] && ValidBatch(calls)
    case Block(_) => s.phase.Batch? && s.phase.todo != []
    case BadSuspension(_) => s.phase.Batch? && s.phase.todo != [] && s.phase.todo[0].Ask?
    case Suspend => s.phase.Batch? && s.phase.todo != [] && s.phase.todo[0].Ask?
    case RunTool(_) => s.phase.Batch? && s.phase.todo != [] && s.phase.todo[0].Call?
    case CancelInTool => s.phase.Batch? && s.phase.todo != [] && s.phase.todo[0].Call?
    case CancelAfterTool(_) => s.phase.Batch? && s.phase.todo != [] && s.phase.todo[0].Call?
    case Finalize(_, closing) =>
      s.phase.Batch? && s.phase.todo != [] && s.phase.todo[0].Call? && (closing.Closing? ==> !Blank(closing.summary))
    case EndBatch => s.phase.Batch? && s.phase.todo == []
    case Leave => s.phase.Leaving?
    case Rehydrate(_) => true
  }

  /** Answers the next call of the batch, in the history and in the log. */
  function Settle(s: State, content: Content, events: seq<Event>): State
    requires s.phase.Batch? && s.phase.todo != []
  {
    Emit(Say(s, Tool(s.phase.todo[0].id, content)), events).(phase := Batch(s.phase.todo[1..]))
  }

  /** The history goes out, compacted if need be, and only then takes up the user's turn. */
  function Requested(s: State, ready: State, compacted: bool): State
    requires s.phase.Ready?
  {
    ready.(sent := s.sent + [ready.history],
           history := ready.history + TaskItems(s.phase.task),
           phase := Replying(s.phase.afterDraft && !compacted))
  }

  function Step(keep: Keep, s: State, a: Action): State
    requires Enabled(s, a)
  {
    match a
    case StartRun(text) =>
      EnterRun(Emit(s.(run := s.nextRun, nextRun := s.nextRun + 1, waiting := NotWaiting),
                    [UserMessage(s.nextRun, text)]), text)
    case Resume(answer) =>
      var answered := Say(s.(run := s.waiting.run, waiting := NotWaiting),
                          Tool(OpenQuestion(s.history).id, Answer(answer)));
      EnterRun(Emit(answered, [UserMessage(s.waiting.run, answer)]), "")
    case RefuseAnswer(answer) => Emit(s, [UserMessage(s.waiting.run, answer)])
    case Stop => Exit(Emit(s, [RunStopped]))
    case Request(p) => Requested(s, Compacted(s, p), Compacts(s, p))
    case FailReply => Exit(Emit(s, [RunStopped]))
    case Draft(text) => Emit(Say(s, Assistant(text, [])), [AssistantStatus(text)]).(phase := Ready("", true))
    case RejectFinal(correction) =>
      Emit(Say(s, User(correction)), [SystemFeedback(correction)]).(phase := Ready("", false))
    case Finish(text) => Exit(Emit(Say(s, Assistant(text, [])), [RunCompleted(text)]))
    case BadBatch(text) => Exit(Emit(s, StatusEvents(text) + [RunStopped]))
    case CallTools(text, calls) => Emit(Say(s, Assistant(text, calls)), StatusEvents(text)).(phase := Batch(calls))
    case Block(result) =>
      var c := s.phase.todo[0];
      Settle(s, Text(result), [ToolCall(c), Other, ToolResult(c.id, NameOf(c), result)])
    case BadSuspension(result) =>
      var c := s.phase.todo[0];
      Settle(s, Text(result), [ToolResult(c.id, NameOf(c), result)])
    case Suspend =>
      var id := s.phase.todo[0].id;
      Exit(Emit(s.(pending := id, waiting := WaitingOn(s.run)), [UserRequestInput(s.run, id)]))
    case RunTool(raw) =>
      var c := s.phase.todo[0];
      Settle(s, Text(keep(NameOf(c), raw)), [ToolCall(c), ToolResult(c.id, NameOf(c), raw)])
    case CancelInTool => Exit(Emit(s, [ToolCall(s.phase.todo[0]), RunStopped]))
    case CancelAfterTool(raw) =>
      var c := s.phase.todo[0];
      Exit(Emit(s, [ToolCall(c), ToolResult(c.id, NameOf(c), raw), RunStopped]))
    case Finalize(raw, closing) =>
      var c := s.phase.todo[0];
      var done := Settle(s, Text(keep(NameOf(c), raw)), [ToolCall(c), ToolResult(c.id, NameOf(c), raw)]);
      if closing.Closing? then Exit(Emit(Say(done, Assistant(closing.summary, [])), [RunCompleted(closing.summary)]))
      else Exit(Emit(done, [RunStopped]))
    case EndBatch => s.(phase := Ready("", false))
    case Leave => s.(history := Repair(s.history, s.pending), phase := Idle)
    case Rehydrate(keepWaiting) =>
      var r := Rebuild(keep, s.log);
      s.(history := r.items, omitted := r.omitted, summary := TrimSpace(r.summary), pending := "",
         phase := Idle, waiting := if keepWaiting then s.waiting else NotWaiting)
  }

  ghost predicate Legal(keep: Keep, s: State, actions: seq<Action>)
    decreases |actions|
  {
    actions == [] || (Enabled(s, actions[0]) && Legal(keep, Step(keep, s, actions[0]), actions[1..]))
  }

  /** The state after a whole run of steps. */
  ghost function Exec(keep: Keep, s: State, actions: seq<Action>): State
    requires Legal(keep, s, actions)
    decreases |actions|
  {
    if actions == [] then s else Exec(keep, Step(keep, s, actions[0]), actions[1..])
  }

  lemma {:induction false} ExecSnoc(keep: Keep, s: State, actions: seq<Action>, a: Action)
    requires Legal(keep, s, actions) && Enabled(Exec(keep, s, actions), a)
    ensures Legal(keep, s, actions + [a])
    ensures Exec(keep, s, actions + [a]) == Step(keep, Exec(keep, s, actions), a)
    decreases |actions|
  {
    if actions == [] {
      assert [a][1..] == [];
    } else {
      assert (actions + [a])[1..] == actions[1..] + [a];
      ExecSnoc(keep, Step(keep, s, actions[0]), actions[1..], a);
    }
  }

  // ----- every request is paired -----

  /** The history ends in a turn whose first calls are answered and whose todo calls are not yet. */
  ghost predicate OpenAs(history: seq<Item>, todo: seq<Call>, before: seq<Item>, text: string, done: seq<Call>, results: seq<Item>) {
    && history == before + [Assistant(text, done + todo)] + results
    && Paired(before, "")
    && AllTools(results)
    && Answered(results) == IdsOf(done)
    && done + todo != []
  }

  ghost predicate OpenBatch(history: seq<Item>, todo: seq<Call>) {
    exists before, text, done, results :: OpenAs(history, todo, before, text, done, results)
  }

  ghost predicate PairInv(s: State) {
    && (forall i :: 0 <= i < |s.sent| ==> Paired(s.sent[i], ""))
    && match s.phase
       case Idle => true
       case Leaving => true
       case Ready(_, _) => Paired(s.history, "")
       case Replying(_) => Paired(s.history, "")
       case Batch(todo) => OpenBatch(s.history, todo)
  }

  lemma PairedSay(history: seq<Item>, item: Item)
    requires Paired(history, "") && !item.Tool? && CallsOf(item) == []
    ensures Paired(history + [item], "")
  {
    PairedTurn(item, [], [], "");
    assert [item] + [] + [] == [item];
    PairedConcat(history, [item], "");
  }

  lemma OpenTurnPaired(history: seq<Item>, todo: seq<Call>, before: seq<Item>, text: string, done: seq<Call>, results: seq<Item>)
    requires OpenAs(history, todo, before, text, done, results)
    ensures Paired(history, "") <==> forall c :: c in todo ==> c.id in IdsOf(done)
  {
    var head := Assistant(text, done + todo);
    assert history == before + ([head] + results + []);
    PairedTurn(head, results, [], "");
    PairedConcat(before, [head] + results + [], "");
    assert forall c :: c in done + todo <==> c in done || c in todo;
  }

  lemma OpenBatchStarts(history: seq<Item>, text: string, calls: seq<Call>)
    requires Paired(history, "") && calls != []
    ensures OpenBatch(history + [Assistant(text, calls)], calls)
  {
    assert [] + calls == calls;
    assert history + [Assistant(text, calls)] + [] == history + [Assistant(text, calls)];
    assert OpenAs(history + [Assistant(text, calls)], calls, history, text, [], []);
  }

  lemma OpenBatchSettles(history: seq<Item>, todo: seq<Call>, content: Content)
    requires OpenBatch(history, todo) && todo != []
    ensures OpenBatch(history + [Tool(todo[0].id, content)], todo[1..])
  {
    var before, text, done, results :| OpenAs(history, todo, before, text, done, results);
    var t := Tool(todo[0].id, content);
    assert done + todo == (done + [todo[0]]) + todo[1..];
    AnsweredConcat(results, [t]);
    assert IdsOf(done + [todo[0]]) == IdsOf(done) + {todo[0].id};
    assert OpenAs(history + [t], todo[1..], before, text, done + [todo[0]], results + [t]);
  }

  lemma OpenBatchEnds(history: seq<Item>)
    requires OpenBatch(history, [])
    ensures Paired(history, "")
  {
    var before, text, done, results :| OpenAs(history, [], before, text, done, results);
    OpenTurnPaired(history, [], before, text, done, results);
  }

  lemma CompactedPairs(s: State, p: Pressure)
    requires Paired(s.history, "")
    ensures Paired(Compacted(s, p).history, "")
  {
    if Compacts(s, p) {
      CompactionKeepsPairs(s.history);
      assert Compacted(s, p).history == Drop(s.history, SelectSpan(s.history));
    }
  }

  lemma TaskPairs(history: seq<Item>, task: string)
    requires Paired(history, "")
    ensures Paired(history + TaskItems(task), "")
  {
    if task == "" {
      assert history + [] == history;
    } else {
      PairedSay(history, User(task));
    }
  }

  lemma StepKeepsPairs(keep: Keep, s: State, a: Action)
    requires Enabled(s, a) && PairInv(s)
    ensures PairInv(Step(keep, s, a))
  {
    match a
    case StartRun(_) => RepairPairs(s.history, "");
    case Resume(_) => RepairPairs(Say(s, Tool(OpenQuestion(s.history).id, Answer(a.answer))).history, "");
    case Request(p) => {
      CompactedPairs(s, p);
      TaskPairs(Compacted(s, p).history, s.phase.task);
    }
    case Draft(text) => PairedSay(s.history, Assistant(text, []));
    case RejectFinal(correction) => PairedSay(s.history, User(correction));
    case CallTools(text, calls) => OpenBatchStarts(s.history, text, calls);
    case Block(result) => OpenBatchSettles(s.history, s.phase.todo, Text(result));
    case BadSuspension(result) => OpenBatchSettles(s.history, s.phase.todo, Text(result));
    case RunTool(raw) => OpenBatchSettles(s.history, s.phase.todo, Text(keep(NameOf(s.phase.todo[0]), raw)));
    case EndBatch => OpenBatchEnds(s.history);
    case _ =>
  }

  /**
   * Over every run of steps, from any starting history whatever, every request of the main loop
   * carries a paired conversation: cancellations, errors, suspensions, compactions, restarts included.
   */
  lemma {:induction false} RequestsPaired(keep: Keep, s: State, actions: seq<Action>)
    requires PairInv(s) && Legal(keep, s, actions)
    ensures PairInv(Exec(keep, s, actions))
    ensures forall r :: r in Exec(keep, s, actions).sent ==> Paired(r, "")
    decreases |actions|
  {
    if actions != [] {
      StepKeepsPairs(keep, s, actions[0]);
      RequestsPaired(keep, Step(keep, s, actions[0]), actions[1..]);
    }
  }

  /** When no run is on, the history is paired but for the call the last run suspended on. */
  lemma LeavePairs(keep: Keep, s: State)
    requires Enabled(s, Leave)
    ensures Paired(Step(keep, s, Leave).history, s.pending)
  {
    RepairPairs(s.history, s.pending);
  }

  /** The request for the closing summary is built right after the finalize call's result. */
  function ClosingRequest(keep: Keep, s: State, raw: string): seq<Item>
    requires s.phase.Batch? && s.phase.todo != []
  {
    var c := s.phase.todo[0];
    s.history + [Tool(c.id, Text(keep(NameOf(c), raw)))]
  }

  /**
   * That request is built in the middle of a batch. With distinct call ids it is paired exactly
   * when the finalize call is the last of its batch.
   */
  lemma ClosingRequestPaired(keep: Keep, s: State, raw: string, before: seq<Item>, text: string, done: seq<Call>, results: seq<Item>)
    requires s.phase.Batch? && s.phase.todo != []
    requires OpenAs(s.history, s.phase.todo, before, text, done, results)
    requires forall i, j :: 0 <= i < j < |done + s.phase.todo| ==> (done + s.phase.todo)[i].id != (done + s.phase.todo)[j].id
    ensures Paired(ClosingRequest(keep, s, raw), "") <==> |s.phase.todo| == 1
  {
    var todo := s.phase.todo;
    var calls := done + todo;
    var t := Tool(todo[0].id, Text(keep(NameOf(todo[0]), raw)));
    var done' := done + [todo[0]];
    assert calls == done' + todo[1..];
    AnsweredConcat(results, [t]);
    assert IdsOf(done') == IdsOf(done) + {todo[0].id};
    assert OpenAs(s.history + [t], todo[1..], before, text, done', results + [t]);
    OpenTurnPaired(s.history + [t], todo[1..], before, text, done', results + [t]);
    if |todo| > 1 {
      assert todo[1] in todo[1..] && calls[|done| + 1] == todo[1];
      forall c | c in done' ensures c.id != todo[1].id {
        var i :| 0 <= i < |done'| && done'[i] == c;
        assert calls[i] == c;
      }
      assert todo[1].id !in IdsOf(done');
    }
  }
}
