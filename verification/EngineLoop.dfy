// The engine object of one session, with the fields its methods update in place
// (server/agent/engine.go, compaction.go). Every public method is proved to take a legal path of
// the session's state machine, so what is proved of all paths holds of every engine.
module EngineLoop {
  import opened Conversation
  import opened Compaction
  import opened HistoryFold
  import opened Session
  import opened RunPath
  import opened RunMeaning
  import opened Strings

  // ----- the loops of ProvideAskUserResult -----

  method AsksOf(calls: seq<Call>) returns (asks: seq<Call>)
    ensures asks == Asks(calls)
  {
    asks := [];
    for i := 0 to |calls|
      invariant asks + Asks(calls[i..]) == Asks(calls)
    {
      assert calls[i..][1..] == calls[i + 1..];
      if calls[i].Ask? {
        asks := asks + [calls[i]];
      }
    }
  }

  method FindPending(history: seq<Item>) returns (pending: seq<Call>)
    ensures pending == LatestAsks(history)
  {
    var i := |history|;
    assert history[..i] == history;
    while i > 0
      invariant 0 <= i <= |history| && LatestAsks(history) == LatestAsks(history[..i])
    {
      i := i - 1;
      assert history[..i + 1][..i] == history[..i];
      pending := AsksOf(CallsOf(history[i]));
      if |pending| > 0 {
        return;
      }
    }
    return [];
  }

  method HasResult(history: seq<Item>, id: string) returns (found: bool)
    ensures found <==> id in Answered(history)
  {
    var j := |history|;
    while j > 0
      invariant 0 <= j <= |history|
      invariant forall k :: j <= k < |history| && history[k].Tool? ==> history[k].callId != id
    {
      j := j - 1;
      if history[j].Tool? && history[j].callId == id {
        return true;
      }
    }
    return false;
  }

  /** When an answer is taken: an authenticated actor, one open question, and a decision if one is asked for. */
  predicate Taken(history: seq<Item>, actor: string, decided: bool) {
    actor != "" && TrimSpace(actor) == actor && OpenQuestion(history).Question? && decided
  }

  class Engine {
    const keep: Keep
    var history: seq<Item>
    var omittedHistoryMessages: nat
    var historySummary: string
    var pendingSuspensionID: string
    // The handler's side: the persisted events, and which run waits for the user.
    var log: seq<Event>
    var waiting: Waiting
    var run: nat
    var nextRun: nat
    // Where the run stands, the requests sent so far, and the steps taken since the session began.
    ghost var phase: Phase
    ghost var sent: seq<seq<Item>>
    ghost var steps: seq<Action>

    ghost function View(): State
      reads this
    {
      State(history, omittedHistoryMessages, historySummary, pendingSuspensionID, phase, waiting, run, nextRun, log, sent)
    }

    /**
     * The engine is where its steps lead from a new session. Stated of every x equal to the steps, so
     * that a proof unfolds it only on demand.
     */
    ghost predicate Valid()
      reads this
    {
      forall x | x == steps :: Legal(keep, NEW_SESSION, x) && View() == Exec(keep, NEW_SESSION, x)
    }

    constructor (keep: Keep)
      ensures Valid() && steps == [] && phase.Idle? && this.keep == keep
    {
      this.keep := keep;
      history, omittedHistoryMessages, historySummary, pendingSuspensionID := [], 0, "", "";
      log, waiting, run, nextRun := [], NotWaiting, 0, 1;
      phase, sent, steps := Idle, [], [];
    }

    /** Where the steps lead. */
    ghost predicate LedTo(s: State)
      reads this
    {
      Legal(keep, NEW_SESSION, steps) && s == Exec(keep, NEW_SESSION, steps)
    }

    /** Records that the fields now stand where the step leads. */
    ghost method Took(before: State, a: Action)
      requires LedTo(before)
      requires Enabled(before, a) && View() == Step(keep, before, a)
      modifies `steps
      ensures Valid() && steps == old(steps) + [a]
    {
      ExecSnoc(keep, NEW_SESSION, steps, a);
      steps := steps + [a];
    }

    method Emit(e: Event)
      modifies `log
      ensures log == old(log) + [e]
    {
      log := log + [e];
    }

    method Append(item: Item)
      modifies `history
      ensures history == old(history) + [item]
    {
      history := history + [item];
    }

    method RepairDanglingToolCalls()
      modifies `history
      ensures history == Repair(old(history), pendingSuspensionID)
      ensures Paired(history, pendingSuspensionID)
    {
      history := RepairToolPairing(history, pendingSuspensionID);
    }

    method ClearAbandonedSuspension()
      modifies `history, `pendingSuspensionID
      ensures pendingSuspensionID == "" && history == Repair(old(history), "")
      ensures Paired(history, "")
    {
      pendingSuspensionID := "";
      history := RepairToolPairing(history, "");
    }

    /** Replaces history[pinned..pinned + count]; without a digest the items count as omitted. */
    method ApplyCompaction(count: int, pinned: int, summary: string)
      modifies `history, `omittedHistoryMessages, `historySummary
      ensures if count <= 0 || pinned < 0 || pinned + count > |old(history)| then unchanged(this) else
        && history == old(history)[..pinned] + old(history)[pinned + count..]
        && |history| == |old(history)| - count
        && (Blank(summary) ==> omittedHistoryMessages == old(omittedHistoryMessages) + count && historySummary == old(historySummary))
        && (!Blank(summary) ==> omittedHistoryMessages == old(omittedHistoryMessages) && historySummary == summary)
    {
      if count <= 0 || pinned < 0 || pinned + count > |history| {
        return;
      }
      history := history[..pinned] + history[pinned + count..];
      if Blank(summary) {
        omittedHistoryMessages := omittedHistoryMessages + count;
        return;
      }
      historySummary := summary;
    }

    /** Compacts under pressure, then sends the history as the request's conversation. */
    method PrepareRequestBundle(pressure: Pressure) returns (bundle: seq<Item>)
      requires pressure.Digest? ==> pressure.summary != "" && TrimSpace(pressure.summary) == pressure.summary
      modifies `history, `omittedHistoryMessages, `historySummary, `log
      ensures View() == Compacted(old(View()), pressure) && bundle == history
    {
      if !pressure.NoPressure? {
        ghost var span := SelectSpan(history);
        var _, shadowed, pinned := SelectCompactionSpan(history);
        if shadowed > 0 {
          assert pinned == span.pinned && pinned + shadowed == span.end;
          var digest := if pressure.Digest? then pressure.summary else "";
          ApplyCompaction(shadowed, pinned, digest);
          assert history == Drop(old(history), span);
          Emit(HistoryCompacted(pinned, shadowed, if pressure.Digest? then Summarized else Trimmed, digest));
        }
      }
      return history;
    }

    /**
     * Injects the user's answer as the result of the one suspended call, if there is one. An
     * authorization the call asks for must be `decided` by the answer, with a readable payload.
     */
    method ProvideAskUserResult(answer: string, actor: string, decided: bool) returns (ok: bool)
      modifies `history
      ensures ok == Taken(old(history), actor, decided)
      ensures ok <==>
                && actor != "" && TrimSpace(actor) == actor && decided
                && |LatestAsks(old(history))| == 1 && LatestAsks(old(history))[0].id !in Answered(old(history))
      ensures ok ==> OpenQuestion(old(history)).id == LatestAsks(old(history))[0].id
      ensures ok ==> history == old(history) + [Tool(OpenQuestion(old(history)).id, Answer(answer))]
      ensures !ok ==> history == old(history)
    {
      if actor == "" || actor != TrimSpace(actor) {
        return false;
      }
      var pending := FindPending(history);
      if |pending| != 1 {
        return false;
      }
      var answered := HasResult(history, pending[0].id);
      if answered || !decided {
        return false;
      }
      history := history + [Tool(pending[0].id, Answer(answer))];
      return true;
    }

    /** Records a refused call without running it. */
    method BlockToolCall(call: Call, result: string)
      requires Valid() && phase.Batch? && phase.todo != [] && phase.todo[0] == call
      modifies this
      ensures Valid() && steps == old(steps) + [Block(result)] && phase == Batch(old(phase.todo)[1..])
    {
      ghost var before := View();
      Emit(ToolCall(call));
      Emit(Other);
      Emit(ToolResult(call.id, NameOf(call), result));
      Append(Tool(call.id, Text(result)));
      phase := Batch(phase.todo[1..]);
      assert log == before.log + [ToolCall(call), Other, ToolResult(call.id, NameOf(call), result)];
      Took(before, Block(result));
    }

    /** The call stays unanswered until the user replies, unless its arguments are invalid. */
    method SuspendOn(call: Call, outcome: Outcome) returns (over: bool)
      requires Valid() && phase.Batch? && phase.todo != [] && phase.todo[0] == call && call.Ask?
      modifies this
      requires !outcome.Refused?
      ensures Valid() && steps == old(steps) + [CallStep(call, outcome)] && over == EndsRun(CallStep(call, outcome))
      ensures phase == if over then Leaving else Batch(old(phase.todo)[1..])
    {
      ghost var before := View();
      if outcome.InvalidArguments? {
        Emit(ToolResult(call.id, NameOf(call), outcome.result));
        Append(Tool(call.id, Text(outcome.result)));
        phase := Batch(phase.todo[1..]);
        Took(before, BadSuspension(outcome.result));
        return false;
      }
      pendingSuspensionID := call.id;
      Emit(UserRequestInput(run, call.id));
      waiting, phase := WaitingOn(run), Leaving;
      Took(before, Suspend);
      return true;
    }

    /** The run was cancelled around the call: its result, logged or not, is dropped. */
    method CancelCall(call: Call, outcome: Outcome)
      requires Valid() && phase.Batch? && phase.todo != [] && phase.todo[0] == call && call.Call?
      requires outcome.Cancelled? || outcome.CancelledLate?
      modifies this
      ensures Valid() && phase.Leaving? && steps == old(steps) + [CallStep(call, outcome)]
    {
      ghost var before := View();
      Emit(ToolCall(call));
      if outcome.CancelledLate? {
        Emit(ToolResult(call.id, NameOf(call), outcome.raw));
      }
      Emit(RunStopped);
      phase := Leaving;
      if outcome.Cancelled? {
        assert log == before.log + [ToolCall(call), RunStopped];
        Took(before, CancelInTool);
      } else {
        assert log == before.log + [ToolCall(call), ToolResult(call.id, NameOf(call), outcome.raw), RunStopped];
        Took(before, CancelAfterTool(outcome.raw));
      }
    }

    method RecordResult(call: Call, raw: string)
      modifies `log, `history
      ensures log == old(log) + [ToolCall(call), ToolResult(call.id, NameOf(call), raw)]
      ensures history == old(history) + [Tool(call.id, Text(keep(NameOf(call), raw)))]
    {
      Emit(ToolCall(call));
      Emit(ToolResult(call.id, NameOf(call), raw));
      Append(Tool(call.id, Text(keep(NameOf(call), raw))));
    }

    /** The call returned; after a delivered report the closing summary ends the run. */
    method TakeResult(call: Call, outcome: Outcome) returns (over: bool)
      requires Valid() && phase.Batch? && phase.todo != [] && phase.todo[0] == call && call.Call?
      requires outcome.Returned? || outcome.Delivered? || outcome.InvalidArguments?
      modifies this
      ensures Valid() && steps == old(steps) + [CallStep(call, outcome)] && over == EndsRun(CallStep(call, outcome))
      ensures phase == if over then Leaving else Batch(old(phase.todo)[1..])
    {
      ghost var before := View();
      var raw := if outcome.InvalidArguments? then outcome.result else outcome.raw;
      RecordResult(call, raw);
      if outcome.Delivered? {
        var closing := AsClosing(outcome.closing);
        if closing.Closing? {
          Append(Assistant(closing.summary, []));
          Emit(RunCompleted(closing.summary));
        } else {
          Emit(RunStopped);
        }
        phase := Leaving;
        Took(before, Finalize(raw, closing));
        return true;
      }
      phase := Batch(phase.todo[1..]);
      Took(before, RunTool(raw));
      return false;
    }

    /** One call of the batch, refused, suspended on, cancelled or run. */
    method TakeCall(call: Call, outcome: Outcome) returns (over: bool)
      requires Valid() && phase.Batch? && phase.todo != [] && phase.todo[0] == call
      modifies this
      ensures Valid() && steps == old(steps) + [CallStep(call, outcome)] && over == EndsRun(CallStep(call, outcome))
      ensures phase == if over then Leaving else Batch(old(phase.todo)[1..])
    {
      if outcome.Refused? {
        BlockToolCall(call, outcome.result);
        return false;
      }
      if call.Ask? {
        over := SuspendOn(call, outcome);
      } else if outcome.Cancelled? || outcome.CancelledLate? {
        CancelCall(call, outcome);
        over := true;
      } else {
        over := TakeResult(call, outcome);
      }
    }

    /** The loop over a batch. It returns whether the run is over. */
    method RunBatch(calls: seq<Call>, outcomes: seq<Outcome>) returns (over: bool)
      requires Valid() && phase == Batch(calls)
      modifies this
      ensures Valid() && over == BatchPath(calls, outcomes, 0).1
      ensures steps == old(steps) + BatchPath(calls, outcomes, 0).0
      ensures phase == if over then Leaving else Batch([])
    {
      assert calls[0..] == calls;
      for j := 0 to |calls|
        invariant Valid() && phase == Batch(calls[j..])
        invariant steps + BatchPath(calls, outcomes, j).0 == old(steps) + BatchPath(calls, outcomes, 0).0
        invariant BatchPath(calls, outcomes, j).1 == BatchPath(calls, outcomes, 0).1
      {
        assert calls[j..][0] == calls[j] && calls[j..][1..] == calls[j + 1..];
        Regroup(steps, [CallStep(calls[j], OutcomeOf(outcomes, j))], BatchPath(calls, outcomes, j + 1).0);
        over := TakeCall(calls[j], OutcomeOf(outcomes, j));
        if over {
          return;
        }
      }
      return false;
    }

    method CheckBatch(calls: seq<Call>) returns (ok: bool)
      ensures ok <==> ValidBatch(calls)
    {
      var suspending := 0;
      for i := 0 to |calls|
        invariant suspending > 0 <==> exists k :: 0 <= k < i && calls[k].Ask?
      {
        if calls[i].Ask? {
          suspending := suspending + 1;
        }
      }
      assert (exists c :: c in calls && c.Ask?) <==> exists k :: 0 <= k < |calls| && calls[k].Ask?;
      return !(suspending > 0 && |calls| != 1);
    }

    /** The draft of an unfinished report: the run goes on. */
    method KeepDraft(text: string)
      requires Valid() && phase.Replying? && text != ""
      modifies this
      ensures Valid() && steps == old(steps) + [Draft(text)] && phase == Ready("", true)
    {
      ghost var before := View();
      Append(Assistant(text, []));
      Emit(AssistantStatus(text));
      phase := Ready("", true);
      Took(before, Draft(text));
    }

    /** Leaked markup: the model is asked again. */
    method AskAgain()
      requires Valid() && phase.Replying?
      modifies this
      ensures Valid() && steps == old(steps) + [RejectFinal(CORRECTION)] && phase == Ready("", false)
    {
      ghost var before := View();
      CorrectionShows();
      Append(User(CORRECTION));
      Emit(SystemFeedback(CORRECTION));
      phase := Ready("", false);
      Took(before, RejectFinal(CORRECTION));
    }

    /** The final answer. */
    method CompleteRun(text: string)
      requires Valid() && phase.Replying? && text != ""
      modifies this
      ensures Valid() && steps == old(steps) + [Finish(text)] && phase.Leaving?
    {
      ghost var before := View();
      Append(Assistant(text, []));
      Emit(RunCompleted(text));
      phase := Leaving;
      Took(before, Finish(text));
    }

    /** A reply of text alone: a draft of an unfinished report, leaked markup, or the final answer. */
    method TakeText(text: string, unfinishedReport: bool, rawMarkup: bool, rejects: nat) returns (over: bool, rejected: nat)
      requires Valid() && phase.Replying? && text != ""
      modifies this
      ensures Valid() && steps == old(steps) + ReplyPath(Reply(text, [], unfinishedReport, rawMarkup, []), rejects).0
      ensures over == ReplyPath(Reply(text, [], unfinishedReport, rawMarkup, []), rejects).1
      ensures rejected == ReplyPath(Reply(text, [], unfinishedReport, rawMarkup, []), rejects).2
      ensures if over then phase.Leaving? else phase.Ready? && phase.task == ""
    {
      if unfinishedReport {
        KeepDraft(text);
        return false, rejects;
      }
      if rawMarkup && rejects < 2 {
        AskAgain();
        return false, rejects + 1;
      }
      CompleteRun(text);
      return true, rejects;
    }

    /** A reply with calls: it is logged, checked, recorded, and its batch is run. */
    method TakeCalls(text: string, calls: seq<Call>, outcomes: seq<Outcome>) returns (over: bool)
      requires Valid() && phase.Replying? && calls != []
      modifies this
      ensures Valid() && over == (ValidBatch(calls) ==> BatchPath(calls, outcomes, 0).1)
      ensures steps == old(steps) + if ValidBatch(calls) then [CallTools(text, calls)] + BatchPath(calls, outcomes, 0).0 else [BadBatch(text)]
      ensures if over then phase.Leaving? else phase == Batch([])
    {
      ghost var before := View();
      if text != "" {
        Emit(AssistantStatus(text));
      }
      assert log == before.log + StatusEvents(text);
      var valid := CheckBatch(calls);
      if !valid {
        Emit(RunStopped);
        phase := Leaving;
        assert log == before.log + (StatusEvents(text) + [RunStopped]);
        Took(before, BadBatch(text));
        return true;
      }
      Append(Assistant(text, calls));
      phase := Batch(calls);
      Took(before, CallTools(text, calls));
      over := RunBatch(calls, outcomes);
      Regroup(old(steps), [CallTools(text, calls)], BatchPath(calls, outcomes, 0).0);
    }

    /** Handles one reply. It returns whether the run is over and the markup rejections so far. */
    method TakeReply(reply: Reply, rejects: nat) returns (over: bool, rejected: nat)
      requires Valid() && phase.Replying?
      modifies this
      ensures Valid() && steps == old(steps) + ReplyPath(reply, rejects).0
      ensures over == ReplyPath(reply, rejects).1 && rejected == ReplyPath(reply, rejects).2
      ensures Replied(keep, old(View()), reply, rejects, View(), over, rejected)
      ensures if over then phase.Leaving? else phase.Ready? && phase.task == ""
    {
      ghost var taken, before := steps, View();
      assert LedTo(before);
      over, rejected := HandleReply(reply, rejects);
      assert LedTo(View());
      RepliedSince(keep, taken, before, View(), reply, rejects);
    }

    method HandleReply(reply: Reply, rejects: nat) returns (over: bool, rejected: nat)
      requires Valid() && phase.Replying?
      modifies this
      ensures Valid() && steps == old(steps) + ReplyPath(reply, rejects).0
      ensures over == ReplyPath(reply, rejects).1 && rejected == ReplyPath(reply, rejects).2
      ensures if over then phase.Leaving? else phase.Ready? && phase.task == ""
    {
      ghost var before := View();
      if reply.NoReply? || (reply.text == "" && reply.calls == []) {
        Emit(RunStopped);
        phase := Leaving;
        Took(before, FailReply);
        return true, rejects;
      }
      if reply.calls == [] {
        over, rejected := TakeText(reply.text, reply.unfinishedReport, reply.rawMarkup, rejects);
        return;
      }
      rejected := rejects;
      over := TakeCalls(reply.text, reply.calls, reply.outcomes);
      if !over {
        before := View();
        phase := Ready("", false);
        Took(before, EndBatch);
      }
      ghost var batch := BatchPath(reply.calls, reply.outcomes, 0).0;
      Regroup(old(steps), [CallTools(reply.text, reply.calls)] + batch, if over then [] else [EndBatch]);
    }

    method EnterTask(task: string)
      modifies `history
      ensures history == old(history) + TaskItems(task)
    {
      if task != "" {
        Append(User(task));
      }
    }

    /** The bundle goes out, then the user's turn, if new, enters the history. */
    method PutOut(task: string, bundle: seq<Item>, ghost afterDraft: bool)
      modifies `history, `phase, `sent
      ensures View() == old(View()).(sent := old(sent) + [bundle], history := old(history) + TaskItems(task), phase := Replying(afterDraft))
    {
      sent := sent + [bundle];
      EnterTask(task);
      phase := Replying(afterDraft);
    }

    /** One request: the history, compacted under pressure, is sent. */
    method PutRequest(task: string, pressure: Pressure)
      requires phase.Ready? && phase.task == task
      requires pressure.Digest? ==> pressure.summary != "" && TrimSpace(pressure.summary) == pressure.summary
      modifies `history, `omittedHistoryMessages, `historySummary, `log, `phase, `sent
      ensures View() == Requested(old(View()), Compacted(old(View()), pressure), Compacts(old(View()), pressure))
    {
      ghost var before := View();
      var bundle := PrepareRequestBundle(pressure);
      PutOut(task, bundle, before.phase.afterDraft && !Compacts(before, pressure));
    }

    method SendRequest(task: string, wanted: Pressure)
      requires Valid() && phase.Ready? && phase.task == task
      modifies this
      ensures Valid() && steps == old(steps) + [Request(AsPressure(wanted))] && phase.Replying?
    {
      ghost var before := View();
      var pressure := AsPressure(wanted);
      PutRequest(task, pressure);
      Took(before, Request(pressure));
    }

    /** One turn of the loop: a request and what its reply leads to. */
    method TakeTurn(task: string, turn: Turn, rejects: nat) returns (over: bool, rejected: nat)
      requires Valid() && phase.Ready? && phase.task == task
      modifies this
      ensures Valid() && steps == old(steps) + [Request(AsPressure(turn.pressure))] + ReplyPath(turn.reply, rejects).0
      ensures over == ReplyPath(turn.reply, rejects).1 && rejected == ReplyPath(turn.reply, rejects).2
      ensures if over then phase.Leaving? else phase.Ready? && phase.task == ""
    {
      SendRequest(task, turn.pressure);
      over, rejected := TakeReply(turn.reply, rejects);
    }

    method StopRun()
      requires Valid() && phase.Ready?
      modifies this
      ensures Valid() && steps == old(steps) + [Stop] && phase.Leaving?
    {
      ghost var before := View();
      Emit(RunStopped);
      phase := Leaving;
      Took(before, Stop);
    }

    /** The deferred repair. */
    method LeaveRun()
      requires Valid() && phase.Leaving?
      modifies this
      ensures Valid() && steps == old(steps) + [Leave] && phase.Idle?
      ensures Paired(history, pendingSuspensionID)
    {
      ghost var before := View();
      RepairDanglingToolCalls();
      phase := Idle;
      Took(before, Leave);
    }

    /** The main loop, from the loop head to the deferred repair. Past the script the context is done. */
    method Loop(task: string, script: seq<Turn>)
      requires Valid() && phase == Ready(task, false)
      modifies this
      ensures Valid() && steps == old(steps) + LoopPath(script, 0, 0) && phase.Idle?
      ensures RunTaken(keep, old(View()), script, 0, 0, View())
      ensures Paired(history, pendingSuspensionID)
    {
      ghost var taken, before := steps, View();
      assert LedTo(before);
      TakeTurns(task, script);
      assert LedTo(View());
      RunSince(keep, taken, before, View(), script);
    }

    method TakeTurns(task: string, script: seq<Turn>)
      requires Valid() && phase == Ready(task, false)
      modifies this
      ensures Valid() && steps == old(steps) + LoopPath(script, 0, 0) && phase.Idle?
      ensures Paired(history, pendingSuspensionID)
    {
      ghost var path := steps + LoopPath(script, 0, 0);
      var userTask, rejects, i := task, 0, 0;
      var over := false;
      while !over
        invariant Valid() && i <= |script|
        invariant OnPath(steps, over, script, i, rejects, path)
        invariant if over then phase.Leaving? else phase.Ready? && phase.task == userTask
        decreases |script| - i, !over
      {
        if i == |script| || script[i].cancelled {
          StopOnPath(steps, script, i, rejects, path);
          StopRun();
          over := true;
        } else {
          TurnOnPath(steps, script, i, rejects, path);
          over, rejects := TakeTurn(userTask, script[i], rejects);
          userTask := "";
          i := i + 1;
        }
      }
      LeaveRun();
    }

    /** A user message: it is logged under a new run, and the run executes. */
    method StartRun(text: string, script: seq<Turn>)
      requires Valid() && phase.Idle? && text != ""
      modifies this
      ensures Valid() && steps == old(steps) + ([Action.StartRun(text)] + LoopPath(script, 0, 0)) && phase.Idle?
      ensures RunTaken(keep, Entered(old(View()), text), script, 0, 0, View())
      ensures EndsInAnswer(script, history, log)
      ensures forall r :: r in sent ==> Paired(r, "")
      ensures Paired(history, pendingSuspensionID)
    {
      EnterRun(text);
      ghost var entered := View();
      Loop(text, script);
      Regroup(old(steps), [Action.StartRun(text)], LoopPath(script, 0, 0));
      RunsEndInAnswer(keep, entered, script, View());
      RequestsSound();
    }

    method EnterRun(text: string)
      requires Valid() && phase.Idle? && text != ""
      modifies this
      ensures Valid() && steps == old(steps) + [Action.StartRun(text)]
      ensures View() == Entered(old(View()), text)
    {
      ghost var before := View();
      run, nextRun, waiting := nextRun, nextRun + 1, NotWaiting;
      Emit(UserMessage(run, text));
      ClearAbandonedSuspension();
      phase := Ready(text, false);
      Took(before, Action.StartRun(text));
    }

    /** Logs the answer, then hands it to the suspended call; a refused answer stays logged. */
    method TakeAnswer(answer: string, actor: string, decided: bool) returns (taken: bool)
      requires Valid() && phase.Idle? && waiting.WaitingOn?
      modifies this
      ensures Valid() && taken == Taken(old(history), actor, decided)
      ensures steps == old(steps) + [if taken then Resume(answer) else RefuseAnswer(answer)]
      ensures if taken then View() == Reentered(old(View()), OpenQuestion(old(history)).id, answer)
              else View() == old(View()).(log := old(log) + [UserMessage(old(waiting.run), answer)])
    {
      ghost var before := View();
      Emit(UserMessage(waiting.run, answer));
      taken := ProvideAskUserResult(answer, actor, decided);
      if !taken {
        Took(before, RefuseAnswer(answer));
        return;
      }
      ReenterRun(before, answer);
    }

    /** The answered run goes on. */
    method ReenterRun(ghost before: State, answer: string)
      requires LedTo(before) && Enabled(before, Resume(answer))
      requires View() == before.(history := before.history + [Tool(OpenQuestion(before.history).id, Answer(answer))],
                                 log := before.log + [UserMessage(before.waiting.run, answer)])
      modifies this
      ensures Valid() && steps == old(steps) + [Resume(answer)]
      ensures View() == Reentered(before, OpenQuestion(before.history).id, answer)
    {
      run, waiting := waiting.run, NotWaiting;
      ClearAbandonedSuspension();
      phase := Ready("", false);
      Took(before, Resume(answer));
    }

    /** An answer to the waiting run: the run goes on if the answer was taken. */
    method ResumeRun(answer: string, actor: string, decided: bool, script: seq<Turn>) returns (taken: bool)
      requires Valid() && phase.Idle? && waiting.WaitingOn?
      modifies this
      ensures Valid() && phase.Idle? && taken == Taken(old(history), actor, decided)
      ensures steps == old(steps) + if taken then [Resume(answer)] + LoopPath(script, 0, 0) else [RefuseAnswer(answer)]
      ensures if taken then RunTaken(keep, Reentered(old(View()), OpenQuestion(old(history)).id, answer), script, 0, 0, View()) && EndsInAnswer(script, history, log)
              else View() == old(View()).(log := old(log) + [UserMessage(old(waiting.run), answer)])
      ensures forall r :: r in sent ==> Paired(r, "")
    {
      taken := TakeAnswer(answer, actor, decided);
      if taken {
        ghost var entered := View();
        Loop("", script);
        Regroup(old(steps), [Resume(answer)], LoopPath(script, 0, 0));
        RunsEndInAnswer(keep, entered, script, View());
      }
      RequestsSound();
    }

    /** A restart: the conversation is rebuilt from the log. */
    method RehydrateHistory(keepWaiting: bool)
      requires Valid()
      modifies this
      ensures Valid() && steps == old(steps) + [Rehydrate(keepWaiting)] && phase.Idle?
      ensures history == Rebuild(keep, log).items && log == old(log)
      ensures omittedHistoryMessages == Rebuild(keep, log).omitted && historySummary == TrimSpace(Rebuild(keep, log).summary)
      ensures pendingSuspensionID == "" && waiting == if keepWaiting then old(waiting) else NotWaiting
    {
      ghost var before := View();
      var r := RebuildHistoryFromMessages(keep, log);
      history, omittedHistoryMessages, historySummary, pendingSuspensionID := r.items, r.omitted, TrimSpace(r.summary), "";
      phase := Idle;
      if !keepWaiting {
        waiting := NotWaiting;
      }
      Took(before, Rehydrate(keepWaiting));
    }

    /** What holds of every path holds of every engine. */
    lemma RequestsSound()
      requires Valid()
      ensures forall r :: r in sent ==> Paired(r, "")
    {
      RequestsPaired(keep, NEW_SESSION, steps);
    }
  }
}
