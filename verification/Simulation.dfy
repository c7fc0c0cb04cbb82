// Replay refines the live engine: after every faithful run of steps, folding the event log
// gives back the conversation the engine holds, with its omitted count and its digest.
module Simulation {
  import opened Conversation
  import opened Compaction
  import opened HistoryFold
  import opened Session
  import opened SparseHistory
  import opened Strings

  /**
   * The steps whose log says all that happened. Each condition can be checked when the step is
   * taken; `ExcludedStepsDiverge` shows what goes wrong without it.
   */
  predicate Faithful(keep: Keep, s: State, a: Action)
    requires Enabled(s, a)
  {
    match a
    case RefuseAnswer(_) => false
    case Stop => s.phase.task == ""
    case Request(p) => Compacts(s, p) ==> Recorded(s.history[..SelectSpan(s.history).end])
    case Draft(text) => !Blank(text)
    case Finish(text) => !Blank(text)
    case BadBatch(text) => Blank(text)
    case CallTools(text, calls) => |calls| == 1 && (text == "" ==> !s.phase.afterDraft)
    case Block(result) => keep(NameOf(s.phase.todo[0]), result) == result
    case BadSuspension(_) => false
    case Suspend => s.phase.todo[0].id != ""
    case CancelAfterTool(_) => false
    case _ => true
  }

  // ----- the simulation relation -----

  function TextPending(text: string): Pending {
    if text == "" then NoPending else Pending(text, [])
  }

  ghost predicate OneCall(s: State, f: Folder, before: seq<Item>, text: string, c: Call) {
    && s.history == before + [Assistant(text, [c])]
    && Mends(f.items, before)
    && f.pending == TextPending(text)
  }

  ghost predicate Asked(s: State, f: Folder, folded: seq<Item>, live: seq<Item>, text: string) {
    && f.items == folded + [Assistant(text, [Ask(f.openAsk)])]
    && s.history == live + [Assistant(text, [Ask(f.openAsk)])]
    && MendsSame(live, folded)
  }

  /** While a run waits, both sides end in the same open question. */
  ghost predicate AskOpen(s: State, f: Folder) {
    && f.pending.NoPending? && f.openAsk != "" && s.waiting == WaitingOn(f.openRun)
    && exists folded, live, text :: Asked(s, f, folded, live, text)
  }

  ghost predicate AskJustOpened(s: State, f: Folder) {
    && f.pending.NoPending? && f.openAsk != "" && s.waiting == WaitingOn(f.openRun) && s.pending == f.openAsk
    && exists folded, live, text :: Asked(s, f, folded, live, text) && Mends(folded, live)
  }

  ghost predicate PhaseTracks(s: State, f: Folder) {
    match s.phase
    case Idle =>
      MendsSame(s.history, Flush(f).items) && (s.waiting.WaitingOn? ==> AskOpen(s, f))
    case Leaving =>
      && MendsSame(s.history, Flush(f).items)
      && if s.waiting.WaitingOn? then AskJustOpened(s, f) else s.pending == ""
    case Ready(task, afterDraft) =>
      Mends(Flush(f).items, s.history + TaskItems(task)) && (!afterDraft ==> f.pending.NoPending?)
    case Replying(afterDraft) =>
      Mends(Flush(f).items, s.history) && (!afterDraft ==> f.pending.NoPending?)
    case Batch(todo) =>
      if todo == [] then Mends(f.items, s.history) && f.pending.NoPending?
      else |todo| == 1 && exists before, text :: OneCall(s, f, before, text, todo[0])
  }

  ghost predicate TracksAs(s: State, f: Folder) {
    && f.omitted == s.omitted && f.summary == s.summary && TrimSpace(s.summary) == s.summary
    && f.openRun < s.nextRun && s.run < s.nextRun
    && (!s.phase.Idle? && !s.phase.Leaving? ==> s.pending == "" && s.waiting == NotWaiting)
    && PhaseTracks(s, f)
  }

  ghost predicate Tracks(keep: Keep, s: State) {
    TracksAs(s, Replay(keep, s.log))
  }

  // ----- one step -----

  /** A call after its text, or alone, is one assistant item again. */
  lemma CallFolds(f: Folder, text: string, c: Call)
    requires f.pending == TextPending(text)
    ensures Flush(AddCall(f, c)) == f.(items := f.items + [Assistant(text, [c])], pending := NoPending)
  {
    assert [] + [c] == [c];
  }

  lemma FlushAgain(f: Folder)
    ensures Flush(Flush(f)) == Flush(f)
  {
  }

  lemma StartTracks(keep: Keep, s: State, text: string)
    requires Enabled(s, StartRun(text)) && Tracks(keep, s)
    ensures Tracks(keep, Step(keep, s, StartRun(text)))
  {
    var f := Replay(keep, s.log);
    ReplayOne(keep, s.log, UserMessage(s.nextRun, text));
    SameStart(s.history, Flush(f).items, User(text));
  }

  lemma LatestAskIsLast(live: seq<Item>, text: string, id: string)
    ensures LatestAsks(live + [Assistant(text, [Ask(id)])]) == [Ask(id)]
  {
    assert Asks([Ask(id)][1..]) == [];
  }

  lemma ResumeTracks(keep: Keep, s: State, answer: string)
    requires Enabled(s, Resume(answer)) && Tracks(keep, s)
    ensures Tracks(keep, Step(keep, s, Resume(answer)))
  {
    var f := Replay(keep, s.log);
    var folded, live, text :| Asked(s, f, folded, live, text);
    LatestAskIsLast(live, text, f.openAsk);
    ReplayOne(keep, s.log, UserMessage(s.waiting.run, answer));
    SameAnswered(live, folded, text, Ask(f.openAsk), Answer(answer));
    var t := Tool(f.openAsk, Answer(answer));
    JoinTurn(live, Assistant(text, [Ask(f.openAsk)]), t);
    JoinTurn(folded, Assistant(text, [Ask(f.openAsk)]), t);
    Unit(Repair(s.history + [t], ""));
  }

  lemma JoinTurn(before: seq<Item>, head: Item, t: Item)
    ensures before + [head] + [t] == before + [head, t]
  {
  }

  lemma Unit(s: seq<Item>)
    ensures s + TaskItems("") == s
  {
  }

  /** Going out from a step boundary. */
  lemma ExitTracks(s: State, f: Folder)
    requires s.phase.Ready? || s.phase.Replying?
    requires s.phase.Ready? ==> s.phase.task == ""
    requires TracksAs(s, f)
    ensures TracksAs(Exit(s), Flush(f))
  {
    FlushAgain(f);
    Unit(s.history);
    MendsAlike(Flush(f).items, s.history);
  }

  lemma StopTracks(keep: Keep, s: State)
    requires s.phase.Ready? || s.phase.Replying?
    requires s.phase.Ready? ==> s.phase.task == ""
    requires Tracks(keep, s)
    ensures Tracks(keep, Exit(Emit(s, [RunStopped])))
  {
    ReplayOne(keep, s.log, RunStopped);
    ExitTracks(s, Replay(keep, s.log));
  }

  lemma BadBatchTracks(keep: Keep, s: State, text: string)
    requires s.phase.Replying? && Blank(text) && Tracks(keep, s)
    ensures Tracks(keep, Exit(Emit(s, StatusEvents(text) + [RunStopped])))
  {
    var f := Replay(keep, s.log);
    ReplayMore(keep, s.log, StatusEvents(text) + [RunStopped]);
    if text == "" {
      assert StatusEvents(text) + [RunStopped] == [RunStopped];
      FoldOne(keep, f, RunStopped);
    } else {
      assert StatusEvents(text) + [RunStopped] == [AssistantStatus(text), RunStopped];
      FoldTwo(keep, f, AssistantStatus(text), RunStopped);
    }
    ExitTracks(s, f);
  }

  lemma RequestTracks(keep: Keep, s: State, p: Pressure)
    requires Enabled(s, Request(p)) && Faithful(keep, s, Request(p)) && Tracks(keep, s)
    ensures Tracks(keep, Step(keep, s, Request(p)))
  {
    if Compacts(s, p) {
      var f := Replay(keep, s.log);
      var span := SelectSpan(s.history);
      var after := MendsDrop(Flush(f).items, s.history, TaskItems(s.phase.task));
      var summary := if p.Digest? then p.summary else "";
      var how := if p.Digest? then Summarized else Trimmed;
      ReplayOne(keep, s.log, HistoryCompacted(span.pinned, span.Shadowed(), how, summary));
      CheckpointCuts(f, span, how, summary);
    }
  }

  lemma CheckpointCuts(f: Folder, span: Span, how: CompactionMethod, summary: string)
    requires span.pinned <= span.end <= |Flush(f).items|
    ensures var g := Checkpoint(f, span.pinned, span.Shadowed(), how, summary);
            && g.items == Flush(f).items[..span.pinned] + Flush(f).items[span.end..]
            && g.pending.NoPending? && g.openAsk == f.openAsk && g.openRun == f.openRun
            && (how == Summarized && !Blank(summary) ==> g.summary == summary && g.omitted == f.omitted)
            && (how == Trimmed ==> g.summary == f.summary && g.omitted == f.omitted + span.Shadowed())
  {
    assert span.pinned + span.Shadowed() == span.end;
  }

  lemma DraftTracks(keep: Keep, s: State, text: string)
    requires Enabled(s, Draft(text)) && !Blank(text) && Tracks(keep, s)
    ensures Tracks(keep, Step(keep, s, Draft(text)))
  {
    ReplayOne(keep, s.log, AssistantStatus(text));
    MendsText(Flush(Replay(keep, s.log)).items, s.history, Assistant(text, []));
    Unit(s.history + [Assistant(text, [])]);
  }

  lemma RejectTracks(keep: Keep, s: State, correction: string)
    requires Enabled(s, RejectFinal(correction)) && Tracks(keep, s)
    ensures Tracks(keep, Step(keep, s, RejectFinal(correction)))
  {
    ReplayOne(keep, s.log, SystemFeedback(correction));
    MendsText(Flush(Replay(keep, s.log)).items, s.history, User(correction));
    Unit(s.history + [User(correction)]);
  }

  /** The closing answer of a run. */
  lemma CompleteTracks(s: State, f: Folder, text: string)
    requires TracksAs(s, f) && !s.phase.Idle? && !s.phase.Leaving?
    requires Mends(Flush(f).items, s.history)
    ensures TracksAs(Exit(Say(s, Assistant(text, []))), Append(f, Assistant(text, [])))
  {
    var x := Flush(f).items;
    MendsText(x, s.history, Assistant(text, []));
    MendsAlike(x + [Assistant(text, [])], s.history + [Assistant(text, [])]);
  }

  lemma CompletedTracks(keep: Keep, s: State, text: string)
    requires Tracks(keep, s) && !s.phase.Idle? && !s.phase.Leaving? && !Blank(text)
    requires Mends(Flush(Replay(keep, s.log)).items, s.history)
    ensures Tracks(keep, Exit(Emit(Say(s, Assistant(text, [])), [RunCompleted(text)])))
  {
    ReplayOne(keep, s.log, RunCompleted(text));
    CompleteTracks(s, Replay(keep, s.log), text);
  }

  lemma CallToolsTracks(keep: Keep, s: State, text: string, calls: seq<Call>)
    requires Enabled(s, CallTools(text, calls)) && Faithful(keep, s, CallTools(text, calls)) && Tracks(keep, s)
    ensures Tracks(keep, Step(keep, s, CallTools(text, calls)))
  {
    var f := Replay(keep, s.log);
    var s' := Step(keep, s, CallTools(text, calls));
    ReplayMore(keep, s.log, StatusEvents(text));
    if text != "" {
      FoldOne(keep, f, AssistantStatus(text));
    }
    assert calls == [calls[0]];
    assert OneCall(s', Replay(keep, s'.log), s.history, text, calls[0]);
  }

  // ----- the one call of a batch -----

  /** The call is answered on both sides. */
  lemma SettleTracks(s: State, f: Folder, before: seq<Item>, text: string, c: Call, content: Content) returns (g: Folder)
    requires OneCall(s, f, before, text, c)
    ensures g == Append(AddCall(f, c), Tool(c.id, content))
    ensures g == f.(items := g.items, pending := NoPending)
    ensures Mends(g.items, s.history + [Tool(c.id, content)])
  {
    var t := Tool(c.id, content);
    g := Append(AddCall(f, c), t);
    CallFolds(f, text, c);
    MendsAnswered(f.items, before, text, c, content);
    JoinTurn(f.items, Assistant(text, [c]), t);
    JoinTurn(before, Assistant(text, [c]), t);
  }

  lemma BlockTracks(keep: Keep, s: State, result: string)
    requires Enabled(s, Block(result)) && Faithful(keep, s, Block(result)) && Tracks(keep, s)
    ensures Tracks(keep, Step(keep, s, Block(result)))
  {
    var f := Replay(keep, s.log);
    var c := s.phase.todo[0];
    var before, text :| OneCall(s, f, before, text, c);
    var g := SettleTracks(s, f, before, text, c, Text(result));
    ReplayMore(keep, s.log, [ToolCall(c), Other, ToolResult(c.id, NameOf(c), result)]);
    FoldThree(keep, f, ToolCall(c), Other, ToolResult(c.id, NameOf(c), result));
  }

  /** A call that ran to its end: both logs and both conversations hold its result. */
  lemma RanTracks(keep: Keep, s: State, raw: string) returns (s': State)
    requires Enabled(s, RunTool(raw)) && Tracks(keep, s)
    ensures s' == Step(keep, s, RunTool(raw)) && Tracks(keep, s')
  {
    var f := Replay(keep, s.log);
    var c := s.phase.todo[0];
    var before, text :| OneCall(s, f, before, text, c);
    var g := SettleTracks(s, f, before, text, c, Text(keep(NameOf(c), raw)));
    ReplayMore(keep, s.log, [ToolCall(c), ToolResult(c.id, NameOf(c), raw)]);
    FoldTwo(keep, f, ToolCall(c), ToolResult(c.id, NameOf(c), raw));
    s' := Step(keep, s, RunTool(raw));
  }

  lemma UnclosedTracks(keep: Keep, s: State)
    requires s.phase == Batch([]) && Tracks(keep, s)
    ensures Tracks(keep, Exit(Emit(s, [RunStopped])))
  {
    ReplayOne(keep, s.log, RunStopped);
    MendsAlike(Replay(keep, s.log).items, s.history);
  }

  lemma FinalizeTracks(keep: Keep, s: State, raw: string, closing: Closing)
    requires Enabled(s, Finalize(raw, closing)) && Tracks(keep, s)
    ensures Tracks(keep, Step(keep, s, Finalize(raw, closing)))
  {
    var done := RanTracks(keep, s, raw);
    assert done.phase == Batch([]);
    match closing
    case Closing(summary) => CompletedTracks(keep, done, summary);
    case ClosingFailed => UnclosedTracks(keep, done);
  }

  lemma LeaveTracks(keep: Keep, s: State)
    requires s.phase.Leaving? && Tracks(keep, s)
    ensures Tracks(keep, Step(keep, s, Leave))
  {
    var f := Replay(keep, s.log);
    if s.waiting.WaitingOn? {
      var folded, live, text :| Asked(s, f, folded, live, text) && Mends(folded, live);
      MendsSuspended(folded, live, text, Ask(f.openAsk));
      assert Asked(Step(keep, s, Leave), f, folded, live, text);
    } else {
      SameRepaired(s.history, Flush(f).items);
    }
  }

  lemma SuspendFolds(keep: Keep, f: Folder, text: string, run: nat, c: Call)
    requires c.Ask? && f.pending == TextPending(text)
    ensures Consume(keep, f, UserRequestInput(run, c.id))
         == f.(items := f.items + [Assistant(text, [c])], pending := NoPending, openAsk := c.id, openRun := run)
  {
    CallFolds(f, text, c);
  }

  lemma SuspendTracks(keep: Keep, s: State)
    requires Enabled(s, Suspend) && Faithful(keep, s, Suspend) && Tracks(keep, s)
    ensures Tracks(keep, Step(keep, s, Suspend))
  {
    var f := Replay(keep, s.log);
    var c := s.phase.todo[0];
    var before, text :| OneCall(s, f, before, text, c);
    ReplayOne(keep, s.log, UserRequestInput(s.run, c.id));
    SuspendFolds(keep, f, text, s.run, c);
    MendsDangling(f.items, before, text, c);
    MendsAlike(f.items, before);
    var s' := Step(keep, s, Suspend);
    assert Asked(s', Replay(keep, s'.log), f.items, before, text);
  }

  lemma CancelFolds(keep: Keep, f: Folder, text: string, c: Call)
    requires f.pending == TextPending(text)
    ensures Fold(keep, f, [ToolCall(c), RunStopped]) == f.(items := f.items + [Assistant(text, [c])], pending := NoPending)
  {
    FoldTwo(keep, f, ToolCall(c), RunStopped);
    CallFolds(f, text, c);
  }

  lemma CancelTracks(keep: Keep, s: State)
    requires Enabled(s, CancelInTool) && Tracks(keep, s)
    ensures Tracks(keep, Step(keep, s, CancelInTool))
  {
    var f := Replay(keep, s.log);
    var c := s.phase.todo[0];
    var before, text :| OneCall(s, f, before, text, c);
    ReplayMore(keep, s.log, [ToolCall(c), RunStopped]);
    CancelFolds(keep, f, text, c);
    MendsDangling(f.items, before, text, c);
  }

  /** In every phase the folded items repair to something; so a restart can take them over. */
  lemma FoldMends(s: State, f: Folder) returns (live: seq<Item>)
    requires TracksAs(s, f)
    ensures MendsSame(live, Flush(f).items)
    ensures s.phase.Idle? ==> live == s.history
  {
    match s.phase
    case Idle => live := s.history;
    case Leaving => live := s.history;
    case Ready(task, _) =>
      live := s.history + TaskItems(task);
      MendsAlike(Flush(f).items, live);
    case Replying(_) =>
      live := s.history;
      MendsAlike(Flush(f).items, live);
    case Batch(todo) =>
      if todo == [] {
        live := s.history;
        MendsAlike(f.items, live);
      } else {
        var before, text :| OneCall(s, f, before, text, todo[0]);
        MendsText(f.items, before, Assistant(text, []));
        live := if Flush(f).items == f.items then before else before + [Assistant(text, [])];
        MendsAlike(Flush(f).items, live);
      }
  }

  lemma RehydrateTracks(keep: Keep, s: State, keepWaiting: bool)
    requires Tracks(keep, s)
    ensures Tracks(keep, Step(keep, s, Rehydrate(keepWaiting)))
  {
    var f := Replay(keep, s.log);
    var live := FoldMends(s, f);
    SameRebuilt(live, Flush(f).items, f.openAsk);
    if s.waiting.WaitingOn? {
      var folded, asked, text :| Asked(s, f, folded, asked, text);
      SameRebuiltAsk(asked, folded, text, f.openAsk);
      SameRebuilt(asked, folded, f.openAsk);
      var s' := Step(keep, s, Rehydrate(keepWaiting));
      assert Asked(s', f, folded, Repair(folded, f.openAsk), text);
    }
  }

  lemma StepTracks(keep: Keep, s: State, a: Action)
    requires Enabled(s, a) && Faithful(keep, s, a) && Tracks(keep, s)
    ensures Tracks(keep, Step(keep, s, a))
  {
    match a
    case StartRun(text) => StartTracks(keep, s, text);
    case Resume(answer) => ResumeTracks(keep, s, answer);
    case Stop => StopTracks(keep, s);
    case FailReply => StopTracks(keep, s);
    case Request(p) => RequestTracks(keep, s, p);
    case Draft(text) => DraftTracks(keep, s, text);
    case RejectFinal(correction) => RejectTracks(keep, s, correction);
    case Finish(text) => CompletedTracks(keep, s, text);
    case BadBatch(text) => BadBatchTracks(keep, s, text);
    case CallTools(text, calls) => CallToolsTracks(keep, s, text, calls);
    case Block(result) => BlockTracks(keep, s, result);
    case RunTool(raw) => var _ := RanTracks(keep, s, raw);
    case Suspend => SuspendTracks(keep, s);
    case CancelInTool => CancelTracks(keep, s);
    case Finalize(raw, closing) => FinalizeTracks(keep, s, raw, closing);
    case EndBatch => Unit(s.history);
    case Leave => LeaveTracks(keep, s);
    case Rehydrate(keepWaiting) => RehydrateTracks(keep, s, keepWaiting);
  }

  // ----- whole sessions -----

  ghost predicate AllFaithful(keep: Keep, s: State, actions: seq<Action>)
    requires Legal(keep, s, actions)
    decreases |actions|
  {
    actions == [] || (Faithful(keep, s, actions[0]) && AllFaithful(keep, Step(keep, s, actions[0]), actions[1..]))
  }

  lemma {:induction false} RunTracks(keep: Keep, s: State, actions: seq<Action>)
    requires Legal(keep, s, actions) && AllFaithful(keep, s, actions) && Tracks(keep, s)
    ensures Tracks(keep, Exec(keep, s, actions))
    decreases |actions|
  {
    if actions != [] {
      StepTracks(keep, s, actions[0]);
      RunTracks(keep, Step(keep, s, actions[0]), actions[1..]);
    }
  }

  /**
   * Replay refines the live engine. After any faithful session, however many compactions,
   * suspensions, resumes and restarts it went through, whenever no run is on, the rebuilt
   * conversation and the live one are the same once repaired, and so are the omitted count and
   * the digest.
   */
  lemma ReplayRefinesEngine(keep: Keep, actions: seq<Action>)
    requires Legal(keep, NEW_SESSION, actions) && AllFaithful(keep, NEW_SESSION, actions)
    ensures var s := Exec(keep, NEW_SESSION, actions); var r := Rebuild(keep, s.log);
            s.phase.Idle? || s.phase.Leaving? ==>
              Repair(r.items, "") == Repair(s.history, "") && r.omitted == s.omitted && r.summary == s.summary
  {
    assert Repair([], "") == [];
    RunTracks(keep, NEW_SESSION, actions);
    var s := Exec(keep, NEW_SESSION, actions);
    if s.phase.Idle? || s.phase.Leaving? {
      var f := Replay(keep, s.log);
      SameRebuilt(s.history, Flush(f).items, f.openAsk);
    }
  }
}
