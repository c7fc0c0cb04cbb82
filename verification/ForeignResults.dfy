// Results without a call of their own turn: the live engine never sends one, but the fold of its
// log can make one, which repair keeps (server/agent/history_rebuild.go, server/agent/engine.go).
module ForeignResults {
  import opened Conversation
  import opened Compaction
  import opened HistoryFold
  import opened Session
  import opened Strings

  lemma {:induction false} ExactConcat(a: seq<Item>, b: seq<Item>)
    requires StartsTurn(b)
    ensures Exact(a + b) <==> Exact(a) && Exact(b)
    decreases |a|
  {
    if a == [] {
      assert a + b == b;
    } else if a[0].Tool? {
      assert a + b == [a[0]] + (a[1..] + b) && a == [a[0]] + a[1..];
      ExactSkips([a[0]], a[1..] + b);
      ExactSkips([a[0]], a[1..]);
      ExactConcat(a[1..], b);
    } else {
      var head, run, rest := FirstTurn(a);
      ExactConcat(rest, b);
      Reassociate([head] + run, rest, b);
      ExactTurn(head, run, rest);
      StartsJoined(rest, b);
      ExactTurn(head, run, rest + b);
    }
  }

  lemma StartsJoined(a: seq<Item>, b: seq<Item>)
    requires StartsTurn(a) && StartsTurn(b)
    ensures StartsTurn(a + b)
  {
  }

  /** The calls of the turn a conversation ends with. */
  function LastCalls(items: seq<Item>): seq<Call> {
    if items == [] then []
    else if items[|items| - 1].Tool? then LastCalls(items[..|items| - 1])
    else CallsOf(items[|items| - 1])
  }

  /** A result for the id can stand at the end: the last turn has a call with it, or none at all. */
  predicate Takes(items: seq<Item>, id: string) {
    LastCalls(items) == [] || id in IdsOf(LastCalls(items))
  }

  lemma LastCallsSnoc(items: seq<Item>, item: Item)
    ensures LastCalls(items + [item]) == if item.Tool? then LastCalls(items) else CallsOf(item)
  {
    assert (items + [item])[..|items|] == items;
  }

  lemma {:induction false} LastCallsSkip(front: seq<Item>, run: seq<Item>)
    requires AllTools(run)
    ensures LastCalls(front + run) == LastCalls(front)
    decreases |run|
  {
    var n := |run| - 1;
    if run == [] {
      assert front + run == front;
    } else {
      assert front + run == front + run[..n] + [run[n]];
      LastCallsSnoc(front + run[..n], run[n]);
      LastCallsSkip(front, run[..n]);
    }
  }

  lemma LastCallsTurn(head: Item, run: seq<Item>)
    requires !head.Tool? && AllTools(run)
    ensures LastCalls([head] + run) == CallsOf(head)
  {
    LastCallsSkip([head], run);
    LastCallsSnoc([], head);
    assert [] + [head] == [head];
  }

  lemma {:induction false} LastCallsConcat(a: seq<Item>, b: seq<Item>)
    requires b != [] && StartsTurn(b)
    ensures LastCalls(a + b) == LastCalls(b)
    decreases |b|
  {
    var n := |b| - 1;
    assert a + b == a + b[..n] + [b[n]] && b == b[..n] + [b[n]];
    LastCallsSnoc(a + b[..n], b[n]);
    LastCallsSnoc(b[..n], b[n]);
    if b[n].Tool? {
      LastCallsConcat(a, b[..n]);
    }
  }

  /** A result keeps a conversation exact exactly when it answers a call of the last turn, or that turn has none. */
  lemma {:induction false} ExactSnoc(items: seq<Item>, t: Item)
    requires t.Tool?
    ensures Exact(items + [t]) <==> Exact(items) && Takes(items, t.callId)
    decreases |items|
  {
    if items == [] {
      ExactSkips([t], []);
      assert [] + [t] == [t] + [];
    } else if items[0].Tool? {
      ExactSnoc(items[1..], t);
      OrphanSnoc(items, t);
    } else {
      var head, run, rest := FirstTurn(items);
      if rest == [] {
        assert items == [head] + run;
        LastTurnSnoc(head, run, t);
      } else {
        ExactSnoc(rest, t);
        LaterTurnSnoc(head, run, rest, t);
      }
    }
  }

  lemma OrphanSnoc(items: seq<Item>, t: Item)
    requires items != [] && items[0].Tool?
    ensures Exact(items + [t]) <==> Exact(items[1..] + [t])
    ensures Exact(items) <==> Exact(items[1..])
    ensures LastCalls(items) == LastCalls(items[1..])
  {
    assert items + [t] == [items[0]] + (items[1..] + [t]) && items == [items[0]] + items[1..];
    ExactSkips([items[0]], items[1..] + [t]);
    ExactSkips([items[0]], items[1..]);
    FirstToolSkipped(items);
  }

  lemma LastTurnSnoc(head: Item, run: seq<Item>, t: Item)
    requires !head.Tool? && AllTools(run) && t.Tool?
    ensures Exact([head] + run + [t]) <==> Exact([head] + run) && Takes([head] + run, t.callId)
  {
    assert [head] + run + [t] == [head] + (run + [t]) + [] && [head] + run == [head] + run + [];
    ExactTurn(head, run, []);
    ExactTurn(head, run + [t], []);
    AnsweredConcat(run, [t]);
    LastCallsTurn(head, run);
    assert Answered([t]) == {t.callId} by {
      assert t in [t];
    }
  }

  lemma LaterTurnSnoc(head: Item, run: seq<Item>, rest: seq<Item>, t: Item)
    requires !head.Tool? && AllTools(run) && StartsTurn(rest) && rest != [] && t.Tool?
    requires Exact(rest + [t]) <==> Exact(rest) && Takes(rest, t.callId)
    ensures Exact([head] + run + rest + [t]) <==> Exact([head] + run + rest) && Takes([head] + run + rest, t.callId)
  {
    Reassociate([head] + run, rest, [t]);
    ExactTurn(head, run, rest);
    ExactTurn(head, run, rest + [t]);
    LastCallsConcat([head] + run, rest);
  }

  lemma {:induction false} FirstToolSkipped(items: seq<Item>)
    requires items != [] && items[0].Tool?
    ensures LastCalls(items) == LastCalls(items[1..])
    decreases |items|
  {
    var n := |items| - 1;
    if n > 0 && items[n].Tool? {
      FirstToolSkipped(items[..n]);
      assert items[..n][1..] == items[1..][..n - 1];
    }
  }

  lemma ExactSay(items: seq<Item>, item: Item)
    requires !item.Tool?
    ensures Exact(items + [item]) <==> Exact(items)
  {
    ExactConcat(items, [item]);
    ExactTurn(item, [], []);
    assert [item] + [] + [] == [item];
  }

  // ----- the step that makes one -----

  /**
   * A suspension refused for its arguments leaves the rebuilt conversation exact exactly when it was
   * and the folded conversation ends in a turn without calls, or in one with a call of the same id.
   */
  lemma BadSuspensionExact(keep: Keep, s: State, result: string)
    requires Enabled(s, BadSuspension(result))
    ensures Exact(Rebuild(keep, Step(keep, s, BadSuspension(result)).log).items)
       <==> Exact(Rebuild(keep, s.log).items) && Takes(Flush(Replay(keep, s.log)).items, s.phase.todo[0].id)
  {
    var f, c := Replay(keep, s.log), s.phase.todo[0];
    var f' := Append(f, Tool(c.id, Text(keep(NameOf(c), result))));
    ReplayOne(keep, s.log, ToolResult(c.id, NameOf(c), result));
    RepairExact(Flush(f).items, f.openAsk);
    RepairExact(f'.items, f'.openAsk);
    ExactSnoc(Flush(f).items, Tool(c.id, Text(keep(NameOf(c), result))));
  }

  /** The state after more steps of a run. */
  lemma After(keep: Keep, actions: seq<Action>, a: Action) returns (s: State, more: seq<Action>)
    requires Legal(keep, NEW_SESSION, actions) && Enabled(Exec(keep, NEW_SESSION, actions), a)
    ensures more == actions + [a] && Legal(keep, NEW_SESSION, more)
    ensures s == Exec(keep, NEW_SESSION, more) == Step(keep, Exec(keep, NEW_SESSION, actions), a)
  {
    ExecSnoc(keep, NEW_SESSION, actions, a);
    more := actions + [a];
    s := Exec(keep, NEW_SESSION, more);
  }

  /** A first request, answered with one tool call. */
  lemma OneCalled(keep: Keep, task: string, c: Call) returns (run: seq<Action>)
    requires task != "" && c.Call?
    ensures Legal(keep, NEW_SESSION, run)
    ensures var s := Exec(keep, NEW_SESSION, run); s.phase == Batch([c]) && s.log == [UserMessage(1, task)]
  {
    var s;
    s, run := After(keep, [], Action.StartRun(task));
    assert Repair([], "") == [];
    s, run := After(keep, run, Request(NoPressure));
    s, run := After(keep, run, CallTools("", [c]));
  }

  /** One tool call, completed, and a second request. */
  lemma OneCompleted(keep: Keep, task: string, c: Call, raw: string) returns (run: seq<Action>)
    requires task != "" && c.Call?
    ensures Legal(keep, NEW_SESSION, run)
    ensures var s := Exec(keep, NEW_SESSION, run);
            && s.phase.Replying?
            && s.log == [UserMessage(1, task), ToolCall(c), ToolResult(c.id, NameOf(c), raw)]
  {
    var s;
    run := OneCalled(keep, task, c);
    s, run := After(keep, run, RunTool(raw));
    s, run := After(keep, run, EndBatch);
    s, run := After(keep, run, Request(NoPressure));
  }

  /** A text-less suspension refused for its arguments, after any run that waits for a reply. */
  lemma ThenRefused(keep: Keep, before: seq<Action>, ask: string, result: string) returns (run: seq<Action>)
    requires Legal(keep, NEW_SESSION, before) && Exec(keep, NEW_SESSION, before).phase.Replying?
    ensures Legal(keep, NEW_SESSION, run)
    ensures var s := Exec(keep, NEW_SESSION, before);
            (Exact(Rebuild(keep, Exec(keep, NEW_SESSION, run).log).items)
             <==> Exact(Rebuild(keep, s.log).items) && Takes(Flush(Replay(keep, s.log)).items, ask))
  {
    var s0 := Exec(keep, NEW_SESSION, before);
    var s;
    s, run := After(keep, before, CallTools("", [Ask(ask)]));
    assert s.log == s0.log;
    BadSuspensionExact(keep, s, result);
    s, run := After(keep, run, BadSuspension(result));
  }

  /** After a restart the next request carries what was rebuilt. */
  lemma ThenSent(keep: Keep, before: seq<Action>, task: string) returns (run: seq<Action>)
    requires Legal(keep, NEW_SESSION, before) && task != ""
    ensures Legal(keep, NEW_SESSION, run)
    ensures var sent := Exec(keep, NEW_SESSION, run).sent;
            && sent != []
            && (Exact(sent[|sent| - 1]) <==> Exact(Rebuild(keep, Exec(keep, NEW_SESSION, before).log).items))
  {
    var s;
    s, run := After(keep, before, Rehydrate(false));
    RepairExact(s.history, "");
    s, run := After(keep, run, Action.StartRun(task));
    s, run := After(keep, run, Request(NoPressure));
  }

  /**
   * The run that shows it: after a completed call, a text-less suspension with invalid arguments logs
   * a result without its call. The rebuilt conversation holds it among the earlier call's results, and
   * after a restart a request is sent with it.
   */
  lemma ForeignResultRebuilt(keep: Keep, task: string, c: Call, ask: string, raw: string, result: string)
    returns (run: seq<Action>, later: seq<Action>)
    requires task != "" && c.Call? && ask != c.id
    ensures Legal(keep, NEW_SESSION, run) && Legal(keep, NEW_SESSION, later)
    ensures !Exact(Rebuild(keep, Exec(keep, NEW_SESSION, run).log).items)
    ensures exists r :: r in Exec(keep, NEW_SESSION, later).sent && !Exact(r)
  {
    var before := OneCompleted(keep, task, c, raw);
    FoldOfOne(keep, task, c, raw);
    run := ThenRefused(keep, before, ask, result);
    later := ThenSent(keep, run, task);
  }

  lemma FoldOfOne(keep: Keep, task: string, c: Call, raw: string)
    ensures var f := Flush(Replay(keep, [UserMessage(1, task), ToolCall(c), ToolResult(c.id, NameOf(c), raw)]));
            LastCalls(f.items) == [c]
  {
    var f0 := Append(EMPTY_FOLDER, User(task));
    var log := [UserMessage(1, task), ToolCall(c), ToolResult(c.id, NameOf(c), raw)];
    ReplayMore(keep, [], log);
    assert [] + log == log;
    FoldThree(keep, EMPTY_FOLDER, log[0], log[1], log[2]);
    var f := Append(AddCall(f0, c), Tool(c.id, Text(keep(NameOf(c), raw))));
    assert [] + [c] == [c];
    LastCallsSnoc(f0.items, Assistant("", [c]));
    LastCallsSnoc(f0.items + [Assistant("", [c])], Tool(c.id, Text(keep(NameOf(c), raw))));
  }

  // ----- the live requests -----

  lemma {:induction false} LatestAreLast(history: seq<Item>)
    requires Asks(LastCalls(history)) != []
    ensures LatestAsks(history) == Asks(LastCalls(history))
    decreases |history|
  {
    if history != [] && history[|history| - 1].Tool? {
      LatestAreLast(history[..|history| - 1]);
    }
  }

  lemma {:induction false} AsksAreCalls(calls: seq<Call>)
    ensures forall c :: c in Asks(calls) <==> c in calls && c.Ask?
  {
    if calls != [] {
      AsksAreCalls(calls[1..]);
      assert calls == [calls[0]] + calls[1..];
    }
  }

  /** An answer taken by the question can stand where it is put. */
  predicate AnswerFits(history: seq<Item>) {
    OpenQuestion(history).Question? ==> Takes(history, OpenQuestion(history).id)
  }

  lemma AskedLastFits(history: seq<Item>)
    requires Asks(LastCalls(history)) != []
    ensures AnswerFits(history)
  {
    LatestAreLast(history);
    AsksAreCalls(LastCalls(history));
    var asks := LatestAsks(history);
    assert asks[0] in asks;
  }

  /** What a restart must find for the requests after it to be exact. */
  predicate RestartExact(keep: Keep, s: State, a: Action) {
    a.Rehydrate? ==>
      var items := Rebuild(keep, s.log).items;
      Exact(items) && (a.keepWaiting && s.waiting.WaitingOn? ==> AnswerFits(items))
  }

  ghost predicate ExactAll(x: seq<seq<Item>>) {
    forall r :: r in x ==> Exact(r)
  }

  /** The calls still to be settled are calls of the last turn. */
  predicate OfLastTurn(history: seq<Item>, todo: seq<Call>) {
    forall c :: c in todo ==> c in LastCalls(history)
  }

  ghost predicate LiveExact(s: State) {
    && ExactAll(s.sent) && Exact(s.history)
    && (s.phase.Idle? && s.waiting.WaitingOn? ==> AnswerFits(s.history))
    && (s.phase.Leaving? && s.waiting.WaitingOn? ==> Asks(LastCalls(s.history)) != [])
    && (!s.phase.Idle? && !s.phase.Leaving? ==> s.waiting.NotWaiting?)
    && (s.phase.Batch? ==> OfLastTurn(s.history, s.phase.todo))
  }

  lemma CompactedExact(s: State, p: Pressure)
    requires Exact(s.history) && Paired(s.history, "")
    ensures Exact(Compacted(s, p).history)
  {
    if Compacts(s, p) {
      var h, span := s.history, SelectSpan(s.history);
      PinnedEndsTurn(h);
      SpanEndsTurn(h);
      CutExact(h, span.pinned);
      CutExact(h, span.end);
      ExactConcat(h[..span.pinned], h[span.end..]);
    }
  }

  lemma CutExact(h: seq<Item>, n: nat)
    requires n <= |h| && StartsTurn(h[n..]) && Exact(h)
    ensures Exact(h[..n]) && Exact(h[n..])
  {
    assert h == h[..n] + h[n..];
    ExactConcat(h[..n], h[n..]);
  }

  lemma RequestExact(keep: Keep, s: State, p: Pressure)
    requires Enabled(s, Request(p)) && LiveExact(s) && PairInv(s)
    ensures LiveExact(Step(keep, s, Request(p)))
  {
    var s' := Step(keep, s, Request(p));
    var h := Compacted(s, p).history;
    CompactedExact(s, p);
    if s.phase.task == "" {
      assert h + [] == h;
    } else {
      ExactSay(h, User(s.phase.task));
    }
    assert s'.sent == s.sent + [h];
  }

  lemma SettledExact(s: State, content: Content, s': State)
    requires s.phase.Batch? && s.phase.todo != [] && LiveExact(s)
    requires s' == s.(history := s.history + [Tool(s.phase.todo[0].id, content)], log := s'.log, phase := Batch(s.phase.todo[1..]))
    ensures LiveExact(s')
  {
    var c, t := s.phase.todo[0], Tool(s.phase.todo[0].id, content);
    assert c in s.phase.todo;
    ExactSnoc(s.history, t);
    LastCallsSnoc(s.history, t);
    assert forall d :: d in s.phase.todo[1..] ==> d in s.phase.todo;
  }

  lemma SaidExact(history: seq<Item>, item: Item)
    requires Exact(history) && !item.Tool?
    ensures Exact(history + [item]) && LastCalls(history + [item]) == CallsOf(item)
  {
    ExactSay(history, item);
    LastCallsSnoc(history, item);
  }

  lemma FinalizeExact(keep: Keep, s: State, raw: string, closing: Closing)
    requires Enabled(s, Finalize(raw, closing)) && LiveExact(s)
    ensures LiveExact(Step(keep, s, Finalize(raw, closing)))
  {
    var c := s.phase.todo[0];
    var t := Tool(c.id, Text(keep(NameOf(c), raw)));
    assert c in s.phase.todo;
    ExactSnoc(s.history, t);
    if closing.Closing? {
      SaidExact(s.history + [t], Assistant(closing.summary, []));
    }
  }

  lemma {:induction false} SameLastCalls(items: seq<Item>, skip: string)
    ensures LastCalls(Repair(items, skip)) == LastCalls(items)
    decreases |items|
  {
    if items == [] {
    } else if items[0].Tool? {
      SameLastCalls(items[1..], skip);
      FirstToolSkipped(items);
    } else {
      var head, run, rest := FirstTurn(items);
      SameLastCalls(rest, skip);
      RepairTurn(head, run, rest, skip);
      ResultsPair(head, run, skip);
      LastOfTwo(head, run, rest);
      LastOfTwo(head, Results(head, run, skip), Repair(rest, skip));
      RepairEmpty(rest, skip);
    }
  }

  lemma RepairEmpty(rest: seq<Item>, skip: string)
    requires StartsTurn(rest)
    ensures Repair(rest, skip) == [] <==> rest == []
  {
  }

  lemma LastOfTwo(head: Item, run: seq<Item>, rest: seq<Item>)
    requires !head.Tool? && AllTools(run) && StartsTurn(rest)
    ensures LastCalls([head] + run + rest) == if rest == [] then CallsOf(head) else LastCalls(rest)
  {
    if rest == [] {
      assert [head] + run + rest == [head] + run;
      LastCallsTurn(head, run);
    } else {
      LastCallsConcat([head] + run, rest);
    }
  }

  lemma LeaveExact(keep: Keep, s: State)
    requires Enabled(s, Leave) && LiveExact(s)
    ensures LiveExact(Step(keep, s, Leave))
  {
    RepairExact(s.history, s.pending);
    SameLastCalls(s.history, s.pending);
    if s.waiting.WaitingOn? {
      AskedLastFits(Repair(s.history, s.pending));
    }
  }

  lemma ResumeExact(keep: Keep, s: State, answer: string)
    requires Enabled(s, Resume(answer)) && LiveExact(s)
    ensures LiveExact(Step(keep, s, Resume(answer)))
  {
    var t := Tool(OpenQuestion(s.history).id, Answer(answer));
    ExactSnoc(s.history, t);
    RepairExact(s.history + [t], "");
  }

  lemma SuspendExact(keep: Keep, s: State)
    requires Enabled(s, Suspend) && LiveExact(s)
    ensures LiveExact(Step(keep, s, Suspend))
  {
    assert s.phase.todo[0] in s.phase.todo;
    AsksAreCalls(LastCalls(s.history));
  }

  lemma StepExact(keep: Keep, s: State, a: Action)
    requires Enabled(s, a) && RestartExact(keep, s, a) && LiveExact(s) && PairInv(s)
    ensures LiveExact(Step(keep, s, a))
  {
    match a
    case StartRun(_) => RepairExact(s.history, "");
    case Resume(answer) => ResumeExact(keep, s, answer);
    case Request(p) => RequestExact(keep, s, p);
    case Draft(text) => SaidExact(s.history, Assistant(text, []));
    case RejectFinal(correction) => SaidExact(s.history, User(correction));
    case Finish(text) => SaidExact(s.history, Assistant(text, []));
    case CallTools(text, calls) => SaidExact(s.history, Assistant(text, calls));
    case Block(result) => SettledExact(s, Text(result), Step(keep, s, a));
    case BadSuspension(result) => SettledExact(s, Text(result), Step(keep, s, a));
    case RunTool(raw) => SettledExact(s, Text(keep(NameOf(s.phase.todo[0]), raw)), Step(keep, s, a));
    case Suspend => SuspendExact(keep, s);
    case Finalize(raw, closing) => FinalizeExact(keep, s, raw, closing);
    case Leave => LeaveExact(keep, s);
    case _ =>
  }

  ghost predicate AllRestartsExact(keep: Keep, s: State, actions: seq<Action>)
    requires Legal(keep, s, actions)
    decreases |actions|
  {
    actions == [] || (RestartExact(keep, s, actions[0]) && AllRestartsExact(keep, Step(keep, s, actions[0]), actions[1..]))
  }

  lemma {:induction false} RunExact(keep: Keep, s: State, actions: seq<Action>)
    requires Legal(keep, s, actions) && AllRestartsExact(keep, s, actions) && LiveExact(s) && PairInv(s)
    ensures LiveExact(Exec(keep, s, actions))
    decreases |actions|
  {
    if actions != [] {
      StepExact(keep, s, actions[0]);
      StepKeepsPairs(keep, s, actions[0]);
      RunExact(keep, Step(keep, s, actions[0]), actions[1..]);
    }
  }

  /**
   * In every session whose restarts find an exact conversation in the log, each request of the main
   * loop holds, after each turn, only results of that turn's own calls: live steps make no foreign result.
   */
  lemma RequestsExact(keep: Keep, actions: seq<Action>)
    requires Legal(keep, NEW_SESSION, actions) && AllRestartsExact(keep, NEW_SESSION, actions)
    ensures forall r :: r in Exec(keep, NEW_SESSION, actions).sent ==> Exact(r) && Paired(r, "")
  {
    RunExact(keep, NEW_SESSION, actions);
    RequestsPaired(keep, NEW_SESSION, actions);
  }
}
