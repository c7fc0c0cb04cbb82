// What a reply and a whole run do to the conversation, the log and the waiting question, said in terms
// of the script and of these fields alone (server/agent/engine.go, Run).
module RunMeaning {
  import opened Conversation
  import opened Compaction
  import opened HistoryFold
  import opened Session
  import opened RunPath
  import opened Strings

  // ----- one call -----

  /** The call ends the run: it waits for the user, was cancelled, or delivered the report. */
  predicate Ends(call: Call, outcome: Outcome) {
    && !outcome.Refused?
    && if call.Ask? then !outcome.InvalidArguments? else outcome.Delivered? || outcome.Cancelled? || outcome.CancelledLate?
  }

  /** What the history says a call returned: a tool's own result goes through `keep`, what the engine says does not. */
  function AnswerTo(keep: Keep, call: Call, outcome: Outcome): Content {
    match outcome
    case Refused(result) => Text(result)
    case InvalidArguments(result) => Text(if call.Ask? then result else keep(NameOf(call), result))
    case Returned(raw) => Text(keep(NameOf(call), raw))
    case Delivered(raw, _) => Text(keep(NameOf(call), raw))
    case _ => Unrecorded(NameOf(call))
  }

  function EventsOf(call: Call, outcome: Outcome): seq<Event> {
    match outcome
    case Refused(result) => [ToolCall(call), Other, ToolResult(call.id, NameOf(call), result)]
    case InvalidArguments(result) => (if call.Ask? then [] else [ToolCall(call)]) + [ToolResult(call.id, NameOf(call), result)]
    case Returned(raw) => [ToolCall(call), ToolResult(call.id, NameOf(call), raw)]
    case Delivered(raw, _) => [ToolCall(call), ToolResult(call.id, NameOf(call), raw)]
    case Cancelled => [ToolCall(call)]
    case CancelledLate(raw) => [ToolCall(call), ToolResult(call.id, NameOf(call), raw)]
  }

  /** The results of the calls from the j-th up to the e-th, one each, in order. */
  function Answers(keep: Keep, calls: seq<Call>, outcomes: seq<Outcome>, j: nat, e: nat): seq<Item>
    requires j <= e <= |calls|
    decreases e - j
  {
    if j == e then []
    else [Tool(calls[j].id, AnswerTo(keep, calls[j], OutcomeOf(outcomes, j)))] + Answers(keep, calls, outcomes, j + 1, e)
  }

  function Events(calls: seq<Call>, outcomes: seq<Outcome>, j: nat, e: nat): seq<Event>
    requires j <= e <= |calls|
    decreases e - j
  {
    if j == e then [] else EventsOf(calls[j], OutcomeOf(outcomes, j)) + Events(calls, outcomes, j + 1, e)
  }

  /** What the call that ends the run adds. */
  ghost predicate EndTaken(keep: Keep, s: State, call: Call, outcome: Outcome, s': State) {
    && s'.phase.Leaving?
    && if call.Ask? then
         && s'.history == s.history && s'.log == s.log + [UserRequestInput(s.run, call.id)]
         && s'.pending == call.id && s'.waiting == WaitingOn(s.run)
       else
         && s'.pending == s.pending && s'.waiting == s.waiting
         && match outcome
            case Delivered(raw, closing) =>
              var t := Tool(call.id, AnswerTo(keep, call, outcome));
              if closing.Closing? && !Blank(closing.summary) then
                && s'.history == s.history + [t, Assistant(closing.summary, [])]
                && s'.log == s.log + EventsOf(call, outcome) + [RunCompleted(closing.summary)]
              else
                s'.history == s.history + [t] && s'.log == s.log + EventsOf(call, outcome) + [RunStopped]
            case _ => s'.history == s.history && s'.log == s.log + EventsOf(call, outcome) + [RunStopped]
  }

  // ----- one batch -----

  /** What no step of a reply touches. */
  predicate Framed(s: State, s': State) {
    s'.omitted == s.omitted && s'.summary == s.summary && s'.sent == s.sent && s'.run == s.run && s'.nextRun == s.nextRun
  }

  predicate NoneEnds(calls: seq<Call>, outcomes: seq<Outcome>, j: nat, e: nat)
    requires e <= |calls|
  {
    forall i :: j <= i < e ==> !Ends(calls[i], OutcomeOf(outcomes, i))
  }

  /** The calls from the j-th up to the e-th are answered; the e-th, if there is one, ends the run. */
  ghost predicate BatchUpTo(keep: Keep, s: State, calls: seq<Call>, outcomes: seq<Outcome>, j: nat, e: nat, s': State, over: bool) {
    && j <= e <= |calls| && NoneEnds(calls, outcomes, j, e)
    && (over <==> e < |calls|) && Framed(s, s')
    && var t := s.(history := s.history + Answers(keep, calls, outcomes, j, e), log := s.log + Events(calls, outcomes, j, e));
       if e == |calls| then s' == t.(phase := Batch([]))
       else Ends(calls[e], OutcomeOf(outcomes, e)) && EndTaken(keep, t, calls[e], OutcomeOf(outcomes, e), s')
  }

  ghost predicate BatchTaken(keep: Keep, s: State, calls: seq<Call>, outcomes: seq<Outcome>, s': State, over: bool) {
    exists e: nat :: BatchUpTo(keep, s, calls, outcomes, 0, e, s', over)
  }

  // ----- one reply -----

  predicate Empty(reply: Reply) {
    reply.NoReply? || (reply.text == "" && reply.calls == [])
  }

  predicate TextOnly(reply: Reply) {
    reply.Reply? && reply.text != "" && reply.calls == []
  }

  /** A suspending call stands next to others. */
  predicate Misplaced(calls: seq<Call>) {
    |calls| > 1 && exists i :: 0 <= i < |calls| && calls[i].Ask?
  }

  /** The turn of a reply with calls enters the history, its text the log. */
  function Opened(s: State, reply: Reply): State
    requires reply.Reply?
  {
    s.(history := s.history + [Assistant(reply.text, reply.calls)], log := s.log + StatusEvents(reply.text), phase := Batch(reply.calls))
  }

  function BackAtHead(s: State): State {
    s.(phase := Ready("", false))
  }

  /**
   * What becomes of a reply, given the leaked-markup replies refused so far: nothing usable fails the
   * run; text is a draft of an unfinished report, or leaked markup that is refused twice at most, or
   * the final answer; calls are refused as a batch, or taken one after the other.
   */
  ghost predicate ReplyTaken(keep: Keep, s: State, reply: Reply, rejects: nat, s': State, over: bool, rejected: nat) {
    && (Empty(reply) ==>
          over && rejected == rejects && s' == s.(log := s.log + [RunStopped], phase := Leaving))
    && (TextOnly(reply) && reply.unfinishedReport ==>
          && !over && rejected == rejects
          && s' == s.(history := s.history + [Assistant(reply.text, [])], log := s.log + [AssistantStatus(reply.text)], phase := Ready("", true)))
    && (TextOnly(reply) && !reply.unfinishedReport && reply.rawMarkup && rejects < 2 ==>
          && !over && rejected == rejects + 1
          && s' == s.(history := s.history + [User(CORRECTION)], log := s.log + [SystemFeedback(CORRECTION)], phase := Ready("", false)))
    && (TextOnly(reply) && !reply.unfinishedReport && !(reply.rawMarkup && rejects < 2) ==>
          && over && rejected == rejects
          && s' == s.(history := s.history + [Assistant(reply.text, [])], log := s.log + [RunCompleted(reply.text)], phase := Leaving))
    && (reply.Reply? && reply.calls != [] && Misplaced(reply.calls) ==>
          && over && rejected == rejects
          && s' == s.(log := s.log + StatusEvents(reply.text) + [RunStopped], phase := Leaving))
    && (reply.Reply? && reply.calls != [] && !Misplaced(reply.calls) ==>
          && rejected == rejects
          && exists t :: BatchTaken(keep, Opened(s, reply), reply.calls, reply.outcomes, t, over) && s' == if over then t else BackAtHead(t))
  }

  /** The same, stated of every x equal to the reply, so that a proof unfolds it only on demand. */
  ghost predicate Replied(keep: Keep, s: State, reply: Reply, rejects: nat, s': State, over: bool, rejected: nat) {
    forall x | x == reply :: ReplyTaken(keep, s, x, rejects, s', over, rejected)
  }

  // ----- one request, the way out, the whole run -----

  /** The request carries the history after a compaction, if one is due; then the user's turn enters it. */
  ghost predicate RequestTaken(s: State, pressure: Pressure, s': State) {
    s.phase.Ready? &&
    var span := SelectSpan(s.history);
    var shown := pressure.Digest? && !Blank(pressure.summary);
    var kept := if pressure.NoPressure? || span.Shadowed() <= 0 then s.history else s.history[..span.pinned] + s.history[span.end..];
    && s'.sent == s.sent + [kept]
    && s'.history == kept + (if s.phase.task == "" then [] else [User(s.phase.task)])
    && s'.phase.Replying?
    && s'.pending == s.pending && s'.waiting == s.waiting && s'.run == s.run && s'.nextRun == s.nextRun
    && if pressure.NoPressure? || span.Shadowed() <= 0 then s'.log == s.log && s'.omitted == s.omitted && s'.summary == s.summary
       else if shown then
         && s'.log == s.log + [HistoryCompacted(span.pinned, span.Shadowed(), Summarized, TrimSpace(pressure.summary))]
         && s'.omitted == s.omitted && s'.summary == TrimSpace(pressure.summary)
       else
         && s'.log == s.log + [HistoryCompacted(span.pinned, span.Shadowed(), Trimmed, "")]
         && s'.omitted == s.omitted + span.Shadowed() && s'.summary == s.summary
  }

  /** The deferred repair. */
  function Left(s: State): State {
    s.(history := Repair(s.history, s.pending), phase := Idle)
  }

  /** From the loop head on: each turn a request and its reply, until one ends the run or the context is done. */
  ghost predicate RunTaken(keep: Keep, s: State, script: seq<Turn>, i: nat, rejects: nat, s': State)
    requires i <= |script|
    decreases |script| - i, 0
  {
    if i == |script| || script[i].cancelled then s' == Left(s.(log := s.log + [RunStopped]))
    else exists r, t, over, rejected ::
           && RequestTaken(s, script[i].pressure, r) && Replied(keep, r, script[i].reply, rejects, t, over, rejected)
           && Goes(keep, t, script, i + 1, over, rejected, s')
  }

  /** After a reply: the way out, or the turns to come. */
  ghost predicate Goes(keep: Keep, t: State, script: seq<Turn>, i: nat, over: bool, rejected: nat, s': State)
    requires i <= |script|
    decreases |script| - i, 1
  {
    if over then s' == Left(t) else RunTaken(keep, t, script, i, rejected, s')
  }

  /** The first turn of what is left of a run. */
  lemma FirstTurnOf(keep: Keep, s: State, script: seq<Turn>, i: nat, rejects: nat, s': State) returns (r: State, t: State, over: bool, rejected: nat)
    requires i < |script| && !script[i].cancelled && RunTaken(keep, s, script, i, rejects, s')
    ensures RequestTaken(s, script[i].pressure, r) && Replied(keep, r, script[i].reply, rejects, t, over, rejected)
    ensures Goes(keep, t, script, i + 1, over, rejected, s')
  {
    r, t, over, rejected :|
      && RequestTaken(s, script[i].pressure, r) && Replied(keep, r, script[i].reply, rejects, t, over, rejected)
      && Goes(keep, t, script, i + 1, over, rejected, s');
  }

  /** The batch of a reply with calls, up to its e-th. */
  lemma BatchOf(keep: Keep, s: State, reply: Reply, rejects: nat, s': State, over: bool, rejected: nat) returns (e: nat, t: State)
    requires Replied(keep, s, reply, rejects, s', over, rejected) && reply.Reply? && reply.calls != [] && !Misplaced(reply.calls)
    ensures BatchUpTo(keep, Opened(s, reply), reply.calls, reply.outcomes, 0, e, t, over)
    ensures rejected == rejects && s' == if over then t else BackAtHead(t)
  {
    assert ReplyTaken(keep, s, reply, rejects, s', over, rejected);
    t :| BatchTaken(keep, Opened(s, reply), reply.calls, reply.outcomes, t, over) && s' == if over then t else BackAtHead(t);
    e :| BatchUpTo(keep, Opened(s, reply), reply.calls, reply.outcomes, 0, e, t, over);
  }

  // ----- the path of the machine does that -----

  lemma ExecCons(keep: Keep, s: State, a: Action, rest: seq<Action>)
    requires Legal(keep, s, [a] + rest)
    ensures Enabled(s, a) && Legal(keep, Step(keep, s, a), rest)
    ensures Exec(keep, s, [a] + rest) == Exec(keep, Step(keep, s, a), rest)
  {
    assert ([a] + rest)[0] == a && ([a] + rest)[1..] == rest;
  }

  lemma ExecOne(keep: Keep, s: State, a: Action)
    requires Legal(keep, s, [a])
    ensures Enabled(s, a) && Exec(keep, s, [a]) == Step(keep, s, a)
  {
    assert [a] + [] == [a];
    ExecCons(keep, s, a, []);
  }

  lemma {:induction false} ExecSplit(keep: Keep, s: State, a: seq<Action>, b: seq<Action>)
    requires Legal(keep, s, a + b)
    ensures Legal(keep, s, a) && Legal(keep, Exec(keep, s, a), b)
    ensures Exec(keep, s, a + b) == Exec(keep, Exec(keep, s, a), b)
    decreases |a|
  {
    if a == [] {
      assert a + b == b;
    } else {
      assert a + b == [a[0]] + (a[1..] + b) && a == [a[0]] + a[1..];
      ExecCons(keep, s, a[0], a[1..] + b);
      ExecSplit(keep, Step(keep, s, a[0]), a[1..], b);
    }
  }

  /** A call that does not end the run. */
  lemma CallAnswers(keep: Keep, s: State, call: Call, outcome: Outcome)
    requires s.phase.Batch? && s.phase.todo != [] && s.phase.todo[0] == call && !Ends(call, outcome)
    requires Enabled(s, CallStep(call, outcome))
    ensures !EndsRun(CallStep(call, outcome))
    ensures Step(keep, s, CallStep(call, outcome))
         == s.(history := s.history + [Tool(call.id, AnswerTo(keep, call, outcome))], log := s.log + EventsOf(call, outcome),
               phase := Batch(s.phase.todo[1..]))
  {
  }

  lemma CallEnds(keep: Keep, s: State, call: Call, outcome: Outcome)
    requires s.phase.Batch? && s.phase.todo != [] && s.phase.todo[0] == call && Ends(call, outcome)
    requires Enabled(s, CallStep(call, outcome))
    ensures EndsRun(CallStep(call, outcome))
    ensures var s' := Step(keep, s, CallStep(call, outcome)); EndTaken(keep, s, call, outcome, s') && Framed(s, s')
  {
  }

  lemma JoinAnswered(h: seq<Item>, t: Item, more: seq<Item>, l: seq<Event>, es: seq<Event>, rest: seq<Event>)
    ensures h + [t] + more == h + ([t] + more) && l + es + rest == l + (es + rest)
  {
  }

  lemma BatchGrows(keep: Keep, s: State, calls: seq<Call>, outcomes: seq<Outcome>, j: nat, e: nat, mid: State, s': State, over: bool)
    requires j < |calls| && !Ends(calls[j], OutcomeOf(outcomes, j))
    requires mid == s.(history := s.history + [Tool(calls[j].id, AnswerTo(keep, calls[j], OutcomeOf(outcomes, j)))],
                       log := s.log + EventsOf(calls[j], OutcomeOf(outcomes, j)), phase := mid.phase)
    requires BatchUpTo(keep, mid, calls, outcomes, j + 1, e, s', over)
    ensures BatchUpTo(keep, s, calls, outcomes, j, e, s', over)
  {
    JoinAnswered(s.history, Tool(calls[j].id, AnswerTo(keep, calls[j], OutcomeOf(outcomes, j))), Answers(keep, calls, outcomes, j + 1, e),
                 s.log, EventsOf(calls[j], OutcomeOf(outcomes, j)), Events(calls, outcomes, j + 1, e));
  }

  lemma {:induction false} BatchMeans(keep: Keep, s: State, calls: seq<Call>, outcomes: seq<Outcome>, j: nat) returns (e: nat)
    requires j <= |calls| && s.phase == Batch(calls[j..]) && Legal(keep, s, BatchPath(calls, outcomes, j).0)
    ensures BatchUpTo(keep, s, calls, outcomes, j, e, Exec(keep, s, BatchPath(calls, outcomes, j).0), BatchPath(calls, outcomes, j).1)
    decreases |calls| - j
  {
    if j == |calls| {
      e := j;
      assert s.history + [] == s.history && s.log + [] == s.log;
    } else {
      var call, outcome := calls[j], OutcomeOf(outcomes, j);
      var a := CallStep(call, outcome);
      assert calls[j..][0] == call && calls[j..][1..] == calls[j + 1..];
      if Ends(call, outcome) {
        e := j;
        EndPath(keep, s, calls, outcomes, j);
      } else {
        var rest := BatchPath(calls, outcomes, j + 1);
        NoEndPath(keep, s, call, outcome);
        assert BatchPath(calls, outcomes, j).0 == [a] + rest.0;
        ExecCons(keep, s, a, rest.0);
        CallAnswers(keep, s, call, outcome);
        e := BatchMeans(keep, Step(keep, s, a), calls, outcomes, j + 1);
        BatchGrows(keep, s, calls, outcomes, j, e, Step(keep, s, a), Exec(keep, s, [a] + rest.0), rest.1);
      }
    }
  }

  lemma NoEndPath(keep: Keep, s: State, call: Call, outcome: Outcome)
    requires !Ends(call, outcome)
    ensures !EndsRun(CallStep(call, outcome))
  {
  }

  lemma EndPath(keep: Keep, s: State, calls: seq<Call>, outcomes: seq<Outcome>, j: nat)
    requires j < |calls| && s.phase == Batch(calls[j..]) && Ends(calls[j], OutcomeOf(outcomes, j))
    requires Legal(keep, s, BatchPath(calls, outcomes, j).0)
    ensures BatchUpTo(keep, s, calls, outcomes, j, j, Exec(keep, s, BatchPath(calls, outcomes, j).0), BatchPath(calls, outcomes, j).1)
  {
    var call, outcome := calls[j], OutcomeOf(outcomes, j);
    var a := CallStep(call, outcome);
    assert calls[j..][0] == call;
    assert EndsRun(a);
    ExecOne(keep, s, a);
    CallEnds(keep, s, call, outcome);
    assert s.history + [] == s.history && s.log + [] == s.log;
    assert s.(history := s.history, log := s.log) == s;
  }

  lemma MisplacedIsInvalid(calls: seq<Call>)
    requires calls != []
    ensures ValidBatch(calls) <==> !Misplaced(calls)
  {
    if Misplaced(calls) {
      var i :| 0 <= i < |calls| && calls[i].Ask?;
      assert calls[i] in calls;
    }
    if !ValidBatch(calls) {
      var c :| c in calls && c.Ask?;
      var i :| 0 <= i < |calls| && calls[i] == c;
    }
  }

  lemma TextMeans(keep: Keep, s: State, reply: Reply, rejects: nat)
    requires s.phase.Replying? && (Empty(reply) || TextOnly(reply)) && Legal(keep, s, ReplyPath(reply, rejects).0)
    ensures var p := ReplyPath(reply, rejects); ReplyTaken(keep, s, reply, rejects, Exec(keep, s, p.0), p.1, p.2)
  {
    var p := ReplyPath(reply, rejects);
    assert p.0 == [p.0[0]];
    ExecOne(keep, s, p.0[0]);
  }

  lemma BadBatchMeans(keep: Keep, s: State, reply: Reply, rejects: nat)
    requires s.phase.Replying? && reply.Reply? && reply.calls != [] && Misplaced(reply.calls)
    requires Legal(keep, s, ReplyPath(reply, rejects).0)
    ensures var p := ReplyPath(reply, rejects); ReplyTaken(keep, s, reply, rejects, Exec(keep, s, p.0), p.1, p.2)
  {
    MisplacedIsInvalid(reply.calls);
    ExecOne(keep, s, BadBatch(reply.text));
    assert s.log + StatusEvents(reply.text) + [RunStopped] == s.log + (StatusEvents(reply.text) + [RunStopped]);
  }

  lemma CallsMean(keep: Keep, s: State, reply: Reply, rejects: nat)
    requires s.phase.Replying? && reply.Reply? && reply.calls != [] && !Misplaced(reply.calls)
    requires Legal(keep, s, ReplyPath(reply, rejects).0)
    ensures var p := ReplyPath(reply, rejects); ReplyTaken(keep, s, reply, rejects, Exec(keep, s, p.0), p.1, p.2)
  {
    MisplacedIsInvalid(reply.calls);
    var p, batch := ReplyPath(reply, rejects), BatchPath(reply.calls, reply.outcomes, 0);
    var end := if batch.1 then [] else [EndBatch];
    var open := CallTools(reply.text, reply.calls);
    assert p.0 == [open] + (batch.0 + end);
    ExecCons(keep, s, open, batch.0 + end);
    var s1 := Step(keep, s, open);
    assert s1 == Opened(s, reply) && reply.calls[0..] == reply.calls;
    ExecSplit(keep, s1, batch.0, end);
    var e := BatchMeans(keep, s1, reply.calls, reply.outcomes, 0);
    var t := Exec(keep, s1, batch.0);
    if !batch.1 {
      ExecOne(keep, t, EndBatch);
    }
    assert BatchTaken(keep, Opened(s, reply), reply.calls, reply.outcomes, t, batch.1);
  }

  /** Every reply is taken as that says. */
  lemma ReplyMeans(keep: Keep, s: State, reply: Reply, rejects: nat)
    requires s.phase.Replying? && Legal(keep, s, ReplyPath(reply, rejects).0)
    ensures var p := ReplyPath(reply, rejects); ReplyTaken(keep, s, reply, rejects, Exec(keep, s, p.0), p.1, p.2)
  {
    if Empty(reply) || TextOnly(reply) {
      TextMeans(keep, s, reply, rejects);
    } else if Misplaced(reply.calls) {
      BadBatchMeans(keep, s, reply, rejects);
    } else {
      CallsMean(keep, s, reply, rejects);
    }
  }

  lemma RequestMeans(keep: Keep, s: State, pressure: Pressure)
    requires Enabled(s, Request(AsPressure(pressure)))
    ensures RequestTaken(s, pressure, Step(keep, s, Request(AsPressure(pressure))))
  {
  }

  /** The steps after a reply: the way out or the turns to come. */
  function RestPath(script: seq<Turn>, i: nat, over: bool, rejected: nat): seq<Action>
    requires i <= |script|
  {
    if over then [Leave] else LoopPath(script, i, rejected)
  }

  lemma LoopPathSplit(script: seq<Turn>, i: nat, rejects: nat)
    requires i < |script| && !script[i].cancelled
    ensures var reply := ReplyPath(script[i].reply, rejects);
            LoopPath(script, i, rejects)
            == [Request(AsPressure(script[i].pressure))] + (reply.0 + RestPath(script, i + 1, reply.1, reply.2))
  {
    var reply := ReplyPath(script[i].reply, rejects);
    Regroup([Request(AsPressure(script[i].pressure))], reply.0, RestPath(script, i + 1, reply.1, reply.2));
  }

  lemma RestMeans(keep: Keep, r: State, reply: Reply, rejects: nat, rest: seq<Action>) returns (t: State)
    requires r.phase.Replying? && Legal(keep, r, ReplyPath(reply, rejects).0 + rest)
    ensures var p := ReplyPath(reply, rejects); Replied(keep, r, reply, rejects, t, p.1, p.2)
    ensures Legal(keep, t, rest) && Exec(keep, r, ReplyPath(reply, rejects).0 + rest) == Exec(keep, t, rest)
  {
    ExecSplit(keep, r, ReplyPath(reply, rejects).0, rest);
    ReplyMeans(keep, r, reply, rejects);
    t := Exec(keep, r, ReplyPath(reply, rejects).0);
  }

  lemma TurnMeans(keep: Keep, s: State, script: seq<Turn>, i: nat, rejects: nat) returns (r: State, t: State)
    requires i < |script| && !script[i].cancelled && s.phase.Ready? && Legal(keep, s, LoopPath(script, i, rejects))
    ensures var reply := ReplyPath(script[i].reply, rejects); var rest := RestPath(script, i + 1, reply.1, reply.2);
            && RequestTaken(s, script[i].pressure, r) && Replied(keep, r, script[i].reply, rejects, t, reply.1, reply.2)
            && Legal(keep, t, rest) && Exec(keep, s, LoopPath(script, i, rejects)) == Exec(keep, t, rest)
  {
    var request, reply := Request(AsPressure(script[i].pressure)), ReplyPath(script[i].reply, rejects);
    var rest := RestPath(script, i + 1, reply.1, reply.2);
    LoopPathSplit(script, i, rejects);
    ExecCons(keep, s, request, reply.0 + rest);
    RequestMeans(keep, s, script[i].pressure);
    r := Step(keep, s, request);
    t := RestMeans(keep, r, script[i].reply, rejects, rest);
  }

  /** And so is every run, turn by turn. */
  lemma {:induction false} RunMeans(keep: Keep, s: State, script: seq<Turn>, i: nat, rejects: nat)
    requires i <= |script| && s.phase.Ready? && Legal(keep, s, LoopPath(script, i, rejects))
    ensures RunTaken(keep, s, script, i, rejects, Exec(keep, s, LoopPath(script, i, rejects)))
    decreases |script| - i
  {
    if i == |script| || script[i].cancelled {
      StopMeans(keep, s);
    } else {
      var reply := ReplyPath(script[i].reply, rejects);
      var r, t := TurnMeans(keep, s, script, i, rejects);
      if reply.1 {
        ExecOne(keep, t, Leave);
        TurnEndsRun(keep, s, script, i, rejects, r, t, reply.2, Left(t));
      } else {
        ReplyGoesOn(keep, r, script[i].reply, rejects, t, reply.2);
        RunMeans(keep, t, script, i + 1, reply.2);
        TurnGoesOn(keep, s, script, i, rejects, r, t, reply.2, Exec(keep, t, LoopPath(script, i + 1, reply.2)));
      }
    }
  }

  lemma TurnEndsRun(keep: Keep, s: State, script: seq<Turn>, i: nat, rejects: nat, r: State, t: State, rejected: nat, s': State)
    requires i < |script| && !script[i].cancelled && RequestTaken(s, script[i].pressure, r)
    requires Replied(keep, r, script[i].reply, rejects, t, true, rejected) && s' == Left(t)
    ensures RunTaken(keep, s, script, i, rejects, s')
  {
  }

  lemma TurnGoesOn(keep: Keep, s: State, script: seq<Turn>, i: nat, rejects: nat, r: State, t: State, rejected: nat, s': State)
    requires i < |script| && !script[i].cancelled && RequestTaken(s, script[i].pressure, r)
    requires Replied(keep, r, script[i].reply, rejects, t, false, rejected) && RunTaken(keep, t, script, i + 1, rejected, s')
    ensures RunTaken(keep, s, script, i, rejects, s')
  {
  }

  lemma StopMeans(keep: Keep, s: State)
    requires Legal(keep, s, [Stop, Leave])
    ensures Exec(keep, s, [Stop, Leave]) == Left(s.(log := s.log + [RunStopped]))
  {
    assert [Stop] + [Leave] == [Stop, Leave];
    ExecCons(keep, s, Stop, [Leave]);
    ExecOne(keep, Step(keep, s, Stop), Leave);
  }

  lemma ReplyGoesOn(keep: Keep, s: State, reply: Reply, rejects: nat, s': State, rejected: nat)
    requires Replied(keep, s, reply, rejects, s', false, rejected)
    ensures s'.phase.Ready?
  {
    assert ReplyTaken(keep, s, reply, rejects, s', false, rejected);
  }

  // ----- the calls of a batch, one by one -----

  lemma {:induction false} EventsSplit(calls: seq<Call>, outcomes: seq<Outcome>, i: nat, j: nat, e: nat)
    requires i <= j <= e <= |calls|
    ensures Events(calls, outcomes, i, e) == Events(calls, outcomes, i, j) + Events(calls, outcomes, j, e)
    decreases j - i
  {
    if i == j {
      assert [] + Events(calls, outcomes, j, e) == Events(calls, outcomes, j, e);
    } else {
      EventsSplit(calls, outcomes, i + 1, j, e);
      var first := EventsOf(calls[i], OutcomeOf(outcomes, i));
      assert first + (Events(calls, outcomes, i + 1, j) + Events(calls, outcomes, j, e))
          == first + Events(calls, outcomes, i + 1, j) + Events(calls, outcomes, j, e);
    }
  }

  lemma {:induction false} AnswersAt(keep: Keep, calls: seq<Call>, outcomes: seq<Outcome>, i: nat, e: nat, j: nat)
    requires i <= j < e <= |calls|
    ensures |Answers(keep, calls, outcomes, i, e)| == e - i
    ensures Answers(keep, calls, outcomes, i, e)[j - i] == Tool(calls[j].id, AnswerTo(keep, calls[j], OutcomeOf(outcomes, j)))
    decreases j - i, e
  {
    AnswersCount(keep, calls, outcomes, i, e);
    if i < j {
      AnswersAt(keep, calls, outcomes, i + 1, e, j);
    }
  }

  lemma {:induction false} AnswersCount(keep: Keep, calls: seq<Call>, outcomes: seq<Outcome>, i: nat, e: nat)
    requires i <= e <= |calls|
    ensures |Answers(keep, calls, outcomes, i, e)| == e - i
    decreases e - i
  {
    if i < e {
      AnswersCount(keep, calls, outcomes, i + 1, e);
    }
  }

  /** Where the events of call j begin: behind those of the calls before it. */
  function PlaceOf(s: State, calls: seq<Call>, outcomes: seq<Outcome>, j: nat): nat
    requires j <= |calls|
  {
    |s.log| + |Events(calls, outcomes, 0, j)|
  }

  lemma EndKeepsBefore(keep: Keep, t: State, call: Call, outcome: Outcome, s': State)
    requires EndTaken(keep, t, call, outcome, s')
    ensures t.history <= s'.history && t.log <= s'.log
  {
  }

  /**
   * In a batch every call that returned before the run ended has its own result at its own place in the
   * history, and its call and its result next to each other in the log, behind those of the calls before it.
   */
  lemma ReturnedIsKept(keep: Keep, s: State, calls: seq<Call>, outcomes: seq<Outcome>, e: nat, s': State, over: bool, j: nat)
    requires BatchUpTo(keep, s, calls, outcomes, 0, e, s', over) && j < e && OutcomeOf(outcomes, j).Returned?
    ensures var c, raw := calls[j], OutcomeOf(outcomes, j).raw; var p := PlaceOf(s, calls, outcomes, j);
            && |s.history| + j < |s'.history| && s'.history[|s.history| + j] == Tool(c.id, Text(keep(NameOf(c), raw)))
            && PlaceOf(s, calls, outcomes, j + 1) == p + 2 <= |s'.log|
            && s'.log[p] == ToolCall(c) && s'.log[p + 1] == ToolResult(c.id, NameOf(c), raw)
  {
    BatchExtends(keep, s, calls, outcomes, e, s', over);
    AnswersAt(keep, calls, outcomes, 0, e, j);
    PrefixAt(s.history, Answers(keep, calls, outcomes, 0, e), s'.history, j);
    EventsAround(calls, outcomes, e, j);
    EventsInside(s.log, Events(calls, outcomes, 0, j), EventsOf(calls[j], OutcomeOf(outcomes, j)), Events(calls, outcomes, j + 1, e), s'.log);
  }

  /** The answered calls stay, whatever the call that ends the run adds. */
  lemma BatchExtends(keep: Keep, s: State, calls: seq<Call>, outcomes: seq<Outcome>, e: nat, s': State, over: bool)
    requires BatchUpTo(keep, s, calls, outcomes, 0, e, s', over)
    ensures s.history + Answers(keep, calls, outcomes, 0, e) <= s'.history
    ensures s.log + Events(calls, outcomes, 0, e) <= s'.log
  {
    if e < |calls| {
      var t := s.(history := s.history + Answers(keep, calls, outcomes, 0, e), log := s.log + Events(calls, outcomes, 0, e));
      EndKeepsBefore(keep, t, calls[e], OutcomeOf(outcomes, e), s');
    }
  }

  lemma PrefixAt<T>(a: seq<T>, b: seq<T>, c: seq<T>, j: nat)
    requires a + b <= c && j < |b|
    ensures |a| + j < |c| && c[|a| + j] == b[j]
  {
    assert (a + b)[|a| + j] == b[j];
  }

  lemma EventsAround(calls: seq<Call>, outcomes: seq<Outcome>, e: nat, j: nat)
    requires j < e <= |calls|
    ensures Events(calls, outcomes, 0, e)
         == Events(calls, outcomes, 0, j) + (EventsOf(calls[j], OutcomeOf(outcomes, j)) + Events(calls, outcomes, j + 1, e))
    ensures Events(calls, outcomes, 0, j + 1) == Events(calls, outcomes, 0, j) + EventsOf(calls[j], OutcomeOf(outcomes, j))
  {
    EventsSplit(calls, outcomes, 0, j, e);
    EventsSplit(calls, outcomes, 0, j, j + 1);
    OneEvent(calls, outcomes, j);
  }

  lemma OneEvent(calls: seq<Call>, outcomes: seq<Outcome>, j: nat)
    requires j < |calls|
    ensures Events(calls, outcomes, j, j + 1) == EventsOf(calls[j], OutcomeOf(outcomes, j))
  {
    assert EventsOf(calls[j], OutcomeOf(outcomes, j)) + [] == EventsOf(calls[j], OutcomeOf(outcomes, j));
  }

  lemma EventsInside(a: seq<Event>, b: seq<Event>, c: seq<Event>, d: seq<Event>, log: seq<Event>)
    requires a + (b + (c + d)) <= log
    ensures |a| + |b| + |c| <= |log| && forall i :: 0 <= i < |c| ==> log[|a| + |b| + i] == c[i]
  {
    assert forall i :: 0 <= i < |c| ==> (a + (b + (c + d)))[|a| + |b| + i] == c[i];
  }

  // ----- how a run ends -----

  /** The turn does not end the run. */
  predicate GoesOn(turn: Turn, rejects: nat) {
    && !turn.cancelled && !Empty(turn.reply)
    && (TextOnly(turn.reply) ==> turn.reply.unfinishedReport || (turn.reply.rawMarkup && rejects < 2))
    && (turn.reply.calls != [] ==> !Misplaced(turn.reply.calls) && NoneEnds(turn.reply.calls, turn.reply.outcomes, 0, |turn.reply.calls|))
  }

  /** A leaked-markup reply that is refused counts. */
  function RejectsAfter(turn: Turn, rejects: nat): nat
    requires turn.reply.Reply?
  {
    if TextOnly(turn.reply) && !turn.reply.unfinishedReport && turn.reply.rawMarkup && rejects < 2 then rejects + 1 else rejects
  }

  /** The run comes to turn k: no turn before it ends it. `rejects` are the refusals before turn i, `last` those before turn k. */
  predicate ComesTo(script: seq<Turn>, i: nat, rejects: nat, k: nat, last: nat)
    decreases k - i
  {
    && i <= k < |script|
    && if i == k then rejects == last && !script[k].cancelled
       else GoesOn(script[i], rejects) && ComesTo(script, i + 1, RejectsAfter(script[i], rejects), k, last)
  }

  lemma GoingOn(keep: Keep, s: State, turn: Turn, rejects: nat, s': State, over: bool, rejected: nat)
    requires GoesOn(turn, rejects) && Replied(keep, s, turn.reply, rejects, s', over, rejected)
    ensures !over && rejected == RejectsAfter(turn, rejects) && SameQuestion(s, s') && s'.phase.Ready?
  {
    assert ReplyTaken(keep, s, turn.reply, rejects, s', over, rejected);
    if turn.reply.calls != [] {
      var e, t := BatchOf(keep, s, turn.reply, rejects, s', over, rejected);
      assert e == |turn.reply.calls|;
    }
  }

  /** Same run, same question waiting, and a log that only grew. */
  predicate SameQuestion(s: State, s': State) {
    s'.run == s.run && s'.waiting == s.waiting && s'.pending == s.pending && s.log <= s'.log
  }

  lemma RequestSameQuestion(s: State, pressure: Pressure, r: State)
    requires RequestTaken(s, pressure, r)
    ensures SameQuestion(s, r) && r.phase.Replying?
  {
  }

  /** The state r in which turn k of a run gets its reply, and the state t after it. */
  ghost predicate TurnOf(keep: Keep, s: State, script: seq<Turn>, k: nat, rejects: nat, s': State, r: State, t: State, over: bool, rejected: nat)
    requires k < |script|
  {
    && r.phase.Replying? && Replied(keep, r, script[k].reply, rejects, t, over, rejected)
    && SameQuestion(s, r) && Goes(keep, t, script, k + 1, over, rejected, s')
  }

  /** A run that comes to turn k takes its reply there. */
  lemma {:induction false} TurnIsTaken(keep: Keep, s: State, script: seq<Turn>, i: nat, rejects: nat, s': State, k: nat, last: nat)
    returns (r: State, t: State, over: bool, rejected: nat)
    requires i <= |script| && RunTaken(keep, s, script, i, rejects, s') && ComesTo(script, i, rejects, k, last)
    ensures TurnOf(keep, s, script, k, last, s', r, t, over, rejected)
    decreases k - i
  {
    r, t, over, rejected := FirstTurnOf(keep, s, script, i, rejects, s');
    RequestSameQuestion(s, script[i].pressure, r);
    if i < k {
      var mid := t;
      GoingOn(keep, r, script[i], rejects, mid, over, rejected);
      r, t, over, rejected := TurnIsTaken(keep, mid, script, i + 1, rejected, s', k, last);
    }
  }

  lemma LeftKeepsLast(items: seq<Item>, item: Item, skip: string)
    requires !item.Tool? && CallsOf(item) == []
    ensures Repair(items + [item], skip) == Repair(items, skip) + [item]
  {
    RepairConcat(items, [item], skip);
    RepairTurn(item, [], [], skip);
    assert [item] + [] + [] == [item];
  }

  /**
   * A run whose turn k is its final answer ends with it: the history ends in that answer, the log says
   * the run completed with it, and nothing waits for the user that did not before.
   */
  lemma FinalAnswerStands(keep: Keep, s: State, script: seq<Turn>, s': State, k: nat, rejects: nat)
    requires RunTaken(keep, s, script, 0, 0, s') && ComesTo(script, 0, 0, k, rejects)
    requires var reply := script[k].reply; TextOnly(reply) && !reply.unfinishedReport && !(reply.rawMarkup && rejects < 2)
    ensures var text := script[k].reply.text;
            && s'.history != [] && s'.history[|s'.history| - 1] == Assistant(text, [])
            && s'.log != [] && s'.log[|s'.log| - 1] == RunCompleted(text)
            && s'.phase.Idle? && s'.waiting == s.waiting
  {
    var r, t, over, rejected := TurnIsTaken(keep, s, script, 0, 0, s', k, rejects);
    AnswerEnds(keep, r, script[k].reply, rejects, t, over, rejected);
    LeftKeepsLast(r.history, Assistant(script[k].reply.text, []), t.pending);
  }

  lemma AnswerEnds(keep: Keep, s: State, reply: Reply, rejects: nat, s': State, over: bool, rejected: nat)
    requires Replied(keep, s, reply, rejects, s', over, rejected)
    requires TextOnly(reply) && !reply.unfinishedReport && !(reply.rawMarkup && rejects < 2)
    ensures over && s'.history == s.history + [Assistant(reply.text, [])] && s'.log == s.log + [RunCompleted(reply.text)]
    ensures s'.waiting == s.waiting
  {
    assert ReplyTaken(keep, s, reply, rejects, s', over, rejected);
  }

  /** A run whose turn k asks the user ends with the question open: logged under the run, which waits for its answer. */
  lemma QuestionStaysOpen(keep: Keep, s: State, script: seq<Turn>, s': State, k: nat, rejects: nat, id: string)
    requires RunTaken(keep, s, script, 0, 0, s') && ComesTo(script, 0, 0, k, rejects) && id != ""
    requires var reply := script[k].reply; reply.Reply? && reply.calls == [Ask(id)] && Ends(Ask(id), OutcomeOf(reply.outcomes, 0))
    ensures && s'.history != [] && s'.history[|s'.history| - 1] == Assistant(script[k].reply.text, [Ask(id)])
            && s'.log != [] && s'.log[|s'.log| - 1] == UserRequestInput(s.run, id)
            && s'.phase.Idle? && s'.pending == id && s'.waiting == WaitingOn(s.run)
  {
    var r, t, over, rejected := TurnIsTaken(keep, s, script, 0, 0, s', k, rejects);
    var reply := script[k].reply;
    var e, u := BatchOf(keep, r, reply, rejects, t, over, rejected);
    assert e == 0;
    AskEnds(keep, Opened(r, reply), reply.outcomes, u, over, id);
    LeftKeepsQuestion(r.history, reply.text, id);
  }

  lemma AskEnds(keep: Keep, s: State, outcomes: seq<Outcome>, s': State, over: bool, id: string)
    requires BatchUpTo(keep, s, [Ask(id)], outcomes, 0, 0, s', over)
    ensures over && s'.phase.Leaving? && s'.history == s.history && s'.log == s.log + [UserRequestInput(s.run, id)]
    ensures s'.pending == id && s'.waiting == WaitingOn(s.run)
  {
    assert s.history + [] == s.history && s.log + [] == s.log;
  }

  lemma LeftKeepsQuestion(items: seq<Item>, text: string, id: string)
    requires id != ""
    ensures Repair(items + [Assistant(text, [Ask(id)])], id) == Repair(items, id) + [Assistant(text, [Ask(id)])]
  {
    var head := Assistant(text, [Ask(id)]);
    RepairConcat(items, [head], id);
    RepairTurn(head, [], [], id);
    assert [head] + [] + [] == [head];
    assert Missing([Ask(id)][1..], Answered([]), id) == [];
  }

  lemma {:induction false} RunLogs(keep: Keep, s: State, script: seq<Turn>, i: nat, rejects: nat, s': State)
    requires i <= |script| && RunTaken(keep, s, script, i, rejects, s')
    ensures s.log <= s'.log
    decreases |script| - i
  {
    if i < |script| && !script[i].cancelled {
      var r, t, over, rejected := FirstTurnOf(keep, s, script, i, rejects, s');
      RequestSameQuestion(s, script[i].pressure, r);
      ReplyLogs(keep, r, script[i].reply, rejects, t, over, rejected);
      if !over {
        RunLogs(keep, t, script, i + 1, rejected, s');
      }
    }
  }

  lemma ReplyLogs(keep: Keep, s: State, reply: Reply, rejects: nat, s': State, over: bool, rejected: nat)
    requires Replied(keep, s, reply, rejects, s', over, rejected)
    ensures s.log <= s'.log
  {
    assert ReplyTaken(keep, s, reply, rejects, s', over, rejected);
    if reply.Reply? && reply.calls != [] && !Misplaced(reply.calls) {
      var e, t := BatchOf(keep, s, reply, rejects, s', over, rejected);
      BatchLogs(keep, Opened(s, reply), reply.calls, reply.outcomes, e, t, over);
    }
  }

  lemma BatchLogs(keep: Keep, s: State, calls: seq<Call>, outcomes: seq<Outcome>, e: nat, s': State, over: bool)
    requires BatchUpTo(keep, s, calls, outcomes, 0, e, s', over)
    ensures s.log <= s'.log
  {
    BatchExtends(keep, s, calls, outcomes, e, s', over);
  }

  lemma GoesLogs(keep: Keep, t: State, script: seq<Turn>, i: nat, over: bool, rejected: nat, s': State)
    requires i <= |script| && Goes(keep, t, script, i, over, rejected, s')
    ensures t.log <= s'.log
  {
    if !over {
      RunLogs(keep, t, script, i, rejected, s');
    }
  }

  /** Call j of the reply returned, and no call before it ended the run. */
  predicate Returns(reply: Reply, j: nat)
    requires reply.Reply?
  {
    j < |reply.calls| && reply.calls[j].Call? && OutcomeOf(reply.outcomes, j).Returned? && NoneEnds(reply.calls, reply.outcomes, 0, j)
  }

  lemma ReturnsBeforeEnd(keep: Keep, s: State, reply: Reply, e: nat, s': State, over: bool, j: nat)
    requires reply.Reply? && Returns(reply, j) && BatchUpTo(keep, s, reply.calls, reply.outcomes, 0, e, s', over)
    ensures j < e
  {
  }

  lemma ReturnedInTurn(keep: Keep, s: State, reply: Reply, rejects: nat, s': State, over: bool, rejected: nat, j: nat) returns (p: nat)
    requires Replied(keep, s, reply, rejects, s', over, rejected) && reply.Reply? && !Misplaced(reply.calls) && Returns(reply, j)
    ensures |s.log| <= p && LoggedAt(s'.log, p, reply.calls[j], OutcomeOf(reply.outcomes, j).raw)
  {
    var e, t := BatchOf(keep, s, reply, rejects, s', over, rejected);
    ReturnsBeforeEnd(keep, Opened(s, reply), reply, e, t, over, j);
    ReturnedIsKept(keep, Opened(s, reply), reply.calls, reply.outcomes, e, t, over, j);
    p := PlaceOf(Opened(s, reply), reply.calls, reply.outcomes, j);
  }

  /** A call and its result stand next to each other in the log. */
  predicate LoggedAt(log: seq<Event>, p: nat, c: Call, raw: string) {
    p + 2 <= |log| && log[p] == ToolCall(c) && log[p + 1] == ToolResult(c.id, NameOf(c), raw)
  }

  lemma LoggedStays(log: seq<Event>, longer: seq<Event>, p: nat, c: Call, raw: string)
    requires log <= longer && LoggedAt(log, p, c, raw)
    ensures LoggedAt(longer, p, c, raw)
  {
  }

  /** Every call of a reached turn that returned before the run ended is in the run's log, next to its result. */
  lemma ReturnedIsLogged(keep: Keep, s: State, script: seq<Turn>, s': State, k: nat, rejects: nat, j: nat) returns (p: nat)
    requires RunTaken(keep, s, script, 0, 0, s') && ComesTo(script, 0, 0, k, rejects)
    requires script[k].reply.Reply? && !Misplaced(script[k].reply.calls) && Returns(script[k].reply, j)
    ensures |s.log| <= p && LoggedAt(s'.log, p, script[k].reply.calls[j], OutcomeOf(script[k].reply.outcomes, j).raw)
  {
    var r, t, over, rejected := TurnIsTaken(keep, s, script, 0, 0, s', k, rejects);
    p := ReturnedInTurn(keep, r, script[k].reply, rejects, t, over, rejected, j);
    GoesLogs(keep, t, script, k + 1, over, rejected, s');
    LoggedStays(t.log, s'.log, p, script[k].reply.calls[j], OutcomeOf(script[k].reply.outcomes, j).raw);
  }

  // ----- from a path to what it does -----

  /** What leads from where some steps led to where they lead with more of them. */
  lemma Since(keep: Keep, taken: seq<Action>, more: seq<Action>, s: State, s': State)
    requires Legal(keep, NEW_SESSION, taken) && s == Exec(keep, NEW_SESSION, taken)
    requires Legal(keep, NEW_SESSION, taken + more) && s' == Exec(keep, NEW_SESSION, taken + more)
    ensures Legal(keep, s, more) && s' == Exec(keep, s, more)
  {
    ExecSplit(keep, NEW_SESSION, taken, more);
  }

  lemma RepliedSince(keep: Keep, taken: seq<Action>, s: State, s': State, reply: Reply, rejects: nat)
    requires Legal(keep, NEW_SESSION, taken) && s == Exec(keep, NEW_SESSION, taken) && s.phase.Replying?
    requires var p := ReplyPath(reply, rejects).0; Legal(keep, NEW_SESSION, taken + p) && s' == Exec(keep, NEW_SESSION, taken + p)
    ensures var p := ReplyPath(reply, rejects); Replied(keep, s, reply, rejects, s', p.1, p.2)
  {
    Since(keep, taken, ReplyPath(reply, rejects).0, s, s');
    ReplyMeans(keep, s, reply, rejects);
  }

  lemma RunSince(keep: Keep, taken: seq<Action>, s: State, s': State, script: seq<Turn>)
    requires Legal(keep, NEW_SESSION, taken) && s == Exec(keep, NEW_SESSION, taken) && s.phase.Ready?
    requires var p := LoopPath(script, 0, 0); Legal(keep, NEW_SESSION, taken + p) && s' == Exec(keep, NEW_SESSION, taken + p)
    ensures RunTaken(keep, s, script, 0, 0, s')
  {
    Since(keep, taken, LoopPath(script, 0, 0), s, s');
    RunMeans(keep, s, script, 0, 0);
  }

  /** Turn k is the final answer of the run. */
  ghost predicate FinalAt(script: seq<Turn>, k: nat, rejects: nat) {
    ComesTo(script, 0, 0, k, rejects) &&
    var reply := script[k].reply; TextOnly(reply) && !reply.unfinishedReport && !(reply.rawMarkup && rejects < 2)
  }

  /** A run with a final answer ends with it, in the history and in the log. */
  ghost predicate EndsInAnswer(script: seq<Turn>, history: seq<Item>, log: seq<Event>) {
    forall k: nat, rejects: nat :: FinalAt(script, k, rejects) ==>
      && history != [] && history[|history| - 1] == Assistant(script[k].reply.text, [])
      && log != [] && log[|log| - 1] == RunCompleted(script[k].reply.text)
  }

  lemma RunsEndInAnswer(keep: Keep, s: State, script: seq<Turn>, s': State)
    requires RunTaken(keep, s, script, 0, 0, s')
    ensures EndsInAnswer(script, s'.history, s'.log)
  {
    forall k: nat, rejects: nat | FinalAt(script, k, rejects)
      ensures s'.history != [] && s'.history[|s'.history| - 1] == Assistant(script[k].reply.text, [])
      ensures s'.log != [] && s'.log[|s'.log| - 1] == RunCompleted(script[k].reply.text)
    {
      FinalAnswerStands(keep, s, script, s', k, rejects);
    }
  }

  // ----- how a run begins -----

  /** On a user message: logged under a new run, and an abandoned question is given up. */
  function Entered(s: State, text: string): State {
    s.(run := s.nextRun, nextRun := s.nextRun + 1, waiting := NotWaiting, log := s.log + [UserMessage(s.nextRun, text)],
       pending := "", history := Repair(s.history, ""), phase := Ready(text, false))
  }

  /** On a taken answer: logged under the waiting run, and the result of the call that asked. */
  function Reentered(s: State, id: string, answer: string): State
    requires s.waiting.WaitingOn?
  {
    s.(run := s.waiting.run, waiting := NotWaiting, log := s.log + [UserMessage(s.waiting.run, answer)],
       pending := "", history := Repair(s.history + [Tool(id, Answer(answer))], ""), phase := Ready("", false))
  }
}
