// The script of a run, and the path of the session's state machine it takes: one step per thing the
// engine does with each reply (server/agent/engine.go, Run).
module RunPath {
  import opened Conversation
  import opened HistoryFold
  import opened Session
  import opened Strings

  /** What becomes of one call of a batch. */
  datatype Outcome =
    | Refused(result: string)
    | InvalidArguments(result: string)
    | Returned(raw: string)
    | Delivered(raw: string, closing: Closing)
    | Cancelled
    | CancelledLate(raw: string)

  datatype Reply =
    | NoReply
    | Reply(text: string, calls: seq<Call>, unfinishedReport: bool, rawMarkup: bool, outcomes: seq<Outcome>)

  /** One turn of the loop: whether the context is done by then, the context pressure, and the reply. */
  datatype Turn = Turn(cancelled: bool, pressure: Pressure, reply: Reply)

  const CORRECTION := "Answer again."

  /** A digest is trimmed and non-empty, and so is a closing summary: anything else is an error path. */
  function AsPressure(p: Pressure): (r: Pressure)
    ensures r.Digest? ==> r.summary != "" && TrimSpace(r.summary) == r.summary
  {
    match p
    case Digest(summary) =>
      TrimIdempotent(summary);
      if Blank(summary) then SummaryFailed else Digest(TrimSpace(summary))
    case _ => p
  }

  function AsClosing(c: Closing): (r: Closing)
    ensures r.Closing? ==> !Blank(r.summary)
  {
    if c.Closing? && Blank(c.summary) then ClosingFailed else c
  }

  /** A call with no outcome of its own is one the context was cancelled under. */
  function OutcomeOf(outcomes: seq<Outcome>, j: nat): Outcome {
    if j < |outcomes| then outcomes[j] else Cancelled
  }

  lemma CorrectionShows()
    ensures !Blank(CORRECTION)
  {
    assert CORRECTION[0] == 'A' && CORRECTION[12] == '.';
    TrimKeeps(CORRECTION);
  }

  // ----- the path a run takes: what it does with each reply of its script -----

  function CallStep(call: Call, outcome: Outcome): Action {
    if outcome.Refused? then Block(outcome.result)
    else if call.Ask? then (if outcome.InvalidArguments? then BadSuspension(outcome.result) else Suspend)
    else
      match outcome
      case InvalidArguments(result) => RunTool(result)
      case Returned(raw) => RunTool(raw)
      case Delivered(raw, closing) => Finalize(raw, AsClosing(closing))
      case Cancelled => CancelInTool
      case CancelledLate(raw) => CancelAfterTool(raw)
      case Refused(result) => Block(result)
  }

  predicate EndsRun(a: Action) {
    a.Suspend? || a.CancelInTool? || a.CancelAfterTool? || a.Finalize?
  }

  /** The steps of a batch from its j-th call on, and whether one of them ends the run. */
  function BatchPath(calls: seq<Call>, outcomes: seq<Outcome>, j: nat): (seq<Action>, bool)
    requires j <= |calls|
    decreases |calls| - j
  {
    if j == |calls| then ([], false)
    else
      var a := CallStep(calls[j], OutcomeOf(outcomes, j));
      if EndsRun(a) then ([a], true)
      else
        var rest := BatchPath(calls, outcomes, j + 1);
        ([a] + rest.0, rest.1)
  }

  /** The steps a reply leads to, whether they end the run, and the markup rejections so far: two at most. */
  function ReplyPath(reply: Reply, rejects: nat): (seq<Action>, bool, nat) {
    if reply.NoReply? || (reply.text == "" && reply.calls == []) then ([FailReply], true, rejects)
    else if reply.calls == [] then
      if reply.unfinishedReport then ([Draft(reply.text)], false, rejects)
      else if reply.rawMarkup && rejects < 2 then ([RejectFinal(CORRECTION)], false, rejects + 1)
      else ([Finish(reply.text)], true, rejects)
    else if !ValidBatch(reply.calls) then ([BadBatch(reply.text)], true, rejects)
    else
      var batch := BatchPath(reply.calls, reply.outcomes, 0);
      ([CallTools(reply.text, reply.calls)] + batch.0 + (if batch.1 then [] else [EndBatch]), batch.1, rejects)
  }

  /** The whole run from its i-th turn on. Past its script the context is done. */
  function LoopPath(script: seq<Turn>, i: nat, rejects: nat): seq<Action>
    requires i <= |script|
    decreases |script| - i
  {
    if i == |script| || script[i].cancelled then [Stop, Leave]
    else
      var reply := ReplyPath(script[i].reply, rejects);
      [Request(AsPressure(script[i].pressure))] + reply.0
      + if reply.1 then [Leave] else LoopPath(script, i + 1, reply.2)
  }

  /** The steps taken, with those of the turns to come, are the whole path. */
  ghost predicate OnPath(taken: seq<Action>, over: bool, script: seq<Turn>, i: nat, rejects: nat, path: seq<Action>) {
    i <= |script| && taken + (if over then [Leave] else LoopPath(script, i, rejects)) == path
  }

  lemma StopOnPath(taken: seq<Action>, script: seq<Turn>, i: nat, rejects: nat, path: seq<Action>)
    requires OnPath(taken, false, script, i, rejects, path) && (i == |script| || script[i].cancelled)
    ensures OnPath(taken + [Stop], true, script, i, rejects, path)
  {
    assert [Stop] + [Leave] == [Stop, Leave];
    Regroup(taken, [Stop], [Leave]);
  }

  lemma TurnOnPath(taken: seq<Action>, script: seq<Turn>, i: nat, rejects: nat, path: seq<Action>)
    requires i < |script| && !script[i].cancelled && OnPath(taken, false, script, i, rejects, path)
    ensures var reply := ReplyPath(script[i].reply, rejects);
            OnPath(taken + [Request(AsPressure(script[i].pressure))] + reply.0, reply.1, script, i + 1, reply.2, path)
  {
    var reply := ReplyPath(script[i].reply, rejects);
    var request := [Request(AsPressure(script[i].pressure))];
    var rest := if reply.1 then [Leave] else LoopPath(script, i + 1, reply.2);
    Regroup(taken, request, reply.0);
    Regroup(taken, request + reply.0, rest);
  }

  lemma Regroup(a: seq<Action>, b: seq<Action>, c: seq<Action>)
    ensures a + b + c == a + (b + c)
  {
  }
}
