// Replay conserves content for batches of any size: what was said, which calls were made and
// what they returned come back from the log in the order the engine holds them.
module Conservation {
  import opened Conversation
  import opened HistoryFold
  import opened Session
  import opened SparseHistory
  import opened Strings

  /** The texts, the calls and the results of a conversation, each in order; the grouping into turns is erased. */
  datatype Gist = Gist(said: seq<Item>, calls: seq<Call>, results: seq<Item>)

  function Add(g: Gist, item: Item): Gist {
    match item
    case User(_) => g.(said := g.said + [item])
    case Assistant(text, calls) =>
      g.(said := if text == "" then g.said else g.said + [Assistant(text, [])], calls := g.calls + calls)
    case Tool(_, _) => g.(results := g.results + [item])
  }

  function GistOf(items: seq<Item>): Gist {
    if items == [] then Gist([], [], []) else Add(GistOf(items[..|items| - 1]), items[|items| - 1])
  }

  lemma GistSnoc(items: seq<Item>, item: Item)
    ensures GistOf(items + [item]) == Add(GistOf(items), item)
  {
    assert (items + [item])[..|items|] == items;
  }

  /** The folded items hold all the live history holds, but for the calls still to be settled. */
  ghost predicate Balanced(folded: seq<Item>, todo: seq<Call>, live: seq<Item>) {
    forall x, y | x == folded && y == live ::
      && GistOf(x).said == GistOf(y).said
      && GistOf(x).results == GistOf(y).results
      && GistOf(x).calls + todo == GistOf(y).calls
  }

  ghost predicate Sound(history: seq<Item>) {
    forall x | x == history :: Paired(x, "")
  }

  lemma BalancedSay(x: seq<Item>, y: seq<Item>, item: Item)
    requires Balanced(x, [], y) && !item.Tool? && CallsOf(item) == []
    ensures Balanced(x + [item], [], y + [item])
  {
    assert GistOf(x).calls + [] == GistOf(y).calls;
    GistSnoc(x, item);
    GistSnoc(y, item);
  }

  lemma BalancedOpens(x: seq<Item>, y: seq<Item>, text: string, calls: seq<Call>)
    requires Balanced(x, [], y)
    ensures Balanced(if text == "" then x else x + [Assistant(text, [])], calls, y + [Assistant(text, calls)])
  {
    var c := GistOf(x).calls;
    assert c + [] == GistOf(y).calls == c;
    GistSnoc(x, Assistant(text, []));
    GistSnoc(y, Assistant(text, calls));
  }

  /** The folded call and result take one call off what is still to be settled. */
  lemma BalancedSettles(x: seq<Item>, x': seq<Item>, todo: seq<Call>, y: seq<Item>, t: Item)
    requires Balanced(x, todo, y) && todo != [] && t.Tool?
    requires GistOf(x') == Add(Add(GistOf(x), Assistant("", [todo[0]])), t)
    ensures Balanced(x', todo[1..], y + [t])
  {
    var c := GistOf(x).calls;
    assert c + todo == GistOf(y).calls;
    assert c + [todo[0]] + todo[1..] == c + todo;
    GistSnoc(y, t);
  }

  lemma BalancedAsked(x: seq<Item>, x': seq<Item>, c: Call, y: seq<Item>)
    requires Balanced(x, [c], y)
    requires GistOf(x') == Add(GistOf(x), Assistant("", [c]))
    ensures Balanced(x', [], y)
  {
    var calls := GistOf(x').calls;
    assert GistOf(x).calls + [c] == GistOf(y).calls;
    assert calls + [] == calls;
  }

  lemma BalancedResult(x: seq<Item>, y: seq<Item>, t: Item)
    requires Balanced(x, [], y) && t.Tool?
    ensures Balanced(x + [t], [], y + [t])
  {
    assert GistOf(x).calls + [] == GistOf(y).calls;
    GistSnoc(x, t);
    GistSnoc(y, t);
  }

  lemma SoundSay(history: seq<Item>, item: Item)
    requires Sound(history) && !item.Tool? && CallsOf(item) == []
    ensures Sound(history + [item])
  {
    PairedSay(history, item);
  }

  lemma SoundRepaired(history: seq<Item>)
    requires Sound(history)
    ensures Repair(history, "") == history
  {
    RepairKeepsPaired(history, "");
  }

  lemma SoundBatchEnds(history: seq<Item>)
    requires OpenBatch(history, [])
    ensures Sound(history)
  {
    OpenBatchEnds(history);
  }

  // ----- which steps are covered -----

  /** The ids answered by the results a history ends with. */
  function LastAnswered(history: seq<Item>): set<string> {
    if history == [] || !history[|history| - 1].Tool? then {}
    else {history[|history| - 1].callId} + LastAnswered(history[..|history| - 1])
  }

  /**
   * The steps of a session without compaction in which every batch is run to its last call,
   * suspension arguments are valid and no text is blank. Runs may fail, be started over an open
   * question, and be cut off by a restart at any step.
   */
  predicate Settled(keep: Keep, s: State, a: Action)
    requires Enabled(s, a)
  {
    match a
    case RefuseAnswer(_) => false
    case Stop => s.phase.task == ""
    case Request(p) => !Compacts(s, p)
    case Draft(text) => !Blank(text)
    case Finish(text) => !Blank(text)
    case BadBatch(text) => Blank(text)
    case CallTools(text, _) => text == "" || !Blank(text)
    case Block(result) => keep(NameOf(s.phase.todo[0]), result) == result
    case BadSuspension(_) => false
    case Suspend => s.phase.todo[0].id != ""
    case CancelInTool => |s.phase.todo| == 1 && s.phase.todo[0].id !in LastAnswered(s.history)
    case CancelAfterTool(_) => false
    case Finalize(_, _) => |s.phase.todo| == 1
    case _ => true
  }

  /** No call is left without an answer: neither by a cancellation nor by giving up a question. */
  predicate Answering(s: State, a: Action)
    requires Enabled(s, a)
  {
    match a
    case StartRun(_) => s.waiting.NotWaiting?
    case CancelInTool => false
    case Rehydrate(keepWaiting) => keepWaiting || s.waiting.NotWaiting?
    case _ => true
  }

  // ----- the relation -----

  /** The live history repairs to w. */
  ghost predicate Repairs(live: seq<Item>, w: seq<Item>) {
    forall l | l == live :: Repair(l, "") == w
  }

  /** The folded items repair to y, and only a visible text may be pending. */
  ghost predicate Whole(f: Folder, y: seq<Item>) {
    Mends(f.items, y) && (f.pending.Pending? ==> f.pending.calls == [] && !Blank(f.pending.text))
  }

  /** What the folded items repair to once flushed. */
  function Told(f: Folder, y: seq<Item>): seq<Item> {
    if f.pending.Pending? then y + [Assistant(f.pending.text, [])] else y
  }

  /** The two sides of an open question. */
  ghost predicate AskPair(s: State, f: Folder, before: seq<Item>, y: seq<Item>, text: string, live: seq<Item>, w: seq<Item>, said: string) {
    && f.items == before + [Assistant(text, [Ask(f.openAsk)])] && Mends(before, y)
    && s.history == live + [Assistant(said, [Ask(f.openAsk)])] && Repairs(live, w)
    && Balanced(y + [Assistant(text, [Ask(f.openAsk)])], [], w + [Assistant(said, [Ask(f.openAsk)])])
  }

  /** With `full`, every call was answered so far, so neither side needs repair but for the question. */
  ghost predicate Waits(full: bool, s: State, f: Folder) {
    && f.pending.NoPending? && f.openAsk != "" && s.waiting == WaitingOn(f.openRun)
    && exists before, y, text, live, w, said ::
         AskPair(s, f, before, y, text, live, w, said) && (s.phase.Leaving? ==> w == live) && (full ==> y == before && w == live)
  }

  ghost predicate Rested(full: bool, s: State, f: Folder, y: seq<Item>, w: seq<Item>) {
    && Whole(f, y) && Repairs(s.history, w) && Balanced(Told(f, y), [], w)
    && (full ==> y == f.items && w == s.history && f.openAsk == "")
  }

  ghost predicate Rests(full: bool, s: State, f: Folder) {
    if s.waiting.WaitingOn? then Waits(full, s, f) else exists y, w :: Rested(full, s, f, y, w)
  }

  ghost predicate AskLast(items: seq<Item>, before: seq<Item>, text: string, id: string) {
    items == before + [Assistant(text, [Ask(id)])]
  }

  ghost predicate BatchHolds(history: seq<Item>, told: seq<Item>, todo: seq<Call>) {
    && Balanced(told, todo, history) && OpenBatch(history, todo)
    && (todo != [] && todo[0].Ask? ==>
          |todo| == 1 && exists before, text :: AskLast(history, before, text, todo[0].id) && Sound(before))
  }

  /** What is held while a run is on. */
  ghost predicate Runs(full: bool, s: State, f: Folder, y: seq<Item>) {
    && s.waiting.NotWaiting? && s.pending == "" && Whole(f, y) && (full ==> y == f.items && f.openAsk == "")
    && match s.phase
       case Idle => false
       case Leaving => false
       case Ready(task, _) => Balanced(Told(f, y), [], s.history + TaskItems(task)) && Sound(s.history)
       case Replying(_) => Balanced(Told(f, y), [], s.history) && Sound(s.history)
       case Batch(todo) => BatchHolds(s.history, Told(f, y), todo)
  }

  ghost predicate Holds(full: bool, s: State, f: Folder) {
    && f.openRun < s.nextRun && s.run < s.nextRun
    && if s.phase.Idle? then Rests(full, s, f)
       else if s.phase.Leaving? then Rests(full, s, f) && s.pending == if s.waiting.WaitingOn? then f.openAsk else ""
       else exists y :: Runs(full, s, f, y)
  }

  ghost predicate Conserves(full: bool, keep: Keep, s: State) {
    Holds(full, s, Replay(keep, s.log))
  }

  // ----- the fold side of a step -----

  lemma WholeFlush(f: Folder, y: seq<Item>)
    requires Whole(f, y)
    ensures Whole(Flush(f), Told(f, y)) && Flush(f).pending.NoPending?
    ensures y == f.items ==> Told(f, y) == Flush(f).items
  {
    if f.pending.Pending? {
      MendsText(f.items, y, Assistant(f.pending.text, []));
    }
  }

  lemma WholeAppend(f: Folder, y: seq<Item>, item: Item)
    requires Whole(f, y) && !item.Tool? && CallsOf(item) == []
    ensures Whole(Append(f, item), Told(f, y) + [item])
    ensures y == f.items ==> Told(f, y) + [item] == Append(f, item).items
  {
    WholeFlush(f, y);
    MendsText(Flush(f).items, Told(f, y), item);
  }

  function PendingText(f: Folder): string {
    if f.pending.Pending? then f.pending.text else ""
  }

  lemma ToldGist(f: Folder, y: seq<Item>, c: Call)
    ensures GistOf(y + [Assistant(PendingText(f), [c])]) == Add(GistOf(Told(f, y)), Assistant("", [c]))
  {
    GistSnoc(y, Assistant(PendingText(f), []));
    GistSnoc(y, Assistant(PendingText(f), [c]));
    var calls := GistOf(y).calls;
    assert calls + [] == calls;
  }

  /** A call goes into one turn with whatever text was pending. */
  lemma CallFolds(f: Folder, y: seq<Item>, c: Call)
    requires Whole(f, y)
    ensures Flush(AddCall(f, c)) == f.(items := f.items + [Assistant(PendingText(f), [c])], pending := NoPending)
  {
    assert [] + [c] == [c];
  }

  /** What the folded items repair to once a call and its result are appended. */
  function AnsweredTo(f: Folder, y: seq<Item>, c: Call, content: Content): seq<Item> {
    y + [Assistant(PendingText(f), [c]), Tool(c.id, content)]
  }

  lemma AnsweredGist(f: Folder, y: seq<Item>, c: Call, content: Content)
    ensures GistOf(AnsweredTo(f, y, c, content)) == Add(Add(GistOf(Told(f, y)), Assistant("", [c])), Tool(c.id, content))
  {
    var turn, t := Assistant(PendingText(f), [c]), Tool(c.id, content);
    ToldGist(f, y, c);
    GistSnoc(y + [turn], t);
    assert y + [turn] + [t] == y + [turn, t];
  }

  /** A call and its result, after whatever text was pending. */
  lemma WholeAnswered(f: Folder, y: seq<Item>, c: Call, content: Content) returns (g: Folder)
    requires Whole(f, y)
    ensures g == Append(AddCall(f, c), Tool(c.id, content))
    ensures g == f.(items := g.items, pending := NoPending)
    ensures Whole(g, AnsweredTo(f, y, c, content))
    ensures y == f.items ==> g.items == AnsweredTo(f, y, c, content)
  {
    g := Append(AddCall(f, c), Tool(c.id, content));
    CallFolds(f, y, c);
    var turn, t := Assistant(PendingText(f), [c]), Tool(c.id, content);
    MendsAnswered(f.items, y, PendingText(f), c, content);
    assert f.items + [turn] + [t] == f.items + [turn, t];
  }

  // ----- an open question -----

  lemma MendsDangles(x: seq<Item>, y: seq<Item>, text: string, c: Call)
    requires Mends(x, y)
    ensures Mends(x + [Assistant(text, [c])], y + [Assistant(text, [c]), Tool(c.id, Unrecorded(NameOf(c)))])
  {
    assert Sparse(x);
    AddDangling(x, text, c);
  }

  lemma RepairsDangles(live: seq<Item>, w: seq<Item>, text: string, c: Call)
    requires Repairs(live, w)
    ensures Repairs(live + [Assistant(text, [c])], w + [Assistant(text, [c]), Tool(c.id, Unrecorded(NameOf(c)))])
  {
    AddDangling(live, text, c);
  }

  lemma BalancedTools(y: seq<Item>, a: Item, w: seq<Item>, b: Item, t: Item)
    requires Balanced(y + [a], [], w + [b]) && t.Tool?
    ensures Balanced(y + [a, t], [], w + [b, t])
  {
    BalancedResult(y + [a], w + [b], t);
    assert y + [a] + [t] == y + [a, t];
    assert w + [b] + [t] == w + [b, t];
  }

  /** If the question is given up, both sides get the same result for it. */
  lemma AskGivenUp(s: State, f: Folder)
    requires Waits(false, s, f)
    ensures exists y, w :: Rested(false, s, f, y, w)
  {
    var before, y, text, live, w, said :| AskPair(s, f, before, y, text, live, w, said);
    var c := Ask(f.openAsk);
    var t := Tool(c.id, Unrecorded(NameOf(c)));
    MendsDangles(before, y, text, c);
    RepairsDangles(live, w, said, c);
    BalancedTools(y, Assistant(text, [c]), w, Assistant(said, [c]), t);
    assert Rested(false, s, f, y + [Assistant(text, [c]), t], w + [Assistant(said, [c]), t]);
  }

  lemma Weaker(full: bool, s: State, f: Folder)
    requires Waits(full, s, f)
    ensures Waits(false, s, f)
  {
    var before, y, text, live, w, said :|
      AskPair(s, f, before, y, text, live, w, said) && (s.phase.Leaving? ==> w == live);
  }

  // ----- one step -----

  lemma NoTask(history: seq<Item>)
    ensures history + TaskItems("") == history
  {
  }

  lemma RepairsFixed(history: seq<Item>, w: seq<Item>)
    requires Repairs(history, w)
    ensures Repair(history, "") == w && Repair(w, "") == w && Sound(w) && Repairs(w, w)
  {
    RepairPairs(history, "");
    RepairFixpoint(history, "");
  }

  lemma SoundRepairs(history: seq<Item>)
    requires Sound(history)
    ensures Repairs(history, history)
  {
    SoundRepaired(history);
  }

  lemma StartRested(full: bool, s: State, f: Folder, y: seq<Item>, w: seq<Item>, s': State, f': Folder, text: string)
    requires Rested(full, s, f, y, w) && s.waiting.NotWaiting?
    requires f' == Append(f, User(text)) && text != ""
    requires s'.history == Repair(s.history, "") && s'.phase == Ready(text, false) && s'.waiting.NotWaiting? && s'.pending == ""
    ensures Runs(full, s', f', Told(f, y) + [User(text)])
  {
    RepairsFixed(s.history, w);
    WholeAppend(f, y, User(text));
    BalancedSay(Told(f, y), w, User(text));
  }

  lemma StartConserves(full: bool, keep: Keep, s: State, text: string)
    requires Enabled(s, StartRun(text)) && (full ==> s.waiting.NotWaiting?) && Conserves(full, keep, s)
    ensures Conserves(full, keep, Step(keep, s, StartRun(text)))
  {
    var f := Replay(keep, s.log);
    var s' := Step(keep, s, StartRun(text));
    ReplayOne(keep, s.log, UserMessage(s.nextRun, text));
    if s.waiting.WaitingOn? {
      AskGivenUp(s, f);
    }
    var y, w :| Rested(full, s, f, y, w);
    StartRested(full, s.(waiting := NotWaiting), f, y, w, s', Replay(keep, s'.log), text);
  }

  lemma AskIsLatest(before: seq<Item>, text: string, id: string)
    ensures LatestAsks(before + [Assistant(text, [Ask(id)])]) == [Ask(id)]
  {
    assert Asks([Ask(id)][1..]) == [];
  }

  lemma RepairsAnswered(live: seq<Item>, w: seq<Item>, text: string, c: Call, content: Content)
    requires Repairs(live, w)
    ensures Repair(live + [Assistant(text, [c])] + [Tool(c.id, content)], "") == w + [Assistant(text, [c]), Tool(c.id, content)]
  {
    var head, t := Assistant(text, [c]), Tool(c.id, content);
    AddAnswered(live, text, c, content);
    assert live + [head] + [t] == live + [head, t];
  }

  /** The answer settles the question on both sides. */
  lemma AskAnswered(full: bool, s: State, f: Folder, answer: string) returns (y': seq<Item>, w': seq<Item>)
    requires Waits(full, s, f)
    ensures OpenQuestion(s.history).Question? ==> OpenQuestion(s.history).id == f.openAsk
    ensures var t := Tool(f.openAsk, Answer(answer));
            && Repair(s.history + [t], "") == w' && Sound(w') && Balanced(y', [], w')
            && Mends(f.items + [t], y') && (full ==> y' == f.items + [t])
  {
    var before, y, text, live, w, said :| AskPair(s, f, before, y, text, live, w, said) && (full ==> y == before && w == live);
    var c, t := Ask(f.openAsk), Tool(f.openAsk, Answer(answer));
    AskIsLatest(live, said, f.openAsk);
    RepairsAnswered(live, w, said, c, t.content);
    MendsAnswered(before, y, text, c, t.content);
    assert f.items + [t] == before + [Assistant(text, [c]), t];
    BalancedTools(y, Assistant(text, [c]), w, Assistant(said, [c]), t);
    y', w' := y + [Assistant(text, [c]), t], w + [Assistant(said, [c]), t];
    RepairPairs(s.history + [t], "");
  }

  lemma ResumeConserves(full: bool, keep: Keep, s: State, answer: string)
    requires Enabled(s, Resume(answer)) && Conserves(full, keep, s)
    ensures Conserves(full, keep, Step(keep, s, Resume(answer)))
  {
    var f := Replay(keep, s.log);
    var s' := Step(keep, s, Resume(answer));
    var y, w := AskAnswered(full, s, f, answer);
    ReplayOne(keep, s.log, UserMessage(s.waiting.run, answer));
    NoTask(w);
    assert Runs(full, s', Replay(keep, s'.log), y);
  }

  /** Out of the loop, with nothing more to say. */
  lemma ExitRests(full: bool, s: State, f: Folder, y: seq<Item>, s': State)
    requires Whole(f, y) && Sound(s.history) && Balanced(Told(f, y), [], s.history) && (full ==> y == f.items && f.openAsk == "")
    requires s.waiting.NotWaiting? && s'.waiting.NotWaiting? && s'.history == s.history
    ensures Rests(full, s', Flush(f))
  {
    WholeFlush(f, y);
    SoundRepairs(s.history);
    assert Rested(full, s', Flush(f), Told(f, y), s.history);
  }

  lemma StopFolds(keep: Keep, f: Folder, text: string)
    requires Blank(text)
    ensures Fold(keep, f, StatusEvents(text) + [RunStopped]) == Flush(f)
  {
    if text == "" {
      assert StatusEvents(text) + [RunStopped] == [RunStopped];
      FoldOne(keep, f, RunStopped);
    } else {
      assert StatusEvents(text) + [RunStopped] == [AssistantStatus(text), RunStopped];
      FoldTwo(keep, f, AssistantStatus(text), RunStopped);
    }
  }

  lemma ExitHolds(full: bool, s: State, f: Folder, s': State)
    requires s.phase.Ready? || s.phase.Replying?
    requires s.phase.Ready? ==> s.phase.task == ""
    requires Holds(full, s, f)
    requires s' == s.(phase := Leaving, log := s'.log)
    ensures Holds(full, s', Flush(f))
  {
    var y :| Runs(full, s, f, y);
    NoTask(s.history);
    ExitRests(full, s, f, y, s');
  }

  lemma ExitConserves(full: bool, keep: Keep, s: State, text: string)
    requires s.phase.Ready? || s.phase.Replying?
    requires s.phase.Ready? ==> s.phase.task == ""
    requires Blank(text) && Conserves(full, keep, s)
    ensures Conserves(full, keep, Exit(Emit(s, StatusEvents(text) + [RunStopped])))
  {
    var f := Replay(keep, s.log);
    ReplayMore(keep, s.log, StatusEvents(text) + [RunStopped]);
    StopFolds(keep, f, text);
    ExitHolds(full, s, f, Exit(Emit(s, StatusEvents(text) + [RunStopped])));
  }

  lemma StopConserves(full: bool, keep: Keep, s: State)
    requires s.phase.Ready? || s.phase.Replying?
    requires s.phase.Ready? ==> s.phase.task == ""
    requires Conserves(full, keep, s)
    ensures Conserves(full, keep, Exit(Emit(s, [RunStopped])))
  {
    assert TrimSpace("") == "";
    assert StatusEvents("") + [RunStopped] == [RunStopped];
    ExitConserves(full, keep, s, "");
  }

  /** The request is sent as it is, and the user's turn enters the history. */
  lemma RequestHolds(full: bool, s: State, f: Folder, s': State)
    requires s.phase.Ready? && Holds(full, s, f)
    requires s' == s.(history := s.history + TaskItems(s.phase.task), phase := s'.phase, sent := s'.sent) && s'.phase.Replying?
    ensures Holds(full, s', f)
  {
    var y :| Runs(full, s, f, y);
    if s.phase.task == "" {
      NoTask(s.history);
    } else {
      SoundSay(s.history, User(s.phase.task));
    }
    assert Runs(full, s', f, y);
  }

  lemma RequestConserves(full: bool, keep: Keep, s: State, p: Pressure)
    requires Enabled(s, Request(p)) && !Compacts(s, p) && Conserves(full, keep, s)
    ensures Conserves(full, keep, Step(keep, s, Request(p)))
  {
    var s' := Requested(s, s, false);
    assert Step(keep, s, Request(p)) == s';
    RequestHolds(full, s, Replay(keep, s.log), s');
  }

  lemma DraftConserves(full: bool, keep: Keep, s: State, text: string)
    requires Enabled(s, Draft(text)) && !Blank(text) && Conserves(full, keep, s)
    ensures Conserves(full, keep, Step(keep, s, Draft(text)))
  {
    var f := Replay(keep, s.log);
    var y :| Runs(full, s, f, y);
    var item := Assistant(text, []);
    var s' := Step(keep, s, Draft(text));
    ReplayOne(keep, s.log, AssistantStatus(text));
    WholeFlush(f, y);
    BalancedSay(Told(f, y), s.history, item);
    SoundSay(s.history, item);
    NoTask(s.history + [item]);
    assert Runs(full, s', Replay(keep, s'.log), Told(f, y));
  }

  lemma RejectConserves(full: bool, keep: Keep, s: State, correction: string)
    requires Enabled(s, RejectFinal(correction)) && Conserves(full, keep, s)
    ensures Conserves(full, keep, Step(keep, s, RejectFinal(correction)))
  {
    var f := Replay(keep, s.log);
    var y :| Runs(full, s, f, y);
    var item := User(correction);
    var s' := Step(keep, s, RejectFinal(correction));
    ReplayOne(keep, s.log, SystemFeedback(correction));
    WholeAppend(f, y, item);
    BalancedSay(Told(f, y), s.history, item);
    SoundSay(s.history, item);
    NoTask(s.history + [item]);
    assert Runs(full, s', Replay(keep, s'.log), Told(f, y) + [item]);
  }

  /** The closing answer of a run. */
  lemma CompleteRests(full: bool, s: State, f: Folder, y: seq<Item>, s': State, item: Item)
    requires Runs(full, s, f, y) && item.Assistant? && item.calls == []
    requires s.phase.Replying? || s.phase == Batch([])
    requires s'.waiting.NotWaiting? && s'.history == s.history + [item]
    ensures Rests(full, s', Append(f, item))
  {
    if s.phase.Batch? {
      SoundBatchEnds(s.history);
    }
    WholeAppend(f, y, item);
    BalancedSay(Told(f, y), s.history, item);
    SoundSay(s.history, item);
    SoundRepairs(s.history + [item]);
    assert Rested(full, s', Append(f, item), Told(f, y) + [item], s.history + [item]);
  }

  lemma FinishConserves(full: bool, keep: Keep, s: State, text: string)
    requires Conserves(full, keep, s) && !Blank(text)
    requires s.phase.Replying? || s.phase == Batch([])
    ensures Conserves(full, keep, Exit(Emit(Say(s, Assistant(text, [])), [RunCompleted(text)])))
  {
    var f := Replay(keep, s.log);
    var y :| Runs(full, s, f, y);
    ReplayOne(keep, s.log, RunCompleted(text));
    CompleteRests(full, s, f, y, Exit(Emit(Say(s, Assistant(text, [])), [RunCompleted(text)])), Assistant(text, []));
  }

  lemma TurnOpens(history: seq<Item>, told: seq<Item>, text: string, calls: seq<Call>)
    requires Balanced(told, [], history) && Sound(history) && calls != [] && ValidBatch(calls)
    ensures BatchHolds(history + [Assistant(text, calls)], if text == "" then told else told + [Assistant(text, [])], calls)
  {
    BalancedOpens(told, history, text, calls);
    OpenBatchStarts(history, text, calls);
    if calls[0].Ask? {
      assert calls[0] in calls && calls == [Ask(calls[0].id)];
      assert AskLast(history + [Assistant(text, calls)], history, text, calls[0].id);
    }
  }

  lemma CallToolsHolds(full: bool, s: State, f: Folder, s': State, f': Folder, text: string, calls: seq<Call>)
    requires s.phase.Replying? && Holds(full, s, f) && calls != [] && ValidBatch(calls) && (text == "" || !Blank(text))
    requires f' == if text == "" then f else Flush(f).(pending := Pending(text, []))
    requires s' == s.(history := s.history + [Assistant(text, calls)], phase := Batch(calls), log := s'.log)
    ensures Holds(full, s', f')
  {
    var y :| Runs(full, s, f, y);
    TurnOpens(s.history, Told(f, y), text, calls);
    WholeFlush(f, y);
    assert Runs(full, s', f', if text == "" then y else Told(f, y));
  }

  lemma CallToolsConserves(full: bool, keep: Keep, s: State, text: string, calls: seq<Call>)
    requires Enabled(s, CallTools(text, calls)) && (text == "" || !Blank(text)) && Conserves(full, keep, s)
    ensures Conserves(full, keep, Step(keep, s, CallTools(text, calls)))
  {
    var f := Replay(keep, s.log);
    var s' := Step(keep, s, CallTools(text, calls));
    ReplayMore(keep, s.log, StatusEvents(text));
    if text != "" {
      FoldOne(keep, f, AssistantStatus(text));
    }
    CallToolsHolds(full, s, f, s', Replay(keep, s'.log), text, calls);
  }

  /** The next call of the batch is settled on both sides. */
  lemma SettleHolds(full: bool, s: State, f: Folder, s': State, f': Folder, content: Content)
    requires s.phase.Batch? && s.phase.todo != [] && Holds(full, s, f)
    requires s' == s.(history := s'.history, phase := Batch(s.phase.todo[1..]), log := s'.log)
    requires s'.history == s.history + [Tool(s.phase.todo[0].id, content)]
    requires f' == Append(AddCall(f, s.phase.todo[0]), Tool(s.phase.todo[0].id, content))
    requires |s.phase.todo| > 1 ==> s.phase.todo[1].Call?
    ensures Holds(full, s', f')
  {
    var y :| Runs(full, s, f, y);
    var c, todo := s.phase.todo[0], s.phase.todo;
    var g := WholeAnswered(f, y, c, content);
    AnsweredGist(f, y, c, content);
    BalancedSettles(Told(f, y), AnsweredTo(f, y, c, content), todo, s.history, Tool(c.id, content));
    OpenBatchSettles(s.history, todo, content);
    assert Runs(full, s', f', AnsweredTo(f, y, c, content));
  }

  /** A batch holds a question only alone. */
  ghost predicate AskAlone(s: State) {
    s.phase.Batch? ==> forall i :: 1 <= i < |s.phase.todo| ==> s.phase.todo[i].Call?
  }

  lemma AskAloneKept(keep: Keep, s: State, a: Action)
    requires Enabled(s, a) && AskAlone(s)
    ensures AskAlone(Step(keep, s, a))
  {
    match a
    case CallTools(_, calls) =>
      assert forall i :: 1 <= i < |calls| ==> calls[i] in calls;
    case _ =>
  }

  lemma BlockFolds(keep: Keep, f: Folder, c: Call, raw: string)
    ensures Fold(keep, f, [ToolCall(c), Other, ToolResult(c.id, NameOf(c), raw)])
         == Append(AddCall(f, c), Tool(c.id, Text(keep(NameOf(c), raw))))
  {
    FoldThree(keep, f, ToolCall(c), Other, ToolResult(c.id, NameOf(c), raw));
  }

  lemma BlockConserves(full: bool, keep: Keep, s: State, result: string)
    requires Enabled(s, Block(result)) && Settled(keep, s, Block(result)) && Conserves(full, keep, s) && AskAlone(s)
    ensures Conserves(full, keep, Step(keep, s, Block(result)))
  {
    var f, c := Replay(keep, s.log), s.phase.todo[0];
    var s' := Step(keep, s, Block(result));
    ReplayMore(keep, s.log, [ToolCall(c), Other, ToolResult(c.id, NameOf(c), result)]);
    BlockFolds(keep, f, c, result);
    SettleHolds(full, s, f, s', Replay(keep, s'.log), Text(result));
  }

  lemma RanConserves(full: bool, keep: Keep, s: State, raw: string) returns (s': State)
    requires Enabled(s, RunTool(raw)) && Conserves(full, keep, s) && AskAlone(s)
    ensures s' == Step(keep, s, RunTool(raw)) && Conserves(full, keep, s')
  {
    var f, c := Replay(keep, s.log), s.phase.todo[0];
    s' := Step(keep, s, RunTool(raw));
    ReplayMore(keep, s.log, [ToolCall(c), ToolResult(c.id, NameOf(c), raw)]);
    FoldTwo(keep, f, ToolCall(c), ToolResult(c.id, NameOf(c), raw));
    SettleHolds(full, s, f, s', Replay(keep, s'.log), Text(keep(NameOf(c), raw)));
  }

  lemma BatchEndRuns(full: bool, s: State, f: Folder)
    requires s.phase == Batch([]) && Holds(full, s, f)
    ensures Holds(full, s.(phase := Ready("", false)), f)
  {
    var y :| Runs(full, s, f, y);
    SoundBatchEnds(s.history);
    NoTask(s.history);
    assert Runs(full, s.(phase := Ready("", false)), f, y);
  }

  lemma UnclosedConserves(full: bool, keep: Keep, s: State)
    requires s.phase == Batch([]) && Conserves(full, keep, s)
    ensures Conserves(full, keep, Exit(Emit(s, [RunStopped])))
  {
    var f := Replay(keep, s.log);
    var y :| Runs(full, s, f, y);
    ReplayOne(keep, s.log, RunStopped);
    SoundBatchEnds(s.history);
    ExitRests(full, s, f, y, Exit(Emit(s, [RunStopped])));
  }

  lemma FinalizeConserves(full: bool, keep: Keep, s: State, raw: string, closing: Closing)
    requires Enabled(s, Finalize(raw, closing)) && |s.phase.todo| == 1 && Conserves(full, keep, s) && AskAlone(s)
    ensures Conserves(full, keep, Step(keep, s, Finalize(raw, closing)))
  {
    var done := RanConserves(full, keep, s, raw);
    assert done.phase == Batch([]);
    match closing
    case Closing(summary) => FinishConserves(full, keep, done, summary);
    case ClosingFailed => UnclosedConserves(full, keep, done);
  }

  // ----- a cancelled call -----

  lemma {:induction false} LastAnsweredIs(front: seq<Item>, results: seq<Item>)
    requires AllTools(results) && front != [] && !front[|front| - 1].Tool?
    ensures LastAnswered(front + results) == Answered(results)
    decreases |results|
  {
    if results == [] {
      assert front + results == front;
    } else {
      var n := |results| - 1;
      assert (front + results)[..|front| + n] == front + results[..n];
      LastAnsweredIs(front, results[..n]);
      AnsweredConcat(results[..n], [results[n]]);
      assert results == results[..n] + [results[n]];
    }
  }

  lemma {:induction false} MissingLast(done: seq<Call>, c: Call, answered: set<string>)
    requires IdsOf(done) <= answered && c.id !in answered
    ensures Missing(done + [c], answered, "") == [Tool(c.id, Unrecorded(NameOf(c)))]
  {
    if done == [] {
      assert [] + [c] == [c];
      MissingOne(c, answered, "");
    } else {
      assert done[0] in done;
      assert forall d :: d in done[1..] ==> d in done;
      assert (done + [c])[1..] == done[1..] + [c];
      MissingLast(done[1..], c, answered);
    }
  }

  lemma CancelledTurn(head: Item, results: seq<Item>, t: Item)
    requires head.Assistant? && head.calls != [] && AllTools(results) && Missing(head.calls, Answered(results), "") == [t]
    ensures Repair([head] + results, "") == [head] + results + [t]
  {
    assert [head] + results == [head] + results + [];
    RepairTurn(head, results, [], "");
    assert [head] + (results + [t]) + [] == [head] + results + [t];
  }

  /** The last call of a batch, left unanswered, gets the one result that repair adds. */
  lemma CancelledRepairs(history: seq<Item>, c: Call, before: seq<Item>, text: string, done: seq<Call>, results: seq<Item>)
    requires OpenAs(history, [c], before, text, done, results) && c.id !in LastAnswered(history)
    ensures Repair(history, "") == history + [Tool(c.id, Unrecorded(NameOf(c)))]
  {
    var head, t := Assistant(text, done + [c]), Tool(c.id, Unrecorded(NameOf(c)));
    LastAnsweredIs(before + [head], results);
    MissingLast(done, c, Answered(results));
    CancelledTurn(head, results, t);
    RepairKeepsPaired(before, "");
    Reassociate(before, [head], results);
    RepairConcat(before, [head] + results, "");
    Reassociate(before, [head] + results, [t]);
  }

  lemma CancelRests(s: State, f: Folder, y: seq<Item>, s': State, c: Call)
    requires s.phase == Batch([c]) && Runs(false, s, f, y) && c.id !in LastAnswered(s.history)
    requires s'.waiting.NotWaiting? && s'.history == s.history
    ensures Rests(false, s', Flush(AddCall(f, c)))
  {
    var t := Tool(c.id, Unrecorded(NameOf(c)));
    var before, text, done, results :| OpenAs(s.history, [c], before, text, done, results);
    CancelledRepairs(s.history, c, before, text, done, results);
    CallFolds(f, y, c);
    MendsDangles(f.items, y, PendingText(f), c);
    AnsweredGist(f, y, c, t.content);
    BalancedSettles(Told(f, y), AnsweredTo(f, y, c, t.content), [c], s.history, t);
    assert Rested(false, s', Flush(AddCall(f, c)), AnsweredTo(f, y, c, t.content), s.history + [t]);
  }

  lemma CancelConserves(keep: Keep, s: State)
    requires Enabled(s, CancelInTool) && Settled(keep, s, CancelInTool) && Conserves(false, keep, s)
    ensures Conserves(false, keep, Step(keep, s, CancelInTool))
  {
    var f, c := Replay(keep, s.log), s.phase.todo[0];
    assert s.phase.todo == [c];
    var y :| Runs(false, s, f, y);
    var s' := Step(keep, s, CancelInTool);
    ReplayMore(keep, s.log, [ToolCall(c), RunStopped]);
    FoldTwo(keep, f, ToolCall(c), RunStopped);
    CancelRests(s, f, y, s', c);
  }

  // ----- a suspension, the way out, a restart -----

  lemma SuspendHolds(full: bool, s: State, f: Folder, s': State, f': Folder, c: Call)
    requires s.phase == Batch([c]) && c.Ask? && c.id != "" && Holds(full, s, f)
    requires f' == Flush(AddCall(f, c)).(openAsk := c.id, openRun := s.run)
    requires s' == s.(pending := c.id, waiting := WaitingOn(s.run), phase := Leaving, log := s'.log)
    ensures Holds(full, s', f')
  {
    var y :| Runs(full, s, f, y);
    var live, said :| AskLast(s.history, live, said, c.id) && Sound(live);
    CallFolds(f, y, c);
    ToldGist(f, y, c);
    SoundRepairs(live);
    BalancedAsked(Told(f, y), y + [Assistant(PendingText(f), [c])], c, s.history);
    assert AskPair(s', f', f.items, y, PendingText(f), live, live, said);
  }

  lemma SuspendConserves(full: bool, keep: Keep, s: State)
    requires Enabled(s, Suspend) && s.phase.todo[0].id != "" && Conserves(full, keep, s) && |s.phase.todo| == 1
    ensures Conserves(full, keep, Step(keep, s, Suspend))
  {
    var c := s.phase.todo[0];
    assert s.phase.todo == [c];
    ReplayOne(keep, s.log, UserRequestInput(s.run, c.id));
    var s' := Step(keep, s, Suspend);
    SuspendHolds(full, s, Replay(keep, s.log), s', Replay(keep, s'.log), c);
  }

  lemma AskIsOnly(full: bool, keep: Keep, s: State)
    requires Enabled(s, Suspend) && Conserves(full, keep, s)
    ensures |s.phase.todo| == 1
  {
    var y :| Runs(full, s, Replay(keep, s.log), y);
  }

  lemma LeaveWaits(full: bool, s: State, f: Folder, s': State)
    requires s.phase.Leaving? && Waits(full, s, f) && s.pending == f.openAsk
    requires s'.history == Repair(s.history, s.pending) && s'.waiting == s.waiting && s'.phase.Idle?
    ensures Waits(full, s', f)
  {
    var before, y, text, live, w, said :|
      AskPair(s, f, before, y, text, live, w, said) && (s.phase.Leaving? ==> w == live) && (full ==> y == before && w == live);
    RepairsFixed(live, w);
    PairedAnySkip(live, f.openAsk);
    RepairKeepsPaired(live, f.openAsk);
    AddDangling(live, said, Ask(f.openAsk));
    assert AskPair(s', f, before, y, text, live, w, said);
  }

  lemma LeaveConserves(full: bool, keep: Keep, s: State)
    requires Enabled(s, Leave) && Conserves(full, keep, s)
    ensures Conserves(full, keep, Step(keep, s, Leave))
  {
    var f := Replay(keep, s.log);
    var s' := Step(keep, s, Leave);
    if s.waiting.WaitingOn? {
      LeaveWaits(full, s, f, s');
    } else {
      var y, w :| Rested(full, s, f, y, w);
      RepairsFixed(s.history, w);
      assert Rested(full, s', f, y, w);
    }
  }

  /** The folded items, repaired but for the open question, repair to the same. */
  lemma RebuiltRepairs(x: seq<Item>, y: seq<Item>, skip: string)
    requires Mends(x, y)
    ensures Repairs(Repair(x, skip), y) && Sparse(Repair(x, skip))
  {
    assert Sparse(x);
    RepairTwice(x, skip);
    RepairKeepsSparse(x, skip);
  }

  lemma BalancedSame(x: seq<Item>)
    ensures Balanced(x, [], x)
  {
    assert GistOf(x).calls + [] == GistOf(x).calls;
  }

  /** A restart takes over the folded items. */
  lemma RehydrateRests(full: bool, s': State, f: Folder, y: seq<Item>)
    requires Whole(f, y) && (full ==> y == f.items && f.openAsk == "")
    requires s'.history == Repair(Flush(f).items, f.openAsk) && s'.waiting.NotWaiting?
    ensures Rests(full, s', f)
  {
    WholeFlush(f, y);
    RebuiltRepairs(Flush(f).items, Told(f, y), f.openAsk);
    BalancedSame(Told(f, y));
    assert Rested(full, s', f, y, Told(f, y));
  }

  lemma RehydrateWaits(full: bool, s: State, f: Folder, s': State)
    requires Waits(full, s, f)
    requires s'.history == Repair(f.items, f.openAsk) && s'.waiting == s.waiting && s'.phase.Idle?
    ensures Waits(full, s', f)
  {
    var before, y, text, live, w, said :| AskPair(s, f, before, y, text, live, w, said) && (full ==> y == before && w == live);
    AddDangling(before, text, Ask(f.openAsk));
    RebuiltRepairs(before, y, f.openAsk);
    BalancedSame(y + [Assistant(text, [Ask(f.openAsk)])]);
    if full {
      RepairPairs(before, "");
      PairedAnySkip(before, f.openAsk);
      RepairKeepsPaired(before, f.openAsk);
    }
    assert AskPair(s', f, before, y, text, Repair(before, f.openAsk), y, text);
  }

  lemma RehydrateConserves(full: bool, keep: Keep, s: State, keepWaiting: bool)
    requires full ==> keepWaiting || s.waiting.NotWaiting?
    requires Conserves(full, keep, s)
    ensures Conserves(full, keep, Step(keep, s, Rehydrate(keepWaiting)))
  {
    var f := Replay(keep, s.log);
    var s' := Step(keep, s, Rehydrate(keepWaiting));
    if s.waiting.NotWaiting? {
      var y :| Whole(f, y) && (full ==> y == f.items && f.openAsk == "");
      RehydrateRests(full, s', f, y);
    } else if keepWaiting {
      RehydrateWaits(full, s, f, s');
    } else {
      AskGivenUp(s, f);
      var y, w :| Rested(full, s, f, y, w);
      RehydrateRests(full, s', f, y);
    }
  }

  lemma StepConserves(full: bool, keep: Keep, s: State, a: Action)
    requires Enabled(s, a) && Settled(keep, s, a) && (full ==> Answering(s, a)) && Conserves(full, keep, s) && AskAlone(s)
    ensures Conserves(full, keep, Step(keep, s, a))
  {
    match a
    case StartRun(text) => StartConserves(full, keep, s, text);
    case Resume(answer) => ResumeConserves(full, keep, s, answer);
    case Stop => StopConserves(full, keep, s);
    case FailReply => StopConserves(full, keep, s);
    case Request(p) => RequestConserves(full, keep, s, p);
    case Draft(text) => DraftConserves(full, keep, s, text);
    case RejectFinal(correction) => RejectConserves(full, keep, s, correction);
    case Finish(text) => FinishConserves(full, keep, s, text);
    case BadBatch(text) => ExitConserves(full, keep, s, text);
    case CallTools(text, calls) => CallToolsConserves(full, keep, s, text, calls);
    case Block(result) => BlockConserves(full, keep, s, result);
    case RunTool(raw) => var _ := RanConserves(full, keep, s, raw);
    case Suspend =>
      AskIsOnly(full, keep, s);
      SuspendConserves(full, keep, s);
    case CancelInTool => CancelConserves(keep, s);
    case Finalize(raw, closing) => FinalizeConserves(full, keep, s, raw, closing);
    case EndBatch => BatchEndRuns(full, s, Replay(keep, s.log));
    case Leave => LeaveConserves(full, keep, s);
    case Rehydrate(keepWaiting) => RehydrateConserves(full, keep, s, keepWaiting);
  }

  // ----- whole sessions -----

  ghost predicate AllSettled(keep: Keep, s: State, actions: seq<Action>)
    requires Legal(keep, s, actions)
    decreases |actions|
  {
    actions == [] || (Settled(keep, s, actions[0]) && AllSettled(keep, Step(keep, s, actions[0]), actions[1..]))
  }

  ghost predicate AllAnswering(keep: Keep, s: State, actions: seq<Action>)
    requires Legal(keep, s, actions)
    decreases |actions|
  {
    actions == [] || (Answering(s, actions[0]) && AllAnswering(keep, Step(keep, s, actions[0]), actions[1..]))
  }

  lemma {:induction false} RunConserves(full: bool, keep: Keep, s: State, actions: seq<Action>)
    requires Legal(keep, s, actions) && AllSettled(keep, s, actions) && (full ==> AllAnswering(keep, s, actions))
    requires Conserves(full, keep, s) && AskAlone(s)
    ensures Conserves(full, keep, Exec(keep, s, actions))
    decreases |actions|
  {
    if actions != [] {
      StepConserves(full, keep, s, actions[0]);
      AskAloneKept(keep, s, actions[0]);
      RunConserves(full, keep, Step(keep, s, actions[0]), actions[1..]);
    }
  }

  lemma NewConserves(full: bool, keep: Keep)
    ensures Conserves(full, keep, NEW_SESSION)
  {
    assert Repair([], "") == [];
    BalancedSame([]);
    assert Rested(full, NEW_SESSION, EMPTY_FOLDER, [], []);
  }

  lemma GistAtRest(x: seq<Item>, y: seq<Item>)
    requires Balanced(x, [], y)
    ensures GistOf(x) == GistOf(y)
  {
    assert GistOf(x).calls + [] == GistOf(x).calls;
  }

  lemma AtRest(keep: Keep, s: State)
    requires (s.phase.Idle? || s.phase.Leaving?) && Conserves(false, keep, s)
    ensures var r := Rebuild(keep, s.log);
            GistOf(Repair(r.items, "")) == GistOf(Repair(s.history, "")) && Sparse(r.items)
  {
    var f := Replay(keep, s.log);
    if s.waiting.WaitingOn? {
      AskGivenUp(s, f);
    }
    var y, w :| Rested(false, s, f, y, w);
    WholeFlush(f, y);
    RebuiltRepairs(Flush(f).items, Told(f, y), f.openAsk);
    assert Repair(s.history, "") == w;
    GistAtRest(Told(f, y), w);
  }

  /** When every call was answered, there is nothing to repair on either side but the open question. */
  lemma RebuildRests(keep: Keep, s: State)
    requires (s.phase.Idle? || s.phase.Leaving?) && Conserves(true, keep, s)
    ensures var f := Flush(Replay(keep, s.log));
            Rebuild(keep, s.log).items == f.items && GistOf(f.items) == GistOf(s.history)
  {
    var f := Replay(keep, s.log);
    if s.waiting.WaitingOn? {
      var before, y, text, live, w, said :| AskPair(s, f, before, y, text, live, w, said) && y == before && w == live;
      MendsSuspended(before, before, text, Ask(f.openAsk));
      GistAtRest(f.items, s.history);
    } else {
      var y, w :| Rested(true, s, f, y, w);
      WholeFlush(f, y);
      GistAtRest(Told(f, y), w);
    }
  }

  /**
   * After any settled session, whatever the sizes of its batches and wherever it was restarted, the
   * rebuilt conversation has one turn per call, is paired but for an open question, and once repaired
   * holds the same texts, calls and results as the live history once repaired, in the same order. If
   * every call was answered, it does so as it stands.
   */
  lemma ReplayConservesContent(keep: Keep, actions: seq<Action>)
    requires Legal(keep, NEW_SESSION, actions) && AllSettled(keep, NEW_SESSION, actions)
    ensures var s := Exec(keep, NEW_SESSION, actions); var r := Rebuild(keep, s.log);
            s.phase.Idle? || s.phase.Leaving? ==>
              && GistOf(Repair(r.items, "")) == GistOf(Repair(s.history, ""))
              && Paired(r.items, Replay(keep, s.log).openAsk) && Sparse(r.items)
              && (AllAnswering(keep, NEW_SESSION, actions) ==> GistOf(r.items) == GistOf(s.history))
  {
    NewConserves(false, keep);
    RunConserves(false, keep, NEW_SESSION, actions);
    var s := Exec(keep, NEW_SESSION, actions);
    RebuildPairs(keep, s.log);
    if s.phase.Idle? || s.phase.Leaving? {
      AtRest(keep, s);
      if AllAnswering(keep, NEW_SESSION, actions) {
        NewConserves(true, keep);
        RunConserves(true, keep, NEW_SESSION, actions);
        RebuildRests(keep, s);
      }
    }
  }
}
