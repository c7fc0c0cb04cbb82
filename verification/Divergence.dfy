// Why replay needs its conditions: from any tracked state, each step that `Faithful` excludes
// leaves the log telling another conversation than the one the engine holds.
module Divergence {
  import opened Conversation
  import opened Compaction
  import opened HistoryFold
  import opened Session
  import opened SparseHistory
  import opened Simulation
  import opened Strings

  /** The rebuilt conversation and the live one differ, whatever a later repair does to both. */
  ghost predicate Diverged(keep: Keep, s: State) {
    Repair(Rebuild(keep, s.log).items, "") != Repair(s.history, "")
  }

  // ----- folded items and a live history that no repair brings together -----

  /** Stated of every z equal to x, so that a proof unfolds it only on demand. */
  ghost predicate Parted(x: seq<Item>, y: seq<Item>, skip: string) {
    forall z, w | z == x && w == y :: Repair(Repair(z, skip), "") != Repair(w, "")
  }

  lemma PartedBySparse(x: seq<Item>, y: seq<Item>, skip: string)
    requires Sparse(x) && Repair(x, "") != Repair(y, "")
    ensures Parted(x, y, skip)
  {
    RepairTwice(x, skip);
  }

  lemma TurnsDiffer(x: seq<Item>, head: Item, a: Item, b: Item)
    requires a != b
    ensures x + [head, a] != x + [head, b]
  {
    assert (x + [head, a])[|x| + 1] == a && (x + [head, b])[|x| + 1] == b;
  }

  lemma OneMore(x: seq<Item>, item: Item)
    ensures x + [item] != x
  {
    assert |x + [item]| == |x| + 1;
  }

  lemma PartedByResult(x: seq<Item>, before: seq<Item>, text: string, c: Call, folded: Content, live: Content, skip: string)
    requires Mends(x, before) && folded != live
    ensures var head := Assistant(text, [c]); Parted(x + [head, Tool(c.id, folded)], before + [head, Tool(c.id, live)], skip)
  {
    MendsIsFixed(x, before);
    UnfoldSame(before, x);
    AddAnswered(x, text, c, folded);
    AddAnswered(before, text, c, live);
    TurnsDiffer(before, Assistant(text, [c]), Tool(c.id, folded), Tool(c.id, live));
    PartedBySparse(x + [Assistant(text, [c]), Tool(c.id, folded)], before + [Assistant(text, [c]), Tool(c.id, live)], skip);
  }

  lemma PartedByAnswer(x: seq<Item>, live: seq<Item>, text: string, c: Call, folded: Content, skip: string)
    requires MendsSame(live, x) && !folded.Unrecorded?
    ensures var head := Assistant(text, [c]); Parted(x + [head, Tool(c.id, folded)], live + [head], skip)
  {
    UnfoldSame(live, x);
    AddAnswered(x, text, c, folded);
    AddDangling(live, text, c);
    TurnsDiffer(Repair(live, ""), Assistant(text, [c]), Tool(c.id, folded), Tool(c.id, Unrecorded(NameOf(c))));
    PartedBySparse(x + [Assistant(text, [c]), Tool(c.id, folded)], live + [Assistant(text, [c])], skip);
  }

  lemma PartedByText(x: seq<Item>, y: seq<Item>, item: Item, skip: string)
    requires MendsSame(y, x) && !item.Tool? && CallsOf(item) == []
    ensures Parted(x + [item], y, skip) && Parted(x, y + [item], skip)
  {
    UnfoldSame(y, x);
    AddText(x, item);
    AddText(y, item);
    OneMore(Repair(y, ""), item);
    PartedBySparse(x + [item], y, skip);
    PartedBySparse(x, y + [item], skip);
  }

  lemma PartedByTask(x: seq<Item>, y: seq<Item>, item: Item, skip: string)
    requires Mends(x, y + [item]) && !item.Tool? && CallsOf(item) == []
    ensures Parted(x, y, skip)
  {
    MendsIsFixed(x, y + [item]);
    UnfoldSame(y + [item], x);
    AddText(y, item);
    OneMore(Repair(y, ""), item);
    PartedBySparse(x, y, skip);
  }

  lemma {:induction false} SpeechSnoc(items: seq<Item>, item: Item)
    ensures item.Tool? ==> Speech(items + [item]) == Speech(items)
    ensures !item.Tool? ==> Speech(items + [item]) == Speech(items) + [item]
  {
    if items != [] {
      assert (items + [item])[1..] == items[1..] + [item];
      SpeechSnoc(items[1..], item);
    }
  }

  lemma PartedBySpeech(x: seq<Item>, y: seq<Item>, skip: string)
    requires Speech(x) != Speech(y)
    ensures Parted(x, y, skip)
  {
    RepairKeepsSpeech(x, skip);
    RepairKeepsSpeech(Repair(x, skip), "");
    RepairKeepsSpeech(y, "");
  }

  lemma SpeechOfMended(x: seq<Item>, y: seq<Item>)
    requires Mends(x, y)
    ensures Speech(x) == Speech(y)
  {
    assert Repair(x, "") == y;
    RepairKeepsSpeech(x, "");
  }

  lemma LastDiffers(x: seq<Item>, a: Item, b: Item)
    requires a != b
    ensures x + [a] != x + [b]
  {
    assert (x + [a])[|x|] == a && (x + [b])[|x|] == b;
  }

  /** A live call whose turn the fold lacks, with its result on both sides. */
  lemma PartedByOrphan(x: seq<Item>, before: seq<Item>, head: Item, said: seq<Item>, folded: Item, live: Item, skip: string)
    requires Mends(x, before) && !head.Tool? && folded.Tool? && live.Tool?
    requires said == [] || (exists other :: other != head && !other.Tool? && said == [other])
    ensures Parted(x + said + [folded], before + [head] + [live], skip)
  {
    SpeechOfMended(x, before);
    SpeechSnoc(before, head);
    SpeechSnoc(before + [head], live);
    SpeechSnoc(x + said, folded);
    if said == [] {
      assert x + said == x;
      OneMore(Speech(before), head);
    } else {
      SpeechSnoc(x, said[0]);
      LastDiffers(Speech(before), said[0], head);
    }
    PartedBySpeech(x + said + [folded], before + [head] + [live], skip);
  }

  // ----- what the fold makes of each logged step -----

  /** The events a step adds, folded to other items than the engine then holds. */
  lemma DivergesBy(keep: Keep, s: State, s': State, more: seq<Event>, x: seq<Item>)
    requires s'.log == s.log + more
    requires Flush(Fold(keep, Replay(keep, s.log), more)).items == x
    requires Parted(x, s'.history, Fold(keep, Replay(keep, s.log), more).openAsk)
    ensures Diverged(keep, s')
  {
    ReplayMore(keep, s.log, more);
  }

  lemma AnswerFolds(keep: Keep, f: Folder, text: string, c: Call, raw: string)
    requires f.pending == TextPending(text)
    ensures Consume(keep, Consume(keep, f, ToolCall(c)), ToolResult(c.id, NameOf(c), raw))
         == Answering(keep, f, text, c, raw)
  {
    CallFolds(f, text, c);
    JoinTurn(f.items, Assistant(text, [c]), Tool(c.id, Text(keep(NameOf(c), raw))));
  }

  /** The fold with the answered call appended, and nothing pending. */
  function Answering(keep: Keep, f: Folder, text: string, c: Call, raw: string): Folder {
    f.(items := f.items + [Assistant(text, [c]), Tool(c.id, Text(keep(NameOf(c), raw)))], pending := NoPending)
  }

  lemma CancelledAnswerFolds(keep: Keep, f: Folder, text: string, c: Call, raw: string)
    requires f.pending == TextPending(text)
    ensures Fold(keep, f, [ToolCall(c), ToolResult(c.id, NameOf(c), raw), RunStopped]) == Answering(keep, f, text, c, raw)
  {
    AnswerFolds(keep, f, text, c, raw);
    FoldThree(keep, f, ToolCall(c), ToolResult(c.id, NameOf(c), raw), RunStopped);
  }

  lemma RefusalFolds(keep: Keep, f: Folder, text: string, c: Call, raw: string)
    requires f.pending == TextPending(text)
    ensures Fold(keep, f, [ToolCall(c), Other, ToolResult(c.id, NameOf(c), raw)]) == Answering(keep, f, text, c, raw)
  {
    AnswerFolds(keep, f, text, c, raw);
    FoldThree(keep, f, ToolCall(c), Other, ToolResult(c.id, NameOf(c), raw));
    assert Consume(keep, Consume(keep, f, ToolCall(c)), Other) == Consume(keep, f, ToolCall(c));
  }

  lemma TextFolds(keep: Keep, f: Folder, text: string)
    ensures Blank(text) ==> Flush(Fold(keep, f, [AssistantStatus(text)])).items == Flush(f).items
    ensures Blank(text) ==> Flush(Fold(keep, f, [RunCompleted(text)])).items == Flush(f).items
    ensures !Blank(text) ==> Flush(Fold(keep, f, [AssistantStatus(text), RunStopped])).items == Flush(f).items + [Assistant(text, [])]
  {
    FoldOne(keep, f, AssistantStatus(text));
    FoldOne(keep, f, RunCompleted(text));
    FoldTwo(keep, f, AssistantStatus(text), RunStopped);
  }

  lemma OrphanFolds(keep: Keep, f: Folder, text: string, id: string, tool: string, raw: string)
    requires f.pending == TextPending(text)
    ensures var said := if Blank(text) then [] else [Assistant(text, [])];
            Flush(Fold(keep, f, [ToolResult(id, tool, raw)])).items == f.items + said + [Tool(id, Text(keep(tool, raw)))]
  {
    FoldOne(keep, f, ToolResult(id, tool, raw));
    if Blank(text) {
      assert f.items + [] == f.items;
    }
  }

  lemma AnswerTakenFolds(keep: Keep, f: Folder, folded: seq<Item>, text: string, run: nat, answer: string)
    requires f.pending.NoPending? && f.openAsk != "" && run == f.openRun
    requires f.items == folded + [Assistant(text, [Ask(f.openAsk)])]
    ensures Flush(Fold(keep, f, [UserMessage(run, answer)])).items
         == folded + [Assistant(text, [Ask(f.openAsk)]), Tool(f.openAsk, Answer(answer))]
  {
    FoldOne(keep, f, UserMessage(run, answer));
    JoinTurn(folded, Assistant(text, [Ask(f.openAsk)]), Tool(f.openAsk, Answer(answer)));
  }

  // ----- the excluded steps -----

  lemma ReplyTracks(keep: Keep, s: State)
    requires s.phase.Replying? && Tracks(keep, s)
    ensures MendsSame(s.history, Flush(Replay(keep, s.log)).items)
  {
    MendsAlike(Flush(Replay(keep, s.log)).items, s.history);
  }

  lemma OpenCall(keep: Keep, s: State) returns (before: seq<Item>, text: string)
    requires s.phase.Batch? && s.phase.todo != [] && Tracks(keep, s)
    ensures OneCall(s, Replay(keep, s.log), before, text, s.phase.todo[0])
  {
    before, text :| OneCall(s, Replay(keep, s.log), before, text, s.phase.todo[0]);
  }

  /** A tool result that was logged just before the cancellation was seen is lost to the engine only. */
  lemma CancelAfterToolDiverges(keep: Keep, s: State, raw: string)
    requires Enabled(s, CancelAfterTool(raw)) && Tracks(keep, s)
    ensures Diverged(keep, Step(keep, s, CancelAfterTool(raw)))
  {
    var before, text := OpenCall(keep, s);
    var f, c := Replay(keep, s.log), s.phase.todo[0];
    var more := [ToolCall(c), ToolResult(c.id, NameOf(c), raw), RunStopped];
    var kept := Text(keep(NameOf(c), raw));
    CancelledAnswerFolds(keep, f, text, c, raw);
    MendsAlike(f.items, before);
    PartedByAnswer(f.items, before, text, c, kept, Fold(keep, f, more).openAsk);
    DivergesBy(keep, s, Step(keep, s, CancelAfterTool(raw)), more, f.items + [Assistant(text, [c]), Tool(c.id, kept)]);
  }

  /** A refused batch leaves its text in the log but not in the conversation. */
  lemma BadBatchDiverges(keep: Keep, s: State, text: string)
    requires Enabled(s, BadBatch(text)) && !Blank(text) && Tracks(keep, s)
    ensures Diverged(keep, Step(keep, s, BadBatch(text)))
  {
    var f := Replay(keep, s.log);
    var more := [AssistantStatus(text), RunStopped];
    assert text != "";
    assert StatusEvents(text) + [RunStopped] == more;
    TextFolds(keep, f, text);
    ReplyTracks(keep, s);
    PartedByText(Flush(f).items, s.history, Assistant(text, []), Fold(keep, f, more).openAsk);
    DivergesBy(keep, s, Step(keep, s, BadBatch(text)), more, Flush(f).items + [Assistant(text, [])]);
  }

  /** Blank text is kept by the engine and dropped by the fold. */
  lemma BlankTextDiverges(keep: Keep, s: State, s': State, text: string, e: Event)
    requires s.phase.Replying? && Blank(text) && Tracks(keep, s)
    requires e == AssistantStatus(text) || e == RunCompleted(text)
    requires s'.log == s.log + [e] && s'.history == s.history + [Assistant(text, [])]
    ensures Diverged(keep, s')
  {
    var f := Replay(keep, s.log);
    TextFolds(keep, f, text);
    ReplyTracks(keep, s);
    PartedByText(Flush(f).items, s.history, Assistant(text, []), Fold(keep, f, [e]).openAsk);
    DivergesBy(keep, s, s', [e], Flush(f).items);
  }

  /** A run cancelled before its first request never took up the user's message, which the log holds. */
  lemma StopBeforeRequestDiverges(keep: Keep, s: State)
    requires Enabled(s, Stop) && s.phase.task != "" && Tracks(keep, s)
    ensures Diverged(keep, Step(keep, s, Stop))
  {
    var f := Replay(keep, s.log);
    FoldOne(keep, f, RunStopped);
    FlushAgain(f);
    PartedByTask(Flush(f).items, s.history, User(s.phase.task), f.openAsk);
    DivergesBy(keep, s, Step(keep, s, Stop), [RunStopped], Flush(f).items);
  }

  /** An answer that was refused is in the log, where it counts as the answer. */
  lemma RefusedAnswerDiverges(keep: Keep, s: State, answer: string)
    requires Enabled(s, RefuseAnswer(answer)) && Tracks(keep, s)
    ensures Diverged(keep, Step(keep, s, RefuseAnswer(answer)))
  {
    var f := Replay(keep, s.log);
    var folded, live, text :| Asked(s, f, folded, live, text);
    var ask := Ask(f.openAsk);
    var more := [UserMessage(s.waiting.run, answer)];
    AnswerTakenFolds(keep, f, folded, text, s.waiting.run, answer);
    PartedByAnswer(folded, live, text, ask, Answer(answer), Fold(keep, f, more).openAsk);
    DivergesBy(keep, s, Step(keep, s, RefuseAnswer(answer)), more, folded + [Assistant(text, [ask]), Tool(f.openAsk, Answer(answer))]);
  }

  /** A refusal too long to be kept whole is cut by the fold and not by the engine. */
  lemma LongRefusalDiverges(keep: Keep, s: State, result: string)
    requires Enabled(s, Block(result)) && keep(NameOf(s.phase.todo[0]), result) != result && Tracks(keep, s)
    ensures Diverged(keep, Step(keep, s, Block(result)))
  {
    var before, text := OpenCall(keep, s);
    var f, c := Replay(keep, s.log), s.phase.todo[0];
    var more := [ToolCall(c), Other, ToolResult(c.id, NameOf(c), result)];
    var cut := Text(keep(NameOf(c), result));
    RefusalFolds(keep, f, text, c, result);
    JoinTurn(before, Assistant(text, [c]), Tool(c.id, Text(result)));
    PartedByResult(f.items, before, text, c, cut, Text(result), Fold(keep, f, more).openAsk);
    DivergesBy(keep, s, Step(keep, s, Block(result)), more, f.items + [Assistant(text, [c]), Tool(c.id, cut)]);
  }

  /** A suspension with invalid arguments logs a result whose call the log never held. */
  lemma BadSuspensionDiverges(keep: Keep, s: State, result: string)
    requires Enabled(s, BadSuspension(result)) && Tracks(keep, s)
    ensures Diverged(keep, Step(keep, s, BadSuspension(result)))
  {
    var before, text := OpenCall(keep, s);
    var f, c := Replay(keep, s.log), s.phase.todo[0];
    var more := [ToolResult(c.id, NameOf(c), result)];
    var said := if Blank(text) then [] else [Assistant(text, [])];
    var folded := Tool(c.id, Text(keep(NameOf(c), result)));
    OrphanFolds(keep, f, text, c.id, NameOf(c), result);
    PartedByOrphan(f.items, before, Assistant(text, [c]), said, folded, Tool(c.id, Text(result)), Fold(keep, f, more).openAsk);
    DivergesBy(keep, s, Step(keep, s, BadSuspension(result)), more, f.items + said + [folded]);
  }

  // ----- a checkpoint counted over synthesized results -----

  lemma ResultsGrow(head: Item, run: seq<Item>)
    requires AllTools(run) && TurnSparse(head, run)
    ensures |Results(head, run, "")| >= |run|
    ensures Results(head, run, "") != run ==> |Results(head, run, "")| > |run|
  {
    if CallsOf(head) != [] && Missing(head.calls, Answered(run), "") == [] {
      assert run + [] == run;
    }
  }

  /** Where the repaired conversation is cut before a turn, the folded items can be cut too. */
  lemma {:induction false} RepairSplits(items: seq<Item>, x: seq<Item>, y: seq<Item>) returns (front: seq<Item>, back: seq<Item>)
    requires Sparse(items) && Repair(items, "") == x + y && StartsTurn(y)
    ensures items == front + back && StartsTurn(front) && StartsTurn(back)
    ensures Repair(front, "") == x && Repair(back, "") == y
    ensures |front| <= |x| && (front != x ==> |front| < |x|)
    decreases |items|
  {
    if x == [] {
      front, back := [], items;
      assert x + y == y && front + back == back;
    } else {
      var head, run, rest := FirstTurn(items);
      SparseTurn(head, run, rest);
      RepairTurn(head, run, rest, "");
      ResultsPair(head, run, "");
      ResultsGrow(head, run);
      var x' := TakeTurn(x, y, head, Results(head, run, ""), Repair(rest, ""));
      var more;
      more, back := RepairSplits(rest, x', y);
      front := [head] + run + more;
      Reassociate([head] + run, more, back);
      RepairTurn(head, run, more, "");
    }
  }

  lemma FlushRecords(f: Folder)
    requires Recorded(f.items)
    ensures Recorded(Flush(f).items)
  {
    if f.pending.Pending? {
      RecordedConcat(f.items, [Assistant(f.pending.text, f.pending.calls)]);
    }
  }

  lemma AppendRecords(f: Folder, item: Item)
    requires Recorded(f.items) && Recorded([item])
    ensures Recorded(Append(f, item).items)
  {
    FlushRecords(f);
    RecordedConcat(Flush(f).items, [item]);
  }

  /** A checkpoint takes one stretch out of the flushed items. */
  lemma CheckpointTakes(f: Folder, pinned: int, shadowed: int, how: CompactionMethod, summary: string) returns (p: nat, e: nat)
    ensures p <= e <= |Flush(f).items|
    ensures var g := Checkpoint(f, pinned, shadowed, how, summary);
            g.pending.NoPending? && g.items == Flush(f).items[..p] + Flush(f).items[e..]
  {
    p := if pinned < 0 || pinned > |Flush(f).items| then 0 else pinned;
    e := if shadowed < 0 || p + shadowed > |Flush(f).items| then p else p + shadowed;
  }

  lemma CutRecords(x: seq<Item>, p: nat, e: nat)
    requires Recorded(x) && p <= e <= |x|
    ensures Recorded(x[..p] + x[e..])
  {
    RecordedConcat(x[..p], x[p..]);
    RecordedConcat(x[..e], x[e..]);
    RecordedConcat(x[..p], x[e..]);
    assert x[..p] + x[p..] == x && x[..e] + x[e..] == x;
  }

  lemma CheckpointRecords(f: Folder, pinned: int, shadowed: int, how: CompactionMethod, summary: string)
    requires Recorded(f.items)
    ensures Recorded(Checkpoint(f, pinned, shadowed, how, summary).items)
  {
    FlushRecords(f);
    var p, e := CheckpointTakes(f, pinned, shadowed, how, summary);
    CutRecords(Flush(f).items, p, e);
  }

  lemma ConsumeRecords(keep: Keep, f: Folder, e: Event)
    requires Recorded(f.items)
    ensures Recorded(Consume(keep, f, e).items)
  {
    FlushRecords(f);
    match e
    case UserMessage(run, text) =>
      AppendRecords(f, Tool(f.openAsk, Answer(text)));
      AppendRecords(f, User(text));
    case ToolResult(id, tool, raw) => AppendRecords(f, Tool(id, Text(keep(tool, raw))));
    case UserRequestInput(_, id) => FlushRecords(AddCall(f, Ask(id)));
    case RunCompleted(text) => AppendRecords(f, Assistant(text, []));
    case HistoryCompacted(pinned, shadowed, how, summary) => CheckpointRecords(f, pinned, shadowed, how, summary);
    case SystemFeedback(text) => AppendRecords(f, User(text));
    case _ =>
  }

  /** The fold never synthesizes a result. */
  lemma {:induction false} FoldRecords(keep: Keep, log: seq<Event>)
    ensures Recorded(Replay(keep, log).items)
    decreases |log|
  {
    if log != [] {
      FoldRecords(keep, log[..|log| - 1]);
      ConsumeRecords(keep, Replay(keep, log[..|log| - 1]), log[|log| - 1]);
    }
  }

  lemma {:induction false} SpeechConcat(a: seq<Item>, b: seq<Item>)
    ensures Speech(a + b) == Speech(a) + Speech(b)
  {
    if a == [] {
      assert a + b == b;
    } else {
      assert (a + b)[1..] == a[1..] + b;
      SpeechConcat(a[1..], b);
    }
  }

  lemma SpeechStarts(items: seq<Item>)
    requires items != [] && StartsTurn(items)
    ensures |Speech(items)| > 0
  {
  }

  /** Dropping items from the front of a turn drops something that was said. */
  lemma SpeechDropped(items: seq<Item>, d: nat)
    requires items != [] && StartsTurn(items) && 0 < d <= |items|
    ensures |Speech(items[d..])| < |Speech(items)|
  {
    assert items == items[..d] + items[d..];
    SpeechConcat(items[..d], items[d..]);
    SpeechStarts(items[..d]);
  }

  lemma {:induction false} PinnedSaysNothing(history: seq<Item>, i: nat)
    requires i <= |history|
    ensures forall m :: i <= m < PinnedFrom(history, i) ==> CallsOf(history[m]) == []
    decreases |history| - i
  {
    if i < |history| && CallsOf(history[i]) == [] && !history[i].User? {
      PinnedSaysNothing(history, i + 1);
    }
  }

  /** No result stands in the pinned part of a paired conversation, so nothing in it was synthesized. */
  lemma PinnedRecorded(history: seq<Item>)
    requires Paired(history, "")
    ensures Recorded(history[..Pinned(history)])
  {
    PinnedSaysNothing(history, 0);
    forall k | 0 <= k < Pinned(history) ensures !history[k].Tool? {
      if history[k].Tool? {
        OwnerOfResult(history, k);
      }
    }
  }

  /** What a checkpoint leaves of the folded items; one that reaches past their end drops nothing. */
  function CutAt(x: seq<Item>, p: nat, e: nat): seq<Item>
    requires p <= |x| && p <= e
  {
    if e <= |x| then x[..p] + x[e..] else x
  }

  lemma CutPieces(front: seq<Item>, a: seq<Item>, b: seq<Item>, e: nat)
    requires |front| + |a| <= e <= |front + (a + b)|
    ensures CutAt(front + (a + b), |front|, e) == front + b[e - |front| - |a|..]
  {
  }

  lemma SpeechOfThree(front: seq<Item>, a: seq<Item>, b: seq<Item>)
    ensures Speech(front + (a + b)) == Speech(front) + (Speech(a) + Speech(b))
  {
    SpeechConcat(front, a + b);
    SpeechConcat(a, b);
  }

  lemma LongerDiffers<T>(a: seq<T>, b: seq<T>, c: seq<T>)
    requires |b| != |c|
    ensures a + b != a + c
  {
    assert |a + b| != |a + c|;
  }

  lemma MiscutPieces(front: seq<Item>, span: seq<Item>, rest: seq<Item>, span': seq<Item>, rest': seq<Item>)
    requires StartsTurn(span) && StartsTurn(rest') && rest' != [] && |span'| < |span|
    requires Speech(span') == Speech(span) && Speech(rest') == Speech(rest)
    ensures Speech(CutAt(front + (span' + rest'), |front|, |front| + |span|)) != Speech(front + rest)
  {
    var e := |front| + |span|;
    SpeechConcat(front, rest);
    if e <= |front + (span' + rest')| {
      var d := |span| - |span'|;
      CutPieces(front, span', rest', e);
      SpeechDropped(rest', d);
      SpeechConcat(front, rest'[d..]);
      LongerDiffers(Speech(front), Speech(rest'[d..]), Speech(rest));
    } else {
      SpeechOfThree(front, span', rest');
      SpeechStarts(span);
      LongerDiffers(Speech(front), Speech(span') + Speech(rest'), Speech(rest));
    }
  }

  /** A cut that lands further on in the folded items than in the live history leaves other things said. */
  lemma MiscutSays(x: seq<Item>, front: seq<Item>, span: seq<Item>, rest: seq<Item>)
    requires Sparse(x) && Recorded(x) && Repair(x, "") == front + (span + rest)
    requires StartsTurn(span) && StartsTurn(rest) && StartsTurn(span + rest) && rest != []
    requires Recorded(front) && !Recorded(span)
    ensures |front| <= |x| && Speech(CutAt(x, |front|, |front| + |span|)) != Speech(front + rest)
  {
    var back := RecordedPrefix(x, front, span + rest);
    var span', rest' := RepairSplits(back, span, rest);
    RecordedConcat(front, back);
    RecordedConcat(span', rest');
    RepairKeepsSpeech(span', "");
    RepairKeepsSpeech(rest', "");
    MiscutPieces(front, span, rest, span', rest');
  }

  lemma StartsConcat(a: seq<Item>, b: seq<Item>)
    requires StartsTurn(a) && StartsTurn(b)
    ensures StartsTurn(a + b)
  {
  }

  lemma PartedByMiscut(x: seq<Item>, front: seq<Item>, span: seq<Item>, rest: seq<Item>, skip: string)
    requires Mends(x, front + (span + rest)) && Recorded(x)
    requires StartsTurn(span) && StartsTurn(rest) && StartsTurn(span + rest) && rest != []
    requires Recorded(front) && !Recorded(span)
    ensures |front| <= |x| && Parted(CutAt(x, |front|, |front| + |span|), front + rest, skip)
  {
    assert Sparse(x);
    MiscutSays(x, front, span, rest);
    PartedBySpeech(CutAt(x, |front|, |front| + |span|), front + rest, skip);
  }

  lemma FourPieces<T>(a: seq<T>, b: seq<T>, c: seq<T>, d: seq<T>)
    ensures a + b + c + d == a + (b + (c + d)) && a + c + d == a + (c + d)
  {
  }

  lemma PartedPieces(x: seq<Item>, front: seq<Item>, span: seq<Item>, tail: seq<Item>, task: seq<Item>, p: nat, e: nat, skip: string)
    requires Mends(x, front + span + tail + task) && Recorded(x) && StartsTurn(task)
    requires StartsTurn(span) && StartsTurn(tail) && tail != []
    requires p == |front| && e == |front| + |span| && Recorded(front) && !Recorded(front + span)
    ensures p <= |x| && Parted(CutAt(x, p, e), front + tail + task, skip)
  {
    FourPieces(front, span, tail, task);
    PartedInThree(x, front, span, tail, task, skip);
  }

  lemma PartedInThree(x: seq<Item>, front: seq<Item>, span: seq<Item>, tail: seq<Item>, task: seq<Item>, skip: string)
    requires Mends(x, front + (span + (tail + task))) && Recorded(x) && StartsTurn(task)
    requires StartsTurn(span) && StartsTurn(tail) && tail != []
    requires Recorded(front) && !Recorded(front + span)
    ensures |front| <= |x| && Parted(CutAt(x, |front|, |front| + |span|), front + (tail + task), skip)
  {
    RecordedConcat(front, span);
    StartsConcat(tail, task);
    StartsConcat(span, tail + task);
    PartedByMiscut(x, front, span, tail + task, skip);
  }

  /** The two sides of a checkpoint whose span held a synthesized result. */
  lemma PartedByCheckpoint(x: seq<Item>, live: seq<Item>, task: seq<Item>, skip: string)
    requires Mends(x, live + task) && StartsTurn(task) && Recorded(x)
    requires SelectSpan(live).Shadowed() > 0 && !Recorded(live[..SelectSpan(live).end])
    ensures var s := SelectSpan(live);
            s.pinned <= |x| && Parted(CutAt(x, s.pinned, s.end), Drop(live, s) + task, skip)
  {
    var s := SelectSpan(live);
    MendsPaired(x, live, task);
    PinnedEndsTurn(live);
    SpanEndsTurn(live);
    PinnedRecorded(live);
    CutThree(live, s.pinned, s.end);
    SpanStarts(live, s.pinned, s.end);
    PartedPieces(x, live[..s.pinned], live[s.pinned..s.end], live[s.end..], task, s.pinned, s.end, skip);
  }

  lemma MendsPaired(x: seq<Item>, live: seq<Item>, task: seq<Item>)
    requires Mends(x, live + task) && StartsTurn(task)
    ensures Paired(live, "")
  {
    RepairPairs(x, "");
    PairedConcat(live, task, "");
  }

  lemma CheckpointMiscuts(keep: Keep, f: Folder, span: Span, how: CompactionMethod, summary: string)
    requires span.pinned <= span.end && span.pinned <= |Flush(f).items|
    ensures var x := Flush(f).items;
            Flush(Fold(keep, f, [HistoryCompacted(span.pinned, span.Shadowed(), how, summary)])).items
            == CutAt(x, span.pinned, span.end)
  {
    FoldOne(keep, f, HistoryCompacted(span.pinned, span.Shadowed(), how, summary));
    CheckpointItems(f, span, how, summary);
  }

  lemma CheckpointItems(f: Folder, span: Span, how: CompactionMethod, summary: string)
    requires span.pinned <= span.end && span.pinned <= |Flush(f).items|
    ensures var g := Checkpoint(f, span.pinned, span.Shadowed(), how, summary);
            g.pending.NoPending? && g.items == CutAt(Flush(f).items, span.pinned, span.end)
  {
    assert span.pinned + span.Shadowed() == span.end;
    if span.end > |Flush(f).items| {
      CutNothing(Flush(f).items, span.pinned);
    }
  }

  lemma CutNothing<T>(x: seq<T>, p: nat)
    requires p <= |x|
    ensures x[..p] + x[p..] == x
  {
  }

  /** A checkpoint whose dropped span held a synthesized result counts items the log never held. */
  lemma MiscountDiverges(keep: Keep, s: State, p: Pressure)
    requires Enabled(s, Request(p)) && Compacts(s, p) && !Recorded(s.history[..SelectSpan(s.history).end])
    requires Tracks(keep, s)
    ensures Diverged(keep, Step(keep, s, Request(p)))
  {
    var f := Replay(keep, s.log);
    var x, span := Flush(f).items, SelectSpan(s.history);
    var summary := if p.Digest? then p.summary else "";
    var how := if p.Digest? then Summarized else Trimmed;
    var more := [HistoryCompacted(span.pinned, span.Shadowed(), how, summary)];
    FoldRecords(keep, s.log);
    FlushRecords(f);
    PartedByCheckpoint(x, s.history, TaskItems(s.phase.task), Fold(keep, f, more).openAsk);
    CheckpointMiscuts(keep, f, span, how, summary);
    DivergesBy(keep, s, Step(keep, s, Request(p)), more, CutAt(x, span.pinned, span.end));
  }

  // ----- a turn of several calls never comes back -----

  predicate SingleCalls(items: seq<Item>) {
    forall i :: 0 <= i < |items| ==> |CallsOf(items[i])| <= 1
  }

  /** The folded turns hold a call at most, and the pending one no more than n. */
  predicate Singles(f: Folder, n: nat) {
    SingleCalls(f.items) && (f.pending.Pending? ==> |f.pending.calls| <= n)
  }

  lemma FlushSingles(f: Folder)
    requires Singles(f, 1)
    ensures Singles(Flush(f), 0)
  {
  }

  lemma EventSingles(keep: Keep, f: Folder, e: Event)
    requires Singles(f, 0)
    ensures Singles(Consume(keep, f, e), if e.ToolCall? then 1 else 0)
  {
    FlushSingles(f);
    match e
    case UserMessage(_, text) =>
      AppendSingles(f, Tool(f.openAsk, Answer(text)));
      AppendSingles(f, User(text));
    case ToolResult(id, tool, raw) => AppendSingles(f, Tool(id, Text(keep(tool, raw))));
    case UserRequestInput(_, id) => FlushSingles(AddCall(f, Ask(id)));
    case RunCompleted(text) => AppendSingles(f, Assistant(text, []));
    case HistoryCompacted(pinned, shadowed, how, summary) => CheckpointSingles(f, pinned, shadowed, how, summary);
    case SystemFeedback(text) => AppendSingles(f, User(text));
    case _ =>
  }

  lemma AppendSingles(f: Folder, item: Item)
    requires Singles(f, 1) && CallsOf(item) == []
    ensures Singles(Append(f, item), 0)
  {
    FlushSingles(f);
  }

  lemma CheckpointSingles(f: Folder, pinned: int, shadowed: int, how: CompactionMethod, summary: string)
    requires Singles(f, 0)
    ensures Singles(Checkpoint(f, pinned, shadowed, how, summary), 0)
  {
    FlushSingles(f);
    var p, e := CheckpointTakes(f, pinned, shadowed, how, summary);
    CutSingles(Flush(f).items, p, e);
  }

  lemma CutSingles(x: seq<Item>, p: nat, e: nat)
    requires SingleCalls(x) && p <= e <= |x|
    ensures SingleCalls(x[..p] + x[e..])
  {
    SinglesConcat(x[..p], x[p..]);
    SinglesConcat(x[..e], x[e..]);
    SinglesConcat(x[..p], x[e..]);
    assert x[..p] + x[p..] == x && x[..e] + x[e..] == x;
  }

  lemma AfterCallSingles(keep: Keep, f: Folder, e: Event)
    requires Singles(f, 1) && (e.ToolResult? || e.RunStopped?)
    ensures Singles(Consume(keep, f, e), 0)
  {
    FlushSingles(f);
    if e.ToolResult? {
      AppendSingles(f, Tool(e.callId, Text(keep(e.tool, e.raw))));
    }
  }

  lemma OneSingle(keep: Keep, log: seq<Event>, e: Event)
    requires Singles(Replay(keep, log), 0) && !e.ToolCall?
    ensures Singles(Replay(keep, log + [e]), 0)
  {
    ReplayOne(keep, log, e);
    EventSingles(keep, Replay(keep, log), e);
  }

  lemma CallSingles(keep: Keep, log: seq<Event>, c: Call, e: Event)
    requires Singles(Replay(keep, log), 0) && (e.ToolResult? || e.RunStopped?)
    ensures Singles(Replay(keep, log + [ToolCall(c), e]), 0) && Singles(Replay(keep, log + [ToolCall(c), Other, e]), 0)
  {
    var f := Replay(keep, log);
    CallFolded(keep, log, c, e);
    EventSingles(keep, f, ToolCall(c));
    AfterCallSingles(keep, AddCall(f, c), e);
  }

  lemma CallFolded(keep: Keep, log: seq<Event>, c: Call, e: Event)
    ensures Replay(keep, log + [ToolCall(c), e]) == Consume(keep, AddCall(Replay(keep, log), c), e)
    ensures Replay(keep, log + [ToolCall(c), Other, e]) == Consume(keep, AddCall(Replay(keep, log), c), e)
  {
    var f := Replay(keep, log);
    ReplayMore(keep, log, [ToolCall(c), e]);
    FoldTwo(keep, f, ToolCall(c), e);
    ReplayMore(keep, log, [ToolCall(c), Other, e]);
    FoldThree(keep, f, ToolCall(c), Other, e);
  }

  lemma CallThenSingles(keep: Keep, log: seq<Event>, c: Call, e: Event, more: Event)
    requires Singles(Replay(keep, log), 0) && e.ToolResult? && !more.ToolCall?
    ensures Singles(Replay(keep, log + [ToolCall(c), e] + [more]), 0)
    ensures log + [ToolCall(c), e] + [more] == log + [ToolCall(c), e, more]
  {
    CallSingles(keep, log, c, e);
    OneSingle(keep, log + [ToolCall(c), e], more);
  }

  lemma StatusSingles(keep: Keep, log: seq<Event>, text: string)
    requires Singles(Replay(keep, log), 0)
    ensures Singles(Replay(keep, log + StatusEvents(text)), 0)
    ensures Singles(Replay(keep, log + (StatusEvents(text) + [RunStopped])), 0)
  {
    if text == "" {
      assert log + [] == log;
    } else {
      OneSingle(keep, log, AssistantStatus(text));
    }
    OneSingle(keep, log + StatusEvents(text), RunStopped);
    assert log + StatusEvents(text) + [RunStopped] == log + (StatusEvents(text) + [RunStopped]);
  }

  lemma BatchStepSingles(keep: Keep, s: State, a: Action)
    requires Enabled(s, a) && s.phase.Batch? && Singles(Replay(keep, s.log), 0)
    ensures Singles(Replay(keep, Step(keep, s, a).log), 0)
  {
    match a
    case Block(result) => CallSingles(keep, s.log, s.phase.todo[0], ToolResult(s.phase.todo[0].id, NameOf(s.phase.todo[0]), result));
    case BadSuspension(result) => OneSingle(keep, s.log, ToolResult(s.phase.todo[0].id, NameOf(s.phase.todo[0]), result));
    case Suspend => OneSingle(keep, s.log, UserRequestInput(s.run, s.phase.todo[0].id));
    case RunTool(raw) => CallSingles(keep, s.log, s.phase.todo[0], ToolResult(s.phase.todo[0].id, NameOf(s.phase.todo[0]), raw));
    case CancelInTool => CallSingles(keep, s.log, s.phase.todo[0], RunStopped);
    case CancelAfterTool(raw) =>
      CallThenSingles(keep, s.log, s.phase.todo[0], ToolResult(s.phase.todo[0].id, NameOf(s.phase.todo[0]), raw), RunStopped);
    case Finalize(raw, closing) =>
      CallThenSingles(keep, s.log, s.phase.todo[0], ToolResult(s.phase.todo[0].id, NameOf(s.phase.todo[0]), raw),
                      if closing.Closing? then RunCompleted(closing.summary) else RunStopped);
    case _ =>
  }

  lemma StepSingles(keep: Keep, s: State, a: Action)
    requires Enabled(s, a) && Singles(Replay(keep, s.log), 0)
    ensures Singles(Replay(keep, Step(keep, s, a).log), 0)
  {
    match a
    case StartRun(text) => OneSingle(keep, s.log, UserMessage(s.nextRun, text));
    case Resume(answer) => OneSingle(keep, s.log, UserMessage(s.waiting.run, answer));
    case RefuseAnswer(answer) => OneSingle(keep, s.log, UserMessage(s.waiting.run, answer));
    case Stop => OneSingle(keep, s.log, RunStopped);
    case Request(p) => RequestSingles(keep, s, p);
    case FailReply => OneSingle(keep, s.log, RunStopped);
    case Draft(text) => OneSingle(keep, s.log, AssistantStatus(text));
    case RejectFinal(correction) => OneSingle(keep, s.log, SystemFeedback(correction));
    case Finish(text) => OneSingle(keep, s.log, RunCompleted(text));
    case BadBatch(text) => StatusSingles(keep, s.log, text);
    case CallTools(text, _) => StatusSingles(keep, s.log, text);
    case EndBatch =>
    case Leave =>
    case Rehydrate(_) =>
    case _ => BatchStepSingles(keep, s, a);
  }

  lemma RequestSingles(keep: Keep, s: State, p: Pressure)
    requires Enabled(s, Request(p)) && Singles(Replay(keep, s.log), 0)
    ensures Singles(Replay(keep, Step(keep, s, Request(p)).log), 0)
  {
    var span := SelectSpan(s.history);
    OneSingle(keep, s.log, HistoryCompacted(span.pinned, span.Shadowed(), Trimmed, ""));
    OneSingle(keep, s.log, HistoryCompacted(span.pinned, span.Shadowed(), Summarized, if p.Digest? then p.summary else ""));
  }

  lemma {:induction false} RunSingles(keep: Keep, s: State, actions: seq<Action>)
    requires Legal(keep, s, actions) && Singles(Replay(keep, s.log), 0)
    ensures Singles(Replay(keep, Exec(keep, s, actions).log), 0)
    decreases |actions|
  {
    if actions != [] {
      StepSingles(keep, s, actions[0]);
      RunSingles(keep, Step(keep, s, actions[0]), actions[1..]);
    }
  }

  lemma {:induction false} SpeechSingles(items: seq<Item>)
    ensures SingleCalls(Speech(items)) <==> SingleCalls(items)
  {
    if items != [] {
      SpeechSingles(items[1..]);
      SinglesConcat(if items[0].Tool? then [] else [items[0]], Speech(items[1..]));
      SinglesConcat([items[0]], items[1..]);
      assert items == [items[0]] + items[1..];
    }
  }

  lemma SinglesConcat(a: seq<Item>, b: seq<Item>)
    ensures SingleCalls(a + b) <==> SingleCalls(a) && SingleCalls(b)
  {
    if SingleCalls(a + b) {
      assert forall i :: 0 <= i < |a| ==> a[i] == (a + b)[i];
      assert forall i :: 0 <= i < |b| ==> b[i] == (a + b)[|a| + i];
    }
  }

  /**
   * In every state any session can reach, a live history that holds a turn of several calls is not
   * what its log rebuilds to: the fold makes a turn of each call.
   */
  lemma WholeBatchDiverges(keep: Keep, actions: seq<Action>, i: nat)
    requires Legal(keep, NEW_SESSION, actions)
    requires i < |Exec(keep, NEW_SESSION, actions).history| && |CallsOf(Exec(keep, NEW_SESSION, actions).history[i])| > 1
    ensures Diverged(keep, Exec(keep, NEW_SESSION, actions))
  {
    RunSingles(keep, NEW_SESSION, actions);
    var s := Exec(keep, NEW_SESSION, actions);
    var f := Replay(keep, s.log);
    FlushSingles(f);
    SpeechSingles(Flush(f).items);
    SpeechSingles(s.history);
    PartedBySpeech(Flush(f).items, s.history, f.openAsk);
  }

  // ----- a draft that takes in a call -----

  /** Runs every call of a batch to its end. */
  ghost function RunAll(keep: Keep, s: State, raws: seq<string>): (r: State)
    requires s.phase.Batch? && |raws| == |s.phase.todo| && forall c :: c in s.phase.todo ==> c.Call?
    ensures r.phase == Batch([])
    decreases |raws|
  {
    if raws == [] then s else RunAll(keep, Step(keep, s, RunTool(raws[0])), raws[1..])
  }

  lemma CallCounts(keep: Keep, f: Folder, c: Call, raw: string)
    ensures var g := Fold(keep, f, [ToolCall(c), ToolResult(c.id, NameOf(c), raw)]);
            |Speech(g.items)| == |Speech(f.items)| + 1 && g.pending.NoPending?
  {
    FoldTwo(keep, f, ToolCall(c), ToolResult(c.id, NameOf(c), raw));
    var turn := Assistant(AddCall(f, c).pending.text, AddCall(f, c).pending.calls);
    SpeechSnoc(f.items, turn);
    SpeechSnoc(f.items + [turn], Tool(c.id, Text(keep(NameOf(c), raw))));
  }

  /** The live batch is one turn; the log makes a turn of each of its calls. */
  lemma {:induction false} BatchCounts(keep: Keep, s: State, raws: seq<string>)
    requires s.phase.Batch? && |raws| == |s.phase.todo| && forall c :: c in s.phase.todo ==> c.Call?
    ensures var r := RunAll(keep, s, raws);
            && Speech(r.history) == Speech(s.history)
            && |Speech(Replay(keep, r.log).items)| == |Speech(Replay(keep, s.log).items)| + |raws|
            && (raws != [] ==> Replay(keep, r.log).pending.NoPending?)
    decreases |raws|
  {
    if raws != [] {
      var c := s.phase.todo[0];
      var s' := Step(keep, s, RunTool(raws[0]));
      ReplayMore(keep, s.log, [ToolCall(c), ToolResult(c.id, NameOf(c), raws[0])]);
      CallCounts(keep, Replay(keep, s.log), c, raws[0]);
      SpeechSnoc(s.history, Tool(c.id, Text(keep(NameOf(c), raws[0]))));
      BatchCounts(keep, s', raws[1..]);
    }
  }

  lemma BatchStartCounts(keep: Keep, s: State, text: string, calls: seq<Call>)
    requires Enabled(s, CallTools(text, calls)) && Tracks(keep, s)
    ensures var s' := Step(keep, s, CallTools(text, calls));
            var f, f' := Replay(keep, s.log), Replay(keep, s'.log);
            && |Speech(s'.history)| == |Speech(Flush(f).items)| + 1
            && f'.items == if text == "" then f.items else Flush(f).items
  {
    var f := Replay(keep, s.log);
    ReplayMore(keep, s.log, StatusEvents(text));
    if text != "" {
      FoldOne(keep, f, AssistantStatus(text));
    }
    SpeechOfMended(Flush(f).items, s.history);
    SpeechSnoc(s.history, Assistant(text, calls));
  }

  lemma DivergesByCount(keep: Keep, s: State)
    requires Replay(keep, s.log).pending.NoPending?
    requires |Speech(Replay(keep, s.log).items)| != |Speech(s.history)|
    ensures Diverged(keep, s)
  {
    var f := Replay(keep, s.log);
    PartedBySpeech(f.items, s.history, f.openAsk);
  }

  /** A draft still pending in the fold swallows the text-less call that follows it. */
  lemma MergedDraftDiverges(keep: Keep, s: State, c: Call, raw: string)
    requires s.phase.Replying? && c.Call? && Tracks(keep, s)
    requires var f := Replay(keep, s.log); f.pending.Pending? && !Blank(f.pending.text)
    ensures Diverged(keep, RunAll(keep, Step(keep, s, CallTools("", [c])), [raw]))
  {
    var f := Replay(keep, s.log);
    BatchStartCounts(keep, s, "", [c]);
    BatchCounts(keep, Step(keep, s, CallTools("", [c])), [raw]);
    SpeechSnoc(f.items, Assistant(f.pending.text, f.pending.calls));
    DivergesByCount(keep, RunAll(keep, Step(keep, s, CallTools("", [c])), [raw]));
  }

  /**
   * Of the steps that settle in one go, the faithful ones are exactly those that keep the log and
   * the conversation together: `StepTracks` gives one direction, this the other.
   */
  lemma ExcludedStepsDiverge(keep: Keep, s: State, a: Action)
    requires Enabled(s, a) && !Faithful(keep, s, a) && Tracks(keep, s)
    requires !a.CallTools? && !a.Suspend?
    ensures Diverged(keep, Step(keep, s, a))
  {
    match a
    case RefuseAnswer(answer) => RefusedAnswerDiverges(keep, s, answer);
    case Stop => StopBeforeRequestDiverges(keep, s);
    case Request(p) => MiscountDiverges(keep, s, p);
    case Draft(text) => BlankTextDiverges(keep, s, Step(keep, s, a), text, AssistantStatus(text));
    case Finish(text) => BlankTextDiverges(keep, s, Step(keep, s, a), text, RunCompleted(text));
    case BadBatch(text) => BadBatchDiverges(keep, s, text);
    case Block(result) => LongRefusalDiverges(keep, s, result);
    case BadSuspension(result) => BadSuspensionDiverges(keep, s, result);
    case CancelAfterTool(raw) => CancelAfterToolDiverges(keep, s, raw);
  }
}
