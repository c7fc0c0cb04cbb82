// Folding a session's event log back into the conversation that produced it
// (server/agent/history_rebuild.go).
module HistoryFold {
  import opened Conversation
  import opened Strings

  datatype CompactionMethod = Summarized | Trimmed

  /** The persisted events the fold reads; `Other` stands for every event it ignores. */
  datatype Event =
    | UserMessage(run: nat, text: string)
    | AssistantStatus(text: string)
    | ToolCall(call: Call)
    | ToolResult(callId: string, tool: string, raw: string)
    | UserRequestInput(run: nat, callId: string)
    | RunCompleted(text: string)
    | HistoryCompacted(pinned: int, shadowed: int, how: CompactionMethod, summary: string)
    | SystemFeedback(text: string)
    | RunStopped
    | Other

  /** How a raw result enters the history: historyToolResultContent, the same function live and in the fold. */
  type Keep = (string, string) -> string

  /** The assistant message being rebuilt: its text came first, its calls follow. */
  datatype Pending = NoPending | Pending(text: string, calls: seq<Call>)

  datatype Folder = Folder(items: seq<Item>, pending: Pending, openAsk: string, openRun: nat,
                           omitted: nat, summary: string)

  const EMPTY_FOLDER := Folder([], NoPending, "", 0, 0, "")

  function Flush(f: Folder): Folder {
    if f.pending.NoPending? then f
    else if Blank(f.pending.text) && f.pending.calls == [] then f.(pending := NoPending)
    else f.(pending := NoPending, items := f.items + [Assistant(f.pending.text, f.pending.calls)])
  }

  function Append(f: Folder, item: Item): Folder {
    var g := Flush(f);
    g.(items := g.items + [item])
  }

  function AddCall(f: Folder, call: Call): Folder {
    if f.pending.NoPending? then f.(pending := Pending("", [call]))
    else f.(pending := Pending(f.pending.text, f.pending.calls + [call]))
  }

  function Checkpoint(f: Folder, pinned0: int, shadowed0: int, how: CompactionMethod, summary: string): Folder {
    var g := Flush(f);
    var pinned := if pinned0 < 0 || pinned0 > |g.items| then 0 else pinned0;
    var shadowed := if shadowed0 < 0 || pinned + shadowed0 > |g.items| then 0 else shadowed0;
    var kept := g.(items := g.items[..pinned] + g.items[pinned + shadowed..]);
    if how == Summarized && !Blank(summary) then kept.(summary := summary)
    else kept.(omitted := kept.omitted + shadowed)
  }

  /**
   * A checkpoint drops exactly the items it counts after those it pins. A pinned count out of range counts
   * as none, and a shadowed count out of range drops nothing. A digest replaces the count of what is omitted.
   */
  lemma CheckpointDrops(f: Folder, pinned: int, shadowed: int, how: CompactionMethod, summary: string)
    ensures var x, g := Flush(f).items, Checkpoint(f, pinned, shadowed, how, summary);
            && (0 <= pinned && 0 <= shadowed && pinned + shadowed <= |x| ==>
                  && g.items == x[..pinned] + x[pinned + shadowed..]
                  && g.omitted == f.omitted + (if how == Summarized && !Blank(summary) then 0 else shadowed))
            && ((pinned < 0 || pinned > |x|) && 0 <= shadowed <= |x| ==> g.items == x[shadowed..])
            && (shadowed < 0 || (0 <= pinned <= |x| && pinned + shadowed > |x|) || shadowed > |x| ==> g.items == x && g.omitted == f.omitted)
            && g.summary == if how == Summarized && !Blank(summary) then summary else f.summary
  {
    var x := Flush(f).items;
    var p := if pinned < 0 || pinned > |x| then 0 else pinned;
    assert x[..p] + x[p..] == x;
  }

  function Consume(keep: Keep, f: Folder, e: Event): Folder {
    match e
    case UserMessage(run, text) =>
      if f.openAsk != "" && run == f.openRun
      then Append(f, Tool(f.openAsk, Answer(text))).(openAsk := "", openRun := 0)
      else Append(f, User(text))
    case AssistantStatus(text) => Flush(f).(pending := Pending(text, []))
    case ToolCall(call) => AddCall(f, call)
    case ToolResult(callId, tool, raw) => Append(f, Tool(callId, Text(keep(tool, raw))))
    case UserRequestInput(run, callId) => Flush(AddCall(f, Ask(callId))).(openAsk := callId, openRun := run)
    case RunCompleted(text) => if Blank(text) then Flush(f) else Append(f, Assistant(text, []))
    case HistoryCompacted(pinned, shadowed, how, summary) => Checkpoint(f, pinned, shadowed, how, summary)
    case SystemFeedback(text) => if Blank(text) then Flush(f) else Append(f, User(text))
    case RunStopped => Flush(f)
    case Other => f
  }

  /** The fold over a whole log, in the order the events were created. */
  function Replay(keep: Keep, log: seq<Event>): Folder {
    if log == [] then EMPTY_FOLDER
    else Consume(keep, Replay(keep, log[..|log| - 1]), log[|log| - 1])
  }

  datatype Rebuilt = Rebuilt(items: seq<Item>, omitted: nat, summary: string)

  function Rebuild(keep: Keep, log: seq<Event>): Rebuilt {
    var f := Flush(Replay(keep, log));
    Rebuilt(Repair(f.items, f.openAsk), f.omitted, f.summary)
  }

  lemma ReplayOne(keep: Keep, log: seq<Event>, e: Event)
    ensures Replay(keep, log + [e]) == Consume(keep, Replay(keep, log), e)
  {
    assert (log + [e])[..|log|] == log;
  }

  /** Consuming more events from where a fold stands. */
  function Fold(keep: Keep, f: Folder, more: seq<Event>): Folder
    decreases |more|
  {
    if more == [] then f else Fold(keep, Consume(keep, f, more[0]), more[1..])
  }

  lemma OneThenRest(log: seq<Event>, more: seq<Event>)
    requires more != []
    ensures log + more == (log + [more[0]]) + more[1..]
  {
  }

  lemma {:induction false} ReplayMore(keep: Keep, log: seq<Event>, more: seq<Event>)
    ensures Replay(keep, log + more) == Fold(keep, Replay(keep, log), more)
    decreases |more|
  {
    if more == [] {
      assert log + more == log;
    } else {
      ReplayOne(keep, log, more[0]);
      ReplayMore(keep, log + [more[0]], more[1..]);
      OneThenRest(log, more);
    }
  }

  lemma FoldOne(keep: Keep, f: Folder, e: Event)
    ensures Fold(keep, f, [e]) == Consume(keep, f, e)
  {
    assert [e][1..] == [];
  }

  lemma FoldTwo(keep: Keep, f: Folder, e: Event, e2: Event)
    ensures Fold(keep, f, [e, e2]) == Consume(keep, Consume(keep, f, e), e2)
  {
    assert [e, e2][1..] == [e2];
    FoldOne(keep, Consume(keep, f, e), e2);
  }

  lemma FoldThree(keep: Keep, f: Folder, e: Event, e2: Event, e3: Event)
    ensures Fold(keep, f, [e, e2, e3]) == Consume(keep, Consume(keep, Consume(keep, f, e), e2), e3)
  {
    assert [e, e2, e3][1..] == [e2, e3];
    FoldTwo(keep, Consume(keep, f, e), e2, e3);
  }

  /** Whatever the log holds, the rebuilt conversation is paired, but for a question still open. */
  lemma RebuildPairs(keep: Keep, log: seq<Event>)
    ensures Paired(Rebuild(keep, log).items, Replay(keep, log).openAsk)
  {
    var f := Flush(Replay(keep, log));
    RepairPairs(f.items, f.openAsk);
  }

  // ----- the folder object of the source -----

  class HistoryFolder {
    var items: seq<Item>
    var pending: Pending
    var openAskId: string
    var openAskRun: nat
    var omitted: nat
    var summary: string

    ghost function View(): Folder
      reads this
    {
      Folder(items, pending, openAskId, openAskRun, omitted, summary)
    }

    constructor ()
      ensures View() == EMPTY_FOLDER
    {
      items, pending, openAskId, openAskRun, omitted, summary := [], NoPending, "", 0, 0, "";
    }

    method DoFlush()
      modifies this
      ensures View() == Flush(old(View()))
    {
      if pending.NoPending? {
        return;
      }
      var item := Assistant(pending.text, pending.calls);
      pending := NoPending;
      if Blank(item.text) && item.calls == [] {
        return;
      }
      items := items + [item];
    }

    method PendingToolCall(call: Call)
      modifies this
      ensures View() == AddCall(old(View()), call)
    {
      if pending.NoPending? {
        pending := Pending("", []);
      }
      assert [] + [call] == [call];
      pending := Pending(pending.text, pending.calls + [call]);
    }

    method ApplyCompactionCheckpoint(pinnedItems: int, shadowedItems: int, how: CompactionMethod, digest: string)
      modifies this
      ensures View() == Checkpoint(old(View()), pinnedItems, shadowedItems, how, digest)
    {
      DoFlush();
      var pinned := pinnedItems;
      if pinned < 0 || pinned > |items| {
        pinned := 0;
      }
      var shadowed := shadowedItems;
      if shadowed < 0 || pinned + shadowed > |items| {
        shadowed := 0;
      }
      items := items[..pinned] + items[pinned + shadowed..];
      if how == Summarized && !Blank(digest) {
        summary := digest;
        return;
      }
      omitted := omitted + shadowed;
    }

    method ConsumeEvent(keep: Keep, e: Event)
      modifies this
      ensures View() == Consume(keep, old(View()), e)
    {
      match e {
        case UserMessage(run, text) =>
          DoFlush();
          if openAskId != "" && run == openAskRun {
            items := items + [Tool(openAskId, Answer(text))];
            openAskId, openAskRun := "", 0;
          } else {
            items := items + [User(text)];
          }
        case AssistantStatus(text) =>
          DoFlush();
          pending := Pending(text, []);
        case ToolCall(call) =>
          PendingToolCall(call);
        case ToolResult(callId, tool, raw) =>
          DoFlush();
          items := items + [Tool(callId, Text(keep(tool, raw)))];
        case UserRequestInput(run, callId) =>
          PendingToolCall(Ask(callId));
          DoFlush();
          openAskId, openAskRun := callId, run;
        case RunCompleted(text) =>
          DoFlush();
          if !Blank(text) {
            items := items + [Assistant(text, [])];
          }
        case HistoryCompacted(pinned, shadowed, how, digest) =>
          ApplyCompactionCheckpoint(pinned, shadowed, how, digest);
        case SystemFeedback(text) =>
          DoFlush();
          if !Blank(text) {
            items := items + [User(text)];
          }
        case RunStopped =>
          DoFlush();
        case Other =>
      }
    }
  }

  method RebuildHistoryFromMessages(keep: Keep, log: seq<Event>) returns (r: Rebuilt)
    ensures r == Rebuild(keep, log)
  {
    var folder := new HistoryFolder();
    for i := 0 to |log|
      invariant folder.View() == Replay(keep, log[..i])
    {
      assert log[..i + 1] == log[..i] + [log[i]];
      ReplayOne(keep, log[..i], log[i]);
      folder.ConsumeEvent(keep, log[i]);
    }
    assert log[..|log|] == log;
    folder.DoFlush();
    var items := RepairToolPairing(folder.items, folder.openAskId);
    return Rebuilt(items, folder.omitted, folder.summary);
  }
}
