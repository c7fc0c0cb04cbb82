// The model conversation: its items, what it means for tool calls and results to
// be paired, and the repair that enforces it (server/agent/history_rebuild.go).
module Conversation {

  /** A tool call. `Ask` is the run-suspending user_request_input call; its arguments are erased. */
  datatype Call = Call(id: string, name: string, arguments: string) | Ask(id: string)

  /** What a tool result says: a stored payload, the user's answer, or "outcome unknown". */
  datatype Content = Text(text: string) | Answer(response: string) | Unrecorded(tool: string)

  datatype Item =
    | User(text: string)
    | Assistant(text: string, calls: seq<Call>)
    | Tool(callId: string, content: Content)

  function NameOf(c: Call): string {
    if c.Ask? then "user_request_input" else c.name
  }

  function CallsOf(item: Item): seq<Call> {
    if item.Assistant? then item.calls else []
  }

  function IdsOf(calls: seq<Call>): set<string> {
    set c | c in calls :: c.id
  }

  /** The call ids a run of results answers. */
  function Answered(run: seq<Item>): set<string> {
    set t | t in run && t.Tool? :: t.callId
  }

  /** The suspended call, named by a non-empty skip id, is excused from having a result. */
  predicate Excused(id: string, skip: string) {
    skip != "" && id == skip
  }

  /** The number of results at the front of a conversation. */
  function Leading(items: seq<Item>): (n: nat)
    ensures n <= |items|
  {
    if items == [] || !items[0].Tool? then 0 else 1 + Leading(items[1..])
  }

  lemma {:induction false} LeadingAreTools(items: seq<Item>)
    ensures AllTools(items[..Leading(items)])
    ensures StartsTurn(items[Leading(items)..])
  {
    if items != [] && items[0].Tool? {
      LeadingAreTools(items[1..]);
      assert items[..Leading(items)] == [items[0]] + items[1..][..Leading(items[1..])];
      assert items[Leading(items)..] == items[1..][Leading(items[1..])..];
    }
  }

  predicate AllTools(run: seq<Item>) {
    forall i :: 0 <= i < |run| ==> run[i].Tool?
  }

  predicate StartsTurn(items: seq<Item>) {
    items == [] || !items[0].Tool?
  }

  /** Every call is answered in the run of results right after its turn, and no result stands elsewhere. */
  predicate Paired(items: seq<Item>, skip: string)
    decreases |items|
  {
    items == [] ||
    (!items[0].Tool? &&
     var n := Leading(items[1..]);
     (CallsOf(items[0]) == [] ==> n == 0) &&
     (forall c :: c in CallsOf(items[0]) ==> c.id in Answered(items[1..1 + n]) || Excused(c.id, skip)) &&
     Paired(items[1 + n..], skip))
  }

  /** Every result that follows a turn with calls names one of that turn's calls. */
  predicate Exact(items: seq<Item>)
    decreases |items|
  {
    items == [] ||
    if CallsOf(items[0]) == [] then Exact(items[1..])
    else
      var n := Leading(items[1..]);
      Answered(items[1..1 + n]) <= IdsOf(items[0].calls) && Exact(items[1 + n..])
  }

  // ----- the repair -----

  function Missing(calls: seq<Call>, answered: set<string>, skip: string): (r: seq<Item>)
    ensures forall t :: t in r ==> t.Tool? && t.content.Unrecorded?
  {
    if calls == [] then []
    else if calls[0].id in answered || Excused(calls[0].id, skip) then Missing(calls[1..], answered, skip)
    else [Tool(calls[0].id, Unrecorded(NameOf(calls[0])))] + Missing(calls[1..], answered, skip)
  }

  /** What stands after a turn once repaired: nothing after plain text, else its run and the missing results. */
  function Results(head: Item, run: seq<Item>, skip: string): (r: seq<Item>) {
    if CallsOf(head) == [] then [] else run + Missing(head.calls, Answered(run), skip)
  }

  function Repair(items: seq<Item>, skip: string): (r: seq<Item>)
    ensures StartsTurn(r)
    decreases |items|
  {
    if items == [] then []
    else if items[0].Tool? then Repair(items[1..], skip)
    else
      var n := Leading(items[1..]);
      [items[0]] + Results(items[0], items[1..1 + n], skip) + Repair(items[1 + n..], skip)
  }

  lemma {:induction false} LeadingOf(run: seq<Item>, rest: seq<Item>)
    requires AllTools(run) && StartsTurn(rest)
    ensures Leading(run + rest) == |run|
  {
    if run == [] {
      assert run + rest == rest;
    } else {
      assert (run + rest)[1..] == run[1..] + rest;
      LeadingOf(run[1..], rest);
    }
  }

  /** Reads one turn off the front of a conversation. */
  lemma TurnParts(head: Item, run: seq<Item>, rest: seq<Item>)
    requires !head.Tool? && AllTools(run) && StartsTurn(rest)
    ensures var items := [head] + run + rest;
            && items[0] == head
            && Leading(items[1..]) == |run|
            && items[1..1 + |run|] == run
            && items[1 + |run|..] == rest
  {
    var items := [head] + run + rest;
    assert items[1..] == run + rest;
    LeadingOf(run, rest);
  }

  /** Splits off the first turn: its head, its run of results, and the rest. */
  lemma FirstTurn(items: seq<Item>) returns (head: Item, run: seq<Item>, rest: seq<Item>)
    requires items != [] && !items[0].Tool?
    ensures items == [head] + run + rest && head == items[0]
    ensures !head.Tool? && AllTools(run) && StartsTurn(rest) && |rest| < |items|
    ensures run == items[1..1 + Leading(items[1..])] && rest == items[1 + Leading(items[1..])..]
  {
    var n := Leading(items[1..]);
    head, run, rest := items[0], items[1..1 + n], items[1 + n..];
    LeadingAreTools(items[1..]);
    assert run == items[1..][..n] && rest == items[1..][n..];
  }

  lemma RepairTurn(head: Item, run: seq<Item>, rest: seq<Item>, skip: string)
    requires !head.Tool? && AllTools(run) && StartsTurn(rest)
    ensures Repair([head] + run + rest, skip) == [head] + Results(head, run, skip) + Repair(rest, skip)
  {
    TurnParts(head, run, rest);
  }

  predicate TurnPaired(head: Item, run: seq<Item>, skip: string) {
    && (CallsOf(head) == [] ==> run == [])
    && (forall c :: c in CallsOf(head) ==> c.id in Answered(run) || Excused(c.id, skip))
  }

  lemma PairedTurn(head: Item, run: seq<Item>, rest: seq<Item>, skip: string)
    requires !head.Tool? && AllTools(run) && StartsTurn(rest)
    ensures Paired([head] + run + rest, skip) <==> TurnPaired(head, run, skip) && Paired(rest, skip)
  {
    TurnParts(head, run, rest);
  }

  lemma PairedStarts(items: seq<Item>, skip: string)
    requires Paired(items, skip)
    ensures StartsTurn(items)
  {
  }

  lemma {:induction false} MissingAnswers(calls: seq<Call>, answered: set<string>, skip: string)
    ensures forall c :: c in calls ==>
              c.id in answered || Excused(c.id, skip) || c.id in Answered(Missing(calls, answered, skip))
    ensures Answered(Missing(calls, answered, skip)) <= IdsOf(calls)
    ensures (forall c :: c in calls ==> c.id in answered || Excused(c.id, skip)) ==> Missing(calls, answered, skip) == []
  {
    if calls != [] {
      MissingAnswers(calls[1..], answered, skip);
      assert calls == [calls[0]] + calls[1..];
      var m := Missing(calls[1..], answered, skip);
      if !(calls[0].id in answered || Excused(calls[0].id, skip)) {
        var t := Tool(calls[0].id, Unrecorded(NameOf(calls[0])));
        AnsweredConcat([t], m);
      }
    }
  }

  lemma AnsweredConcat(a: seq<Item>, b: seq<Item>)
    ensures Answered(a + b) == Answered(a) + Answered(b)
  {
    assert forall t :: t in a + b <==> t in a || t in b;
  }

  lemma ResultsPair(head: Item, run: seq<Item>, skip: string)
    requires !head.Tool? && AllTools(run)
    ensures AllTools(Results(head, run, skip)) && TurnPaired(head, Results(head, run, skip), skip)
    ensures TurnPaired(head, run, skip) ==> Results(head, run, skip) == run
  {
    if CallsOf(head) != [] {
      var added := Missing(head.calls, Answered(run), skip);
      MissingAnswers(head.calls, Answered(run), skip);
      AnsweredConcat(run, added);
      assert forall i :: 0 <= i < |added| ==> added[i] in added;
    }
  }

  /** Whatever it is given, repair returns a paired conversation. */
  lemma {:induction false} RepairPairs(items: seq<Item>, skip: string)
    ensures Paired(Repair(items, skip), skip)
    decreases |items|
  {
    if items == [] {
    } else if items[0].Tool? {
      RepairPairs(items[1..], skip);
    } else {
      var head, run, rest := FirstTurn(items);
      RepairPairs(rest, skip);
      RepairTurn(head, run, rest, skip);
      ResultsPair(head, run, skip);
      PairedTurn(head, Results(head, run, skip), Repair(rest, skip), skip);
    }
  }

  lemma {:induction false} RepairKeepsPaired(items: seq<Item>, skip: string)
    requires Paired(items, skip)
    ensures Repair(items, skip) == items
    decreases |items|
  {
    if items != [] {
      var head, run, rest := FirstTurn(items);
      PairedTurn(head, run, rest, skip);
      RepairKeepsPaired(rest, skip);
      RepairTurn(head, run, rest, skip);
      ResultsPair(head, run, skip);
    }
  }

  /** Repair changes nothing exactly on the paired conversations, and repairing twice is repairing once. */
  lemma RepairFixpoint(items: seq<Item>, skip: string)
    ensures Repair(items, skip) == items <==> Paired(items, skip)
    ensures Repair(Repair(items, skip), skip) == Repair(items, skip)
  {
    RepairPairs(items, skip);
    RepairKeepsPaired(Repair(items, skip), skip);
    if Paired(items, skip) {
      RepairKeepsPaired(items, skip);
    }
  }

  /** Repair works turn by turn: it distributes over any cut that does not fall before a result. */
  lemma {:induction false} RepairConcat(a: seq<Item>, b: seq<Item>, skip: string)
    requires StartsTurn(b)
    ensures Repair(a + b, skip) == Repair(a, skip) + Repair(b, skip)
    decreases |a|
  {
    if a == [] {
      assert a + b == b;
    } else if a[0].Tool? {
      assert (a + b)[1..] == a[1..] + b;
      RepairConcat(a[1..], b, skip);
    } else {
      var head, run, rest := FirstTurn(a);
      RepairConcat(rest, b, skip);
      RepairTurn(head, run, rest, skip);
      RepairLongerTurn(head, run, rest, b, skip);
      Reassociate([head] + run, rest, b);
    }
  }

  lemma Reassociate<T>(a: seq<T>, b: seq<T>, c: seq<T>)
    ensures a + b + c == a + (b + c)
  {
  }

  lemma RepairLongerTurn(head: Item, run: seq<Item>, rest: seq<Item>, b: seq<Item>, skip: string)
    requires !head.Tool? && AllTools(run) && StartsTurn(rest) && StartsTurn(b)
    requires Repair(rest + b, skip) == Repair(rest, skip) + Repair(b, skip)
    ensures Repair([head] + run + (rest + b), skip) == [head] + Results(head, run, skip) + Repair(rest, skip) + Repair(b, skip)
  {
    RepairTurn(head, run, rest + b, skip);
    Reassociate([head] + Results(head, run, skip), Repair(rest, skip), Repair(b, skip));
  }

  lemma {:induction false} RepairSkipsOrphans(run: seq<Item>, rest: seq<Item>, skip: string)
    requires AllTools(run)
    ensures Repair(run + rest, skip) == Repair(rest, skip)
  {
    if run == [] {
      assert run + rest == rest;
    } else {
      assert (run + rest)[1..] == run[1..] + rest;
      RepairSkipsOrphans(run[1..], rest, skip);
    }
  }

  lemma {:induction false} PairedConcat(a: seq<Item>, b: seq<Item>, skip: string)
    requires StartsTurn(b)
    ensures Paired(a + b, skip) <==> Paired(a, skip) && Paired(b, skip)
    decreases |a|
  {
    if a == [] {
      assert a + b == b;
    } else if !a[0].Tool? {
      var head, run, rest := FirstTurn(a);
      PairedConcat(rest, b, skip);
      assert a + b == [head] + run + (rest + b);
      PairedTurn(head, run, rest + b, skip);
      PairedTurn(head, run, rest, skip);
    }
  }

  /** The items that are not results: what was said, in order. */
  function Speech(items: seq<Item>): seq<Item> {
    if items == [] then []
    else (if items[0].Tool? then [] else [items[0]]) + Speech(items[1..])
  }

  lemma {:induction false} SpeechTurn(head: Item, run: seq<Item>, rest: seq<Item>)
    requires !head.Tool? && AllTools(run)
    ensures Speech([head] + run + rest) == [head] + Speech(rest)
  {
    assert ([head] + run + rest)[1..] == run + rest;
    SpeechSkips(run, rest);
  }

  lemma {:induction false} SpeechSkips(run: seq<Item>, rest: seq<Item>)
    requires AllTools(run)
    ensures Speech(run + rest) == Speech(rest)
  {
    if run == [] {
      assert run + rest == rest;
    } else {
      assert (run + rest)[1..] == run[1..] + rest;
      SpeechSkips(run[1..], rest);
    }
  }

  /** Repair neither drops nor reorders anything that was said. */
  lemma {:induction false} RepairKeepsSpeech(items: seq<Item>, skip: string)
    ensures Speech(Repair(items, skip)) == Speech(items)
    decreases |items|
  {
    if items == [] {
    } else if items[0].Tool? {
      RepairKeepsSpeech(items[1..], skip);
    } else {
      var head, run, rest := FirstTurn(items);
      RepairKeepsSpeech(rest, skip);
      RepairTurn(head, run, rest, skip);
      ResultsPair(head, run, skip);
      SpeechTurn(head, Results(head, run, skip), Repair(rest, skip));
      SpeechTurn(head, run, rest);
    }
  }

  lemma ExactTurn(head: Item, run: seq<Item>, rest: seq<Item>)
    requires !head.Tool? && AllTools(run) && StartsTurn(rest)
    ensures Exact([head] + run + rest)
       <==> (CallsOf(head) != [] ==> Answered(run) <= IdsOf(head.calls)) && Exact(rest)
  {
    TurnParts(head, run, rest);
    if CallsOf(head) == [] {
      assert ([head] + run + rest)[1..] == run + rest;
      ExactSkips(run, rest);
    }
  }

  lemma {:induction false} ExactSkips(run: seq<Item>, rest: seq<Item>)
    requires AllTools(run)
    ensures Exact(run + rest) <==> Exact(rest)
  {
    if run == [] {
      assert run + rest == rest;
    } else {
      assert (run + rest)[1..] == run[1..] + rest;
      ExactSkips(run[1..], rest);
    }
  }

  /**
   * Repair is meant to leave no result without an owning call, but it keeps any result that
   * stands in a turn's run. So the promise holds exactly when no run held a foreign result before.
   */
  lemma {:induction false} RepairExact(items: seq<Item>, skip: string)
    ensures Exact(Repair(items, skip)) <==> Exact(items)
    decreases |items|
  {
    if items == [] {
    } else if items[0].Tool? {
      RepairExact(items[1..], skip);
      ExactSkips([items[0]], items[1..]);
      assert [items[0]] + items[1..] == items;
    } else {
      var head, run, rest := FirstTurn(items);
      RepairExact(rest, skip);
      RepairTurn(head, run, rest, skip);
      ResultsPair(head, run, skip);
      ExactTurn(head, run, rest);
      ExactTurn(head, Results(head, run, skip), Repair(rest, skip));
      if CallsOf(head) != [] {
        MissingAnswers(head.calls, Answered(run), skip);
        AnsweredConcat(run, Missing(head.calls, Answered(run), skip));
      }
    }
  }

  // ----- what repair adds, and where -----

  /** No result names the call, and it is not the one excused. */
  predicate Unanswered(c: Call, answered: set<string>, skip: string) {
    c.id !in answered && !(skip != "" && c.id == skip)
  }

  /** The places picked, in order: exactly those of the unanswered calls. */
  predicate Picks(calls: seq<Call>, answered: set<string>, skip: string, at: seq<nat>) {
    && (forall k :: 0 <= k < |at| ==> at[k] < |calls| && Unanswered(calls[at[k]], answered, skip))
    && (forall j, k :: 0 <= j < k < |at| ==> at[j] < at[k])
    && (forall i :: 0 <= i < |calls| && Unanswered(calls[i], answered, skip) ==> i in at)
  }

  /** Each result added says of its own call, by id and by name, that its outcome is unknown. */
  predicate Names(calls: seq<Call>, at: seq<nat>, added: seq<Item>) {
    && |added| == |at|
    && forall k :: 0 <= k < |at| ==>
         at[k] < |calls| && added[k] == Tool(calls[at[k]].id, Unrecorded(NameOf(calls[at[k]])))
  }

  function Shifted(at: seq<nat>): seq<nat> {
    seq(|at|, k requires 0 <= k < |at| => at[k] + 1)
  }

  /** Of the calls after the first, these are the unanswered. */
  lemma LaterPicks(calls: seq<Call>, answered: set<string>, skip: string, at: seq<nat>)
    requires calls != [] && Picks(calls[1..], answered, skip, at)
    ensures forall k :: 0 <= k < |at| ==> 1 <= Shifted(at)[k] < |calls| && Unanswered(calls[Shifted(at)[k]], answered, skip)
    ensures forall j, k :: 0 <= j < k < |at| ==> Shifted(at)[j] < Shifted(at)[k]
    ensures forall i :: 1 <= i < |calls| && Unanswered(calls[i], answered, skip) ==> i in Shifted(at)
  {
    var later := Shifted(at);
    forall i | 1 <= i < |calls| && Unanswered(calls[i], answered, skip) ensures i in later {
      assert calls[1..][i - 1] == calls[i];
      var k :| 0 <= k < |at| && at[k] == i - 1;
      assert later[k] == i;
    }
  }

  lemma PickFirst(calls: seq<Call>, answered: set<string>, skip: string, later: seq<nat>)
    requires calls != [] && Unanswered(calls[0], answered, skip)
    requires forall k :: 0 <= k < |later| ==> 1 <= later[k] < |calls| && Unanswered(calls[later[k]], answered, skip)
    requires forall j, k :: 0 <= j < k < |later| ==> later[j] < later[k]
    requires forall i :: 1 <= i < |calls| && Unanswered(calls[i], answered, skip) ==> i in later
    ensures Picks(calls, answered, skip, [0] + later)
  {
    var at := [0] + later;
    assert forall k :: 1 <= k < |at| ==> at[k] == later[k - 1];
  }

  lemma ShiftedPicks(calls: seq<Call>, answered: set<string>, skip: string, at: seq<nat>)
    requires calls != [] && Picks(calls[1..], answered, skip, at)
    ensures !Unanswered(calls[0], answered, skip) ==> Picks(calls, answered, skip, Shifted(at))
    ensures Unanswered(calls[0], answered, skip) ==> Picks(calls, answered, skip, [0] + Shifted(at))
  {
    LaterPicks(calls, answered, skip, at);
    if Unanswered(calls[0], answered, skip) {
      PickFirst(calls, answered, skip, Shifted(at));
    }
  }

  lemma ShiftedNames(calls: seq<Call>, at: seq<nat>, added: seq<Item>)
    requires calls != [] && Names(calls[1..], at, added)
    ensures Names(calls, Shifted(at), added)
    ensures Names(calls, [0] + Shifted(at), [Tool(calls[0].id, Unrecorded(NameOf(calls[0])))] + added)
  {
    forall k | 0 <= k < |at| ensures calls[1..][at[k]] == calls[Shifted(at)[k]] {
    }
  }

  /** The results added are one per unanswered call, in the order of the calls. */
  lemma {:induction false} MissingNames(calls: seq<Call>, answered: set<string>, skip: string) returns (at: seq<nat>)
    ensures Picks(calls, answered, skip, at) && Names(calls, at, Missing(calls, answered, skip))
  {
    if calls == [] {
      at := [];
    } else {
      var rest := MissingNames(calls[1..], answered, skip);
      ShiftedPicks(calls, answered, skip, rest);
      ShiftedNames(calls, rest, Missing(calls[1..], answered, skip));
      at := if Unanswered(calls[0], answered, skip) then [0] + Shifted(rest) else Shifted(rest);
    }
  }

  lemma RepairAdds(head: Item, run: seq<Item>, rest: seq<Item>, skip: string)
    requires !head.Tool? && AllTools(run) && StartsTurn(rest)
    ensures Repair([head] + run + rest, skip)
         == [head] + (if CallsOf(head) == [] then [] else run) + Missing(CallsOf(head), Answered(run), skip) + Repair(rest, skip)
  {
    RepairTurn(head, run, rest, skip);
    Reassociate([head], run, Missing(CallsOf(head), Answered(run), skip));
    assert [head] + [] == [head];
  }

  /**
   * A turn with calls keeps its results as they stand; behind them comes one result for each unanswered
   * call, in order, under the call's own id and name. A turn without calls loses what stands behind it.
   */
  lemma RepairedTurn(head: Item, run: seq<Item>, rest: seq<Item>, skip: string) returns (at: seq<nat>, added: seq<Item>)
    requires !head.Tool? && AllTools(run) && StartsTurn(rest)
    ensures Picks(CallsOf(head), Answered(run), skip, at) && Names(CallsOf(head), at, added)
    ensures Repair([head] + run + rest, skip) == [head] + (if CallsOf(head) == [] then [] else run) + added + Repair(rest, skip)
  {
    RepairAdds(head, run, rest, skip);
    at := MissingNames(CallsOf(head), Answered(run), skip);
    added := Missing(CallsOf(head), Answered(run), skip);
  }

  // ----- pairing, read off the positions -----

  /** Position k stands in the contiguous run of results right after position i. */
  ghost predicate InRunOf(items: seq<Item>, i: nat, k: nat) {
    i < k < |items| && forall m :: i < m <= k ==> items[m].Tool?
  }

  ghost predicate Owned(items: seq<Item>, k: nat) {
    exists i: nat :: i < k && InRunOf(items, i, k) && CallsOf(items[i]) != []
  }

  ghost predicate HasAnswer(items: seq<Item>, i: nat, id: string) {
    exists k: nat :: InRunOf(items, i, k) && items[k].callId == id
  }

  ghost predicate PairedByPosition(items: seq<Item>, skip: string) {
    && (forall k: nat :: k < |items| && items[k].Tool? ==> Owned(items, k))
    && (forall i: nat, c :: i < |items| && c in CallsOf(items[i]) && !Excused(c.id, skip) ==> HasAnswer(items, i, c.id))
  }

  lemma {:induction false} PairedIsByPosition(items: seq<Item>, skip: string)
    ensures Paired(items, skip) <==> PairedByPosition(items, skip)
    decreases |items|
  {
    if items == [] {
    } else if items[0].Tool? {
      assert !Owned(items, 0);
    } else {
      var head, run, rest := FirstTurn(items);
      PairedIsByPosition(rest, skip);
      PairedTurn(head, run, rest, skip);
      TurnByPosition(head, run, rest, skip);
    }
  }

  lemma TurnByPosition(head: Item, run: seq<Item>, rest: seq<Item>, skip: string)
    requires !head.Tool? && AllTools(run) && StartsTurn(rest)
    ensures PairedByPosition([head] + run + rest, skip) <==> TurnPaired(head, run, skip) && PairedByPosition(rest, skip)
  {
    var items := [head] + run + rest;
    var n := |run|;
    assert items[1 + n..] == rest && items[1..1 + n] == run;
    HeadTurn(items, n);
    forall k: nat | k < |rest| ensures Owned(rest, k) <==> Owned(items, k + 1 + n) {
      OwnedShift(items, n, k);
    }
    forall i: nat, id | i < |rest| ensures HasAnswer(rest, i, id) <==> HasAnswer(items, i + 1 + n, id) {
      AnswerShift(items, n, i, id);
    }
    if PairedByPosition(items, skip) {
      forall k: nat | k < |rest| && rest[k].Tool? ensures Owned(rest, k) {
        assert items[k + 1 + n].Tool?;
      }
      forall i: nat, c | i < |rest| && c in CallsOf(rest[i]) && !Excused(c.id, skip) ensures HasAnswer(rest, i, c.id) {
        assert c in CallsOf(items[i + 1 + n]);
      }
      assert run != [] ==> items[1] == run[0] && Owned(items, 1);
      forall c | c in CallsOf(head) && !Excused(c.id, skip) ensures c.id in Answered(run) {
        assert c in CallsOf(items[0]);
      }
    }
    if TurnPaired(head, run, skip) && PairedByPosition(rest, skip) {
      forall k: nat | k < |items| && items[k].Tool? ensures Owned(items, k) {
        if k > n { assert rest[k - 1 - n].Tool?; assert Owned(items, k - 1 - n + 1 + n); }
      }
      forall i: nat, c | i < |items| && c in CallsOf(items[i]) && !Excused(c.id, skip) ensures HasAnswer(items, i, c.id) {
        if i > n { assert HasAnswer(items, i - 1 - n + 1 + n, c.id); }
      }
    }
  }

  lemma HeadTurn(items: seq<Item>, n: nat)
    requires n < |items| && !items[0].Tool?
    requires forall m :: 1 <= m <= n ==> items[m].Tool?
    requires n + 1 < |items| ==> !items[n + 1].Tool?
    ensures forall k: nat :: 1 <= k <= n ==> (Owned(items, k) <==> CallsOf(items[0]) != [])
    ensures forall id :: HasAnswer(items, 0, id) <==> id in Answered(items[1..1 + n])
  {
    forall k: nat | 1 <= k <= n ensures Owned(items, k) <==> CallsOf(items[0]) != [] {
      assert InRunOf(items, 0, k);
    }
    forall id ensures HasAnswer(items, 0, id) <==> id in Answered(items[1..1 + n]) {
      if HasAnswer(items, 0, id) {
        var k: nat :| InRunOf(items, 0, k) && items[k].callId == id;
        assert items[1..1 + n][k - 1] == items[k];
      }
      if id in Answered(items[1..1 + n]) {
        var t :| t in items[1..1 + n] && t.Tool? && t.callId == id;
        var j :| 0 <= j < n && items[1..1 + n][j] == t;
        assert InRunOf(items, 0, j + 1);
      }
    }
  }

  lemma OwnedShift(items: seq<Item>, n: nat, k: nat)
    requires 1 + n <= |items| && k < |items[1 + n..]|
    requires items[1 + n..] == [] || !items[1 + n].Tool?
    ensures Owned(items[1 + n..], k) <==> Owned(items, k + 1 + n)
  {
    var rest := items[1 + n..];
    if Owned(rest, k) {
      var i: nat :| i < k && InRunOf(rest, i, k) && CallsOf(rest[i]) != [];
      assert forall m :: i + 1 + n < m <= k + 1 + n ==> items[m] == rest[m - 1 - n];
      assert InRunOf(items, i + 1 + n, k + 1 + n);
    }
    if Owned(items, k + 1 + n) {
      var i: nat :| i < k + 1 + n && InRunOf(items, i, k + 1 + n) && CallsOf(items[i]) != [];
      assert i > n;
      assert forall m :: i - 1 - n < m <= k ==> rest[m] == items[m + 1 + n];
      assert InRunOf(rest, i - 1 - n, k);
    }
  }

  lemma AnswerShift(items: seq<Item>, n: nat, i: nat, id: string)
    requires 1 + n <= |items| && i < |items[1 + n..]|
    ensures HasAnswer(items[1 + n..], i, id) <==> HasAnswer(items, i + 1 + n, id)
  {
    var rest := items[1 + n..];
    if HasAnswer(rest, i, id) {
      var k: nat :| InRunOf(rest, i, k) && rest[k].callId == id;
      assert forall m :: i + 1 + n < m <= k + 1 + n ==> items[m] == rest[m - 1 - n];
      assert InRunOf(items, i + 1 + n, k + 1 + n);
    }
    if HasAnswer(items, i + 1 + n, id) {
      var k: nat :| InRunOf(items, i + 1 + n, k) && items[k].callId == id;
      assert forall m :: i < m <= k - 1 - n ==> rest[m] == items[m + 1 + n];
      assert InRunOf(rest, i, k - 1 - n);
    }
  }

  // ----- the loops of the source -----

  /** Copies the run of results from position i on, noting which ids it answers (lines 264-268). */
  method TakeRun(items: seq<Item>, i: nat) returns (run: seq<Item>, answered: set<string>, next: nat)
    requires i <= |items|
    ensures i <= next <= |items| && items[i..] == run + items[next..]
    ensures AllTools(run) && StartsTurn(items[next..])
    ensures answered == Answered(run)
  {
    run, answered, next := [], {}, i;
    while next < |items| && items[next].Tool?
      invariant i <= next <= |items| && items[i..] == run + items[next..]
      invariant AllTools(run) && answered == Answered(run)
    {
      AnsweredConcat(run, [items[next]]);
      run, answered, next := run + [items[next]], answered + {items[next].callId}, next + 1;
    }
  }

  /** Synthesizes a result for each unanswered call but the skipped one (lines 269-282). */
  method AnswerMissing(calls: seq<Call>, answered: set<string>, skip: string) returns (added: seq<Item>)
    ensures added == Missing(calls, answered, skip)
  {
    added := [];
    for j := 0 to |calls|
      invariant added + Missing(calls[j..], answered, skip) == Missing(calls, answered, skip)
    {
      var call := calls[j];
      assert calls[j..][1..] == calls[j + 1..];
      if call.id !in answered && !(skip != "" && call.id == skip) {
        added := added + [Tool(call.id, Unrecorded(NameOf(call)))];
      }
    }
  }

  /** The items still to repair, appended repaired to what is done, give the target. */
  ghost predicate Leads(done: seq<Item>, todo: seq<Item>, skip: string, target: seq<Item>) {
    done + Repair(todo, skip) == target
  }

  method RepairToolPairing(items: seq<Item>, skip: string) returns (repaired: seq<Item>)
    ensures repaired == Repair(items, skip)
    ensures Paired(repaired, skip)
  {
    RepairPairs(items, skip);
    ghost var target := Repair(items, skip);
    repaired := [];
    var i := 0;
    assert items[0..] == items;
    while i < |items|
      invariant i <= |items|
      invariant Leads(repaired, items[i..], skip, target)
    {
      var item := items[i];
      assert items[i..] == [item] + items[i + 1..];
      if CallsOf(item) == [] {
        LeadsPlain(repaired, item, items[i + 1..], skip, target);
        repaired, i := repaired + (if item.Tool? then [] else [item]), i + 1;
      } else {
        var run, answered, next := TakeRun(items, i + 1);
        var added := AnswerMissing(item.calls, answered, skip);
        LeadsCalls(repaired, item, run, items[next..], skip, target);
        repaired, i := repaired + ([item] + (run + added)), next;
      }
    }
  }

  lemma RepairText(head: Item, after: seq<Item>, skip: string)
    requires !head.Tool? && CallsOf(head) == []
    ensures Repair([head] + after, skip) == [head] + Repair(after, skip)
  {
    var items := [head] + after;
    var h, run, rest := FirstTurn(items);
    assert items[1..] == after;
    assert after == run + rest;
    RepairTurn(head, run, rest, skip);
    RepairSkipsOrphans(run, rest, skip);
  }

  lemma LeadsPlain(done: seq<Item>, head: Item, after: seq<Item>, skip: string, target: seq<Item>)
    requires CallsOf(head) == []
    requires Leads(done, [head] + after, skip, target)
    ensures Leads(done + (if head.Tool? then [] else [head]), after, skip, target)
  {
    if head.Tool? {
      RepairSkipsOrphans([head], after, skip);
    } else {
      RepairText(head, after, skip);
      Reassociate(done, [head], Repair(after, skip));
    }
  }

  lemma LeadsCalls(done: seq<Item>, head: Item, run: seq<Item>, rest: seq<Item>, skip: string, target: seq<Item>)
    requires CallsOf(head) != [] && AllTools(run) && StartsTurn(rest)
    requires Leads(done, [head] + (run + rest), skip, target)
    ensures Leads(done + ([head] + (run + Missing(head.calls, Answered(run), skip))), rest, skip, target)
  {
    Reassociate([head], run, rest);
    RepairTurn(head, run, rest, skip);
    Reassociate(done, [head] + Results(head, run, skip), Repair(rest, skip));
  }
}
