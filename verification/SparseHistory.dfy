// Conversations with at most one call per turn: the ones a fold of the log can give back,
// and how repair and compaction act on them.
module SparseHistory {
  import opened Conversation
  import opened Compaction

  // ----- conversations the fold can give back: at most one call per turn, no stray results -----

  predicate TurnSparse(head: Item, run: seq<Item>) {
    |CallsOf(head)| <= 1 && (CallsOf(head) == [] ==> run == [])
  }

  predicate Sparse(items: seq<Item>)
    decreases |items|
  {
    items == [] ||
    (!items[0].Tool? &&
     var n := Leading(items[1..]);
     TurnSparse(items[0], items[1..1 + n]) && Sparse(items[1 + n..]))
  }

  lemma SparseTurn(head: Item, run: seq<Item>, rest: seq<Item>)
    requires !head.Tool? && AllTools(run) && StartsTurn(rest)
    ensures Sparse([head] + run + rest) <==> TurnSparse(head, run) && Sparse(rest)
  {
    TurnParts(head, run, rest);
  }

  lemma {:induction false} SparseConcat(a: seq<Item>, b: seq<Item>)
    requires StartsTurn(b)
    ensures Sparse(a + b) <==> Sparse(a) && Sparse(b)
    decreases |a|
  {
    if a == [] {
      assert a + b == b;
    } else if !a[0].Tool? {
      var head, run, rest := FirstTurn(a);
      SparseConcat(rest, b);
      Reassociate([head] + run, rest, b);
      SparseTurn(head, run, rest + b);
      SparseTurn(head, run, rest);
    }
  }

  /** Skipping the open question first and repairing it later comes to the same as repairing at once. */
  lemma {:induction false} RepairTwice(items: seq<Item>, skip: string)
    requires Sparse(items)
    ensures Repair(Repair(items, skip), "") == Repair(items, "")
    decreases |items|
  {
    if items != [] {
      var head, run, rest := FirstTurn(items);
      SparseTurn(head, run, rest);
      RepairTwice(rest, skip);
      RepairTurn(head, run, rest, skip);
      RepairTurn(head, run, rest, "");
      ResultsPair(head, run, skip);
      RepairTurn(head, Results(head, run, skip), Repair(rest, skip), "");
      ResultsTwice(head, run, skip);
    }
  }

  lemma ResultsTwice(head: Item, run: seq<Item>, skip: string)
    requires AllTools(run) && TurnSparse(head, run)
    ensures Results(head, Results(head, run, skip), "") == Results(head, run, "")
  {
    if CallsOf(head) != [] {
      var c := head.calls[0];
      var added := Missing(head.calls, Answered(run), skip);
      MissingOne(c, Answered(run), skip);
      MissingOne(c, Answered(run), "");
      assert head.calls == [c];
      AnsweredConcat(run, added);
      MissingOne(c, Answered(run + added), "");
    }
  }

  lemma {:induction false} RepairKeepsSparse(items: seq<Item>, skip: string)
    requires Sparse(items)
    ensures Sparse(Repair(items, skip))
    decreases |items|
  {
    if items != [] {
      var head, run, rest := FirstTurn(items);
      SparseTurn(head, run, rest);
      RepairKeepsSparse(rest, skip);
      RepairTurn(head, run, rest, skip);
      ResultsPair(head, run, skip);
      SparseTurn(head, Results(head, run, skip), Repair(rest, skip));
    }
  }

  lemma MissingOne(c: Call, answered: set<string>, skip: string)
    ensures Missing([c], answered, skip)
         == if c.id in answered || Excused(c.id, skip) then [] else [Tool(c.id, Unrecorded(NameOf(c)))]
  {
    assert Missing([c][1..], answered, skip) == [];
  }

  lemma AddText(items: seq<Item>, item: Item)
    requires !item.Tool? && CallsOf(item) == []
    ensures Repair(items + [item], "") == Repair(items, "") + [item]
    ensures Sparse(items + [item]) <==> Sparse(items)
  {
    RepairConcat(items, [item], "");
    SparseConcat(items, [item]);
    RepairTurn(item, [], [], "");
    SparseTurn(item, [], []);
    assert [item] + [] + [] == [item];
  }

  lemma AddAnswered(items: seq<Item>, text: string, c: Call, content: Content)
    ensures var turn := [Assistant(text, [c]), Tool(c.id, content)];
            && Repair(items + turn, "") == Repair(items, "") + turn
            && (Sparse(items + turn) <==> Sparse(items))
  {
    var head, t := Assistant(text, [c]), Tool(c.id, content);
    assert [head, t] == [head] + [t] + [];
    RepairConcat(items, [head, t], "");
    SparseConcat(items, [head, t]);
    RepairTurn(head, [t], [], "");
    SparseTurn(head, [t], []);
    assert t in [t];
    MissingOne(c, Answered([t]), "");
  }

  lemma AddDangling(items: seq<Item>, text: string, c: Call)
    ensures var head := Assistant(text, [c]);
            && Repair(items + [head], "") == Repair(items, "") + [head, Tool(c.id, Unrecorded(NameOf(c)))]
            && (c.id != "" ==> Repair(items + [head], c.id) == Repair(items, c.id) + [head])
            && (Sparse(items + [head]) <==> Sparse(items))
  {
    var head := Assistant(text, [c]);
    assert [head] == [head] + [] + [];
    RepairConcat(items, [head], "");
    RepairConcat(items, [head], c.id);
    SparseConcat(items, [head]);
    RepairTurn(head, [], [], "");
    RepairTurn(head, [], [], c.id);
    SparseTurn(head, [], []);
    MissingOne(c, Answered([]), "");
    MissingOne(c, Answered([]), c.id);
  }

  // ----- a checkpoint cuts the fold where it cut the engine -----

  predicate Recorded(items: seq<Item>) {
    forall i :: 0 <= i < |items| ==> items[i].Tool? ==> !items[i].content.Unrecorded?
  }

  lemma TurnFits(x: seq<Item>, y: seq<Item>, head: Item, run: seq<Item>, tail: seq<Item>)
    requires x + y == [head] + run + tail && x != [] && AllTools(run)
    ensures |x| > |run| || !StartsTurn(y)
  {
    if |x| <= |run| {
      assert (x + y)[|x|] == y[0] && ([head] + run + tail)[|x|] == run[|x| - 1];
    }
  }

  lemma TakeTurn(x: seq<Item>, y: seq<Item>, head: Item, run: seq<Item>, tail: seq<Item>) returns (x': seq<Item>)
    requires x + y == [head] + run + tail && x != [] && AllTools(run) && StartsTurn(y)
    ensures x == [head] + run + x' && tail == x' + y
  {
    TurnFits(x, y, head, run, tail);
    var n := 1 + |run|;
    x' := x[n..];
    assert x == (x + y)[..n] + x';
    assert tail == (x + y)[n..];
  }

  lemma RecordedRun(head: Item, run: seq<Item>)
    requires AllTools(run) && TurnSparse(head, run)
    ensures Results(head, run, "") == run || !Recorded(Results(head, run, ""))
  {
    if CallsOf(head) != [] {
      var added := Missing(head.calls, Answered(run), "");
      if added != [] {
        assert added[0] in added;
        assert (run + added)[|run|] == added[0];
      }
    }
  }

  lemma RecordedConcat(a: seq<Item>, b: seq<Item>)
    ensures Recorded(a + b) <==> Recorded(a) && Recorded(b)
  {
    if Recorded(a + b) {
      assert forall i :: 0 <= i < |a| ==> a[i] == (a + b)[i];
      assert forall i :: 0 <= i < |b| ==> b[i] == (a + b)[|a| + i];
    }
  }

  /** A prefix in which nothing was synthesized stands in the fold as it stands in the engine. */
  lemma {:induction false} RecordedPrefix(items: seq<Item>, x: seq<Item>, y: seq<Item>) returns (z: seq<Item>)
    requires Sparse(items) && Repair(items, "") == x + y
    requires StartsTurn(y) && Recorded(x)
    ensures items == x + z && StartsTurn(z) && Sparse(z) && Repair(z, "") == y
    decreases |items|
  {
    if x == [] {
      z := items;
      assert x + y == y && x + z == z;
    } else {
      var head, run, rest := FirstTurn(items);
      SparseTurn(head, run, rest);
      RepairTurn(head, run, rest, "");
      ResultsPair(head, run, "");
      var x' := TakeTurn(x, y, head, Results(head, run, ""), Repair(rest, ""));
      RecordedConcat([head] + Results(head, run, ""), x');
      RecordedConcat([head], Results(head, run, ""));
      RecordedRun(head, run);
      z := RecordedPrefix(rest, x', y);
      Reassociate([head] + run, x', z);
    }
  }

  /** Dropping the same span of both sides keeps them the same. */
  lemma DropSpan(front: seq<Item>, span: seq<Item>, back: seq<Item>, items: seq<Item>) returns (z: seq<Item>)
    requires Sparse(items) && Repair(items, "") == front + span + back
    requires StartsTurn(span) && StartsTurn(back) && Recorded(front + span)
    ensures items == front + span + z && StartsTurn(z)
    ensures Sparse(front + z) && Repair(front + z, "") == front + back
  {
    RepairPairs(items, "");
    z := RecordedPrefix(items, front + span, back);
    PairedConcat(front + span, back, "");
    PairedConcat(front, span, "");
    SparseConcat(front + span, z);
    SparseConcat(front, span);
    SparseConcat(front, z);
    RepairKeepsPaired(front, "");
    RepairConcat(front, z, "");
  }

  lemma DropBoth(items: seq<Item>, live: seq<Item>, task: seq<Item>) returns (after: seq<Item>)
    requires Sparse(items) && Repair(items, "") == live + task && StartsTurn(task)
    requires Recorded(live[..SelectSpan(live).end])
    ensures var s := SelectSpan(live);
            && s.end <= |items| && after == items[..s.pinned] + items[s.end..]
            && Sparse(after) && Repair(after, "") == Drop(live, s) + task
  {
    var s := SelectSpan(live);
    RepairPairs(items, "");
    PairedConcat(live, task, "");
    PinnedEndsTurn(live);
    SpanEndsTurn(live);
    after := DropAt(items, live, task, s.pinned, s.end);
  }

  lemma CutThree<T>(s: seq<T>, p: nat, e: nat)
    requires p <= e <= |s|
    ensures s == s[..p] + s[p..e] + s[e..] && s[..e] == s[..p] + s[p..e]
  {
  }

  lemma JoinThree<T>(a: seq<T>, b: seq<T>, c: seq<T>)
    ensures var s := a + b + c; s[..|a|] == a && s[|a| + |b|..] == c
  {
  }

  lemma SpanStarts(live: seq<Item>, p: nat, e: nat)
    requires p <= e <= |live| && StartsTurn(live[p..])
    ensures StartsTurn(live[p..e])
  {
    assert live[p..e] != [] ==> live[p..e][0] == live[p..][0];
  }

  lemma DropAt(items: seq<Item>, live: seq<Item>, task: seq<Item>, p: nat, e: nat) returns (after: seq<Item>)
    requires Sparse(items) && Repair(items, "") == live + task && StartsTurn(task)
    requires p <= e <= |live| && StartsTurn(live[p..]) && StartsTurn(live[e..]) && Recorded(live[..e])
    ensures e <= |items| && after == items[..p] + items[e..]
    ensures Sparse(after) && Repair(after, "") == live[..p] + live[e..] + task
  {
    CutThree(live, p, e);
    SpanStarts(live, p, e);
    after := DropPieces(items, live[..p], live[p..e], live[e..], task, p, e);
  }

  lemma DropPieces(items: seq<Item>, front: seq<Item>, span: seq<Item>, back: seq<Item>, task: seq<Item>, p: nat, e: nat) returns (after: seq<Item>)
    requires Sparse(items) && Repair(items, "") == front + span + back + task && StartsTurn(task)
    requires StartsTurn(span) && StartsTurn(back) && Recorded(front + span)
    requires p == |front| && e == |front| + |span|
    ensures e <= |items| && after == items[..p] + items[e..]
    ensures Sparse(after) && Repair(after, "") == front + back + task
  {
    Reassociate(front + span, back, task);
    Reassociate(front, back, task);
    assert StartsTurn(back + task) by {
      if back == [] { assert back + task == task; }
    }
    var z := DropSpan(front, span, back + task, items);
    JoinThree(front, span, z);
    after := front + z;
  }

  // ----- what a fold and a live history have in common -----

  /** Folded items x repair to y. Stated of every z equal to x, so that a proof unfolds it only on demand. */
  ghost predicate Mends(x: seq<Item>, y: seq<Item>) {
    forall z | z == x :: Sparse(z) && Repair(z, "") == y
  }

  /** A live history and folded items repair to the same conversation. */
  ghost predicate MendsSame(live: seq<Item>, x: seq<Item>) {
    forall l, z | l == live && z == x :: Sparse(z) && Repair(l, "") == Repair(z, "")
  }

  lemma MendsIsFixed(x: seq<Item>, y: seq<Item>)
    requires Mends(x, y)
    ensures Repair(y, "") == y && MendsSame(y, x)
  {
    assert Sparse(x);
    RepairFixpoint(x, "");
  }

  lemma MendsAlike(x: seq<Item>, y: seq<Item>)
    requires Mends(x, y)
    ensures MendsSame(y, x)
  {
    MendsIsFixed(x, y);
  }

  lemma MendsText(x: seq<Item>, y: seq<Item>, item: Item)
    requires Mends(x, y) && !item.Tool? && CallsOf(item) == []
    ensures Mends(x + [item], y + [item])
  {
    assert Sparse(x);
    AddText(x, item);
  }

  lemma MendsAnswered(x: seq<Item>, y: seq<Item>, text: string, c: Call, content: Content)
    requires Mends(x, y)
    ensures var turn := [Assistant(text, [c]), Tool(c.id, content)]; Mends(x + turn, y + turn)
  {
    assert Sparse(x);
    AddAnswered(x, text, c, content);
  }

  /** A call left unanswered on both sides: cancelled, or waiting for the user. */
  lemma MendsDangling(x: seq<Item>, y: seq<Item>, text: string, c: Call)
    requires Mends(x, y)
    ensures MendsSame(y + [Assistant(text, [c])], x + [Assistant(text, [c])])
  {
    MendsAlike(x, y);
    SameDangling(y, x, text, c);
  }

  /** The repair on the way out leaves the open question open. */
  lemma MendsSuspended(x: seq<Item>, y: seq<Item>, text: string, c: Call)
    requires Mends(x, y) && c.id != ""
    ensures Repair(y + [Assistant(text, [c])], c.id) == y + [Assistant(text, [c])]
  {
    MendsIsFixed(x, y);
    AddDangling(y, text, c);
    RepairFixpoint(y, "");
    PairedAnySkip(y, c.id);
    RepairKeepsPaired(y, c.id);
  }

  lemma {:induction false} PairedAnySkip(items: seq<Item>, skip: string)
    requires Paired(items, "")
    ensures Paired(items, skip)
    decreases |items|
  {
    if items != [] {
      PairedAnySkip(items[1 + Leading(items[1..])..], skip);
    }
  }

  lemma MendsDrop(x: seq<Item>, live: seq<Item>, task: seq<Item>) returns (after: seq<Item>)
    requires Mends(x, live + task) && StartsTurn(task)
    requires Recorded(live[..SelectSpan(live).end])
    ensures var s := SelectSpan(live);
            && s.end <= |x| && after == x[..s.pinned] + x[s.end..]
            && Mends(after, Drop(live, s) + task)
  {
    assert Sparse(x);
    after := DropBoth(x, live, task);
  }

  lemma UnfoldSame(live: seq<Item>, x: seq<Item>)
    requires MendsSame(live, x)
    ensures Sparse(x) && Repair(live, "") == Repair(x, "")
  {
    assert Repair(live, "") == Repair(x, "");
  }

  lemma SameRepaired(live: seq<Item>, x: seq<Item>)
    requires MendsSame(live, x)
    ensures MendsSame(Repair(live, ""), x)
  {
    UnfoldSame(live, x);
    RepairFixpoint(live, "");
  }

  lemma SameStart(live: seq<Item>, x: seq<Item>, item: Item)
    requires MendsSame(live, x) && !item.Tool? && CallsOf(item) == []
    ensures Mends(x + [item], Repair(live, "") + [item])
  {
    UnfoldSame(live, x);
    AddText(x, item);
  }

  lemma SameAnswered(live: seq<Item>, x: seq<Item>, text: string, c: Call, content: Content)
    requires MendsSame(live, x)
    ensures var turn := [Assistant(text, [c]), Tool(c.id, content)]; Mends(x + turn, Repair(live + turn, ""))
  {
    UnfoldSame(live, x);
    AddAnswered(x, text, c, content);
    AddAnswered(live, text, c, content);
  }

  lemma SameDangling(live: seq<Item>, x: seq<Item>, text: string, c: Call)
    requires MendsSame(live, x)
    ensures MendsSame(live + [Assistant(text, [c])], x + [Assistant(text, [c])])
  {
    UnfoldSame(live, x);
    AddDangling(x, text, c);
    AddDangling(live, text, c);
  }

  /** A restart takes over the folded items, repaired but for the open question. */
  lemma SameRebuilt(live: seq<Item>, x: seq<Item>, skip: string)
    requires MendsSame(live, x)
    ensures MendsSame(Repair(x, skip), x) && Repair(Repair(x, skip), "") == Repair(live, "")
  {
    UnfoldSame(live, x);
    RepairTwice(x, skip);
  }

  lemma SameRebuiltAsk(live: seq<Item>, x: seq<Item>, text: string, id: string)
    requires MendsSame(live, x) && id != ""
    ensures Repair(x + [Assistant(text, [Ask(id)])], id) == Repair(x, id) + [Assistant(text, [Ask(id)])]
  {
    AddDangling(x, text, Ask(id));
  }
}
