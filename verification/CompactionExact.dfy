// What a compaction drops, read off positions: it is not only safe, it drops as much as it may
// (server/agent/engine.go, server/agent/compaction.go).
module CompactionExact {
  import opened Conversation
  import opened Compaction

  /** A place to cut: the end, or in front of anything but a result. */
  predicate TurnStart(history: seq<Item>, r: nat) {
    r >= |history| || !history[r].Tool?
  }

  predicate GreatestStart(history: seq<Item>, boundary: nat, r: nat) {
    r <= boundary && TurnStart(history, r) && forall m :: r < m <= boundary ==> !TurnStart(history, m)
  }

  /** The nearest turn with calls before the boundary. */
  predicate Owns(history: seq<Item>, i: nat, boundary: nat) {
    i < boundary <= |history| && CallsOf(history[i]) != [] && forall m :: i < m < boundary ==> CallsOf(history[m]) == []
  }

  predicate ResultAt(history: seq<Item>, m: nat) {
    m < |history| && history[m].Tool?
  }

  /** At least one result per call stands right after the turn at i. */
  predicate Complete(history: seq<Item>, i: nat) {
    i < |history| && forall m :: i < m <= i + |CallsOf(history[i])| ==> ResultAt(history, m)
  }

  predicate IsText(item: Item) {
    !item.Tool? && CallsOf(item) == []
  }

  /** Position k holds the last text among the five items before i. */
  predicate LastText(history: seq<Item>, i: nat, k: int) {
    i <= |history| && Max(0, i - 5) <= k < i && IsText(history[k]) && forall m :: k < m < i ==> !IsText(history[m])
  }

  predicate NoText(history: seq<Item>, i: nat) {
    i <= |history| && forall m :: Max(0, i - 5) <= m < i ==> !IsText(history[m])
  }

  /**
   * Where the batch of turn i is cut off: in front of it, or, if it has too few results, right after the
   * last of the five items before it that is text.
   */
  predicate CutsOff(history: seq<Item>, i: nat, r: int) {
    if Complete(history, i) || NoText(history, i) then r == i else LastText(history, i, r - 1)
  }

  /** Where a wanted boundary lands: where it is, unless it falls on a result that some turn before it owns. */
  ghost predicate Lands(history: seq<Item>, boundary: int, r: int) {
    if 0 < boundary < |history| && history[boundary].Tool? && exists i :: Owns(history, i, boundary)
    then exists i :: Owns(history, i, boundary) && CutsOff(history, i, r)
    else r == boundary
  }

  // ----- the searches, by position -----

  lemma {:induction false} ResultsByPosition(history: seq<Item>, j: nat, n: nat)
    ensures ResultsAt(history, j, n) >= n <==> forall m :: j <= m < j + n ==> ResultAt(history, m)
    decreases n
  {
    if n > 0 && ResultAt(history, j) {
      ResultsByPosition(history, j + 1, n - 1);
    }
  }

  lemma {:induction false} TextByPosition(history: seq<Item>, k: int, low: nat)
    requires k < |history|
    ensures var r := TextAt(history, k, low);
            if r >= 0 then low <= r <= k && IsText(history[r]) && forall m :: r < m <= k ==> !IsText(history[m])
            else forall m :: low <= m <= k ==> !IsText(history[m])
    decreases k + 1
  {
    if k >= low && !IsText(history[k]) {
      TextByPosition(history, k - 1, low);
    }
  }

  lemma BatchCutsOff(history: seq<Item>, i: nat)
    requires i < |history| && CallsOf(history[i]) != []
    ensures CutsOff(history, i, BatchStart(history, i))
  {
    assert history[i].calls == CallsOf(history[i]);
    ResultsByPosition(history, i + 1, |history[i].calls|);
    TextByPosition(history, i - 1, Max(0, i - 5));
    assert Complete(history, i) <==> ResultsAt(history, i + 1, |history[i].calls|) >= |history[i].calls|;
    assert NoText(history, i) <==> TextAt(history, i - 1, Max(0, i - 5)) < 0;
  }

  lemma OwnerOwns(history: seq<Item>, boundary: nat)
    requires 0 < boundary <= |history|
    ensures var i := OwnerAt(history, boundary - 1);
            if i >= 0 then Owns(history, i, boundary) else forall k: nat :: !Owns(history, k, boundary)
  {
    OwnerIsNearest(history, boundary - 1);
  }

  lemma OwnerIsOne(history: seq<Item>, boundary: nat, i: nat, k: nat)
    requires Owns(history, i, boundary) && Owns(history, k, boundary)
    ensures i == k
  {
  }

  lemma CutIsOne(history: seq<Item>, i: nat, r: int, q: int)
    requires CutsOff(history, i, r) && CutsOff(history, i, q)
    ensures r == q
  {
  }

  /** The adjusted boundary is where the wanted one lands, for every history and every boundary. */
  lemma AdjustedByPosition(history: seq<Item>, boundary: int, r: int)
    ensures Lands(history, boundary, r) <==> r == AdjustedBoundary(history, boundary)
  {
    if 0 < boundary < |history| && history[boundary].Tool? {
      OwnerOwns(history, boundary);
      var i := OwnerAt(history, boundary - 1);
      if i >= 0 {
        BatchCutsOff(history, i);
        if Lands(history, boundary, r) {
          var k: nat :| Owns(history, k, boundary) && CutsOff(history, k, r);
          OwnerIsOne(history, boundary, i, k);
          CutIsOne(history, i, r, BatchStart(history, i));
        }
      }
    }
  }

  // ----- on paired histories -----

  /** The batch the boundary falls into has a result for each call. */
  predicate CompleteAt(history: seq<Item>, boundary: int) {
    forall i :: 0 <= i < boundary && Owns(history, i, boundary) ==> Complete(history, i)
  }

  /** On a paired history with complete batches the adjusted boundary is the greatest turn start at or below the wanted one. */
  lemma AdjustedIsGreatestStart(history: seq<Item>, boundary: nat)
    requires Paired(history, "") && boundary <= |history| && CompleteAt(history, boundary)
    ensures GreatestStart(history, boundary, AdjustedBoundary(history, boundary))
  {
    if boundary == 0 {
      PairedStarts(history, "");
    } else if boundary < |history| && history[boundary].Tool? {
      OwnerOfResult(history, boundary);
      OwnerOwns(history, boundary);
      AdjustedByPosition(history, boundary, AdjustedBoundary(history, boundary));
      var i := OwnerAt(history, boundary - 1);
      assert Complete(history, i) && AdjustedBoundary(history, boundary) == i;
    }
  }

  predicate Distinct(calls: seq<Call>) {
    forall i, j :: 0 <= i < j < |calls| ==> calls[i].id != calls[j].id
  }

  lemma {:induction false} DistinctIds(calls: seq<Call>)
    requires Distinct(calls)
    ensures |IdsOf(calls)| == |calls|
  {
    if calls != [] {
      DistinctIds(calls[1..]);
      assert calls == [calls[0]] + calls[1..];
      assert IdsOf(calls) == {calls[0].id} + IdsOf(calls[1..]);
      assert calls[0].id !in IdsOf(calls[1..]);
    }
  }

  lemma {:induction false} AnsweredAreFew(run: seq<Item>)
    ensures |Answered(run)| <= |run|
  {
    if run != [] {
      AnsweredAreFew(run[1..]);
      AnsweredConcat([run[0]], run[1..]);
      assert run == [run[0]] + run[1..];
      assert Answered([run[0]]) <= {if run[0].Tool? then run[0].callId else ""};
      Fewer(Answered([run[0]]), {if run[0].Tool? then run[0].callId else ""});
    }
  }

  lemma {:induction false} Fewer(a: set<string>, b: set<string>)
    requires a <= b
    ensures |a| <= |b|
    decreases |a|
  {
    if a != {} {
      var x :| x in a;
      Fewer(a - {x}, b - {x});
    }
  }

  /** In a paired history every batch with distinct call ids is complete. */
  lemma DistinctAreComplete(history: seq<Item>, i: nat)
    requires Paired(history, "") && i < |history| && Distinct(CallsOf(history[i]))
    ensures Complete(history, i)
  {
    var calls := CallsOf(history[i]);
    var n := Leading(history[i + 1..]);
    var run := history[i + 1..][..n];
    LeadingAreTools(history[i + 1..]);
    forall id | id in IdsOf(calls) ensures id in Answered(run) {
      AnswerInRun(history, i, id);
    }
    DistinctIds(calls);
    Fewer(IdsOf(calls), Answered(run));
    AnsweredAreFew(run);
    forall m | i < m <= i + |calls| ensures ResultAt(history, m) {
      assert run[m - i - 1] == history[m];
    }
  }

  lemma {:induction false} LeadingStops(items: seq<Item>)
    ensures Leading(items) < |items| ==> !items[Leading(items)].Tool?
  {
    if items != [] && items[0].Tool? {
      LeadingStops(items[1..]);
    }
  }

  lemma AnswerInRun(history: seq<Item>, i: nat, id: string)
    requires Paired(history, "") && i < |history| && id in IdsOf(CallsOf(history[i]))
    ensures id in Answered(history[i + 1..][..Leading(history[i + 1..])])
  {
    var rest := history[i + 1..];
    var n := Leading(rest);
    PairedIsByPosition(history, "");
    var c :| c in CallsOf(history[i]) && c.id == id;
    assert HasAnswer(history, i, id);
    var k: nat :| InRunOf(history, i, k) && history[k].callId == id;
    LeadingStops(rest);
    assert k - i - 1 < n;
    assert rest[..n][k - i - 1] == history[k];
  }

  /** The last turn start that leaves the recent window whole, if there is one above the pinned items. */
  ghost predicate Droppable(history: seq<Item>) {
    exists t: nat :: Pinned(history) < t <= |history| - 12 && TurnStart(history, t)
  }

  /**
   * A compaction drops something exactly when some turn starts above the pinned items and leaves the
   * last 12, and then it drops all up to the last such turn.
   */
  lemma DropsExactly(history: seq<Item>)
    requires Paired(history, "") && CompleteAt(history, |history| - 12)
    ensures var s := SelectSpan(history);
            && (s.Shadowed() > 0 <==> Droppable(history))
            && (s.Shadowed() > 0 ==> |history| >= 12 && GreatestStart(history, |history| - 12, s.end))
  {
    var b := |history| - 12;
    SpanIs(history);
    if b >= 0 {
      AdjustedIsGreatestStart(history, b);
    }
    DropsFrom(history, Pinned(history), b, AdjustedBoundary(history, b), SelectSpan(history));
  }

  lemma DropsFrom(history: seq<Item>, pinned: nat, b: int, r: int, s: Span)
    requires s.Shadowed() > 0 <==> b > pinned && r > pinned
    requires s.Shadowed() > 0 ==> s.end == r
    requires b > pinned ==> r >= 0 && GreatestStart(history, b, r)
    ensures s.Shadowed() > 0 <==> exists t: nat :: pinned < t <= b && TurnStart(history, t)
    ensures s.Shadowed() > 0 ==> b >= 0 && GreatestStart(history, b, s.end)
  {
  }

  lemma SpanIs(history: seq<Item>)
    ensures var s, r := SelectSpan(history), AdjustedBoundary(history, |history| - 12);
            && (s.Shadowed() > 0 <==> |history| - 12 > Pinned(history) && r > Pinned(history))
            && (s.Shadowed() > 0 ==> s.end == r)
  {
  }

  /** In general it drops up to where the boundary lands, exactly when that lies above the pinned items. */
  lemma DropsWhereItLands(history: seq<Item>, r: int)
    requires Lands(history, |history| - 12, r)
    ensures var s := SelectSpan(history);
            && (s.Shadowed() > 0 <==> Pinned(history) < r && Pinned(history) < |history| - 12)
            && (s.Shadowed() > 0 ==> s.end == r)
  {
    AdjustedByPosition(history, |history| - 12, r);
  }

  /** A child over its budget is trimmed to where the boundary lands. */
  lemma TrimsExactly(w: Worker, r: int)
    requires |w.history| > 12 && Lands(w.history, |w.history| - 12, r)
    ensures 0 <= r <= |w.history| - 12 && TrimWorker(w, true) == Worker(w.history[r..], w.omitted + r)
  {
    AdjustedByPosition(w.history, |w.history| - 12, r);
  }

  /** Nothing is trimmed within the budget, or of a conversation that fits the window. */
  lemma TrimsOnlyOverBudget(w: Worker, overBudget: bool)
    ensures !overBudget || |w.history| <= 12 ==> TrimWorker(w, overBudget) == w
  {
  }

  /** On complete batches that leaves the last 12 items and the rest of their first turn. */
  lemma TrimsToStart(w: Worker, r: int)
    requires |w.history| > 12 && Lands(w.history, |w.history| - 12, r) && r >= 0
    ensures Paired(w.history, "") && CompleteAt(w.history, |w.history| - 12) ==> GreatestStart(w.history, |w.history| - 12, r)
  {
    AdjustedByPosition(w.history, |w.history| - 12, r);
    if Paired(w.history, "") && CompleteAt(w.history, |w.history| - 12) {
      AdjustedIsGreatestStart(w.history, |w.history| - 12);
    }
  }

  /** Nothing is pinned exactly when a tool call stands before every user turn. */
  lemma PinnedNothing(history: seq<Item>)
    ensures Pinned(history) == 0 <==>
            forall u :: 0 <= u < |history| && history[u].User? ==> exists m :: 0 <= m < u && CallsOf(history[m]) != []
  {
    PinnedNothingFrom(history, 0);
  }

  lemma {:induction false} PinnedNothingFrom(history: seq<Item>, i: nat)
    requires i <= |history|
    ensures PinnedFrom(history, i) == 0 <==>
            forall u :: i <= u < |history| && history[u].User? ==> exists m :: i <= m < u && CallsOf(history[m]) != []
    decreases |history| - i
  {
    if i < |history| && CallsOf(history[i]) == [] && !history[i].User? {
      PinnedNothingFrom(history, i + 1);
    }
  }
}
