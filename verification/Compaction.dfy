// Where older conversation is cut (server/agent/compaction.go, server/agent/engine.go).
module Compaction {
  import opened Conversation

  function Max(a: int, b: int): int {
    if a < b then b else a
  }

  // ----- the boundary -----

  /** The nearest turn with calls at or before i, or -1. */
  function OwnerAt(history: seq<Item>, i: int): (r: int)
    requires i < |history|
    ensures -1 <= r < |history|
    ensures r >= 0 ==> r <= i && CallsOf(history[r]) != []
    decreases |history|, i + 1
  {
    if i < 0 then -1 else if CallsOf(history[i]) != [] then i else OwnerAt(history, i - 1)
  }

  lemma {:induction false} OwnerIsNearest(history: seq<Item>, i: int)
    requires i < |history|
    ensures forall m :: Max(OwnerAt(history, i), -1) < m <= i ==> CallsOf(history[m]) == []
    decreases |history|, i + 1
  {
    if i >= 0 && CallsOf(history[i]) == [] {
      OwnerIsNearest(history, i - 1);
    }
  }

  /** The nearest plain text or user turn at or before k and not before low, or -1. */
  function TextAt(history: seq<Item>, k: int, low: nat): (r: int)
    requires k < |history|
    ensures r == -1 || (low <= r <= k && !history[r].Tool? && CallsOf(history[r]) == [])
    decreases |history|, k + 1
  {
    if k < low then -1
    else if !history[k].Tool? && CallsOf(history[k]) == [] then k
    else TextAt(history, k - 1, low)
  }

  /** How many of the n items from j on are results, counted up to the first that is not. */
  function ResultsAt(history: seq<Item>, j: nat, n: nat): nat
    decreases |history|, n
  {
    if n == 0 || j >= |history| || !history[j].Tool? then 0 else 1 + ResultsAt(history, j + 1, n - 1)
  }

  function AdjustedBoundary(history: seq<Item>, boundary: int): (r: int)
    ensures r <= boundary
    ensures 0 <= boundary <= |history| ==> 0 <= r
  {
    if boundary <= 0 || boundary >= |history| || !history[boundary].Tool? then boundary
    else
      var i := OwnerAt(history, boundary - 1);
      if i < 0 then boundary else BatchStart(history, i)
  }

  /** Where the batch at i may be cut off: before it or, if it has too few results, after an earlier text. */
  function BatchStart(history: seq<Item>, i: nat): (r: nat)
    requires i < |history| && CallsOf(history[i]) != []
    ensures r <= i
  {
    if ResultsAt(history, i + 1, |history[i].calls|) < |history[i].calls| then
      var k := TextAt(history, i - 1, Max(0, i - 5));
      if k >= 0 then k + 1 else i
    else i
  }

  method CountResults(history: seq<Item>, i: nat, limit: nat) returns (count: nat)
    requires i < |history|
    ensures count == ResultsAt(history, i + 1, limit)
  {
    count := 0;
    var j := i + 1;
    while j < |history| && j <= i + limit
      invariant i + 1 <= j <= |history| && count == j - i - 1 <= limit
      invariant ResultsAt(history, i + 1, limit) == count + ResultsAt(history, j, limit - count)
    {
      if !history[j].Tool? {
        break;
      }
      count := count + 1;
      j := j + 1;
    }
  }

  method AdjustCompactionBoundary(history: seq<Item>, boundary: int) returns (r: int)
    ensures r == AdjustedBoundary(history, boundary)
  {
    if boundary <= 0 || boundary >= |history| {
      return boundary;
    }
    if history[boundary].Tool? {
      var i := boundary - 1;
      while i >= 0
        invariant -1 <= i < boundary
        invariant OwnerAt(history, boundary - 1) == OwnerAt(history, i)
      {
        if CallsOf(history[i]) != [] {
          var count := CountResults(history, i, |history[i].calls|);
          if count < |history[i].calls| {
            var k := i - 1;
            while k >= 0 && k >= i - 5
              invariant -1 <= k < i
              invariant TextAt(history, i - 1, Max(0, i - 5)) == TextAt(history, k, Max(0, i - 5))
            {
              if !history[k].Tool? && CallsOf(history[k]) == [] {
                return k + 1;
              }
              k := k - 1;
            }
          }
          return i;
        }
        i := i - 1;
      }
    }
    return boundary;
  }

  /** On a paired history, a result's owner is the nearest turn that is not a result. */
  lemma OwnerOfResult(history: seq<Item>, b: nat)
    requires Paired(history, "")
    requires b < |history| && history[b].Tool?
    ensures OwnerAt(history, b - 1) >= 0
    ensures forall m :: OwnerAt(history, b - 1) < m <= b ==> history[m].Tool?
  {
    PairedIsByPosition(history, "");
    OwnerIsNearest(history, b - 1);
    assert Owned(history, b);
    var i: nat :| i < b && InRunOf(history, i, b) && CallsOf(history[i]) != [];
    assert forall m :: i < m <= b ==> history[m].Tool?;
  }

  lemma BatchStartsAfterText(history: seq<Item>, i: nat)
    requires i < |history| && CallsOf(history[i]) != []
    ensures var r := BatchStart(history, i);
            r == i || (r > 0 && !history[r - 1].Tool? && CallsOf(history[r - 1]) == [])
  {
  }

  /** On a paired history the boundary never falls before a result, so no call is cut from its results. */
  lemma BoundarySplitsTurns(history: seq<Item>, boundary: nat)
    requires Paired(history, "") && boundary <= |history|
    ensures StartsTurn(history[AdjustedBoundary(history, boundary)..])
  {
    var r := AdjustedBoundary(history, boundary);
    if 0 < boundary < |history| && history[boundary].Tool? {
      OwnerOfResult(history, boundary);
      BatchStartsAfterText(history, OwnerAt(history, boundary - 1));
      if history[r].Tool? {
        OwnerOfResult(history, r);
        assert false;
      }
    } else if boundary == 0 {
      PairedStarts(history, "");
    }
  }

  // ----- the pinned task -----

  function PinnedFrom(history: seq<Item>, i: nat): (n: nat)
    requires i <= |history|
    ensures n <= |history|
    ensures n > 0 ==> history[n - 1].User?
    decreases |history| - i
  {
    if i == |history| || CallsOf(history[i]) != [] then 0
    else if history[i].User? then i + 1
    else PinnedFrom(history, i + 1)
  }

  /** The leading items up to and including the first user task, unless a tool call comes first. */
  function Pinned(history: seq<Item>): (n: nat)
    ensures n <= |history|
  {
    PinnedFrom(history, 0)
  }

  method PinnedHistoryItems(history: seq<Item>) returns (n: nat)
    ensures n == Pinned(history)
  {
    for i := 0 to |history|
      invariant Pinned(history) == PinnedFrom(history, i)
    {
      if history[i].User? {
        return i + 1;
      }
      if CallsOf(history[i]) != [] {
        return 0;
      }
    }
    return 0;
  }

  // ----- one compaction -----

  /** The span history[pinned..end] a compaction drops, if anything; the 12 items of the recent context window stay. */
  datatype Span = Span(pinned: nat, end: nat) {
    function Shadowed(): int { end - pinned }
  }

  predicate SpanIn(s: Span, history: seq<Item>) {
    s.pinned <= s.end <= |history|
  }

  function SelectSpan(history: seq<Item>): (s: Span)
    ensures SpanIn(s, history) && s.pinned == Pinned(history)
  {
    var pinned := Pinned(history);
    if |history| <= 12 + pinned then Span(pinned, pinned)
    else
      var boundary := AdjustedBoundary(history, |history| - 12);
      if boundary <= pinned then Span(pinned, pinned) else Span(pinned, boundary)
  }

  function Drop(history: seq<Item>, s: Span): seq<Item>
    requires SpanIn(s, history)
  {
    history[..s.pinned] + history[s.end..]
  }

  method SelectCompactionSpan(history: seq<Item>) returns (span: seq<Item>, shadowed: nat, pinned: nat)
    ensures var s := SelectSpan(history);
            pinned == s.pinned && shadowed == s.Shadowed() && span == history[s.pinned..s.end]
  {
    pinned := PinnedHistoryItems(history);
    if |history| <= 12 + pinned {
      return [], 0, pinned;
    }
    var boundary := AdjustCompactionBoundary(history, |history| - 12);
    if boundary <= pinned {
      return [], 0, pinned;
    }
    return history[pinned..boundary], boundary - pinned, pinned;
  }

  /** A turn boundary cuts a paired history into two paired histories, and joins them back. */
  lemma CutPaired(history: seq<Item>, r: nat, skip: string)
    requires r <= |history| && StartsTurn(history[r..])
    ensures Paired(history, skip) <==> Paired(history[..r], skip) && Paired(history[r..], skip)
  {
    PairedConcat(history[..r], history[r..], skip);
    assert history == history[..r] + history[r..];
  }

  lemma PinnedEndsTurn(history: seq<Item>)
    requires Paired(history, "")
    ensures StartsTurn(history[Pinned(history)..])
  {
    var n := Pinned(history);
    if n == 0 {
      PairedStarts(history, "");
    } else if n < |history| && history[n].Tool? {
      OwnerOfResult(history, n);
      assert false;
    }
  }

  lemma SpanEndsTurn(history: seq<Item>)
    requires Paired(history, "")
    ensures StartsTurn(history[SelectSpan(history).end..])
  {
    if |history| <= 12 + Pinned(history) {
      PinnedEndsTurn(history);
    } else if AdjustedBoundary(history, |history| - 12) <= Pinned(history) {
      PinnedEndsTurn(history);
    } else {
      BoundarySplitsTurns(history, |history| - 12);
    }
  }

  /**
   * Compacting a paired history never splits a call from its result: the pinned prefix, the
   * dropped span and the kept tail are each paired, and so is what remains.
   */
  lemma CompactionKeepsPairs(history: seq<Item>)
    requires Paired(history, "")
    ensures var s := SelectSpan(history);
            && Paired(history[..s.pinned], "")
            && Paired(history[s.pinned..s.end], "")
            && Paired(history[s.end..], "")
            && Paired(Drop(history, s), "")
  {
    var s := SelectSpan(history);
    PinnedEndsTurn(history);
    SpanEndsTurn(history);
    CutPaired(history, s.end, "");
    CutPaired(history, s.pinned, "");
    var front := history[..s.end];
    assert front[..s.pinned] == history[..s.pinned] && front[s.pinned..] == history[s.pinned..s.end];
    assert StartsTurn(front[s.pinned..]);
    CutPaired(front, s.pinned, "");
    PairedConcat(history[..s.pinned], history[s.end..], "");
  }

  /**
   * What a compaction keeps, of any history: the first user task (unless a tool call came before
   * it) and at least the last 12 items, word for word; and it strictly shrinks when it drops anything.
   */
  lemma CompactionKeeps(history: seq<Item>, first: nat)
    requires first < |history| && history[first].User?
    requires forall i :: 0 <= i < first ==> !history[i].User? && CallsOf(history[i]) == []
    ensures var s := SelectSpan(history); var kept := Drop(history, s);
            && first < |kept| && kept[..first + 1] == history[..first + 1]
            && (s.Shadowed() > 0 ==>
                  && |kept| == |history| - s.Shadowed() < |history|
                  && |kept| >= 12 + first + 1
                  && kept[|kept| - 12..] == history[|history| - 12..])
  {
    PinnedIsFirstTask(history, first, 0);
  }

  lemma {:induction false} PinnedIsFirstTask(history: seq<Item>, first: nat, i: nat)
    requires i <= first < |history| && history[first].User?
    requires forall m :: i <= m < first ==> !history[m].User? && CallsOf(history[m]) == []
    ensures PinnedFrom(history, i) == first + 1
    decreases first - i
  {
    if i < first {
      PinnedIsFirstTask(history, first, i + 1);
    }
  }

  // ----- delegated children: trim only -----

  /** A child's conversation and the running count of items already dropped from it. */
  datatype Worker = Worker(history: seq<Item>, omitted: nat)

  function TrimWorker(w: Worker, overBudget: bool): (r: Worker) {
    if |w.history| <= 1 || !overBudget || |w.history| <= 12 then w
    else
      var recentStart := AdjustedBoundary(w.history, |w.history| - 12);
      Worker(w.history[recentStart..], w.omitted + recentStart)
  }

  method CompactWorkerBundle(w: Worker, overBudget: bool) returns (r: Worker)
    ensures r == TrimWorker(w, overBudget)
  {
    if |w.history| <= 1 || !overBudget {
      return w;
    }
    var recentStart: int := |w.history| - 12;
    if recentStart <= 0 {
      return w;
    }
    recentStart := AdjustCompactionBoundary(w.history, recentStart);
    return Worker(w.history[recentStart..], w.omitted + recentStart);
  }

  /** One step of a child's run: trim, then append one paired turn. */
  datatype WorkerStep = WorkerStep(overBudget: bool, turn: seq<Item>)

  function RunWorker(w: Worker, steps: seq<WorkerStep>): Worker
    decreases |steps|
  {
    if steps == [] then w
    else
      var trimmed := TrimWorker(w, steps[0].overBudget);
      RunWorker(Worker(trimmed.history + steps[0].turn, trimmed.omitted), steps[1..])
  }

  function Appended(steps: seq<WorkerStep>): nat {
    if steps == [] then 0 else |steps[0].turn| + Appended(steps[1..])
  }

  lemma TrimAt(w: Worker, r: nat)
    requires Paired(w.history, "") && r <= |w.history| && StartsTurn(w.history[r..])
    ensures Paired(w.history[r..], "") && (w.omitted + r) + |w.history[r..]| == w.omitted + |w.history|
  {
    CutPaired(w.history, r, "");
  }

  lemma WorkerTrimKeeps(w: Worker, overBudget: bool)
    requires Paired(w.history, "")
    ensures var r := TrimWorker(w, overBudget);
            Paired(r.history, "") && r.omitted + |r.history| == w.omitted + |w.history|
  {
    if overBudget && |w.history| > 12 {
      var r := AdjustedBoundary(w.history, |w.history| - 12);
      BoundarySplitsTurns(w.history, |w.history| - 12);
      if r == 0 {
        assert w.history[0..] == w.history;
      } else {
        TrimAt(w, r);
      }
    }
  }

  /** Over a whole child run nothing is lost from the count, and the conversation stays paired. */
  lemma {:induction false} WorkerRunConserves(w: Worker, steps: seq<WorkerStep>)
    requires Paired(w.history, "")
    requires forall st :: st in steps ==> Paired(st.turn, "")
    ensures var r := RunWorker(w, steps);
            && r.omitted + |r.history| == w.omitted + |w.history| + Appended(steps)
            && Paired(r.history, "")
    decreases |steps|
  {
    if steps != [] {
      var trimmed := TrimWorker(w, steps[0].overBudget);
      WorkerTrimKeeps(w, steps[0].overBudget);
      PairedStarts(steps[0].turn, "");
      PairedConcat(trimmed.history, steps[0].turn, "");
      WorkerRunConserves(Worker(trimmed.history + steps[0].turn, trimmed.omitted), steps[1..]);
    }
  }
}
