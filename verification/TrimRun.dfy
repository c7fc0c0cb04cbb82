// On the trim path nothing is lost from the count: over a whole run of the main loop the omitted
// items and those still held account for everything that entered the conversation.
module TrimRun {
  import opened Conversation
  import opened Compaction
  import opened HistoryFold
  import opened Session

  /** The steps of the loop, digests aside: those replace items by a text instead of counting them. */
  predicate Counts(a: Action) {
    match a
    case StartRun(_) => false
    case Resume(_) => false
    case Leave => false
    case Rehydrate(_) => false
    case Request(p) => !p.Digest?
    case _ => true
  }

  /** How many items a step says. */
  function Said(s: State, a: Action): nat {
    match a
    case Request(_) => if s.phase.Ready? && s.phase.task != "" then 1 else 0
    case Draft(_) => 1
    case RejectFinal(_) => 1
    case Finish(_) => 1
    case CallTools(_, _) => 1
    case Block(_) => 1
    case BadSuspension(_) => 1
    case RunTool(_) => 1
    case Finalize(_, closing) => if closing.Closing? then 2 else 1
    case _ => 0
  }

  function Weight(s: State): nat {
    s.omitted + |s.history|
  }

  lemma StepCounts(keep: Keep, s: State, a: Action)
    requires Enabled(s, a) && Counts(a)
    ensures Weight(Step(keep, s, a)) == Weight(s) + Said(s, a)
  {
  }

  ghost function AllSaid(keep: Keep, s: State, actions: seq<Action>): nat
    requires Legal(keep, s, actions)
    decreases |actions|
  {
    if actions == [] then 0 else Said(s, actions[0]) + AllSaid(keep, Step(keep, s, actions[0]), actions[1..])
  }

  /** However often a run is trimmed, omitted and held items add up to what it started with and what was said. */
  lemma {:induction false} TrimmingConserves(keep: Keep, s: State, actions: seq<Action>)
    requires Legal(keep, s, actions) && forall a :: a in actions ==> Counts(a)
    ensures Weight(Exec(keep, s, actions)) == Weight(s) + AllSaid(keep, s, actions)
    decreases |actions|
  {
    if actions != [] {
      StepCounts(keep, s, actions[0]);
      TrimmingConserves(keep, Step(keep, s, actions[0]), actions[1..]);
    }
  }
}
