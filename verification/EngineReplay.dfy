// What replay means for an engine object: its log tells what its fields hold.
module EngineReplay {
  import opened Conversation
  import opened HistoryFold
  import opened Session
  import Conservation
  import EngineLoop
  import Simulation

  /** An engine at rest that only took faithful steps is what its log says it is. */
  lemma ReplayAgrees(e: EngineLoop.Engine)
    requires e.Valid() && e.phase.Idle? && Simulation.AllFaithful(e.keep, NEW_SESSION, e.steps)
    ensures var r := Rebuild(e.keep, e.log);
            && Repair(r.items, "") == Repair(e.history, "")
            && r.omitted == e.omittedHistoryMessages && r.summary == e.historySummary
  {
    Simulation.ReplayRefinesEngine(e.keep, e.steps);
  }

  /**
   * An engine at rest that only took settled steps finds all its texts, calls and results in its log,
   * once both are repaired; and as they stand, if every call was answered.
   */
  lemma ReplayConserves(e: EngineLoop.Engine)
    requires e.Valid() && e.phase.Idle? && Conservation.AllSettled(e.keep, NEW_SESSION, e.steps)
    ensures var r := Rebuild(e.keep, e.log);
            && Conservation.GistOf(Repair(r.items, "")) == Conservation.GistOf(Repair(e.history, ""))
            && (Conservation.AllAnswering(e.keep, NEW_SESSION, e.steps) ==> Conservation.GistOf(r.items) == Conservation.GistOf(e.history))
  {
    Conservation.ReplayConservesContent(e.keep, e.steps);
  }
}
