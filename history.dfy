/** The agent's reasoning log panel: its expanded rows and the order it
    shows the decisions in. */
module AgentHistory {
  import opened Seqs
  import opened Expansion
  import opened MemberMockData

  function DecisionTime(d: AgentDecision): int
  {
    d.timestamp
  }

  class AgentHistoryPanel {
    var decisions: seq<AgentDecision>
    var expandedItems: set<int>

    /** The panel for `decisions`, with only the first row expanded. */
    constructor (decisions: seq<AgentDecision>)
      ensures this.decisions == decisions
      ensures expandedItems == {0}
    {
      this.decisions := decisions;
      expandedItems := {0};
    }

    /** `toggleExpanded(index)`: flips the row's membership in a copy of
        the set and keeps the copy; the decisions are untouched. */
    method ToggleExpanded(index: int)
      modifies this
      ensures expandedItems == Toggled(old(expandedItems), index)
      ensures decisions == old(decisions)
    {
      var newExpanded := ToggleCopy(expandedItems, index);
      expandedItems := newExpanded;
    }

    /** `sortedDecisions`: the decisions newest first, sorted on a copy,
        so `decisions` itself keeps its order. */
    method SortedDecisions() returns (sorted: seq<AgentDecision>)
      ensures multiset(sorted) == multiset(decisions)
      ensures NonIncreasing(sorted, DecisionTime)
    {
      sorted := SortByKeyDescending(decisions, DecisionTime);
    }
  }
}
