/** The member's timeline panel: its expanded rows, the order it shows the
    interactions in, and the text of each interaction's type badge. */
module MemberTimeline {
  import opened JsStrings
  import opened Seqs
  import opened Expansion
  import opened MemberMockData

  function InteractionTime(i: Interaction): int
  {
    i.date
  }

  /** `interaction.type.replace('_', ' ')`: the first underscore of the
      type name becomes a space. */
  function Badge(kind: InteractionKind): (b: string)
    ensures |b| == |KindName(kind)|
    ensures forall i :: 0 <= i < |b| && KindName(kind)[i] != '_' ==> b[i] == KindName(kind)[i]
  {
    ReplaceFirstSpec(KindName(kind), '_', ' ');
    ReplaceFirst(KindName(kind), '_', ' ')
  }

  /** `gap_closed` is the one type name with an underscore, and its badge
      reads `gap closed`. */
  lemma GapClosedBadge()
    ensures Badge(GapClosed) == "gap closed"
  {
    var s := KindName(GapClosed);
    // the first three characters are kept, the fourth is the underscore
    assert ReplaceFirst(s[3..], '_', ' ') == [' '] + s[4..];
    assert ReplaceFirst(s[2..], '_', ' ') == [s[2]] + ReplaceFirst(s[3..], '_', ' ');
    assert ReplaceFirst(s[1..], '_', ' ') == [s[1]] + ReplaceFirst(s[2..], '_', ' ');
    assert ReplaceFirst(s, '_', ' ') == [s[0]] + ReplaceFirst(s[1..], '_', ' ');
  }

  /** Every other badge is the type name itself. */
  lemma OtherBadges(kind: InteractionKind)
    requires kind != GapClosed
    ensures Badge(kind) == KindName(kind)
  {
    assert '_' !in KindName(kind);
    ReplaceFirstSpec(KindName(kind), '_', ' ');
  }

  class MemberTimelinePanel {
    var interactions: seq<Interaction>
    var expandedItems: set<int>

    /** The panel for `interactions`, with every row collapsed. */
    constructor (interactions: seq<Interaction>)
      ensures this.interactions == interactions
      ensures expandedItems == {}
    {
      this.interactions := interactions;
      expandedItems := {};
    }

    /** `toggleExpanded(index)`: flips the row's membership in a copy of
        the set and keeps the copy. */
    method ToggleExpanded(index: int)
      modifies this
      ensures expandedItems == Toggled(old(expandedItems), index)
      ensures interactions == old(interactions)
    {
      var newExpanded := ToggleCopy(expandedItems, index);
      expandedItems := newExpanded;
    }

    /** `sortedInteractions`: newest first, sorted on a copy. */
    method SortedInteractions() returns (sorted: seq<Interaction>)
      ensures multiset(sorted) == multiset(interactions)
      ensures NonIncreasing(sorted, InteractionTime)
    {
      sorted := SortByKeyDescending(interactions, InteractionTime);
    }
  }
}
