/** The set of expanded list rows that the reasoning log and the timeline
    keep, and the toggle both apply to it: copy the set, then add or
    delete one index in the copy. */
module Expansion {
  /** The membership of `index` flipped; every other index keeps its
      membership. */
  function Toggled(expanded: set<int>, index: int): (r: set<int>)
    ensures index in r <==> index !in expanded
    ensures forall j :: j != index ==> (j in r <==> j in expanded)
  {
    if index in expanded then expanded - {index} else expanded + {index}
  }

  /** Toggling the same row twice restores the set. */
  lemma ToggleTwice(expanded: set<int>, index: int)
    ensures Toggled(Toggled(expanded, index), index) == expanded
  {
  }

  /** Toggles of different rows commute. */
  lemma TogglesCommute(expanded: set<int>, i: int, j: int)
    ensures Toggled(Toggled(expanded, i), j) == Toggled(Toggled(expanded, j), i)
  {
  }

  /** `toggleExpanded(index)` on a set copy: the copy is edited in place
      with `delete` or `add`, and returned as the new set. */
  method ToggleCopy(expanded: set<int>, index: int) returns (newExpanded: set<int>)
    ensures newExpanded == Toggled(expanded, index)
  {
    newExpanded := expanded;
    if index in newExpanded {
      newExpanded := newExpanded - {index};
    } else {
      newExpanded := newExpanded + {index};
    }
  }
}
