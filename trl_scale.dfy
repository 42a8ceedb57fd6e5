/**
 * The technology-readiness scale (components/trl-scale.tsx): nine levels in
 * three phases, and a click that expands one level's details or collapses
 * them again.
 */
module TrlScale {
  import opened Wrappers

  datatype Phase = Research | Valley | Commercial

  datatype Level = Level(level: int, name: string, phase: Phase)

  const Levels: seq<Level> := [
    Level(1, "Basic Research", Research),
    Level(2, "Applied Research", Research),
    Level(3, "Critical Function", Research),
    Level(4, "Lab Validation", Valley),
    Level(5, "Simulated Environment", Valley),
    Level(6, "Prototype", Valley),
    Level(7, "Operational Environment", Valley),
    Level(8, "System Complete", Commercial),
    Level(9, "Mission Proven", Commercial)
  ]

  /** The phase a level belongs to: 1 to 3 research, 4 to 7 the valley of death, 8 and 9 commercial. */
  function PhaseBand(level: int): Phase
  {
    if level <= 3 then Research else if level <= 7 then Valley else Commercial
  }

  /** `handleLevelClick` and the card's `onClick`: the clicked level, or nothing when it was already selected. */
  function Toggle(selected: Option<int>, level: int): Option<int>
  {
    if selected == Some(level) then None else Some(level)
  }

  /** The card at index `i` shows its description and AI help. */
  predicate ShowsDetails(selected: Option<int>, i: nat)
    requires i < |Levels|
  {
    selected == Some(Levels[i].level)
  }

  class TrlScaleState {
    var selectedLevel: Option<int>

    constructor()
      ensures selectedLevel == None
    {
      selectedLevel := None;
    }

    method HandleLevelClick(level: int)
      modifies this
      ensures selectedLevel == Toggle(old(selectedLevel), level)
      ensures old(selectedLevel) == Some(level) ==> selectedLevel == None
      ensures old(selectedLevel) != Some(level) ==> selectedLevel == Some(level)
    {
      if selectedLevel == Some(level) {
        selectedLevel := None;
      } else {
        selectedLevel := Some(level);
      }
    }
  }

  /** The table lists levels 1 to 9 in order, each in the phase its number bands to. */
  lemma LevelsInOrderAndBanded(i: nat)
    requires i < |Levels|
    ensures |Levels| == 9
    ensures Levels[i].level == i + 1
    ensures Levels[i].phase == PhaseBand(Levels[i].level)
  {
  }

  /** Clicking the selected level clears the selection; clicking any other selects it. */
  lemma ToggleIff(selected: Option<int>, level: int)
    ensures Toggle(selected, level) == None <==> selected == Some(level)
    ensures Toggle(selected, level) == Some(level) <==> selected != Some(level)
    ensures Toggle(Toggle(selected, level), level) == (if selected == Some(level) then selected else None)
  {
  }

  /** At most one card is expanded: the one whose level is selected. */
  lemma AtMostOneShowsDetails(selected: Option<int>, i: nat, j: nat)
    requires i < |Levels| && j < |Levels|
    requires ShowsDetails(selected, i) && ShowsDetails(selected, j)
    ensures i == j
  {
    LevelsInOrderAndBanded(i);
    LevelsInOrderAndBanded(j);
  }

  /** After a click on level `l` of the table, exactly that card is expanded or none is. */
  lemma ClickExpandsAtMostTheClicked(selected: Option<int>, i: nat, k: nat)
    requires i < |Levels| && k < |Levels|
    requires ShowsDetails(Toggle(selected, Levels[i].level), k)
    ensures k == i && selected != Some(Levels[i].level)
  {
    LevelsInOrderAndBanded(i);
    LevelsInOrderAndBanded(k);
  }
}
