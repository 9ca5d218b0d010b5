/** The weights panel: a local copy of the parameters whose weights and
    preferred directions are edited, with a flag recording unsaved edits;
    saving hands the copy to the owner, resetting restores the owner's list. */
module WeightsPanel {
  import opened Seqs
  import opened Types
  import opened ParameterManager

  /** One of the panel's two edits. */
  datatype PanelEdit =
    | WeightTo(id: string, slider: int)
    | DirectionTo(id: string, direction: Direction)

  function ApplyEdit(ps: seq<ScoreParameter>, e: PanelEdit): seq<ScoreParameter>
  {
    match e
    case WeightTo(id, v) => EditAll(ps, id, SetWeight(v))
    case DirectionTo(id, d) => EditAll(ps, id, SetDirection(d))
  }

  /** A session's edits, applied in order. */
  function ApplyEdits(ps: seq<ScoreParameter>, edits: seq<PanelEdit>): seq<ScoreParameter>
    decreases |edits|
  {
    if edits == [] then ps else ApplyEdits(ApplyEdit(ps, edits[0]), edits[1..])
  }

  /** No sequence of edits changes the list's length, ids, order, names
      or defaults. */
  lemma {:induction false} EditsKeepShape(ps: seq<ScoreParameter>, edits: seq<PanelEdit>)
    ensures var r := ApplyEdits(ps, edits);
            && |r| == |ps|
            && forall i :: 0 <= i < |ps| ==>
                 r[i].id == ps[i].id && r[i].name == ps[i].name && r[i].defaultValue == ps[i].defaultValue
    decreases |edits|
  {
    if edits != [] {
      var next := ApplyEdit(ps, edits[0]);
      EditsKeepShape(next, edits[1..]);
    }
  }

  /** Parameters whose id no edit names come through unchanged. */
  lemma {:induction false} EditsOnlyTargets(ps: seq<ScoreParameter>, edits: seq<PanelEdit>, i: nat)
    requires i < |ps| && forall k :: 0 <= k < |edits| ==> edits[k].id != ps[i].id
    ensures |ApplyEdits(ps, edits)| == |ps| && ApplyEdits(ps, edits)[i] == ps[i]
    decreases |edits|
  {
    if edits != [] {
      var next := ApplyEdit(ps, edits[0]);
      assert next[i] == ps[i];
      EditsOnlyTargets(next, edits[1..], i);
    }
  }

  /** The panel's state: the owner's list, the local copy, the flag, and
      every list saved to the owner, oldest first. */
  class Panel {
    var parameters: seq<ScoreParameter>
    var localParameters: seq<ScoreParameter>
    var hasChanges: bool
    var saved: seq<seq<ScoreParameter>>

    constructor(ps: seq<ScoreParameter>)
      ensures parameters == ps && localParameters == ps && !hasChanges && saved == []
    {
      parameters := ps;
      localParameters := ps;
      hasChanges := false;
      saved := [];
    }

    /** `handleWeightChange`: the slider value in tenths, on that parameter only. */
    method HandleWeightChange(id: string, value: int)
      modifies this
      ensures localParameters == ApplyEdit(old(localParameters), WeightTo(id, value))
      ensures hasChanges
      ensures parameters == old(parameters) && saved == old(saved)
    {
      localParameters := EditAll(localParameters, id, SetWeight(value));
      hasChanges := true;
    }

    /** `handleDirectionChange`. */
    method HandleDirectionChange(id: string, direction: Direction)
      modifies this
      ensures localParameters == ApplyEdit(old(localParameters), DirectionTo(id, direction))
      ensures hasChanges
      ensures parameters == old(parameters) && saved == old(saved)
    {
      localParameters := EditAll(localParameters, id, SetDirection(direction));
      hasChanges := true;
    }

    /** `saveChanges`. */
    method SaveChanges()
      modifies this
      ensures saved == old(saved) + [localParameters]
      ensures !hasChanges
      ensures localParameters == old(localParameters) && parameters == old(parameters)
    {
      saved := saved + [localParameters];
      hasChanges := false;
    }

    /** The owner renders the panel again with a new `parameters` prop, as
        it does with the list a save handed it. Only the prop changes: the
        local copy was initialised once and is not synchronised. */
    method ReceiveParameters(ps: seq<ScoreParameter>)
      modifies this
      ensures parameters == ps
      ensures localParameters == old(localParameters) && hasChanges == old(hasChanges) && saved == old(saved)
    {
      parameters := ps;
    }

    /** `resetChanges`: back to the current prop, which after a save and
        the owner's re-render is the saved list. */
    method ResetChanges()
      modifies this
      ensures localParameters == parameters && !hasChanges
      ensures parameters == old(parameters) && saved == old(saved)
    {
      localParameters := parameters;
      hasChanges := false;
    }
  }
}
