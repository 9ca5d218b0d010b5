/** The parameter registry editor: a local copy of the parameter list that
    is edited field by field, extended from a draft, shrunk (never below
    one parameter) and reordered by swapping neighbours; every structural
    change and every closed edit session is pushed to the owner. */
module ParameterManager {
  import opened Seqs
  import opened Types
  import opened Text

  /** A slider position 1..10 as a weight: tenths. */
  function SliderWeight(v: int): (w: real)
    ensures 1 <= v <= 10 ==> 0.1 <= w <= 1.0
    ensures v > 0 ==> w > 0.0
  {
    v as real / 10.0
  }

  /** One field of a parameter set to a new value. */
  datatype FieldEdit =
    | SetName(name: string)
    | SetDescription(description: string)
    | SetWeight(slider: int)
    | SetDirection(direction: Direction)

  function Edited(p: ScoreParameter, e: FieldEdit): ScoreParameter
  {
    match e
    case SetName(n) => p.(name := n)
    case SetDescription(d) => p.(description := d)
    case SetWeight(v) => p.(weight := SliderWeight(v))
    case SetDirection(d) => p.(preferredDirection := Some(d))
  }

  /** `handleParameterEdit`: the edit applied to every parameter with the id. */
  function EditAll(ps: seq<ScoreParameter>, id: string, e: FieldEdit): seq<ScoreParameter>
  {
    seq(|ps|, i requires 0 <= i < |ps| => if ps[i].id == id then Edited(ps[i], e) else ps[i])
  }

  /** An edit keeps length, ids and order, touches only the named
      parameter and, of it, only the named field. */
  lemma EditAllOnlyTarget(ps: seq<ScoreParameter>, id: string, e: FieldEdit)
    ensures var r := EditAll(ps, id, e);
            && |r| == |ps|
            && (forall i :: 0 <= i < |ps| ==> r[i].id == ps[i].id && r[i].defaultValue == ps[i].defaultValue)
            && (forall i :: 0 <= i < |ps| && ps[i].id != id ==> r[i] == ps[i])
            && (forall i :: 0 <= i < |ps| && ps[i].id == id ==>
                  && (e.SetName? ==> r[i] == ps[i].(name := e.name))
                  && (e.SetDescription? ==> r[i] == ps[i].(description := e.description))
                  && (e.SetWeight? ==> r[i] == ps[i].(weight := e.slider as real / 10.0))
                  && (e.SetDirection? ==> r[i] == ps[i].(preferredDirection := Some(e.direction))))
  {
  }

  /** The new-parameter form: everything of a parameter but its id. */
  datatype Draft = Draft(name: string, description: string, weight: real,
                         defaultValue: ScoreLevel, direction: Direction)

  /** The form's contents initially and after every add. */
  const BlankDraft: Draft := Draft("", "", 0.5, 3, High)

  function FromDraft(id: string, d: Draft): ScoreParameter
  {
    ScoreParameter(id, d.name, d.description, d.weight, Some(d.defaultValue), Some(d.direction))
  }

  /** `handleAddParameter` on a list: refused for a blank name, otherwise
      the drafted parameter appended under the new id. */
  function Added(ps: seq<ScoreParameter>, id: string, d: Draft): Option<seq<ScoreParameter>>
  {
    if Trim(d.name) == "" then None else Some(ps + [FromDraft(id, d)])
  }

  lemma AddedSpec(ps: seq<ScoreParameter>, id: string, d: Draft)
    requires forall i :: 0 <= i < |ps| ==> ps[i].id != id
    ensures Added(ps, id, d).None? <==> IsBlank(d.name)
    ensures Added(ps, id, d).Some? ==>
              var r := Added(ps, id, d).value;
              && |r| == |ps| + 1 && r[..|ps|] == ps
              && r[|ps|].id == id && r[|ps|].name == d.name && r[|ps|].weight == d.weight
              && (DistinctIds(ps) ==> DistinctIds(r))
  {
    TrimEmptyIffBlank(d.name);
  }

  /** `handleDeleteParameter` on a list: refused when at most one parameter
      is left, otherwise every parameter with the id removed. */
  function Deleted(ps: seq<ScoreParameter>, id: string): Option<seq<ScoreParameter>>
  {
    if |ps| <= 1 then None else Some(Filter(ps, (p: ScoreParameter) => p.id != id))
  }

  /** A delete keeps the others in order; with distinct ids at least one
      parameter always remains. */
  lemma DeletedSpec(ps: seq<ScoreParameter>, id: string)
    ensures Deleted(ps, id).None? <==> |ps| <= 1
    ensures Deleted(ps, id).Some? ==>
              var r := Deleted(ps, id).value;
              && IsSubsequence(r, ps)
              && (forall p :: p in r <==> p in ps && p.id != id)
              && (DistinctIds(ps) ==> |r| >= 1)
  {
    if |ps| > 1 {
      var keep := (p: ScoreParameter) => p.id != id;
      FilterIsSubsequence(ps, keep);
      if DistinctIds(ps) {
        assert ps[0].id != ps[1].id;
        var q := if ps[0].id != id then ps[0] else ps[1];
        assert q in ps && keep(q);
        assert q in Filter(ps, keep);
      }
    }
  }

  /** The list with entries i and j exchanged. */
  function Swap(ps: seq<ScoreParameter>, i: nat, j: nat): (r: seq<ScoreParameter>)
    requires i < |ps| && j < |ps|
    ensures |r| == |ps| && r[i] == ps[j] && r[j] == ps[i]
    ensures forall k :: 0 <= k < |ps| && k != i && k != j ==> r[k] == ps[k]
  {
    ps[i := ps[j]][j := ps[i]]
  }

  lemma SwapPermutes(ps: seq<ScoreParameter>, i: nat, j: nat)
    requires i < |ps| && j < |ps|
    ensures multiset(Swap(ps, i, j)) == multiset(ps)
    ensures Swap(Swap(ps, i, j), i, j) == ps
  {
    SwapMultiset(ps, i, j);
  }

  lemma SwapMultiset(ps: seq<ScoreParameter>, i: nat, j: nat)
    requires i < |ps| && j < |ps|
    ensures multiset(Swap(ps, i, j)) == multiset(ps)
  {
    if i != j {
      var a := ps[i := ps[j]];
      assert multiset(a) == multiset(ps) - multiset{ps[i]} + multiset{ps[j]};
      assert a[j] == ps[j];
      assert multiset(a[j := ps[i]]) == multiset(a) - multiset{ps[j]} + multiset{ps[i]};
    }
  }

  /** `moveParameterUp`: nothing at the top, else a swap with the one above. */
  function MovedUp(ps: seq<ScoreParameter>, i: nat): seq<ScoreParameter>
    requires i < |ps|
  {
    if i == 0 then ps else Swap(ps, i - 1, i)
  }

  /** `moveParameterDown`: nothing at the bottom, else a swap with the one below. */
  function MovedDown(ps: seq<ScoreParameter>, i: nat): seq<ScoreParameter>
    requires i < |ps|
  {
    if i == |ps| - 1 then ps else Swap(ps, i, i + 1)
  }

  /** Moves permute the list, and moving an entry up and then down again
      (or down and up) restores it. */
  lemma MovesPermute(ps: seq<ScoreParameter>, i: nat)
    requires i < |ps|
    ensures multiset(MovedUp(ps, i)) == multiset(ps)
    ensures multiset(MovedDown(ps, i)) == multiset(ps)
    ensures 0 < i ==> MovedDown(MovedUp(ps, i), i - 1) == ps
    ensures i < |ps| - 1 ==> MovedUp(MovedDown(ps, i), i + 1) == ps
    ensures 0 < i ==> MovedUp(ps, i)[i - 1] == ps[i] && MovedUp(ps, i)[i] == ps[i - 1]
  {
    if 0 < i {
      SwapPermutes(ps, i - 1, i);
      assert MovedDown(MovedUp(ps, i), i - 1) == Swap(Swap(ps, i - 1, i), i - 1, i);
    }
    if i < |ps| - 1 {
      SwapPermutes(ps, i, i + 1);
      assert MovedUp(MovedDown(ps, i), i + 1) == Swap(Swap(ps, i, i + 1), i, i + 1);
    }
  }

  /** The editor's state. `pushed` records, oldest first, every list
      handed to the owner. */
  class Editor {
    var localParameters: seq<ScoreParameter>
    var editingId: Option<string>
    var draft: Draft
    var pushed: seq<seq<ScoreParameter>>

    constructor(ps: seq<ScoreParameter>)
      ensures localParameters == ps && editingId == None && draft == BlankDraft && pushed == []
    {
      localParameters := ps;
      editingId := None;
      draft := BlankDraft;
      pushed := [];
    }

    method HandleParameterEdit(id: string, e: FieldEdit)
      modifies this
      ensures localParameters == EditAll(old(localParameters), id, e)
      ensures editingId == old(editingId) && draft == old(draft) && pushed == old(pushed)
    {
      localParameters := EditAll(localParameters, id, e);
    }

    /** The new-parameter form's inputs. */
    method SetDraft(d: Draft)
      modifies this
      ensures draft == d
      ensures localParameters == old(localParameters) && editingId == old(editingId) && pushed == old(pushed)
    {
      draft := d;
    }

    method HandleAddParameter(newId: string) returns (added: bool)
      requires forall i :: 0 <= i < |localParameters| ==> localParameters[i].id != newId
      modifies this
      ensures added <==> Added(old(localParameters), newId, old(draft)).Some?
      ensures added ==> localParameters == Added(old(localParameters), newId, old(draft)).value
                        && pushed == old(pushed) + [localParameters] && draft == BlankDraft
      ensures !added ==> localParameters == old(localParameters) && pushed == old(pushed) && draft == old(draft)
      ensures editingId == old(editingId)
    {
      if Trim(draft.name) == "" {
        return false;
      }
      localParameters := localParameters + [FromDraft(newId, draft)];
      pushed := pushed + [localParameters];
      draft := BlankDraft;
      added := true;
    }

    method HandleDeleteParameter(id: string) returns (deleted: bool)
      modifies this
      ensures deleted <==> |old(localParameters)| > 1
      ensures deleted ==> localParameters == Deleted(old(localParameters), id).value
                          && pushed == old(pushed) + [localParameters]
      ensures !deleted ==> localParameters == old(localParameters) && pushed == old(pushed)
      ensures editingId == old(editingId) && draft == old(draft)
    {
      if |localParameters| <= 1 {
        return false;
      }
      localParameters := Filter(localParameters, (p: ScoreParameter) => p.id != id);
      pushed := pushed + [localParameters];
      deleted := true;
    }

    method MoveParameterUp(index: nat)
      requires index < |localParameters|
      modifies this
      ensures localParameters == MovedUp(old(localParameters), index)
      ensures index == 0 ==> pushed == old(pushed)
      ensures index > 0 ==> pushed == old(pushed) + [localParameters]
      ensures editingId == old(editingId) && draft == old(draft)
    {
      if index == 0 {
        return;
      }
      var moved := localParameters[index - 1 := localParameters[index]][index := localParameters[index - 1]];
      localParameters := moved;
      pushed := pushed + [moved];
    }

    method MoveParameterDown(index: nat)
      requires index < |localParameters|
      modifies this
      ensures localParameters == MovedDown(old(localParameters), index)
      ensures index == |old(localParameters)| - 1 ==> pushed == old(pushed)
      ensures index < |old(localParameters)| - 1 ==> pushed == old(pushed) + [localParameters]
      ensures editingId == old(editingId) && draft == old(draft)
    {
      if index == |localParameters| - 1 {
        return;
      }
      var moved := localParameters[index := localParameters[index + 1]][index + 1 := localParameters[index]];
      localParameters := moved;
      pushed := pushed + [moved];
    }

    /** `toggleEditMode`: closing the open edit pushes the list, any other
      id opens that parameter for editing. */
    method ToggleEditMode(id: string)
      modifies this
      ensures old(editingId) == Some(id) ==> editingId == None && pushed == old(pushed) + [localParameters]
      ensures old(editingId) != Some(id) ==> editingId == Some(id) && pushed == old(pushed)
      ensures localParameters == old(localParameters) && draft == old(draft)
    {
      if editingId == Some(id) {
        editingId := None;
        pushed := pushed + [localParameters];
      } else {
        editingId := Some(id);
      }
    }
  }
}
