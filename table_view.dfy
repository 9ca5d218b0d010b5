/** The table view's state: the sort column and direction, the search
    query and the row being edited; inline edits are handed to the owner
    as patches, recorded in order. */
module TableView {
  import opened Seqs
  import opened Types
  import opened UseCases
  import opened TableUtils

  /** Sorting starts on the score, highest first. */
  const InitialSort: SortConfig := SortConfig(Some("score"), Desc)

  /** `requestSort`: descending only when the same key is already ascending. */
  function NextSort(current: SortConfig, key: string): (r: SortConfig)
    ensures r.key == Some(key)
  {
    if current.key == Some(key) && current.direction == Asc then SortConfig(Some(key), Desc)
    else SortConfig(Some(key), Asc)
  }

  /** Asking for a new column sorts it ascending; asking again for the same
      column alternates the direction. */
  lemma NextSortAlternates(current: SortConfig, key: string)
    ensures current.key != Some(key) ==> NextSort(current, key).direction == Asc
    ensures NextSort(current, key).direction == Desc <==> current == SortConfig(Some(key), Asc)
    ensures NextSort(NextSort(current, key), key).direction != NextSort(current, key).direction
  {
  }

  /** `handleScoreChange` on data: nothing for an unknown id, otherwise a
      patch holding the row's scores with the one entry replaced. */
  function ScoreEdit(ucs: seq<UseCase>, id: string, scoreKey: string, value: ScoreLevel): Option<Patch>
  {
    match FindById(ucs, id)
    case None => None
    case Some(uc) => Some(NoChange.(scores := Some(uc.scores[scoreKey := value])))
  }

  /** The edit exists exactly for a known id, and applied to that row it
      changes that one score and nothing else. */
  lemma ScoreEditSpec(ucs: seq<UseCase>, id: string, scoreKey: string, value: ScoreLevel)
    ensures ScoreEdit(ucs, id, scoreKey, value).None? <==> forall i :: 0 <= i < |ucs| ==> ucs[i].id != id
    ensures ScoreEdit(ucs, id, scoreKey, value).Some? ==>
              var uc := FindById(ucs, id).value;
              var r := ApplyPatch(uc, ScoreEdit(ucs, id, scoreKey, value).value);
              && r == uc.(scores := r.scores)
              && r.scores[scoreKey] == value
              && forall k :: k != scoreKey ==> (k in r.scores <==> k in uc.scores) && (k in uc.scores ==> r.scores[k] == uc.scores[k])
  {
  }

  /** `handleStatusChange` on data. */
  function StatusEdit(status: string): Patch
  {
    NoChange.(status := Some(status))
  }

  /** The status edit changes the status and nothing else. */
  lemma StatusEditSpec(uc: UseCase, status: string)
    ensures ApplyPatch(uc, StatusEdit(status)) == uc.(status := status)
  {
  }

  /** A patch handed to the owner for a row. */
  datatype Edit = Edit(id: string, patch: Patch)

  class Table {
    var sortConfig: SortConfig
    var searchQuery: string
    var editingId: Option<string>
    var edits: seq<Edit>

    constructor()
      ensures sortConfig == InitialSort && searchQuery == "" && editingId == None && edits == []
    {
      sortConfig := InitialSort;
      searchQuery := "";
      editingId := None;
      edits := [];
    }

    /** The rows shown: the owner's use cases searched and sorted. */
    function Rows(ucs: seq<UseCase>, locale: Comparator<string>): seq<UseCase>
      reads this
    {
      SortedFilteredData(ucs, searchQuery, sortConfig, locale)
    }

    method SetSearchQuery(query: string)
      modifies this
      ensures searchQuery == query
      ensures sortConfig == old(sortConfig) && editingId == old(editingId) && edits == old(edits)
    {
      searchQuery := query;
    }

    method RequestSort(key: string)
      modifies this
      ensures sortConfig == NextSort(old(sortConfig), key)
      ensures searchQuery == old(searchQuery) && editingId == old(editingId) && edits == old(edits)
    {
      var direction := Asc;
      if sortConfig.key == Some(key) && sortConfig.direction == Asc {
        direction := Desc;
      }
      sortConfig := SortConfig(Some(key), direction);
    }

    method HandleScoreChange(ucs: seq<UseCase>, id: string, scoreKey: string, value: ScoreLevel)
      modifies this
      ensures ScoreEdit(ucs, id, scoreKey, value).None? ==> edits == old(edits)
      ensures ScoreEdit(ucs, id, scoreKey, value).Some? ==>
                edits == old(edits) + [Edit(id, ScoreEdit(ucs, id, scoreKey, value).value)]
      ensures sortConfig == old(sortConfig) && searchQuery == old(searchQuery) && editingId == old(editingId)
    {
      var found := FindById(ucs, id);
      if found.None? {
        return;
      }
      var updated := found.value.scores[scoreKey := value];
      edits := edits + [Edit(id, NoChange.(scores := Some(updated)))];
    }

    method HandleStatusChange(id: string, status: string)
      modifies this
      ensures edits == old(edits) + [Edit(id, StatusEdit(status))]
      ensures sortConfig == old(sortConfig) && searchQuery == old(searchQuery) && editingId == old(editingId)
    {
      edits := edits + [Edit(id, StatusEdit(status))];
    }

    /** `toggleEditMode`: the row being edited is closed, any other opened. */
    method ToggleEditMode(id: string)
      modifies this
      ensures old(editingId) == Some(id) ==> editingId == None
      ensures old(editingId) != Some(id) ==> editingId == Some(id)
      ensures sortConfig == old(sortConfig) && searchQuery == old(searchQuery) && edits == old(edits)
    {
      if editingId == Some(id) {
        editingId := None;
      } else {
        editingId := Some(id);
      }
    }
  }
}
