/** The role-allocation editor: a list of (role, FTE) entries drawn from
    four default roles. Adding and removing build a new list; changing an
    entry's role or FTE writes into the entry object itself, which the new
    list shares with the list it was copied from. */
module RoleAllocations {
  import opened Seqs
  import opened Types

  const DataScientist: string := "Data Scientist"
  const DataEngineer: string := "Data Engineer"
  const DataStrategist: string := "Data Strategist"
  const AnalyticsEngineer: string := "Analytics Engineer"

  /** The roles offered, in the order they are suggested. */
  const DefaultRoles: seq<string> := [DataScientist, DataEngineer, DataStrategist, AnalyticsEngineer]

  predicate HasRole(allocs: seq<RoleAllocation>, role: string)
  {
    exists i :: 0 <= i < |allocs| && allocs[i].role == role
  }

  predicate DistinctRoles(allocs: seq<RoleAllocation>)
  {
    forall i, j :: 0 <= i < j < |allocs| ==> allocs[i].role != allocs[j].role
  }

  /** The roles of `roles` no entry has yet, in their order. */
  function Unused(roles: seq<string>, allocs: seq<RoleAllocation>): seq<string>
  {
    Filter(roles, (role: string) => !HasRole(allocs, role))
  }

  /** Adding from a list of roles: the first role of it no entry has yet,
      at 0.5 FTE, appended; nothing when every one is taken. */
  function AddedFrom(roles: seq<string>, allocs: seq<RoleAllocation>): Option<seq<RoleAllocation>>
  {
    var unused := Unused(roles, allocs);
    if |unused| > 0 then Some(allocs + [RoleAllocation(unused[0], 0.5)]) else None
  }

  /** `handleAddRole` / `addRoleAllocation` on a list: from the default roles. */
  function WithRoleAdded(allocs: seq<RoleAllocation>): Option<seq<RoleAllocation>>
  {
    AddedFrom(DefaultRoles, allocs)
  }

  /** The first element of a filtered list is the first element that passes. */
  lemma {:induction false} FilterHead<T(!new)>(s: seq<T>, p: T -> bool) returns (k: nat)
    requires Filter(s, p) != []
    ensures k < |s| && p(s[k]) && Filter(s, p)[0] == s[k]
    ensures forall j :: 0 <= j < k ==> !p(s[j])
    decreases |s|
  {
    if p(s[0]) {
      k := 0;
    } else {
      assert Filter(s, p) == Filter(s[1..], p);
      var k' := FilterHead(s[1..], p);
      k := k' + 1;
    }
  }

  /** Adding refuses exactly when every role is taken; otherwise it
      appends the earliest untaken role (index `k`) at 0.5 FTE, keeping
      the roles distinct. */
  lemma AddedFromSpec(roles: seq<string>, allocs: seq<RoleAllocation>) returns (k: nat)
    ensures AddedFrom(roles, allocs).None? <==> forall j :: 0 <= j < |roles| ==> HasRole(allocs, roles[j])
    ensures AddedFrom(roles, allocs).Some? ==>
              && k < |roles| && !HasRole(allocs, roles[k])
              && (forall j :: 0 <= j < k ==> HasRole(allocs, roles[j]))
              && AddedFrom(roles, allocs).value == allocs + [RoleAllocation(roles[k], 0.5)]
    ensures AddedFrom(roles, allocs).Some? && DistinctRoles(allocs) ==> DistinctRoles(AddedFrom(roles, allocs).value)
  {
    var unused := (role: string) => !HasRole(allocs, role);
    if Unused(roles, allocs) != [] {
      k := FilterHead(roles, unused);
      if DistinctRoles(allocs) {
        AppendKeepsDistinct(allocs, RoleAllocation(roles[k], 0.5));
      }
    } else {
      k := 0;
      forall j | 0 <= j < |roles|
        ensures HasRole(allocs, roles[j])
      {
        assert roles[j] in roles;
      }
    }
  }

  lemma AppendKeepsDistinct(allocs: seq<RoleAllocation>, a: RoleAllocation)
    requires DistinctRoles(allocs) && !HasRole(allocs, a.role)
    ensures DistinctRoles(allocs + [a])
  {
    var r := allocs + [a];
    forall i, j | 0 <= i < j < |r|
      ensures r[i].role != r[j].role
    {
      assert r[i] == allocs[i];
      if j < |allocs| {
        assert r[j] == allocs[j];
      }
    }
  }

  /** The add button is disabled once the list has as many entries as
      there are default roles. */
  function AddDisabled(allocs: seq<RoleAllocation>): bool
  {
    |allocs| >= |DefaultRoles|
  }

  predicate Distinct<T(==)>(s: seq<T>)
  {
    forall i, j :: 0 <= i < j < |s| ==> s[i] != s[j]
  }

  function Elems<T>(s: seq<T>): set<T>
  {
    set i | 0 <= i < |s| :: s[i]
  }

  lemma {:induction false} DistinctElemsSize<T>(s: seq<T>)
    requires Distinct(s)
    ensures |Elems(s)| == |s|
    decreases |s|
  {
    if s != [] {
      var init := s[..|s| - 1];
      DistinctElemsSize(init);
      assert Elems(s) == Elems(init) + {s[|s| - 1]};
    }
  }

  function RoleSet(allocs: seq<RoleAllocation>): set<string>
  {
    set i | 0 <= i < |allocs| :: allocs[i].role
  }

  lemma {:induction false} DistinctRoleSetSize(allocs: seq<RoleAllocation>)
    requires DistinctRoles(allocs)
    ensures |RoleSet(allocs)| == |allocs|
    decreases |allocs|
  {
    if allocs != [] {
      var init := allocs[..|allocs| - 1];
      var last := allocs[|allocs| - 1];
      DistinctRoleSetSize(init);
      assert RoleSet(allocs) == RoleSet(init) + {last.role};
      assert last.role !in RoleSet(init);
    }
  }

  lemma SubsetSize<T>(a: set<T>, b: set<T>)
    requires a <= b
    ensures |a| <= |b|
    ensures a != b ==> |a| < |b|
  {
    assert b == a + (b - a);
    assert a * (b - a) == {};
    if a != b {
      var x :| x in b - a;
    }
  }

  /** With distinct roles to choose from and distinct roles taken from
      them, adding is refused exactly when the list is as long as the
      role list. */
  lemma AddRefusedIffFull(roles: seq<string>, allocs: seq<RoleAllocation>)
    requires Distinct(roles) && DistinctRoles(allocs)
    requires forall i :: 0 <= i < |allocs| ==> allocs[i].role in roles
    ensures |allocs| >= |roles| <==> AddedFrom(roles, allocs).None?
  {
    var first := AddedFromSpec(roles, allocs);
    var offered := Elems(roles);
    DistinctElemsSize(roles);
    var taken := RoleSet(allocs);
    DistinctRoleSetSize(allocs);
    assert taken <= offered;
    SubsetSize(taken, offered);
    var allTaken := forall j :: 0 <= j < |roles| ==> HasRole(allocs, roles[j]);
    assert allTaken <==> offered <= taken by {
      if allTaken {
        forall x | x in offered
          ensures x in taken
        {
          var k :| 0 <= k < |roles| && roles[k] == x;
          assert HasRole(allocs, roles[k]);
        }
      }
      if offered <= taken {
        forall j | 0 <= j < |roles|
          ensures HasRole(allocs, roles[j])
        {
          assert roles[j] in offered;
        }
      }
    }
  }

  /** On a list of distinct default roles (the only lists the role picker
      lets a user build), the add button is disabled exactly when adding
      would do nothing. */
  lemma AddDisabledSpec(allocs: seq<RoleAllocation>)
    requires DistinctRoles(allocs)
    requires forall i :: 0 <= i < |allocs| ==> allocs[i].role in DefaultRoles
    ensures AddDisabled(allocs) <==> WithRoleAdded(allocs).None?
  {
    assert Distinct(DefaultRoles);
    AddRefusedIffFull(DefaultRoles, allocs);
  }

  /** `filter((_, i) => i !== index)`: the entry at the index dropped, or
      nothing dropped when no entry has that index. */
  function RemovedAt<T>(s: seq<T>, index: int): seq<T>
  {
    if 0 <= index < |s| then RemoveAt(s, index) else s
  }

  lemma RemovedAtSpec<T>(s: seq<T>, index: int)
    ensures 0 <= index < |s| ==> RemovedAt(s, index) == s[..index] + s[index + 1..]
    ensures !(0 <= index < |s|) ==> RemovedAt(s, index) == s
    ensures IsSubsequence(RemovedAt(s, index), s)
  {
    if 0 <= index < |s| {
      var before, after := s[..index], s[index + 1..];
      assert RemovedAt(s, index) == before + after;
      SplitAround(s, index);
      SubsequenceDrop(before, s[index], after);
    } else {
      IsSubsequenceRefl(s);
    }
  }

  lemma {:induction false} IsSubsequenceRefl<T>(s: seq<T>)
    ensures IsSubsequence(s, s)
    decreases |s|
  {
    if s != [] {
      IsSubsequenceRefl(s[1..]);
    }
  }

  lemma {:induction false} SubsequenceDrop<T>(a: seq<T>, x: T, b: seq<T>)
    ensures IsSubsequence(a + b, a + [x] + b)
    decreases |a|
  {
    if a == [] {
      IsSubsequenceRefl(b);
      assert ([x] + b)[1..] == b;
      assert a + b == b;
      assert a + [x] + b == [x] + b;
    } else {
      SubsequenceDrop(a[1..], x, b);
      assert (a + b)[1..] == a[1..] + b;
      assert (a + [x] + b)[1..] == a[1..] + [x] + b;
    }
  }

  /** Removing keeps the roles distinct. */
  lemma RemovedAtKeepsDistinct(allocs: seq<RoleAllocation>, index: int)
    requires DistinctRoles(allocs)
    ensures DistinctRoles(RemovedAt(allocs, index))
  {
  }

  /** Entry i with a new role, its FTE kept. */
  function WithRole(allocs: seq<RoleAllocation>, i: nat, role: string): seq<RoleAllocation>
    requires i < |allocs|
  {
    allocs[i := allocs[i].(role := role)]
  }

  /** Entry i with a new FTE, its role kept. */
  function WithFte(allocs: seq<RoleAllocation>, i: nat, fte: real): seq<RoleAllocation>
    requires i < |allocs|
  {
    allocs[i := allocs[i].(fte := fte)]
  }

  /** The role picker of entry i offers a role unless another entry has it. */
  predicate Selectable(allocs: seq<RoleAllocation>, i: nat, role: string)
  {
    forall k :: 0 <= k < |allocs| && k != i ==> allocs[k].role != role
  }

  /** Changes touch entry i only; a role the picker offers keeps the roles
      distinct; an FTE change leaves every role where it was. */
  lemma EntryChangesSpec(allocs: seq<RoleAllocation>, i: nat, role: string, fte: real)
    requires i < |allocs|
    ensures |WithRole(allocs, i, role)| == |allocs| && |WithFte(allocs, i, fte)| == |allocs|
    ensures forall k :: 0 <= k < |allocs| && k != i ==>
              WithRole(allocs, i, role)[k] == allocs[k] && WithFte(allocs, i, fte)[k] == allocs[k]
    ensures WithRole(allocs, i, role)[i] == RoleAllocation(role, allocs[i].fte)
    ensures WithFte(allocs, i, fte)[i] == RoleAllocation(allocs[i].role, fte)
    ensures DistinctRoles(allocs) && Selectable(allocs, i, role) ==> DistinctRoles(WithRole(allocs, i, role))
    ensures DistinctRoles(allocs) ==> DistinctRoles(WithFte(allocs, i, fte))
    ensures RoleSet(WithFte(allocs, i, fte)) == RoleSet(allocs)
  {
    var r := WithFte(allocs, i, fte);
    assert forall k :: 0 <= k < |allocs| ==> r[k].role == allocs[k].role;
  }

  /** An allocation as the shared, mutable object the editors hold. */
  class Allocation {
    var role: string
    var fte: real

    constructor(a: RoleAllocation)
      ensures role == a.role && fte == a.fte
    {
      role := a.role;
      fte := a.fte;
    }
  }

  /** The entries' current contents. */
  function Values(list: seq<Allocation>): seq<RoleAllocation>
    reads list
  {
    seq(|list|, i reads list requires 0 <= i < |list| => RoleAllocation(list[i].role, list[i].fte))
  }

  /** No entry object appears twice. */
  predicate Unaliased(list: seq<Allocation>)
  {
    forall i, j :: 0 <= i < j < |list| ==> list[i] != list[j]
  }

  lemma ValuesAppend(list: seq<Allocation>, a: Allocation)
    ensures Values(list + [a]) == Values(list) + [RoleAllocation(a.role, a.fte)]
  {
  }

  /** Removing commutes with reading the contents. */
  lemma ValuesRemovedAt(list: seq<Allocation>, index: int)
    ensures Values(RemovedAt(list, index)) == RemovedAt(Values(list), index)
  {
    if 0 <= index < |list| {
      var a := Values(RemoveAt(list, index));
      var b := RemoveAt(Values(list), index);
      assert |a| == |b|;
      forall k | 0 <= k < |a|
        ensures a[k] == b[k]
      {
        if k < index {
          assert a[k] == Values(list)[k];
        } else {
          assert a[k] == Values(list)[k + 1];
        }
      }
    }
  }

  /** An added list is the old one with one entry after it. */
  lemma AddedAppends(allocs: seq<RoleAllocation>)
    ensures WithRoleAdded(allocs).Some? ==>
              |WithRoleAdded(allocs).value| == |allocs| + 1 &&
              WithRoleAdded(allocs).value == allocs + [WithRoleAdded(allocs).value[|allocs|]]
  {
  }

  /** `handleAddRole`: nothing without an owner callback; otherwise the
      list handed to it, when a default role is still free. */
  method HandleAddRole(list: seq<Allocation>, hasCallback: bool) returns (emitted: Option<seq<Allocation>>)
    ensures !hasCallback ==> emitted == None
    ensures hasCallback ==> (emitted.Some? <==> WithRoleAdded(Values(list)).Some?)
    ensures emitted.Some? ==>
              && |emitted.value| == |list| + 1 && emitted.value[..|list|] == list
              && fresh(emitted.value[|list|])
              && Values(emitted.value) == WithRoleAdded(Values(list)).value
  {
    if !hasCallback {
      return None;
    }
    var before := Values(list);
    var added := WithRoleAdded(before);
    if added.Some? {
      AddedAppends(before);
      var a := new Allocation(added.value[|list|]);
      assert Values(list) == before;
      ValuesAppend(list, a);
      emitted := Some(list + [a]);
    } else {
      emitted := None;
    }
  }

  /** `handleRemoveRole`. */
  method HandleRemoveRole(list: seq<Allocation>, index: int, hasCallback: bool) returns (emitted: Option<seq<Allocation>>)
    ensures !hasCallback ==> emitted == None
    ensures hasCallback ==> emitted == Some(RemovedAt(list, index))
  {
    if !hasCallback {
      return None;
    }
    emitted := Some(RemovedAt(list, index));
  }

  /** `handleRoleChange`: the copied list holds the same entry objects, and
      the role is written into entry i itself, so every list sharing that
      object, the one passed in included, sees the change. */
  method HandleRoleChange(list: seq<Allocation>, index: nat, role: string, hasCallback: bool)
    returns (emitted: Option<seq<Allocation>>)
    requires index < |list|
    modifies if hasCallback then {list[index]} else {}
    ensures emitted == (if hasCallback then Some(list) else None)
    ensures hasCallback ==> forall k :: 0 <= k < |list| ==>
              && list[k].role == (if list[k] == list[index] then role else old(list[k].role))
              && list[k].fte == old(list[k].fte)
    ensures hasCallback && Unaliased(list) ==> Values(list) == WithRole(old(Values(list)), index, role)
  {
    if !hasCallback {
      return None;
    }
    var copy := list;
    copy[index].role := role;
    emitted := Some(copy);
  }

  /** `handleFteChange`: as `handleRoleChange`, for the FTE. */
  method HandleFteChange(list: seq<Allocation>, index: nat, fte: real, hasCallback: bool)
    returns (emitted: Option<seq<Allocation>>)
    requires index < |list|
    modifies if hasCallback then {list[index]} else {}
    ensures emitted == (if hasCallback then Some(list) else None)
    ensures hasCallback ==> forall k :: 0 <= k < |list| ==>
              && list[k].fte == (if list[k] == list[index] then fte else old(list[k].fte))
              && list[k].role == old(list[k].role)
    ensures hasCallback && Unaliased(list) ==> Values(list) == WithFte(old(Values(list)), index, fte)
  {
    if !hasCallback {
      return None;
    }
    var copy := list;
    copy[index].fte := fte;
    emitted := Some(copy);
  }
}
