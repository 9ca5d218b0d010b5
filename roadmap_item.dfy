/** A roadmap card: the weeks, FTE and role allocations of one use case on
    the roadmap, edited locally and reported to the owner through three
    callbacks, whose calls are recorded in order. */
module RoadmapCard {
  import opened Seqs
  import opened Types
  import opened Text
  import opened RoadmapStats
  import opened RoleAllocations

  /** `estimatedTimeInWeeks || 4`: a missing or zero estimate gives 4 weeks. */
  function InitialWeeks(o: Option<int>): int
  {
    if o.Some? && o.value != 0 then o.value else 4
  }

  /** `estimatedFTE || 1`: a missing or zero estimate gives 1 FTE. */
  function InitialFte(o: Option<real>): real
  {
    if o.Some? && o.value != 0.0 then o.value else 1.0
  }

  /** The starting values are never zero, and a non-zero estimate is kept. */
  lemma InitialValuesSpec(weeks: Option<int>, fte: Option<real>)
    ensures InitialWeeks(weeks) != 0 && InitialFte(fte) != 0.0
    ensures (weeks.None? || weeks.value == 0) <==> InitialWeeks(weeks) == 4 && weeks != Some(4)
    ensures weeks.Some? && weeks.value != 0 ==> InitialWeeks(weeks) == weeks.value
    ensures fte.Some? && fte.value != 0.0 ==> InitialFte(fte) == fte.value
    ensures (fte.None? || fte.value == 0.0) ==> InitialFte(fte) == 1.0
  {
  }

  /** An input box's text as accepted by the weeks and FTE handlers:
      `parseInt` of it when that is a number above zero. */
  function PositiveInput(text: string): (r: Option<int>)
    ensures r.Some? ==> r.value > 0 && ParseInt(text) == r
  {
    match ParseInt(text)
    case Some(n) => if n > 0 then Some(n) else None
    case None => None
  }

  /** A positive number typed in is accepted as itself, whatever non-digit
      text follows it (so "2.5" gives 2); zero is refused. */
  lemma PositiveInputOfShown(n: nat, rest: string)
    requires rest == [] || !(IsDigit(rest[0]) || rest[0] == 'x' || rest[0] == 'X')
    ensures PositiveInput(ShowNat(n) + rest) == (if n > 0 then Some(n) else None)
  {
    ParseIntOfShown(n, rest);
  }

  /** A negative number and blank input are refused. */
  lemma NonPositiveInputRefused(n: nat, rest: string, blank: string)
    requires rest == [] || !(IsDigit(rest[0]) || rest[0] == 'x' || rest[0] == 'X')
    requires IsBlank(blank)
    ensures PositiveInput("-" + ShowNat(n) + rest) == None
    ensures PositiveInput(blank) == None
  {
    var m := ShowNat(n) + rest;
    var s := "-" + m;
    assert "-" + ShowNat(n) + rest == s;
    ShowNatValue(n);
    ParseMagnitudeDecimal(ShowNat(n), rest);
    assert s[0] == '-' && !IsSpace(s[0]);
    assert TrimStart(s) == s;
    assert s[1..] == m;
    var neg: int := 0 - n;
    assert ParseInt(s) == Some(neg);
  }

  /** "2.5" typed into the FTE box is taken as 2. */
  lemma FractionalFteTruncated()
    ensures PositiveInput("2.5") == Some(2)
  {
    assert ShowNat(2) == "2";
    PositiveInputOfShown(2, ".5");
    assert ShowNat(2) + ".5" == "2.5";
  }

  /** A call made to one of the card's callbacks. */
  datatype Call =
    | TimeSent(id: string, weeks: int)
    | FteSent(id: string, fte: real)
    | AllocationsSent(id: string, list: seq<Allocation>)

  class Card {
    var id: string
    var timeInWeeks: int
    var fte: real
    var roleAllocations: seq<Allocation>
    var calls: seq<Call>

    /** The card's state initialised from its use case; `allocations` are
        the use case's own allocation objects, when it has any. */
    constructor(uc: UseCase, allocations: Option<seq<Allocation>>)
      requires allocations.Some? <==> uc.roleAllocations.Some?
      requires allocations.Some? ==> Values(allocations.value) == uc.roleAllocations.value
      ensures id == uc.id
      ensures Values(roleAllocations) == uc.roleAllocations.GetOr([])
      ensures timeInWeeks == InitialWeeks(uc.estimatedTimeInWeeks) && fte == InitialFte(uc.estimatedFTE)
      ensures roleAllocations == allocations.GetOr([]) && calls == []
    {
      id := uc.id;
      timeInWeeks := InitialWeeks(uc.estimatedTimeInWeeks);
      fte := InitialFte(uc.estimatedFTE);
      roleAllocations := allocations.GetOr([]);
      calls := [];
    }

    /** `handleTimeChange`: an accepted value becomes the weeks and is
        reported; anything else changes nothing. */
    method HandleTimeChange(text: string)
      modifies this
      ensures PositiveInput(text).Some? ==>
                timeInWeeks == PositiveInput(text).value && calls == old(calls) + [TimeSent(id, timeInWeeks)]
      ensures PositiveInput(text).None? ==> timeInWeeks == old(timeInWeeks) && calls == old(calls)
      ensures id == old(id) && fte == old(fte) && roleAllocations == old(roleAllocations)
    {
      var v := PositiveInput(text);
      if v.Some? {
        timeInWeeks := v.value;
        calls := calls + [TimeSent(id, v.value)];
      }
    }

    /** `handleFteChange`: as for the weeks, so the FTE is always a whole number. */
    method HandleFteChange(text: string)
      modifies this
      ensures PositiveInput(text).Some? ==>
                fte == PositiveInput(text).value as real && calls == old(calls) + [FteSent(id, fte)]
      ensures PositiveInput(text).None? ==> fte == old(fte) && calls == old(calls)
      ensures id == old(id) && timeInWeeks == old(timeInWeeks) && roleAllocations == old(roleAllocations)
    {
      var v := PositiveInput(text);
      if v.Some? {
        fte := v.value as real;
        calls := calls + [FteSent(id, fte)];
      }
    }

    /** `addRoleAllocation`: a new entry object for the first free default
        role, or nothing when all four are taken. */
    method AddRoleAllocation()
      modifies this
      ensures WithRoleAdded(old(Values(roleAllocations))).Some? ==>
                && |roleAllocations| == |old(roleAllocations)| + 1
                && roleAllocations[..|old(roleAllocations)|] == old(roleAllocations)
                && fresh(roleAllocations[|old(roleAllocations)|])
                && Values(roleAllocations) == WithRoleAdded(old(Values(roleAllocations))).value
                && calls == old(calls) + [AllocationsSent(id, roleAllocations)]
      ensures WithRoleAdded(old(Values(roleAllocations))).None? ==>
                roleAllocations == old(roleAllocations) && calls == old(calls)
      ensures id == old(id) && timeInWeeks == old(timeInWeeks) && fte == old(fte)
    {
      var emitted := HandleAddRole(roleAllocations, true);
      if emitted.Some? {
        roleAllocations := emitted.value;
        calls := calls + [AllocationsSent(id, roleAllocations)];
      }
    }

    /** `removeRoleAllocation`: the entry at the index dropped. */
    method RemoveRoleAllocation(index: int)
      modifies this
      ensures roleAllocations == RemovedAt(old(roleAllocations), index)
      ensures calls == old(calls) + [AllocationsSent(id, roleAllocations)]
      ensures id == old(id) && timeInWeeks == old(timeInWeeks) && fte == old(fte)
    {
      roleAllocations := RemovedAt(roleAllocations, index);
      calls := calls + [AllocationsSent(id, roleAllocations)];
    }

    /** `updateRole`: the role written into the entry object itself, which
        the use case the card came from shares. */
    method UpdateRole(index: nat, role: string)
      requires index < |roleAllocations|
      modifies this, roleAllocations[index]
      ensures roleAllocations == old(roleAllocations)
      ensures forall k :: 0 <= k < |roleAllocations| ==>
                && roleAllocations[k].role == (if roleAllocations[k] == roleAllocations[index] then role else old(roleAllocations[k].role))
                && roleAllocations[k].fte == old(roleAllocations[k].fte)
      ensures Unaliased(roleAllocations) ==>
                Values(roleAllocations) == WithRole(old(Values(roleAllocations)), index, role)
      ensures calls == old(calls) + [AllocationsSent(id, roleAllocations)]
      ensures id == old(id) && timeInWeeks == old(timeInWeeks) && fte == old(fte)
    {
      var list := roleAllocations;
      list[index].role := role;
      roleAllocations := list;
      calls := calls + [AllocationsSent(id, list)];
    }

    /** `updateRoleFte`: as `updateRole`, for the FTE. */
    method UpdateRoleFte(index: nat, value: real)
      requires index < |roleAllocations|
      modifies this, roleAllocations[index]
      ensures roleAllocations == old(roleAllocations)
      ensures forall k :: 0 <= k < |roleAllocations| ==>
                && roleAllocations[k].fte == (if roleAllocations[k] == roleAllocations[index] then value else old(roleAllocations[k].fte))
                && roleAllocations[k].role == old(roleAllocations[k].role)
      ensures Unaliased(roleAllocations) ==>
                Values(roleAllocations) == WithFte(old(Values(roleAllocations)), index, value)
      ensures calls == old(calls) + [AllocationsSent(id, roleAllocations)]
      ensures id == old(id) && timeInWeeks == old(timeInWeeks) && fte == old(fte)
    {
      var list := roleAllocations;
      list[index].fte := value;
      roleAllocations := list;
      calls := calls + [AllocationsSent(id, list)];
    }

    /** `calculateTotalFte`: with no allocations the card's FTE; otherwise
        their sum, which becomes the card's FTE and is reported when it
        differs from it. Afterwards the card's FTE is the result, so a
        second call reports nothing. */
    method CalculateTotalFte() returns (total: real)
      modifies this
      ensures roleAllocations == [] ==> total == old(fte) && calls == old(calls)
      ensures roleAllocations != [] ==> total == SumBy(Values(roleAllocations), AllocationFte)
      ensures roleAllocations != [] && total != old(fte) ==> calls == old(calls) + [FteSent(id, total)]
      ensures roleAllocations != [] && total == old(fte) ==> calls == old(calls)
      ensures fte == total
      ensures id == old(id) && timeInWeeks == old(timeInWeeks) && roleAllocations == old(roleAllocations)
    {
      if |roleAllocations| == 0 {
        return fte;
      }
      total := SumBy(Values(roleAllocations), AllocationFte);
      if total != fte {
        calls := calls + [FteSent(id, total)];
        fte := total;
      }
    }
  }
}
