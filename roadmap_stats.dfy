/** The roadmap's per-role FTE summary. */
module RoadmapStats {
  import opened Seqs
  import opened Types

  function AllocationFte(a: RoleAllocation): real
  {
    a.fte
  }

  /** `roleTotals`: the allocations folded front to back into a map from
      role to the FTE summed so far (a role's first allocation starts from 0). */
  function RoleTotals(allocs: seq<RoleAllocation>): (r: map<string, real>)
    ensures forall role :: role in r <==> exists i :: 0 <= i < |allocs| && allocs[i].role == role
    decreases |allocs|
  {
    if allocs == [] then map[]
    else
      var init := allocs[..|allocs| - 1];
      var a := allocs[|allocs| - 1];
      var acc := RoleTotals(init);
      assert forall i :: 0 <= i < |init| ==> allocs[i] == init[i];
      acc[a.role := (if a.role in acc then acc[a.role] else 0.0) + a.fte]
  }

  /** The allocations of one role, in order. */
  function OfRole(allocs: seq<RoleAllocation>, role: string): seq<RoleAllocation>
  {
    Filter(allocs, (a: RoleAllocation) => a.role == role)
  }

  /** Each role's total is the sum over that role's allocations. */
  lemma {:induction false} RoleTotalsPerRole(allocs: seq<RoleAllocation>, role: string)
    requires role in RoleTotals(allocs)
    ensures RoleTotals(allocs)[role] == SumBy(OfRole(allocs, role), AllocationFte)
    decreases |allocs|
  {
    var init := allocs[..|allocs| - 1];
    var a := allocs[|allocs| - 1];
    LastSplit(allocs);
    if role in RoleTotals(init) {
      RoleTotalsPerRole(init, role);
    } else {
      NoAllocationOfRole(init, role);
    }
    OfRoleSnoc(init, a, role);
  }

  lemma NoAllocationOfRole(allocs: seq<RoleAllocation>, role: string)
    requires role !in RoleTotals(allocs)
    ensures SumBy(OfRole(allocs, role), AllocationFte) == 0.0
  {
    assert forall x :: x in allocs ==> x.role != role;
    FilterNone(allocs, (a: RoleAllocation) => a.role == role);
  }

  /** One more allocation adds its FTE to its own role's sum only. */
  lemma OfRoleSnoc(init: seq<RoleAllocation>, a: RoleAllocation, role: string)
    ensures SumBy(OfRole(init + [a], role), AllocationFte) ==
              SumBy(OfRole(init, role), AllocationFte) + (if a.role == role then a.fte else 0.0)
  {
    var isRole := (x: RoleAllocation) => x.role == role;
    FilterConcat(init, [a], isRole);
    assert [a][1..] == [];
    SumByConcat(Filter(init, isRole), Filter([a], isRole), AllocationFte);
    if a.role == role {
      assert [a][..0] == [];
    }
  }

  /** The sum of a map's values over a set of its keys, taken in some order. */
  ghost function SumOver(m: map<string, real>, keys: set<string>): real
    requires keys <= m.Keys
    decreases keys
  {
    if keys == {} then 0.0
    else
      var k :| k in keys;
      m[k] + SumOver(m, keys - {k})
  }

  ghost function MapSum(m: map<string, real>): real
  {
    SumOver(m, m.Keys)
  }

  /** Any key can be taken out first. */
  lemma {:induction false} SumOverRemove(m: map<string, real>, keys: set<string>, k: string)
    requires keys <= m.Keys && k in keys
    ensures SumOver(m, keys) == m[k] + SumOver(m, keys - {k})
    decreases keys
  {
    var j :| j in keys && SumOver(m, keys) == m[j] + SumOver(m, keys - {j});
    if j != k {
      SumOverRemove(m, keys - {j}, k);
      SumOverRemove(m, keys - {k}, j);
      assert keys - {j} - {k} == keys - {k} - {j};
    }
  }

  /** Only the values at the keys summed matter. */
  lemma {:induction false} SumOverAgree(m: map<string, real>, m': map<string, real>, keys: set<string>)
    requires keys <= m.Keys && keys <= m'.Keys
    requires forall k :: k in keys ==> m[k] == m'[k]
    ensures SumOver(m, keys) == SumOver(m', keys)
    decreases keys
  {
    if keys != {} {
      var k :| k in keys && SumOver(m, keys) == m[k] + SumOver(m, keys - {k});
      SumOverRemove(m', keys, k);
      SumOverAgree(m, m', keys - {k});
    }
  }

  /** The role totals add up to the total of all allocations, and there
      are none exactly when there are no allocations. */
  lemma {:induction false} RoleTotalsSum(allocs: seq<RoleAllocation>)
    ensures MapSum(RoleTotals(allocs)) == SumBy(allocs, AllocationFte)
    ensures RoleTotals(allocs) == map[] <==> allocs == []
    decreases |allocs|
  {
    if allocs != [] {
      var init := allocs[..|allocs| - 1];
      var a := allocs[|allocs| - 1];
      var acc := RoleTotals(init);
      var r := RoleTotals(allocs);
      RoleTotalsSum(init);
      assert a.role in r;
      SumOverRemove(r, r.Keys, a.role);
      SumOverAgree(r, acc, r.Keys - {a.role});
      if a.role in acc {
        SumOverRemove(acc, acc.Keys, a.role);
        assert r.Keys - {a.role} == acc.Keys - {a.role};
      } else {
        assert r.Keys - {a.role} == acc.Keys;
      }
    }
  }
}
