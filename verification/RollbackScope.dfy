/** Whether rolling back only the selected definitions would strand items of their dependents. */
module RollbackScope {
  import opened Basics

  type DefinitionId = Name

  /** A dashboard row; `status` holds the durable item counts and is absent when unavailable. */
  datatype Row = Row(id: DefinitionId, required: seq<DefinitionId>, status: Option<seq<int>>)

  predicate HasItems(row: Row) {
    row.status.Some? && exists i :: 0 <= i < |row.status.value| && row.status.value[i] > 0
  }

  // ---------- Transitive dependents ----------

  /** Each row of the chain requires the one before it, and the first requires a selected definition. */
  ghost predicate DependencyChain(rows: seq<Row>, selected: seq<DefinitionId>, chain: seq<Row>) {
    && chain != []
    && (forall i :: 0 <= i < |chain| ==> chain[i] in rows)
    && (exists id :: id in selected && id in chain[0].required)
    && (forall i :: 0 < i < |chain| ==> chain[i - 1].id in chain[i].required)
  }

  ghost predicate Depends(rows: seq<Row>, selected: seq<DefinitionId>, row: Row) {
    exists chain :: DependencyChain(rows, selected, chain) && chain[|chain| - 1] == row
  }

  ghost predicate Omitted(rows: seq<Row>, selected: seq<DefinitionId>, row: Row) {
    Depends(rows, selected, row) && row.id !in selected
  }

  lemma DirectlyDepends(rows: seq<Row>, selected: seq<DefinitionId>, id: DefinitionId, row: Row)
    requires id in selected && row in rows && id in row.required
    ensures Depends(rows, selected, row)
  {
    assert DependencyChain(rows, selected, [row]);
  }

  lemma DependsFurther(rows: seq<Row>, selected: seq<DefinitionId>, before: Row, row: Row)
    requires Depends(rows, selected, before) && row in rows && before.id in row.required
    ensures Depends(rows, selected, row)
  {
    var chain :| DependencyChain(rows, selected, chain) && chain[|chain| - 1] == before;
    assert DependencyChain(rows, selected, chain + [row]);
  }

  // ---------- The worklist ----------

  function RowsOf(dependents: map<DefinitionId, seq<Row>>, id: DefinitionId): seq<Row> {
    if id in dependents then dependents[id] else []
  }

  ghost predicate IndexesDependents(dependents: map<DefinitionId, seq<Row>>, rows: seq<Row>) {
    forall id, row :: row in RowsOf(dependents, id) <==> row in rows && id in row.required
  }

  method AddDependent(dependents: map<DefinitionId, seq<Row>>, row: Row, ghost before: seq<Row>)
    returns (added: map<DefinitionId, seq<Row>>)
    requires IndexesDependents(dependents, before)
    ensures IndexesDependents(added, before + [row])
  {
    added := dependents;
    for i := 0 to |row.required|
      invariant forall id, r :: r in RowsOf(added, id) <==>
        (r in before && id in r.required) || (r == row && id in row.required[..i])
    {
      var dependency := row.required[i];
      assert row.required[..i + 1] == row.required[..i] + [dependency];
      ghost var addedBefore := added;
      added := added[dependency := RowsOf(added, dependency) + [row]];
      forall id, r ensures r in RowsOf(added, id) <==> r in RowsOf(addedBefore, id) || (r == row && id == dependency) {
      }
    }
    assert row.required[..|row.required|] == row.required;
  }

  method DependentsOf(rows: seq<Row>) returns (dependents: map<DefinitionId, seq<Row>>)
    ensures IndexesDependents(dependents, rows)
  {
    dependents := map[];
    for i := 0 to |rows|
      invariant IndexesDependents(dependents, rows[..i])
    {
      dependents := AddDependent(dependents, rows[i], rows[..i]);
      assert rows[..i + 1] == rows[..i] + [rows[i]];
    }
    assert rows[..|rows|] == rows;
  }

  /** Every waiting definition is selected or depends on one that is. */
  ghost predicate AllReached(rows: seq<Row>, selected: seq<DefinitionId>, pending: seq<DefinitionId>) {
    forall id :: id in pending ==> Reached(rows, selected, id)
  }

  ghost predicate Reached(rows: seq<Row>, selected: seq<DefinitionId>, id: DefinitionId) {
    id in selected || exists row :: Depends(rows, selected, row) && row.id == id
  }

  /** The row is taken care of: it waits its turn and, unless selected, its status was counted in. */
  ghost predicate Checked(selected: seq<DefinitionId>, pending: seq<DefinitionId>, hasItems: bool, row: Row) {
    row.id in pending && (row.id !in selected ==> row.status.Some? && (HasItems(row) ==> hasItems))
  }

  /** All dependents of the visited definitions are taken care of. */
  ghost predicate Closed(
    rows: seq<Row>, selected: seq<DefinitionId>, visited: set<DefinitionId>, pending: seq<DefinitionId>, hasItems: bool)
  {
    forall id, row :: id in visited && row in rows && id in row.required ==> Checked(selected, pending, hasItems, row)
  }

  /** When no waiting definition is left unvisited, every transitive dependent has been checked. */
  lemma {:induction false} ChainIsChecked(
    rows: seq<Row>, selected: seq<DefinitionId>, visited: set<DefinitionId>, pending: seq<DefinitionId>,
    hasItems: bool, chain: seq<Row>)
    requires DependencyChain(rows, selected, chain) && Closed(rows, selected, visited, pending, hasItems)
    requires (forall id :: id in selected ==> id in pending) && forall id :: id in pending ==> id in visited
    ensures Checked(selected, pending, hasItems, chain[|chain| - 1])
  {
    var n := |chain| - 1;
    if n == 0 {
      var id :| id in selected && id in chain[0].required;
      assert id in visited;
    } else {
      assert DependencyChain(rows, selected, chain[..n]);
      ChainIsChecked(rows, selected, visited, pending, hasItems, chain[..n]);
      assert chain[n - 1].id in visited;
    }
  }

  /** Some omitted dependent has stored items. */
  ghost predicate SomeOmittedHasItems(rows: seq<Row>, selected: seq<DefinitionId>) {
    exists row :: Omitted(rows, selected, row) && row.status.Some? && exists count :: count in row.status.value && count > 0
  }

  ghost predicate SomeOmittedIsUnknown(rows: seq<Row>, selected: seq<DefinitionId>) {
    exists row :: Omitted(rows, selected, row) && row.status.None?
  }

  lemma AllChecked(rows: seq<Row>, selected: seq<DefinitionId>, visited: set<DefinitionId>,
                   pending: seq<DefinitionId>, hasItems: bool)
    requires Closed(rows, selected, visited, pending, hasItems)
    requires (forall id :: id in selected ==> id in pending) && forall id :: id in pending ==> id in visited
    ensures !SomeOmittedIsUnknown(rows, selected)
    ensures SomeOmittedHasItems(rows, selected) ==> hasItems
  {
    forall row | Omitted(rows, selected, row) ensures row.status.Some? && (HasItems(row) ==> hasItems) {
      var chain :| DependencyChain(rows, selected, chain) && chain[|chain| - 1] == row;
      ChainIsChecked(rows, selected, visited, pending, hasItems, chain);
    }
  }

  /** Visit the dependents of one definition. */
  method VisitDependents(rows: seq<Row>, selectedIds: seq<DefinitionId>, id: DefinitionId, found: seq<Row>,
                         pending: seq<DefinitionId>, hasItems: bool)
    returns (r: Result<(seq<DefinitionId>, bool), DefinitionId>)
    requires forall row :: row in found <==> row in rows && id in row.required
    requires AllReached(rows, selectedIds, pending) && Reached(rows, selectedIds, id)
    requires hasItems ==> SomeOmittedHasItems(rows, selectedIds)
    ensures r.Err? ==> SomeOmittedIsUnknown(rows, selectedIds)
    ensures r.Ok? ==>
      && pending <= r.value.0 && AllReached(rows, selectedIds, r.value.0)
      && (hasItems ==> r.value.1) && (r.value.1 ==> SomeOmittedHasItems(rows, selectedIds))
      && (forall row :: row in found ==> Checked(selectedIds, r.value.0, r.value.1, row))
      && (forall k :: k in r.value.0 ==> k in pending || exists row :: row in rows && row.id == k)
  {
    hide AllReached, Reached, Depends, SomeOmittedHasItems, HasItems;
    var waiting, items := pending, hasItems;
    for i := 0 to |found|
      invariant pending <= waiting && AllReached(rows, selectedIds, waiting)
      invariant (hasItems ==> items) && (items ==> SomeOmittedHasItems(rows, selectedIds))
      invariant forall j :: 0 <= j < i ==> Checked(selectedIds, waiting, items, found[j])
      invariant forall k :: k in waiting ==> k in pending || exists row :: row in rows && row.id == k
    {
      var row := found[i];
      DependentIsReached(rows, selectedIds, id, row);
      ReachesOneMore(rows, selectedIds, waiting, row.id);
      ghost var before := waiting;
      waiting := waiting + [row.id];
      StaysChecked(selectedIds, before, waiting, items, found[..i]);
      if row.id !in selectedIds {
        if row.status.None? {
          assert Omitted(rows, selectedIds, row);
          return Err(row.id);
        }
        if HasItems(row) {
          OmittedHasItems(rows, selectedIds, row);
          items := true;
        }
      }
    }
    r := Ok((waiting, items));
  }

  lemma ReachesOneMore(rows: seq<Row>, selected: seq<DefinitionId>, pending: seq<DefinitionId>, id: DefinitionId)
    requires AllReached(rows, selected, pending) && Reached(rows, selected, id)
    ensures AllReached(rows, selected, pending + [id])
  {
    hide Reached;
  }

  lemma StaysChecked(
    selected: seq<DefinitionId>, pending: seq<DefinitionId>, more: seq<DefinitionId>, hasItems: bool, rows: seq<Row>)
    requires pending <= more && forall j :: 0 <= j < |rows| ==> Checked(selected, pending, hasItems, rows[j])
    ensures forall j :: 0 <= j < |rows| ==> Checked(selected, more, hasItems, rows[j])
    ensures forall j :: 0 <= j < |rows| ==> Checked(selected, more, true, rows[j])
  {
    hide HasItems;
    assert forall k :: k in pending ==> k in more;
  }

  lemma OmittedHasItems(rows: seq<Row>, selected: seq<DefinitionId>, row: Row)
    requires Depends(rows, selected, row) && row.id !in selected && HasItems(row)
    ensures SomeOmittedHasItems(rows, selected)
  {
    hide Depends;
    assert Omitted(rows, selected, row);
    var i :| 0 <= i < |row.status.value| && row.status.value[i] > 0;
    assert row.status.value[i] in row.status.value;
  }

  lemma DependentIsReached(rows: seq<Row>, selected: seq<DefinitionId>, id: DefinitionId, row: Row)
    requires Reached(rows, selected, id) && row in rows && id in row.required
    ensures Depends(rows, selected, row) && Reached(rows, selected, row.id)
  {
    if id in selected {
      DirectlyDepends(rows, selected, id, row);
    } else {
      var before :| Depends(rows, selected, before) && before.id == id;
      DependsFurther(rows, selected, before, row);
    }
  }

  /** The worklist before visiting `pending[i]`. */
  ghost predicate Worklist(rows: seq<Row>, selected: seq<DefinitionId>, universe: set<DefinitionId>,
                           visited: set<DefinitionId>, pending: seq<DefinitionId>, i: nat, hasItems: bool)
  {
    && i <= |pending| && selected <= pending
    && AllReached(rows, selected, pending) && (forall id :: id in pending ==> id in universe)
    && (forall id :: id in pending[..i] ==> id in visited) && visited <= universe
    && Closed(rows, selected, visited, pending, hasItems)
    && (hasItems ==> SomeOmittedHasItems(rows, selected))
  }

  lemma VisitOnce(rows: seq<Row>, selected: seq<DefinitionId>, universe: set<DefinitionId>, visited: set<DefinitionId>,
                  pending: seq<DefinitionId>, i: nat, hasItems: bool)
    requires Worklist(rows, selected, universe, visited, pending, i, hasItems) && i < |pending| && pending[i] in visited
    ensures Worklist(rows, selected, universe, visited, pending, i + 1, hasItems)
  {
    hide Closed, AllReached;
    assert pending[..i + 1] == pending[..i] + [pending[i]];
  }

  lemma ClosedAfter(rows: seq<Row>, selected: seq<DefinitionId>, visited: set<DefinitionId>,
                    pending: seq<DefinitionId>, hasItems: bool, id: DefinitionId,
                    pending': seq<DefinitionId>, hasItems': bool)
    requires Closed(rows, selected, visited, pending, hasItems)
    requires pending <= pending' && (hasItems ==> hasItems')
    requires forall row :: row in rows && id in row.required ==> Checked(selected, pending', hasItems', row)
    ensures Closed(rows, selected, visited + {id}, pending', hasItems')
  {
    forall k, row | k in visited && row in rows && k in row.required ensures Checked(selected, pending', hasItems', row) {
      assert Checked(selected, pending, hasItems, row);
    }
  }

  lemma Visited(rows: seq<Row>, selected: seq<DefinitionId>, universe: set<DefinitionId>, visited: set<DefinitionId>,
                pending: seq<DefinitionId>, i: nat, hasItems: bool, pending': seq<DefinitionId>, hasItems': bool)
    requires Worklist(rows, selected, universe, visited, pending, i, hasItems) && i < |pending|
    requires pending <= pending' && AllReached(rows, selected, pending')
    requires (hasItems ==> hasItems') && (hasItems' ==> SomeOmittedHasItems(rows, selected))
    requires forall row :: row in rows && pending[i] in row.required ==> Checked(selected, pending', hasItems', row)
    requires forall k :: k in pending' ==> k in universe
    ensures Worklist(rows, selected, universe, visited + {pending[i]}, pending', i + 1, hasItems')
  {
    ClosedAfter(rows, selected, visited, pending, hasItems, pending[i], pending', hasItems');
    hide Closed, AllReached, Checked, SomeOmittedHasItems;
    assert pending'[..i + 1] == pending[..i] + [pending[i]];
  }

  ghost function Universe(rows: seq<Row>, selected: seq<DefinitionId>): set<DefinitionId> {
    (set id | id in selected) + (set row | row in rows :: row.id)
  }

  lemma Begin(rows: seq<Row>, selected: seq<DefinitionId>)
    ensures Worklist(rows, selected, Universe(rows, selected), {}, selected, 0, false)
  {
  }

  lemma Fewer(universe: set<DefinitionId>, visited: set<DefinitionId>, id: DefinitionId)
    requires id in universe && id !in visited
    ensures |universe - (visited + {id})| < |universe - visited|
  {
    assert universe - (visited + {id}) == (universe - visited) - {id};
  }

  lemma Finished(rows: seq<Row>, selected: seq<DefinitionId>, universe: set<DefinitionId>, visited: set<DefinitionId>,
                 pending: seq<DefinitionId>, hasItems: bool)
    requires Worklist(rows, selected, universe, visited, pending, |pending|, hasItems)
    ensures !SomeOmittedIsUnknown(rows, selected) && (hasItems <==> SomeOmittedHasItems(rows, selected))
  {
    assert pending[..|pending|] == pending;
    AllChecked(rows, selected, visited, pending, hasItems);
  }

  /**
   * Also for cyclic requirements: fails exactly when the status of some omitted dependent is
   * unknown, and otherwise answers whether some omitted dependent has stored items.
   */
  method HasOmittedDependentItems(rows: seq<Row>, selectedIds: seq<DefinitionId>)
    returns (r: Result<bool, DefinitionId>)
    ensures r.Err? <==> SomeOmittedIsUnknown(rows, selectedIds)
    ensures r.Ok? ==> (r.value <==> SomeOmittedHasItems(rows, selectedIds))
  {
    var dependents := DependentsOf(rows);
    var visited: set<DefinitionId> := {};
    var pending, hasItems, i := selectedIds, false, 0;
    ghost var universe := Universe(rows, selectedIds);
    Begin(rows, selectedIds);
    hide Closed, AllReached, Checked, SomeOmittedHasItems, SomeOmittedIsUnknown, Reached;
    while i < |pending|
      invariant Worklist(rows, selectedIds, universe, visited, pending, i, hasItems)
      decreases |universe - visited|, |pending| - i
    {
      var id := pending[i];
      if id in visited {
        VisitOnce(rows, selectedIds, universe, visited, pending, i, hasItems);
      } else {
        assert Reached(rows, selectedIds, id) by { WaitingIsReached(rows, selectedIds, pending, i); }
        var found := VisitDependents(rows, selectedIds, id, RowsOf(dependents, id), pending, hasItems);
        if found.Err? {
          return Err(found.error);
        }
        Visited(rows, selectedIds, universe, visited, pending, i, hasItems, found.value.0, found.value.1);
        Fewer(universe, visited, id);
        visited := visited + {id};
        pending, hasItems := found.value.0, found.value.1;
      }
      i := i + 1;
    }
    Finished(rows, selectedIds, universe, visited, pending, hasItems);
    r := Ok(hasItems);
  }

  lemma WaitingIsReached(rows: seq<Row>, selected: seq<DefinitionId>, pending: seq<DefinitionId>, i: nat)
    requires AllReached(rows, selected, pending) && i < |pending|
    ensures Reached(rows, selected, pending[i])
  {
  }

  // ---------- The two scopes ----------

  datatype Scope = IncludeDependencies | SelectedOnly

  datatype PrepareRequest = PrepareRequest(force: bool, withDependencies: bool)

  /**
   * The requests made to prepare a rollback; the last one gives the operation. Only a selected-only
   * rollback that would strand stored items of dependents is prepared again with force.
   */
  method PrepareRollbackScope(scope: Scope, rows: seq<Row>, executionIds: seq<DefinitionId>)
    returns (r: Result<seq<PrepareRequest>, DefinitionId>)
    ensures r.Err? <==> scope.SelectedOnly? && SomeOmittedIsUnknown(rows, executionIds)
    ensures r.Ok? ==>
      r.value == [PrepareRequest(false, scope.IncludeDependencies?)] +
      if scope.SelectedOnly? && SomeOmittedHasItems(rows, executionIds) then [PrepareRequest(true, false)] else []
  {
    var requests := [PrepareRequest(false, scope.IncludeDependencies?)];
    if scope.IncludeDependencies? {
      return Ok(requests);
    }
    var omitted := HasOmittedDependentItems(rows, executionIds);
    if omitted.Err? {
      return Err(omitted.error);
    }
    if omitted.value {
      requests := requests + [PrepareRequest(true, false)];
    }
    r := Ok(requests);
  }
}
