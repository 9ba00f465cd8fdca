/**
 * CommonDao's write operations as the source runs them: loops that build
 * the per-table batches, dispatch compare-and-swaps or batch mutations,
 * collect the replies and release the locks. Each method is proved against
 * its function in WriteSpec.
 */
module WriteEngine {
  import opened Wrappers
  import opened Grouping
  import opened WriteSpec

  /**
   * The HBase tables, the lock attainer and the merge service as the DAO
   * sees them. An operation on a table in `down` throws and changes nothing.
   */
  class Store {
    var cells: map<RowKey, Option<Long>>
    var down: set<string>
    var unlocked: seq<Entity>
    var merged: seq<Batch<PutRow>>

    constructor (cells: map<RowKey, Option<Long>>, down: set<string>)
      ensures State() == World(cells, down, [], [])
    {
      this.cells := cells;
      this.down := down;
      unlocked := [];
      merged := [];
    }

    function State(): World
      reads this
    {
      World(cells, down, unlocked, merged)
    }

    /** HTable.exists: None when the call throws. */
    method Exists(k: RowKey) returns (r: Option<bool>)
      ensures k.table in down <==> r.None?
      ensures r.Some? ==> r.value == (k in cells)
    {
      if k.table in down {
        return None;
      }
      r := Some(k in cells);
    }

    /** HTable.checkAndPut on the version column: None when the call throws. */
    method CheckAndPut(k: RowKey, expected: Option<Long>, version: Option<Long>) returns (r: Option<bool>)
      modifies this
      ensures k.table in old(down) <==> r.None?
      ensures r.Some? ==> r.value == (Current(old(State()), k) == expected)
      ensures cells == if r == Some(true) then old(cells)[k := version] else old(cells)
      ensures down == old(down) && unlocked == old(unlocked) && merged == old(merged)
    {
      if k.table in down {
        return None;
      }
      var current := if k in cells then cells[k] else None;
      if current == expected {
        cells := cells[k := version];
        return Some(true);
      }
      r := Some(false);
    }

    /** HTable.checkAndDelete on the version column: None when the call throws. */
    method CheckAndDelete(k: RowKey, expected: Option<Long>) returns (r: Option<bool>)
      modifies this
      ensures k.table in old(down) <==> r.None?
      ensures r.Some? ==> r.value == (Current(old(State()), k) == expected)
      ensures cells == if r == Some(true) then old(cells) - {k} else old(cells)
      ensures down == old(down) && unlocked == old(unlocked) && merged == old(merged)
    {
      if k.table in down {
        return None;
      }
      var current := if k in cells then cells[k] else None;
      if current == expected {
        cells := cells - {k};
        return Some(true);
      }
      r := Some(false);
    }

    /** HTable.put(list): false when the call throws. */
    method PutAll(table: string, puts: seq<PutRow>) returns (ok: bool)
      modifies this
      ensures ok <==> table !in old(down)
      ensures State() == if ok then BatchPut(old(State()), table, puts) else old(State())
    {
      if table in down {
        return false;
      }
      var i := 0;
      while i < |puts|
        invariant 0 <= i <= |puts|
        invariant State() == BatchPut(old(State()), table, puts[..i])
      {
        assert puts[..i + 1][..i] == puts[..i];
        var k := RowKey(table, puts[i].row);
        cells := cells[k := if puts[i].version.Some? then puts[i].version else Current(State(), k)];
        i := i + 1;
      }
      assert puts[..i] == puts;
      ok := true;
    }

    /** HTable.delete(list): false when the call throws. */
    method DeleteAll(table: string, dels: seq<DeleteRow>) returns (ok: bool)
      modifies this
      ensures ok <==> table !in old(down)
      ensures State() == if ok then BatchDelete(old(State()), table, dels) else old(State())
    {
      if table in down {
        return false;
      }
      var i := 0;
      while i < |dels|
        invariant 0 <= i <= |dels|
        invariant State() == BatchDelete(old(State()), table, dels[..i])
      {
        assert dels[..i + 1][..i] == dels[..i];
        cells := cells - {RowKey(table, dels[i].row)};
        i := i + 1;
      }
      assert dels[..i] == dels;
      ok := true;
    }

    /** MergeService.merge on a table's batch: false when the call throws. */
    method Merge(b: Batch<PutRow>) returns (ok: bool)
      modifies this
      ensures ok <==> b.table !in old(down)
      ensures State() == if ok then old(State()).(merged := old(merged) + [b]) else old(State())
    {
      if b.table in down {
        return false;
      }
      merged := merged + [b];
      ok := true;
    }

    /** LockAttainer.unlockAndEvictFromCache. */
    method UnlockAndEvict(e: Entity)
      modifies this
      ensures State() == old(State()).(unlocked := old(unlocked) + [e])
    {
      unlocked := unlocked + [e];
    }
  }

  // ---------------------------------------------------------------- existence

  /** The probes verifyAllEntitiesExists makes: one per entity whose row id can be derived. */
  function Probes(cfg: DaoConfig, w: World, states: seq<Entity>): (ps: seq<Probe>)
    ensures forall j :: 0 <= j < |ps| ==> !ps[j].Unprobed?
  {
    if states == [] then []
    else
      var p := ProbeOf(cfg, w, states[|states| - 1]);
      Probes(cfg, w, states[..|states| - 1]) + (if p.Unprobed? then [] else [p])
  }

  /** Skipping the entities whose row id cannot be derived loses no violation. */
  lemma {:induction false} ProbesKeepViolations(cfg: DaoConfig, w: World, expected: bool, states: seq<Entity>)
    ensures (exists i :: 0 <= i < |states| && Violates(expected, ProbeOf(cfg, w, states[i]))) <==>
            (exists j :: 0 <= j < |Probes(cfg, w, states)| && Violates(expected, Probes(cfg, w, states)[j]))
  {
    if states != [] {
      var n := |states| - 1;
      var init := states[..n];
      ProbesKeepViolations(cfg, w, expected, init);
      var ps := Probes(cfg, w, init);
      var all := Probes(cfg, w, states);
      var p := ProbeOf(cfg, w, states[n]);
      assert forall i :: 0 <= i < n ==> init[i] == states[i];
      assert forall j :: 0 <= j < |ps| ==> all[j] == ps[j];
      if p.Unprobed? {
        assert all == ps;
      } else {
        assert all == ps + [p];
        assert all[|ps|] == p;
      }
    }
  }

  /**
   * verifyAllEntitiesExists: probes the main table for each entity whose row
   * id can be derived, then checks the answers in order; a probe that threw
   * counts as "exists".
   */
  method VerifyAllEntitiesExists(cfg: DaoConfig, store: Store, expected: bool, states: seq<Entity>) returns (o: Outcome)
    ensures o == Verify(cfg, store.State(), expected, states)
  {
    var gets: seq<Probe> := [];
    var i := 0;
    while i < |states|
      invariant 0 <= i <= |states|
      invariant gets == Probes(cfg, store.State(), states[..i])
    {
      assert states[..i + 1][..i] == states[..i];
      var id := states[i].id;
      if id in cfg.rowIdOf {
        var answer := store.Exists(RowKey(cfg.mainTable, cfg.rowIdOf[id]));
        gets := gets + [if answer.None? then ProbeFailed else Answered(answer.value)];
      }
      i := i + 1;
    }
    assert states[..i] == states;
    ProbesKeepViolations(cfg, store.State(), expected, states);
    var j := 0;
    while j < |gets|
      invariant 0 <= j <= |gets|
      invariant forall k :: 0 <= k < j ==> !Violates(expected, gets[k])
    {
      var exists_ := true;
      if gets[j].Answered? {
        exists_ := gets[j].present;
      }
      if !expected && exists_ {
        return Failure(IllegalArgument(ALREADY_SAVED));
      }
      if expected && !exists_ {
        return Failure(IllegalArgument(NOT_SAVED));
      }
      j := j + 1;
    }
    o := Success;
  }

  // ------------------------------------------------------------ error replies

  /** throwIfErrors: collects the non-blank messages and fails when there is one. */
  method ThrowIfErrors(replies: seq<Reply>) returns (o: Outcome)
    ensures o == ErrorsOutcome(replies)
  {
    var errors: seq<string> := [];
    var i := 0;
    while i < |replies|
      invariant 0 <= i <= |replies|
      invariant errors == Messages(replies[..i])
    {
      assert replies[..i + 1][..i] == replies[..i];
      var str: Option<string>;
      match replies[i] {
        case FutureFailed => str := Some(FUTURE_FAILED);
        case Replied(m) => str := m;
      }
      if str.Some? && !Text.IsBlank(str.value) {
        errors := errors + [str.value];
      }
      i := i + 1;
    }
    assert replies[..i] == replies;
    if errors != [] {
      return Failure(IllegalState(Text.ArrayText(errors)));
    }
    o := Success;
  }

  // ---------------------------------------------------------------------- put

  /** The callback's reply for a compare-and-swap that answered `applied` on `row`. */
  function CasReply(cfg: DaoConfig, table: string, row: string, applied: Option<bool>): Reply {
    if applied.None? then FutureFailed
    else if applied.value then Replied(None)
    else if row in cfg.idOfRow then Replied(Some(OptimisticFailure(cfg.idOfRow[row], table)))
    else FutureFailed
  }

  /** The merge call both put paths make first. */
  method MergeFirst(cfg: DaoConfig, store: Store, b: Batch<PutRow>, merge: bool) returns (ok: bool)
    modifies store
    ensures MergeStep(cfg, old(store.State()), b, merge).Err? ==> !ok && store.State() == old(store.State())
    ensures MergeStep(cfg, old(store.State()), b, merge).Ok? ==> ok && store.State() == MergeStep(cfg, old(store.State()), b, merge).value
  {
    ok := true;
    if MergeActive(cfg, merge) {
      ok := store.Merge(b);
    }
  }

  /**
   * putOptimistically: merge, then stamp each Put with the next version and
   * compare-and-swap it against the version it carried.
   */
  method PutOptimistically(cfg: DaoConfig, store: Store, b: Batch<PutRow>, merge: bool) returns (o: Outcome)
    modifies store
    ensures (o, store.State()) == WriteSpec.PutOptimistically(cfg, old(store.State()), b, merge)
  {
    var merged := MergeFirst(cfg, store, b, merge);
    if !merged {
      return Failure(StoreFailure(b.table));
    }
    ghost var w1 := store.State();
    var pFutures: seq<Reply> := [];
    var i := 0;
    while i < |b.items|
      invariant 0 <= i <= |b.items|
      invariant (pFutures, store.State()) == CasPuts(cfg, w1, b.table, b.items[..i])
    {
      assert b.items[..i + 1][..i] == b.items[..i];
      var put := b.items[i];
      var nextVersion := NextVersion(put.version);
      var puted := store.CheckAndPut(RowKey(b.table, put.row), put.version, Some(nextVersion));
      pFutures := pFutures + [CasReply(cfg, b.table, put.row, puted)];
      i := i + 1;
    }
    assert b.items[..i] == b.items;
    o := ThrowIfErrors(pFutures);
  }

  /** The finally block: every entity handed to the lock attainer, in order. */
  method UnlockAll(store: Store, states: seq<Entity>)
    modifies store
    ensures store.State() == old(store.State()).(unlocked := old(store.unlocked) + states)
  {
    var i := 0;
    while i < |states|
      invariant 0 <= i <= |states|
      invariant store.State() == old(store.State()).(unlocked := old(store.unlocked) + states[..i])
    {
      assert states[..i + 1] == states[..i] + [states[i]];
      store.UnlockAndEvict(states[i]);
      i := i + 1;
    }
    assert states[..i] == states;
  }

  /** putNonOptimistically: merge and batch put, then unlock every entity whatever happened. */
  method PutNonOptimistically(cfg: DaoConfig, store: Store, b: Batch<PutRow>, states: seq<Entity>, merge: bool)
    returns (o: Outcome)
    modifies store
    ensures (o, store.State()) == WriteSpec.PutNonOptimistically(cfg, old(store.State()), b, states, merge)
  {
    o := Success;
    var merged := MergeFirst(cfg, store, b, merge);
    if !merged {
      o := Failure(StoreFailure(b.table));
    } else {
      var ok := store.PutAll(b.table, b.items);
      if !ok {
        o := Failure(StoreFailure(b.table));
      }
    }
    UnlockAll(store, states);
  }

  /**
   * The converter loop shared by put and deleteNonOptimistically: checks
   * validity entity by entity and groups the converted mutations per table.
   */
  method GroupPuts(cfg: DaoConfig, states: seq<Entity>) returns (valid: bool, order: seq<string>, groups: map<string, seq<PutRow>>)
    ensures valid <==> AllValid(states)
    ensures valid ==> Grouped(order, groups, PutEntries(cfg, states))
  {
    order := [];
    groups := map[];
    ghost var entries: seq<Entry<PutRow>> := [];
    var i := 0;
    while i < |states|
      invariant 0 <= i <= |states|
      invariant AllValid(states[..i])
      invariant entries == PutEntries(cfg, states[..i])
      invariant Grouped(order, groups, entries)
    {
      assert states[..i + 1][..i] == states[..i];
      if !states[i].valid {
        return false, order, groups;
      }
      var puts := cfg.toRows(states[i], EffectiveLock(cfg) == Pessimistic);
      order, groups := InsertAll(order, groups, entries, puts);
      entries := entries + puts;
      i := i + 1;
    }
    assert states[..i] == states;
    valid := true;
  }

  /** put(states, merge): validity and grouping, then one batch per table in table order. */
  method Put(cfg: DaoConfig, store: Store, states: seq<Entity>, merge: bool) returns (o: Outcome)
    modifies store
    ensures (o, store.State()) == WriteSpec.Put(cfg, old(store.State()), states, merge)
  {
    var valid, order, groups := GroupPuts(cfg, states);
    if !valid {
      return Failure(IllegalState(INVALID_STATE));
    }
    GroupedIsGroup(order, groups, PutEntries(cfg, states));
    o := PutBatches(cfg, store, order, groups, Group(PutEntries(cfg, states)), states, merge);
  }

  /** The second loop of put: each table's batch in key order, stopping at the first failure. */
  method PutBatches(cfg: DaoConfig, store: Store, order: seq<string>, groups: map<string, seq<PutRow>>,
                    ghost all: seq<Batch<PutRow>>, states: seq<Entity>, merge: bool) returns (o: Outcome)
    requires |order| == |all|
    requires forall i :: 0 <= i < |order| ==> order[i] in groups && all[i] == Batch(order[i], groups[order[i]])
    modifies store
    ensures (o, store.State()) == PutGroups(cfg, old(store.State()), all, states, merge)
  {
    var k := 0;
    assert all[0..] == all;
    while k < |order|
      invariant 0 <= k <= |order|
      invariant PutGroups(cfg, old(store.State()), all, states, merge) == PutGroups(cfg, store.State(), all[k..], states, merge)
    {
      assert all[k..][1..] == all[k + 1..];
      var b := Batch(order[k], groups[order[k]]);
      assert all[k..][0] == b;
      if UseOptimistic(cfg) {
        o := PutOptimistically(cfg, store, b, merge);
      } else {
        o := PutNonOptimistically(cfg, store, b, states, merge);
      }
      if o.Failure? {
        return;
      }
      k := k + 1;
    }
    o := Success;
  }

  /** save(states). */
  method Save(cfg: DaoConfig, store: Store, states: seq<Entity>) returns (o: Outcome)
    modifies store
    ensures (o, store.State()) == WriteSpec.Save(cfg, old(store.State()), states)
  {
    o := VerifyAllEntitiesExists(cfg, store, false, states);
    if o.Failure? {
      return;
    }
    o := Put(cfg, store, states, false);
  }

  /** update(states). */
  method Update(cfg: DaoConfig, store: Store, states: seq<Entity>) returns (o: Outcome)
    modifies store
    ensures (o, store.State()) == WriteSpec.Update(cfg, old(store.State()), states)
  {
    o := VerifyAllEntitiesExists(cfg, store, true, states);
    if o.Failure? {
      return;
    }
    o := Put(cfg, store, states, true);
  }

  // ------------------------------------------------------------------- delete

  /** deleteOptimistically: compare-and-swap deletes guarded on each entity's version. */
  method DeleteOptimistically(cfg: DaoConfig, store: Store, states: seq<Entity>) returns (o: Outcome)
    modifies store
    ensures (o, store.State()) == DeleteOptimisticallyFrom(cfg, old(store.State()), states, [])
  {
    var deletes: seq<Reply> := [];
    var i := 0;
    assert states[0..] == states;
    while i < |states|
      invariant 0 <= i <= |states|
      invariant DeleteOptimisticallyFrom(cfg, old(store.State()), states, []) ==
        DeleteOptimisticallyFrom(cfg, store.State(), states[i..], deletes)
    {
      assert states[i..][1..] == states[i + 1..];
      var state := states[i];
      if !state.valid {
        return Failure(IllegalState(INVALID_STATE));
      }
      var dels := cfg.toDeletes(state, false);
      var version := state.version;
      ghost var w0 := store.State();
      var replies: seq<Reply> := [];
      var j := 0;
      while j < |dels|
        invariant 0 <= j <= |dels|
        invariant (replies, store.State()) == CasDeletes(cfg, w0, dels[..j], version)
      {
        assert dels[..j + 1][..j] == dels[..j];
        var deleted := store.CheckAndDelete(RowKey(dels[j].table, dels[j].item.row), version);
        replies := replies + [CasReply(cfg, dels[j].table, dels[j].item.row, deleted)];
        j := j + 1;
      }
      assert dels[..j] == dels;
      deletes := deletes + replies;
      i := i + 1;
    }
    o := ThrowIfErrors(deletes);
  }

  method GroupDeletes(cfg: DaoConfig, states: seq<Entity>) returns (valid: bool, order: seq<string>, groups: map<string, seq<DeleteRow>>)
    ensures valid <==> AllValid(states)
    ensures valid ==> Grouped(order, groups, DeleteEntries(cfg, states))
  {
    order := [];
    groups := map[];
    ghost var entries: seq<Entry<DeleteRow>> := [];
    var i := 0;
    while i < |states|
      invariant 0 <= i <= |states|
      invariant AllValid(states[..i])
      invariant entries == DeleteEntries(cfg, states[..i])
      invariant Grouped(order, groups, entries)
    {
      assert states[..i + 1][..i] == states[..i];
      if !states[i].valid {
        return false, order, groups;
      }
      var dels := cfg.toDeletes(states[i], EffectiveLock(cfg) == Pessimistic);
      order, groups := InsertAll(order, groups, entries, dels);
      entries := entries + dels;
      i := i + 1;
    }
    assert states[..i] == states;
    valid := true;
  }

  /** deleteNonOptimistically: one batch delete per table, each followed by unlocking every entity. */
  method DeleteNonOptimistically(cfg: DaoConfig, store: Store, states: seq<Entity>) returns (o: Outcome)
    modifies store
    ensures (o, store.State()) == WriteSpec.DeleteNonOptimistically(cfg, old(store.State()), states)
  {
    var valid, order, groups := GroupDeletes(cfg, states);
    if !valid {
      return Failure(IllegalState(INVALID_STATE));
    }
    GroupedIsGroup(order, groups, DeleteEntries(cfg, states));
    ghost var all := Group(DeleteEntries(cfg, states));
    var k := 0;
    assert all[0..] == all;
    while k < |order|
      invariant 0 <= k <= |order|
      invariant WriteSpec.DeleteNonOptimistically(cfg, old(store.State()), states) == DeleteGroups(store.State(), all[k..], states)
    {
      assert all[k..][1..] == all[k + 1..];
      var ok := store.DeleteAll(order[k], groups[order[k]]);
      UnlockAll(store, states);
      if !ok {
        return Failure(StoreFailure(order[k]));
      }
      k := k + 1;
    }
    o := Success;
  }

  /** delete(states). */
  method Delete(cfg: DaoConfig, store: Store, states: seq<Entity>) returns (o: Outcome)
    modifies store
    ensures (o, store.State()) == WriteSpec.Delete(cfg, old(store.State()), states)
  {
    o := VerifyAllEntitiesExists(cfg, store, true, states);
    if o.Failure? {
      return;
    }
    if UseOptimistic(cfg) {
      o := DeleteOptimistically(cfg, store, states);
    } else {
      o := DeleteNonOptimistically(cfg, store, states);
    }
  }
}
