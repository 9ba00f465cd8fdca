/**
 * Properties of CommonDao's write operations, proved about the functions
 * of WriteSpec (which the methods of WriteEngine are proved to follow).
 */
module WriteLemmas {
  import opened Wrappers
  import opened Text
  import opened Grouping
  import opened WriteSpec

  // ---------------------------------------------------------------- existence

  /**
   * save's check passes exactly when every entity whose row id can be
   * derived has no row in the main table and the main table answered.
   */
  lemma SaveCheckRule(cfg: DaoConfig, w: World, states: seq<Entity>)
    ensures Verify(cfg, w, false, states).Success? <==>
      forall i :: 0 <= i < |states| && states[i].id in cfg.rowIdOf ==>
        cfg.mainTable !in w.down && RowKey(cfg.mainTable, cfg.rowIdOf[states[i].id]) !in w.cells
  {
    if Verify(cfg, w, false, states).Success? {
      forall i | 0 <= i < |states| && states[i].id in cfg.rowIdOf
        ensures cfg.mainTable !in w.down && RowKey(cfg.mainTable, cfg.rowIdOf[states[i].id]) !in w.cells
      {
        assert !Violates(false, ProbeOf(cfg, w, states[i]));
      }
    }
  }

  /**
   * update's and delete's check passes exactly when every entity whose row
   * id can be derived has a row in the main table, or the main table could
   * not be asked: a probe that throws counts as "exists".
   */
  lemma UpdateCheckRule(cfg: DaoConfig, w: World, states: seq<Entity>)
    ensures Verify(cfg, w, true, states).Success? <==>
      forall i :: 0 <= i < |states| && states[i].id in cfg.rowIdOf ==>
        cfg.mainTable in w.down || RowKey(cfg.mainTable, cfg.rowIdOf[states[i].id]) in w.cells
  {
    if Verify(cfg, w, true, states).Success? {
      forall i | 0 <= i < |states| && states[i].id in cfg.rowIdOf
        ensures cfg.mainTable in w.down || RowKey(cfg.mainTable, cfg.rowIdOf[states[i].id]) in w.cells
      {
        assert !Violates(true, ProbeOf(cfg, w, states[i]));
      }
    }
  }

  /** An entity whose row id cannot be derived is never checked. */
  lemma UnmappedIdsAreNotChecked(cfg: DaoConfig, w: World, expected: bool, states: seq<Entity>)
    requires forall i :: 0 <= i < |states| ==> states[i].id !in cfg.rowIdOf
    ensures Verify(cfg, w, expected, states) == Success
  {
    forall i | 0 <= i < |states| ensures !Violates(expected, ProbeOf(cfg, w, states[i])) {
    }
  }

  // ------------------------------------------------------------ error replies

  /** The reply reports message m. */
  predicate Reports(r: Reply, m: string) {
    ReplyText(r) == Some(m) && !IsBlank(m)
  }

  /** A message is reported exactly when some reply carries it and it is not blank. */
  lemma {:induction false} MessagesMembers(replies: seq<Reply>, m: string)
    ensures m in Messages(replies) <==> exists i :: 0 <= i < |replies| && Reports(replies[i], m)
  {
    if replies != [] {
      var n := |replies| - 1;
      var init := replies[..n];
      MessagesMembers(init, m);
      var t := ReplyText(replies[n]);
      var tail := if t.Some? && !IsBlank(t.value) then [t.value] else [];
      assert Messages(replies) == Messages(init) + tail;
      assert m in tail <==> Reports(replies[n], m);
      if exists i :: 0 <= i < |replies| && Reports(replies[i], m) {
        var i :| 0 <= i < |replies| && Reports(replies[i], m);
        if i < n {
          assert Reports(init[i], m);
        }
      }
      if exists i :: 0 <= i < n && Reports(init[i], m) {
        var i :| 0 <= i < n && Reports(init[i], m);
        assert Reports(replies[i], m);
      }
    }
  }

  /**
   * throwIfErrors fails exactly when some future threw or returned a
   * non-blank message, and then its message lists the collected messages.
   */
  lemma ErrorsRule(replies: seq<Reply>)
    ensures ErrorsOutcome(replies).Failure? <==>
      exists i :: 0 <= i < |replies| && (replies[i].FutureFailed? || (replies[i].message.Some? && !IsBlank(replies[i].message.value)))
    ensures ErrorsOutcome(replies).Failure? ==>
      ErrorsOutcome(replies).error == IllegalState(ArrayText(Messages(replies)))
  {
    if exists i :: 0 <= i < |replies| && (replies[i].FutureFailed? || (replies[i].message.Some? && !IsBlank(replies[i].message.value))) {
      var i :| 0 <= i < |replies| && (replies[i].FutureFailed? || (replies[i].message.Some? && !IsBlank(replies[i].message.value)));
      var m := ReplyText(replies[i]).value;
      assert !IsBlank(FUTURE_FAILED) by { assert !IsWhitespace(FUTURE_FAILED[0]); }
      assert Reports(replies[i], m);
      MessagesMembers(replies, m);
    }
    if Messages(replies) != [] {
      var m := Messages(replies)[0];
      MessagesMembers(replies, m);
      var i :| 0 <= i < |replies| && Reports(replies[i], m);
      assert replies[i].FutureFailed? || (replies[i].message.Some? && !IsBlank(replies[i].message.value));
    }
  }

  // ---------------------------------------------------------------- put paths

  /** The write paths never fail with IllegalArgument: that error only comes from the existence check. */
  predicate NotIllegalArgument(o: Outcome) {
    o.Failure? ==> !o.error.IllegalArgument?
  }

  lemma ErrorsNotIllegalArgument(replies: seq<Reply>)
    ensures NotIllegalArgument(ErrorsOutcome(replies))
  {
  }

  lemma {:induction false} PutGroupsNotIllegalArgument(cfg: DaoConfig, w: World, groups: seq<Batch<PutRow>>, states: seq<Entity>, merge: bool)
    ensures NotIllegalArgument(PutGroups(cfg, w, groups, states, merge).0)
    decreases |groups|
  {
    if groups != [] {
      var (o, w1) := PutGroup(cfg, w, groups[0], states, merge);
      if UseOptimistic(cfg) {
        match MergeStep(cfg, w, groups[0], merge)
        case Err(_) =>
        case Ok(wm) => ErrorsNotIllegalArgument(CasPuts(cfg, wm, groups[0].table, groups[0].items).0);
      }
      if o.Success? {
        PutGroupsNotIllegalArgument(cfg, w1, groups[1..], states, merge);
      }
    }
  }

  lemma PutNotIllegalArgument(cfg: DaoConfig, w: World, states: seq<Entity>, merge: bool)
    ensures NotIllegalArgument(Put(cfg, w, states, merge).0)
  {
    if AllValid(states) {
      PutGroupsNotIllegalArgument(cfg, w, Group(PutEntries(cfg, states)), states, merge);
    }
  }

  /**
   * save refuses the whole call, touching nothing, exactly when the check
   * finds a row that already exists (or could not be asked); every other
   * failure comes from the put that follows.
   */
  lemma SaveRefusesExistingRows(cfg: DaoConfig, w: World, states: seq<Entity>)
    ensures Save(cfg, w, states).0 == Failure(IllegalArgument(ALREADY_SAVED)) <==>
      exists i :: 0 <= i < |states| && Violates(false, ProbeOf(cfg, w, states[i]))
    ensures Verify(cfg, w, false, states).Failure? ==> Save(cfg, w, states).1 == w
  {
    PutNotIllegalArgument(cfg, w, states, false);
  }

  /** update refuses the whole call, touching nothing, exactly when the check finds a missing row. */
  lemma UpdateRefusesMissingRows(cfg: DaoConfig, w: World, states: seq<Entity>)
    ensures Update(cfg, w, states).0 == Failure(IllegalArgument(NOT_SAVED)) <==>
      exists i :: 0 <= i < |states| && Violates(true, ProbeOf(cfg, w, states[i]))
    ensures Verify(cfg, w, true, states).Failure? ==> Update(cfg, w, states).1 == w
  {
    PutNotIllegalArgument(cfg, w, states, true);
  }

  /**
   * The existence check comes first: an invalid entity whose row already
   * exists makes save fail with the existence error, not the validity error.
   */
  lemma ExistenceBeforeValidity(cfg: DaoConfig, w: World, states: seq<Entity>, i: nat)
    requires i < |states| && !states[i].valid
    requires states[i].id in cfg.rowIdOf && RowKey(cfg.mainTable, cfg.rowIdOf[states[i].id]) in w.cells
    ensures Save(cfg, w, states) == (Failure(IllegalArgument(ALREADY_SAVED)), w)
  {
    assert Violates(false, ProbeOf(cfg, w, states[i]));
  }

  /** When every check passes, an invalid entity fails the call before anything is written. */
  lemma InvalidEntityWritesNothing(cfg: DaoConfig, w: World, states: seq<Entity>, merge: bool)
    requires !AllValid(states)
    ensures Put(cfg, w, states, merge) == (Failure(IllegalState(INVALID_STATE)), w)
  {
  }

  /** save never calls the merge service. */
  lemma {:induction false} NoMergeUnlessAsked(cfg: DaoConfig, w: World, groups: seq<Batch<PutRow>>, states: seq<Entity>)
    ensures PutGroups(cfg, w, groups, states, false).1.merged == w.merged
    decreases |groups|
  {
    if groups != [] {
      var (o, w1) := PutGroup(cfg, w, groups[0], states, false);
      assert MergeStep(cfg, w, groups[0], false) == Ok(w);
      if UseOptimistic(cfg) {
        CasPutsKeepLogs(cfg, w, groups[0].table, groups[0].items);
      } else {
        BatchPutKeepsLogs(w, groups[0].table, groups[0].items);
      }
      assert w1.merged == w.merged;
      if o.Success? {
        NoMergeUnlessAsked(cfg, w1, groups[1..], states);
      }
    }
  }

  lemma SaveNeverMerges(cfg: DaoConfig, w: World, states: seq<Entity>)
    ensures Save(cfg, w, states).1.merged == w.merged
  {
    if AllValid(states) {
      NoMergeUnlessAsked(cfg, w, Group(PutEntries(cfg, states)), states);
    }
  }

  lemma {:induction false} CasPutsKeepLogs(cfg: DaoConfig, w: World, table: string, puts: seq<PutRow>)
    ensures CasPuts(cfg, w, table, puts).1.merged == w.merged
    ensures CasPuts(cfg, w, table, puts).1.unlocked == w.unlocked
    ensures CasPuts(cfg, w, table, puts).1.down == w.down
  {
    if puts != [] {
      CasPutsKeepLogs(cfg, w, table, puts[..|puts| - 1]);
    }
  }

  lemma {:induction false} BatchPutKeepsLogs(w: World, table: string, puts: seq<PutRow>)
    ensures BatchPut(w, table, puts).merged == w.merged
    ensures BatchPut(w, table, puts).unlocked == w.unlocked
    ensures BatchPut(w, table, puts).down == w.down
  {
    if puts != [] {
      BatchPutKeepsLogs(w, table, puts[..|puts| - 1]);
    }
  }

  // ---------------------------------------------------------------- versioning

  /**
   * One optimistic put: it applies exactly when the row's version column
   * still holds the version the Put carried (none for a first write), and
   * then the row holds the next version; otherwise nothing changes and the
   * reply names the row's id and the table.
   */
  lemma CompareAndSwapPut(cfg: DaoConfig, w: World, table: string, p: PutRow)
    requires table !in w.down
    ensures CasPut(cfg, w, table, p).0 == Replied(None) <==> Current(w, RowKey(table, p.row)) == p.version
    ensures Current(w, RowKey(table, p.row)) == p.version ==>
      Current(CasPut(cfg, w, table, p).1, RowKey(table, p.row)) == Some(NextVersion(p.version))
    ensures Current(w, RowKey(table, p.row)) != p.version ==> CasPut(cfg, w, table, p).1 == w
    ensures Current(w, RowKey(table, p.row)) != p.version && p.row in cfg.idOfRow ==>
      CasPut(cfg, w, table, p).0 == Replied(Some(OptimisticFailure(cfg.idOfRow[p.row], table)))
  {
  }

  /**
   * One optimistic delete: it applies exactly when the row's version column
   * holds the entity's version (none when the entity carries none), and
   * then the row is gone; otherwise nothing changes, and the reply names
   * the row's id and the table, or is a failed future when the row's id
   * cannot be derived or the table is unavailable.
   */
  lemma CompareAndSwapDelete(cfg: DaoConfig, w: World, d: Entry<DeleteRow>, version: Option<Long>)
    ensures d.table in w.down ==> CasDelete(cfg, w, d, version) == (FutureFailed, w)
    ensures d.table !in w.down ==>
      (CasDelete(cfg, w, d, version).0 == Replied(None) <==> Current(w, RowKey(d.table, d.item.row)) == version)
    ensures d.table !in w.down && Current(w, RowKey(d.table, d.item.row)) == version ==>
      CasDelete(cfg, w, d, version).1 == w.(cells := w.cells - {RowKey(d.table, d.item.row)})
    ensures Current(w, RowKey(d.table, d.item.row)) != version ==> CasDelete(cfg, w, d, version).1 == w
    ensures d.table !in w.down && Current(w, RowKey(d.table, d.item.row)) != version ==>
      CasDelete(cfg, w, d, version).0 ==
        if d.item.row in cfg.idOfRow then Replied(Some(OptimisticFailure(cfg.idOfRow[d.item.row], d.table))) else FutureFailed
  {
  }

  /** Optimistic deletes remove only the rows they name, and touch neither log. */
  lemma {:induction false} CasDeletesFrame(cfg: DaoConfig, w: World, dels: seq<Entry<DeleteRow>>, version: Option<Long>, k: RowKey)
    requires forall i :: 0 <= i < |dels| ==> RowKey(dels[i].table, dels[i].item.row) != k
    ensures Current(CasDeletes(cfg, w, dels, version).1, k) == Current(w, k)
    ensures CasDeletes(cfg, w, dels, version).1.unlocked == w.unlocked
    ensures CasDeletes(cfg, w, dels, version).1.merged == w.merged
    ensures CasDeletes(cfg, w, dels, version).1.down == w.down
  {
    if dels != [] {
      CasDeletesFrame(cfg, w, dels[..|dels| - 1], version, k);
    }
  }

  /** Optimistic puts change only the rows of their own batch. */
  lemma {:induction false} CasPutsFrame(cfg: DaoConfig, w: World, table: string, puts: seq<PutRow>, k: RowKey)
    requires k.table != table || forall i :: 0 <= i < |puts| ==> puts[i].row != k.row
    ensures Current(CasPuts(cfg, w, table, puts).1, k) == Current(w, k)
  {
    if puts != [] {
      CasPutsFrame(cfg, w, table, puts[..|puts| - 1], k);
    }
  }

  /** A batch put leaves every row of its batch present, and the other rows as they were. */
  lemma {:induction false} BatchPutRows(w: World, table: string, puts: seq<PutRow>, k: RowKey)
    ensures (k.table == table && exists i :: 0 <= i < |puts| && puts[i].row == k.row) ==> k in BatchPut(w, table, puts).cells
    ensures (k.table != table || forall i :: 0 <= i < |puts| ==> puts[i].row != k.row) ==> Current(BatchPut(w, table, puts), k) == Current(w, k)
  {
    if puts != [] {
      var n := |puts| - 1;
      BatchPutRows(w, table, puts[..n], k);
      if k.table == table && exists i :: 0 <= i < |puts| && puts[i].row == k.row {
        var i :| 0 <= i < |puts| && puts[i].row == k.row;
        if i < n {
          assert puts[..n][i].row == k.row;
        }
      }
    }
  }

  // ------------------------------------------------------------------- locks

  /** k copies of the entities, one after the other. */
  function Repeat(states: seq<Entity>, k: nat): seq<Entity> {
    if k == 0 then [] else Repeat(states, k - 1) + states
  }

  /**
   * Non-optimistic puts release every entity's lock once per table they
   * reached, failed or not; after a failure no later table is reached, and
   * a successful put reached every table.
   */
  lemma {:induction false} NonOptimisticPutUnlocks(cfg: DaoConfig, w: World, groups: seq<Batch<PutRow>>, states: seq<Entity>, merge: bool)
    requires !UseOptimistic(cfg)
    ensures exists k :: (0 <= k <= |groups| &&
      PutGroups(cfg, w, groups, states, merge).1.unlocked == w.unlocked + Repeat(states, k) &&
      (PutGroups(cfg, w, groups, states, merge).0.Success? ==> k == |groups|) &&
      (PutGroups(cfg, w, groups, states, merge).0.Failure? ==> k >= 1))
    decreases |groups|
  {
    if groups == [] {
      assert w.unlocked + Repeat(states, 0) == w.unlocked;
    } else {
      var (o, w1) := PutGroup(cfg, w, groups[0], states, merge);
      var b := groups[0];
      assert w1.unlocked == w.unlocked + states by {
        match MergeStep(cfg, w, b, merge)
        case Err(_) =>
        case Ok(wm) =>
          if b.table !in wm.down {
            BatchPutKeepsLogs(wm, b.table, b.items);
          }
      }
      if o.Failure? {
        assert Repeat(states, 1) == states;
      } else {
        NonOptimisticPutUnlocks(cfg, w1, groups[1..], states, merge);
        var k :| 0 <= k <= |groups[1..]| &&
          PutGroups(cfg, w1, groups[1..], states, merge).1.unlocked == w1.unlocked + Repeat(states, k) &&
          (PutGroups(cfg, w1, groups[1..], states, merge).0.Success? ==> k == |groups[1..]|);
        RepeatFront(states, k);
        assert w.unlocked + states + Repeat(states, k) == w.unlocked + Repeat(states, k + 1);
      }
    }
  }

  lemma {:induction false} RepeatFront(states: seq<Entity>, k: nat)
    ensures states + Repeat(states, k) == Repeat(states, k + 1)
  {
    if k > 0 {
      RepeatFront(states, k - 1);
    }
  }

  /** Optimistic puts release no lock. */
  lemma {:induction false} OptimisticPutKeepsLocks(cfg: DaoConfig, w: World, groups: seq<Batch<PutRow>>, states: seq<Entity>, merge: bool)
    requires UseOptimistic(cfg)
    ensures PutGroups(cfg, w, groups, states, merge).1.unlocked == w.unlocked
    decreases |groups|
  {
    if groups != [] {
      var (o, w1) := PutGroup(cfg, w, groups[0], states, merge);
      match MergeStep(cfg, w, groups[0], merge)
      case Err(_) =>
      case Ok(wm) => CasPutsKeepLogs(cfg, wm, groups[0].table, groups[0].items);
      if o.Success? {
        OptimisticPutKeepsLocks(cfg, w1, groups[1..], states, merge);
      }
    }
  }

  /** Non-optimistic deletes release every lock once per table reached, as puts do. */
  lemma {:induction false} NonOptimisticDeleteUnlocks(w: World, groups: seq<Batch<DeleteRow>>, states: seq<Entity>)
    ensures exists k :: (0 <= k <= |groups| &&
      DeleteGroups(w, groups, states).1.unlocked == w.unlocked + Repeat(states, k) &&
      (DeleteGroups(w, groups, states).0.Success? ==> k == |groups|) &&
      (DeleteGroups(w, groups, states).0.Failure? ==> k >= 1))
    decreases |groups|
  {
    if groups == [] {
      assert w.unlocked + Repeat(states, 0) == w.unlocked;
    } else {
      var (o, w1) := DeleteGroup(w, groups[0], states);
      assert w1.unlocked == w.unlocked + states by {
        BatchDeleteKeepsLogs(w, groups[0].table, groups[0].items);
      }
      if o.Failure? {
        assert Repeat(states, 1) == states;
      } else {
        NonOptimisticDeleteUnlocks(w1, groups[1..], states);
        var k :| 0 <= k <= |groups[1..]| &&
          DeleteGroups(w1, groups[1..], states).1.unlocked == w1.unlocked + Repeat(states, k) &&
          (DeleteGroups(w1, groups[1..], states).0.Success? ==> k == |groups[1..]|);
        RepeatFront(states, k);
        assert w.unlocked + states + Repeat(states, k) == w.unlocked + Repeat(states, k + 1);
      }
    }
  }

  lemma {:induction false} BatchDeleteKeepsLogs(w: World, table: string, dels: seq<DeleteRow>)
    ensures BatchDelete(w, table, dels).unlocked == w.unlocked
    ensures BatchDelete(w, table, dels).merged == w.merged
    ensures BatchDelete(w, table, dels).down == w.down
  {
    if dels != [] {
      BatchDeleteKeepsLogs(w, table, dels[..|dels| - 1]);
    }
  }

  // ------------------------------------------------------- optimistic delete

  /** The compare-and-swap deletes of the given entities, one after the other. */
  function DeletesOf(cfg: DaoConfig, w: World, states: seq<Entity>): (seq<Reply>, World)
    decreases |states|
  {
    if states == [] then ([], w)
    else
      var (rs, w1) := CasDeletes(cfg, w, cfg.toDeletes(states[0], false), states[0].version);
      var (rest, w2) := DeletesOf(cfg, w1, states[1..]);
      (rs + rest, w2)
  }

  /** deleteOptimistically with every entity valid reports the replies of all the deletes. */
  lemma {:induction false} OptimisticDeleteAllValid(cfg: DaoConfig, w: World, states: seq<Entity>, replies: seq<Reply>)
    requires AllValid(states)
    ensures DeleteOptimisticallyFrom(cfg, w, states, replies) ==
      (ErrorsOutcome(replies + DeletesOf(cfg, w, states).0), DeletesOf(cfg, w, states).1)
    decreases |states|
  {
    if states == [] {
      assert replies + [] == replies;
    } else {
      var step := CasDeletes(cfg, w, cfg.toDeletes(states[0], false), states[0].version);
      var rest := DeletesOf(cfg, step.1, states[1..]);
      assert DeletesOf(cfg, w, states) == (step.0 + rest.0, rest.1);
      assert AllValid(states[1..]);
      OptimisticDeleteAllValid(cfg, step.1, states[1..], replies + step.0);
      assert replies + step.0 + rest.0 == replies + (step.0 + rest.0);
    }
  }

  /**
   * An invalid entity stops deleteOptimistically with the validity error;
   * the deletes dispatched for the entities before it stay applied.
   */
  lemma {:induction false} OptimisticDeleteStopsAtInvalid(cfg: DaoConfig, w: World, states: seq<Entity>, replies: seq<Reply>, m: nat)
    requires m < |states| && !states[m].valid && AllValid(states[..m])
    ensures DeleteOptimisticallyFrom(cfg, w, states, replies) ==
      (Failure(IllegalState(INVALID_STATE)), DeletesOf(cfg, w, states[..m]).1)
    decreases |states|
  {
    if m == 0 {
      assert states[..m] == [];
    } else {
      assert states[..m][0] == states[0];
      var (rs, w1) := CasDeletes(cfg, w, cfg.toDeletes(states[0], false), states[0].version);
      assert states[1..][..m - 1] == states[..m][1..];
      assert AllValid(states[1..][..m - 1]);
      OptimisticDeleteStopsAtInvalid(cfg, w1, states[1..], replies + rs, m - 1);
    }
  }

  // ---------------------------------------------------------------- delete

  lemma {:induction false} DeleteGroupsNotIllegalArgument(w: World, groups: seq<Batch<DeleteRow>>, states: seq<Entity>)
    ensures NotIllegalArgument(DeleteGroups(w, groups, states).0)
    decreases |groups|
  {
    if groups != [] {
      var (o, w1) := DeleteGroup(w, groups[0], states);
      if o.Success? {
        DeleteGroupsNotIllegalArgument(w1, groups[1..], states);
      }
    }
  }

  lemma {:induction false} OptimisticDeleteNotIllegalArgument(cfg: DaoConfig, w: World, states: seq<Entity>, replies: seq<Reply>)
    ensures NotIllegalArgument(DeleteOptimisticallyFrom(cfg, w, states, replies).0)
    decreases |states|
  {
    if states == [] {
      ErrorsNotIllegalArgument(replies);
    } else if states[0].valid {
      var (rs, w1) := CasDeletes(cfg, w, cfg.toDeletes(states[0], false), states[0].version);
      OptimisticDeleteNotIllegalArgument(cfg, w1, states[1..], replies + rs);
    }
  }

  /** delete refuses the whole call, touching nothing, exactly when the check finds a missing row. */
  lemma DeleteRefusesMissingRows(cfg: DaoConfig, w: World, states: seq<Entity>)
    ensures Delete(cfg, w, states).0 == Failure(IllegalArgument(NOT_SAVED)) <==>
      exists i :: 0 <= i < |states| && Violates(true, ProbeOf(cfg, w, states[i]))
    ensures Verify(cfg, w, true, states).Failure? ==> Delete(cfg, w, states).1 == w
  {
    OptimisticDeleteNotIllegalArgument(cfg, w, states, []);
    if AllValid(states) {
      DeleteGroupsNotIllegalArgument(w, Group(DeleteEntries(cfg, states)), states);
    }
  }

  // ---------------------------------------------------------------- scenario

  /** An optimistic put of one valid entity whose converter yields one Put is one putOptimistically. */
  lemma SinglePut(cfg: DaoConfig, w: World, e: Entity, merge: bool)
    requires UseOptimistic(cfg) && e.valid && |cfg.toRows(e, PessimisticFlag(cfg))| == 1
    ensures var en := cfg.toRows(e, PessimisticFlag(cfg))[0];
      Put(cfg, w, [e], merge) == PutOptimistically(cfg, w, Batch(en.table, [en.item]), merge)
  {
    var en := cfg.toRows(e, PessimisticFlag(cfg))[0];
    assert [e][..0] == [];
    assert cfg.toRows(e, PessimisticFlag(cfg)) == [en];
    assert PutEntries(cfg, [e]) == [en];
    GroupSingle(en);
    var b := Batch(en.table, [en.item]);
    assert [b][1..] == [];
    var r := PutOptimistically(cfg, w, b, merge);
    assert PutGroup(cfg, w, b, [e], merge) == r;
    assert PutGroups(cfg, r.1, [], [e], merge) == (Success, r.1);
  }

  /** The compare-and-swaps of a one-Put batch are that one compare-and-swap. */
  lemma SingleCasPut(cfg: DaoConfig, w: World, table: string, p: PutRow)
    ensures CasPuts(cfg, w, table, [p]) == ([CasPut(cfg, w, table, p).0], CasPut(cfg, w, table, p).1)
  {
    assert [p][..0] == [];
    assert CasPuts(cfg, w, table, []) == ([], w);
    assert [] + [CasPut(cfg, w, table, p).0] == [CasPut(cfg, w, table, p).0];
  }

  /** An optimistic delete of one valid entity whose converter yields one Delete, once the check passed. */
  lemma SingleDelete(cfg: DaoConfig, w: World, e: Entity)
    requires UseOptimistic(cfg) && e.valid && |cfg.toDeletes(e, false)| == 1
    requires Verify(cfg, w, true, [e]) == Success
    ensures var c := CasDelete(cfg, w, cfg.toDeletes(e, false)[0], e.version);
      Delete(cfg, w, [e]) == (ErrorsOutcome([c.0]), c.1)
  {
    var d := cfg.toDeletes(e, false)[0];
    assert cfg.toDeletes(e, false) == [d];
    assert [d][..0] == [];
    var c := CasDelete(cfg, w, d, e.version);
    assert CasDeletes(cfg, w, [], e.version) == ([], w);
    assert [] + [c.0] == [c.0];
    assert CasDeletes(cfg, w, [d], e.version) == ([c.0], c.1);
    assert [e][1..] == [];
    assert DeleteOptimisticallyFrom(cfg, c.1, [], [c.0]) == (ErrorsOutcome([c.0]), c.1);
  }

  /** The message list of a single reply. */
  lemma SingleReply(r: Reply)
    ensures Messages([r]) == if ReplyText(r).Some? && !IsBlank(ReplyText(r).value) then [ReplyText(r).value] else []
  {
    assert [r][..0] == [];
  }

  const SCENARIO_TABLE := "entities"
  const SCENARIO_ROW := RowKey(SCENARIO_TABLE, "row-A")

  /** One table, row keys "row-" + id, the entity's version carried in its Put, optimistic locking, merging on. */
  function ScenarioConfig(): DaoConfig {
    DaoConfig(
      SCENARIO_TABLE,
      map["A" := "row-A"],
      map["row-A" := "A"],
      (e: Entity, pessimistic: bool) => [Entry(SCENARIO_TABLE, PutRow("row-" + e.id, e.version))],
      (e: Entity, pessimistic: bool) => [Entry(SCENARIO_TABLE, DeleteRow("row-" + e.id))],
      Some(Optimistic), Optimistic, Some("meta"), Some("version"), true, true)
  }

  /** save of a new entity into an empty store stamps version 1. */
  lemma ScenarioSave()
    ensures Save(ScenarioConfig(), World(map[], {}, [], []), [Entity("A", None, true)])
      == (Success, World(map[SCENARIO_ROW := Some(1)], {}, [], []))
  {
    var cfg := ScenarioConfig();
    var w0 := World(map[], {}, [], []);
    var e := Entity("A", None, true);
    assert "row-" + "A" == "row-A";
    assert !Violates(false, ProbeOf(cfg, w0, e));
    assert Verify(cfg, w0, false, [e]) == Success;
    SinglePut(cfg, w0, e, false);
    SingleCasPut(cfg, w0, SCENARIO_TABLE, PutRow("row-A", None));
    SingleReply(Replied(None));
  }

  /** update carrying the current version 1 stamps version 2 and hands the batch to the merge service. */
  lemma ScenarioUpdate()
    ensures Update(ScenarioConfig(), World(map[SCENARIO_ROW := Some(1)], {}, [], []), [Entity("A", Some(1), true)])
      == (Success, World(map[SCENARIO_ROW := Some(2)], {}, [], [Batch(SCENARIO_TABLE, [PutRow("row-A", Some(1))])]))
  {
    var cfg := ScenarioConfig();
    var w1 := World(map[SCENARIO_ROW := Some(1)], {}, [], []);
    var e := Entity("A", Some(1), true);
    var b := Batch(SCENARIO_TABLE, [PutRow("row-A", Some(1))]);
    assert "row-" + "A" == "row-A";
    assert !Violates(true, ProbeOf(cfg, w1, e));
    assert Verify(cfg, w1, true, [e]) == Success;
    SinglePut(cfg, w1, e, true);
    var wm := w1.(merged := [b]);
    assert w1.merged + [b] == [b];
    assert MergeStep(cfg, w1, b, true) == Ok(wm);
    var w3 := World(map[SCENARIO_ROW := Some(2)], {}, [], [b]);
    assert MergeActive(cfg, true);
    assert Current(wm, SCENARIO_ROW) == Some(1);
    assert NextVersion(Some(1)) == 2;
    assert wm.cells[SCENARIO_ROW := Some(2)] == map[SCENARIO_ROW := Some(2)];
    assert CasPut(cfg, wm, SCENARIO_TABLE, PutRow("row-A", Some(1))) == (Replied(None), w3);
    SingleCasPut(cfg, wm, SCENARIO_TABLE, PutRow("row-A", Some(1)));
    SingleReply(Replied(None));
    assert ErrorsOutcome([Replied(None)]) == Success;
    assert PutOptimistically(cfg, w1, b, true) == (Success, w3);
  }

  /**
   * update from a stale copy that carries no version: the check passes, the
   * merge service is called, the compare-and-swap fails, and the call fails
   * with the optimistic-failure message while version 2 stays in place.
   */
  lemma ScenarioStaleUpdate()
    ensures var w2 := World(map[SCENARIO_ROW := Some(2)], {}, [], []);
      var b := Batch(SCENARIO_TABLE, [PutRow("row-A", None)]);
      Update(ScenarioConfig(), w2, [Entity("A", None, true)])
        == (Failure(IllegalState(ArrayText(["Operation of row A from table entities has failed optimistically!"]))), w2.(merged := [b]))
  {
    var cfg := ScenarioConfig();
    var w2 := World(map[SCENARIO_ROW := Some(2)], {}, [], []);
    var e := Entity("A", None, true);
    var b := Batch(SCENARIO_TABLE, [PutRow("row-A", None)]);
    assert "row-" + "A" == "row-A";
    assert !Violates(true, ProbeOf(cfg, w2, e));
    assert Verify(cfg, w2, true, [e]) == Success;
    SinglePut(cfg, w2, e, true);
    var wm := w2.(merged := [b]);
    assert w2.merged + [b] == [b];
    assert MergeStep(cfg, w2, b, true) == Ok(wm);
    assert MergeActive(cfg, true);
    var msg := OptimisticFailure("A", SCENARIO_TABLE);
    assert Current(wm, SCENARIO_ROW) == Some(2);
    assert CasPut(cfg, wm, SCENARIO_TABLE, PutRow("row-A", None)) == (Replied(Some(msg)), wm);
    SingleCasPut(cfg, wm, SCENARIO_TABLE, PutRow("row-A", None));
    SingleReply(Replied(Some(msg)));
    assert !IsWhitespace(msg[0]);
    assert !IsBlank(msg);
    ScenarioMessage();
    assert ErrorsOutcome([Replied(Some(msg))]) == Failure(IllegalState(ArrayText([msg])));
    assert PutOptimistically(cfg, w2, b, true) == (Failure(IllegalState(ArrayText([msg]))), wm);
  }

  /** delete carrying the current version removes the row; the optimistic path releases no lock. */
  lemma ScenarioDelete()
    ensures Delete(ScenarioConfig(), World(map[SCENARIO_ROW := Some(2)], {}, [], []), [Entity("A", Some(2), true)])
      == (Success, World(map[], {}, [], []))
  {
    var cfg := ScenarioConfig();
    var w2 := World(map[SCENARIO_ROW := Some(2)], {}, [], []);
    var e := Entity("A", Some(2), true);
    assert "row-" + "A" == "row-A";
    assert !Violates(true, ProbeOf(cfg, w2, e));
    assert Verify(cfg, w2, true, [e]) == Success;
    SingleDelete(cfg, w2, e);
    assert w2.cells - {SCENARIO_ROW} == map[];
    SingleReply(Replied(None));
  }

  /** Helper of ScenarioStaleUpdate: the formatted failure message for row A of the scenario's table. */
  lemma ScenarioMessage()
    ensures OptimisticFailure("A", SCENARIO_TABLE) == "Operation of row A from table entities has failed optimistically!"
  {
    assert "Operation of row " + "A" == "Operation of row A";
    assert "Operation of row A" + " from table " == "Operation of row A from table ";
    assert "Operation of row A from table " + "entities" == "Operation of row A from table entities";
    assert "Operation of row A from table entities" + " has failed optimistically!"
      == "Operation of row A from table entities has failed optimistically!";
  }
}
