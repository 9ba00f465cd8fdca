/**
 * What CommonDao's write operations do to the store, as functions over a
 * value of the store: the existence check, optimistic (compare-and-swap on
 * a version column) and non-optimistic (batch mutation plus lock release)
 * writes and deletes, and the aggregation of per-row failure messages.
 * Asynchronous operations complete in the order they were dispatched.
 */
module WriteSpec {
  import opened Wrappers
  import opened Text
  import opened Grouping

  /** Java's long. */
  const LONG_MIN: int := -0x8000_0000_0000_0000
  const LONG_MAX: int := 0x7FFF_FFFF_FFFF_FFFF
  type Long = x: int | LONG_MIN <= x <= LONG_MAX

  /**
   * The version stamped by an optimistic put: one more than the version the
   * Put carries (Bytes.toLong(value) + 1, wrapping at Long.MAX_VALUE), or 1
   * when it carries none.
   */
  function NextVersion(carried: Option<Long>): (r: Long)
    ensures carried.None? ==> r == 1
    ensures carried.Some? && carried.value < LONG_MAX ==> r == carried.value + 1
    ensures carried == Some(LONG_MAX) ==> r == LONG_MIN
  {
    match carried
    case None => 1
    case Some(v) => if v == LONG_MAX then LONG_MIN else v + 1
  }

  datatype LockType = Optimistic | Pessimistic

  /** An entity as the write path sees it: its id, its version, whether isValid() holds. */
  datatype Entity = Entity(id: string, version: Option<Long>, valid: bool)

  /** A Put: its row key and the latest value it carries for the version column. */
  datatype PutRow = PutRow(row: string, version: Option<Long>)

  /** A Delete of one row. */
  datatype DeleteRow = DeleteRow(row: string)

  /** The collaborators and settings the DAO is configured with. */
  datatype DaoConfig = DaoConfig(
    mainTable: string,
    /** getRowIdFromId: ids outside the map make it throw */
    rowIdOf: map<string, string>,
    /** getIdFromRowId: row keys outside the map make it throw */
    idOfRow: map<string, string>,
    /** objectToRows(state, executor, pessimistic): the converter's table -> Put map */
    toRows: (Entity, bool) -> seq<Entry<PutRow>>,
    /** objectToDeleteableRows(state, executor, pessimistic): the table -> Delete map */
    toDeletes: (Entity, bool) -> seq<Entry<DeleteRow>>,
    /** the injected lock type, and LockType.getDefault() used when it is null */
    lockType: Option<LockType>,
    defaultLockType: LockType,
    versionFamily: Option<string>,
    versionQualifier: Option<string>,
    mergeEnabled: bool,
    hasMergeService: bool)

  /** getLockType(): the injected lock type, or the default when none was injected. */
  function EffectiveLock(cfg: DaoConfig): (r: LockType)
    ensures cfg.lockType.Some? ==> r == cfg.lockType.value
    ensures cfg.lockType.None? ==> r == cfg.defaultLockType
  {
    cfg.lockType.GetOr(cfg.defaultLockType)
  }

  /** The pessimistic flag passed to the converter. */
  predicate PessimisticFlag(cfg: DaoConfig) {
    EffectiveLock(cfg) == Pessimistic
  }

  /** Writes and deletes are optimistic when the lock type is OPTIMISTIC and the version column is configured. */
  predicate UseOptimistic(cfg: DaoConfig) {
    EffectiveLock(cfg) == Optimistic && cfg.versionFamily.Some? && cfg.versionQualifier.Some?
  }

  /** The merge service runs only when the call asks for it, merging is enabled and a service is present. */
  predicate MergeActive(cfg: DaoConfig, merge: bool) {
    merge && cfg.mergeEnabled && cfg.hasMergeService
  }

  datatype RowKey = RowKey(table: string, row: string)

  /**
   * The store and the DAO's collaborators: the rows of every table with the
   * value of their version column, the tables on which every operation
   * throws, the entities handed to unlockAndEvictFromCache, and the batches
   * handed to the merge service, both in call order.
   */
  datatype World = World(
    cells: map<RowKey, Option<Long>>,
    down: set<string>,
    unlocked: seq<Entity>,
    merged: seq<Batch<PutRow>>)

  /** The version column of a row; None when the row or the column is missing. */
  function Current(w: World, k: RowKey): Option<Long> {
    if k in w.cells then w.cells[k] else None
  }

  const INVALID_STATE := "Entity not in valid state!"
  const ALREADY_SAVED := "Some of the entities are already saved, so did not procced with any of them"
  const NOT_SAVED := "Some of the entities are not saved, so did not procced with any of them"
  const FUTURE_FAILED := "Could not complete deletion!"

  /** String.format(errorMessageFormat, id, table). */
  function OptimisticFailure(id: string, table: string): string {
    "Operation of row " + id + " from table " + table + " has failed optimistically!"
  }

  datatype WriteError =
    | IllegalArgument(message: string)
    | IllegalState(message: string)
    /** an operation on an unavailable table threw */
    | StoreFailure(table: string)

  datatype Outcome = Success | Failure(error: WriteError)

  // ---------------------------------------------------------------- existence

  /** One entity's existence probe: not made (its row id could not be derived), failed, or answered. */
  datatype Probe = Unprobed | ProbeFailed | Answered(present: bool)

  function ProbeOf(cfg: DaoConfig, w: World, e: Entity): (p: Probe)
    ensures p.Unprobed? <==> e.id !in cfg.rowIdOf
    ensures p.ProbeFailed? <==> e.id in cfg.rowIdOf && cfg.mainTable in w.down
    ensures p.Answered? ==> p.present == (RowKey(cfg.mainTable, cfg.rowIdOf[e.id]) in w.cells)
  {
    if e.id !in cfg.rowIdOf then Unprobed
    else if cfg.mainTable in w.down then ProbeFailed
    else Answered(RowKey(cfg.mainTable, cfg.rowIdOf[e.id]) in w.cells)
  }

  /** A probe contradicts the expectation; a failed probe reads as "exists". */
  predicate Violates(expected: bool, p: Probe) {
    match p
    case Unprobed => false
    case ProbeFailed => !expected
    case Answered(b) => b != expected
  }

  function ExistenceMessage(expected: bool): string {
    if expected then NOT_SAVED else ALREADY_SAVED
  }

  /** verifyAllEntitiesExists(existenceExpected, states). */
  function Verify(cfg: DaoConfig, w: World, expected: bool, states: seq<Entity>): (o: Outcome)
    ensures o.Failure? <==> exists i :: 0 <= i < |states| && Violates(expected, ProbeOf(cfg, w, states[i]))
    ensures o.Failure? ==> o.error == IllegalArgument(ExistenceMessage(expected))
  {
    if exists i :: 0 <= i < |states| && Violates(expected, ProbeOf(cfg, w, states[i]))
    then Failure(IllegalArgument(ExistenceMessage(expected)))
    else Success
  }

  // ------------------------------------------------------------ error replies

  /** How a Future<String> of the optimistic path completes. */
  datatype Reply = Replied(message: Option<string>) | FutureFailed

  /** The message a reply contributes before the blank filter. */
  function ReplyText(r: Reply): Option<string> {
    match r
    case FutureFailed => Some(FUTURE_FAILED)
    case Replied(m) => m
  }

  /** The non-blank messages of the replies, in order. */
  function Messages(replies: seq<Reply>): seq<string> {
    if replies == [] then []
    else
      var t := ReplyText(replies[|replies| - 1]);
      Messages(replies[..|replies| - 1]) + (if t.Some? && !IsBlank(t.value) then [t.value] else [])
  }

  /** throwIfErrors: fails with Arrays.toString of the messages when there is one. */
  function ErrorsOutcome(replies: seq<Reply>): Outcome {
    if Messages(replies) == [] then Success else Failure(IllegalState(ArrayText(Messages(replies))))
  }

  // ------------------------------------------------------------ optimistic put

  /** The compare-and-swap of one stamped Put, guarded on the version it carried. */
  function CasPut(cfg: DaoConfig, w: World, table: string, p: PutRow): (Reply, World) {
    var k := RowKey(table, p.row);
    if table in w.down then (FutureFailed, w)
    else if Current(w, k) == p.version then (Replied(None), w.(cells := w.cells[k := Some(NextVersion(p.version))]))
    else if p.row in cfg.idOfRow then (Replied(Some(OptimisticFailure(cfg.idOfRow[p.row], table))), w)
    else (FutureFailed, w)
  }

  /** The compare-and-swaps of a batch, in order. */
  function CasPuts(cfg: DaoConfig, w: World, table: string, puts: seq<PutRow>): (seq<Reply>, World) {
    if puts == [] then ([], w)
    else
      var (rs, w1) := CasPuts(cfg, w, table, puts[..|puts| - 1]);
      var (r, w2) := CasPut(cfg, w1, table, puts[|puts| - 1]);
      (rs + [r], w2)
  }

  /** The synchronous merge call both put paths start with. */
  function MergeStep(cfg: DaoConfig, w: World, b: Batch<PutRow>, merge: bool): Result<World, WriteError> {
    if !MergeActive(cfg, merge) then Ok(w)
    else if b.table in w.down then Err(StoreFailure(b.table))
    else Ok(w.(merged := w.merged + [b]))
  }

  /** putOptimistically for one table's batch. */
  function PutOptimistically(cfg: DaoConfig, w: World, b: Batch<PutRow>, merge: bool): (Outcome, World) {
    match MergeStep(cfg, w, b, merge)
    case Err(e) => (Failure(e), w)
    case Ok(w1) =>
      var (rs, w2) := CasPuts(cfg, w1, b.table, b.items);
      (ErrorsOutcome(rs), w2)
  }

  // -------------------------------------------------------- non-optimistic put

  /** HTable.put of a batch: each Put writes its row, and its version value when it carries one. */
  function BatchPut(w: World, table: string, puts: seq<PutRow>): World {
    if puts == [] then w
    else
      var w1 := BatchPut(w, table, puts[..|puts| - 1]);
      var p := puts[|puts| - 1];
      var k := RowKey(table, p.row);
      w1.(cells := w1.cells[k := if p.version.Some? then p.version else Current(w1, k)])
  }

  /** putNonOptimistically for one table's batch; every entity is unlocked whatever happened. */
  function PutNonOptimistically(cfg: DaoConfig, w: World, b: Batch<PutRow>, states: seq<Entity>, merge: bool): (Outcome, World) {
    var (o, w1) :=
      match MergeStep(cfg, w, b, merge)
      case Err(e) => (Failure(e), w)
      case Ok(wm) => if b.table in wm.down then (Failure(StoreFailure(b.table)), wm) else (Success, BatchPut(wm, b.table, b.items));
    (o, w1.(unlocked := w1.unlocked + states))
  }

  // ---------------------------------------------------------------------- put

  predicate AllValid(states: seq<Entity>) {
    forall i :: 0 <= i < |states| ==> states[i].valid
  }

  /** The converter's Puts for the entities, one entity after the other. */
  function PutEntries(cfg: DaoConfig, states: seq<Entity>): seq<Entry<PutRow>> {
    if states == [] then []
    else PutEntries(cfg, states[..|states| - 1]) + cfg.toRows(states[|states| - 1], PessimisticFlag(cfg))
  }

  function PutGroup(cfg: DaoConfig, w: World, b: Batch<PutRow>, states: seq<Entity>, merge: bool): (Outcome, World) {
    if UseOptimistic(cfg) then PutOptimistically(cfg, w, b, merge) else PutNonOptimistically(cfg, w, b, states, merge)
  }

  /** The batches in table order; the first failure propagates and later tables are not written. */
  function PutGroups(cfg: DaoConfig, w: World, groups: seq<Batch<PutRow>>, states: seq<Entity>, merge: bool): (Outcome, World)
    decreases |groups|
  {
    if groups == [] then (Success, w)
    else
      var (o, w1) := PutGroup(cfg, w, groups[0], states, merge);
      if o.Failure? then (o, w1) else PutGroups(cfg, w1, groups[1..], states, merge)
  }

  /** put(states, merge). */
  function Put(cfg: DaoConfig, w: World, states: seq<Entity>, merge: bool): (Outcome, World) {
    if !AllValid(states) then (Failure(IllegalState(INVALID_STATE)), w)
    else PutGroups(cfg, w, Group(PutEntries(cfg, states)), states, merge)
  }

  /** save(states): none of the rows may exist yet; never merges. */
  function Save(cfg: DaoConfig, w: World, states: seq<Entity>): (Outcome, World) {
    var v := Verify(cfg, w, false, states);
    if v.Failure? then (v, w) else Put(cfg, w, states, false)
  }

  /** update(states): all of the rows must exist; merges when merging is configured. */
  function Update(cfg: DaoConfig, w: World, states: seq<Entity>): (Outcome, World) {
    var v := Verify(cfg, w, true, states);
    if v.Failure? then (v, w) else Put(cfg, w, states, true)
  }

  // --------------------------------------------------------- optimistic delete

  /** The compare-and-swap delete of one row, guarded on the entity's version. */
  function CasDelete(cfg: DaoConfig, w: World, d: Entry<DeleteRow>, version: Option<Long>): (Reply, World) {
    var k := RowKey(d.table, d.item.row);
    if d.table in w.down then (FutureFailed, w)
    else if Current(w, k) == version then (Replied(None), w.(cells := w.cells - {k}))
    else if d.item.row in cfg.idOfRow then (Replied(Some(OptimisticFailure(cfg.idOfRow[d.item.row], d.table))), w)
    else (FutureFailed, w)
  }

  function CasDeletes(cfg: DaoConfig, w: World, dels: seq<Entry<DeleteRow>>, version: Option<Long>): (seq<Reply>, World) {
    if dels == [] then ([], w)
    else
      var (rs, w1) := CasDeletes(cfg, w, dels[..|dels| - 1], version);
      var (r, w2) := CasDelete(cfg, w1, dels[|dels| - 1], version);
      (rs + [r], w2)
  }

  /**
   * deleteOptimistically from the given entity on, with the replies of the
   * deletes already dispatched: an invalid entity stops the loop, and the
   * deletes dispatched before it stay applied.
   */
  function DeleteOptimisticallyFrom(cfg: DaoConfig, w: World, states: seq<Entity>, replies: seq<Reply>): (Outcome, World)
    decreases |states|
  {
    if states == [] then (ErrorsOutcome(replies), w)
    else if !states[0].valid then (Failure(IllegalState(INVALID_STATE)), w)
    else
      var (rs, w1) := CasDeletes(cfg, w, cfg.toDeletes(states[0], false), states[0].version);
      DeleteOptimisticallyFrom(cfg, w1, states[1..], replies + rs)
  }

  // ----------------------------------------------------- non-optimistic delete

  /** HTable.delete of a batch. */
  function BatchDelete(w: World, table: string, dels: seq<DeleteRow>): World {
    if dels == [] then w
    else
      var w1 := BatchDelete(w, table, dels[..|dels| - 1]);
      w1.(cells := w1.cells - {RowKey(table, dels[|dels| - 1].row)})
  }

  function DeleteEntries(cfg: DaoConfig, states: seq<Entity>): seq<Entry<DeleteRow>> {
    if states == [] then []
    else DeleteEntries(cfg, states[..|states| - 1]) + cfg.toDeletes(states[|states| - 1], PessimisticFlag(cfg))
  }

  /** One table's batch delete; every entity is unlocked whatever happened. */
  function DeleteGroup(w: World, b: Batch<DeleteRow>, states: seq<Entity>): (Outcome, World) {
    var (o, w1) := if b.table in w.down then (Failure(StoreFailure(b.table)), w) else (Success, BatchDelete(w, b.table, b.items));
    (o, w1.(unlocked := w1.unlocked + states))
  }

  function DeleteGroups(w: World, groups: seq<Batch<DeleteRow>>, states: seq<Entity>): (Outcome, World)
    decreases |groups|
  {
    if groups == [] then (Success, w)
    else
      var (o, w1) := DeleteGroup(w, groups[0], states);
      if o.Failure? then (o, w1) else DeleteGroups(w1, groups[1..], states)
  }

  /** deleteNonOptimistically(states). */
  function DeleteNonOptimistically(cfg: DaoConfig, w: World, states: seq<Entity>): (Outcome, World) {
    if !AllValid(states) then (Failure(IllegalState(INVALID_STATE)), w)
    else DeleteGroups(w, Group(DeleteEntries(cfg, states)), states)
  }

  /** delete(states): all of the rows must exist. */
  function Delete(cfg: DaoConfig, w: World, states: seq<Entity>): (Outcome, World) {
    var v := Verify(cfg, w, true, states);
    if v.Failure? then (v, w)
    else if UseOptimistic(cfg) then DeleteOptimisticallyFrom(cfg, w, states, [])
    else DeleteNonOptimistically(cfg, w, states)
  }
}
