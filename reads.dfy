/**
 * CommonDao's best-effort reads: getByIds fetches every id and keeps the
 * distinct entities found; scanList converts a batch of scanned rows and
 * fails as soon as one conversion throws. getList and getAll compose them
 * with the query compiler.
 */
module Reads {
  import opened Wrappers
  import opened QueryParams
  import opened Filters
  import opened FilterSpec
  import opened FilterCompiler

  /** What the converter (rowsToObject) does with one non-empty row. */
  datatype Conversion<T> = Converted(entity: Option<T>) | ConversionFailed

  /** One HBase Result: null or empty, or a row and what converting it gives. */
  datatype RowResult<T> = EmptyResult | RowFound(conversion: Conversion<T>)

  /** How a Future completes: with a value (possibly null) or with an exception. */
  datatype Outcome<T> = Returned(value: Option<T>) | Threw

  /** The failures a list read propagates to its caller. */
  datatype ReadError = CompileFailed(cause: CompileError) | ConversionError

  /**
   * getByIdCallback(id) for one id: `fetched` is None when deriving the row
   * id or the Get threw, otherwise the Result the table returned.
   */
  function ByIdCallback<T(==)>(fetched: Option<RowResult<T>>): (o: Outcome<T>)
    ensures o.Threw? <==> fetched.None? || fetched == Some(RowFound(ConversionFailed))
    ensures o.Returned? && o.value.Some? <==> fetched.Some? && fetched.value.RowFound? && fetched.value.conversion.Converted? && fetched.value.conversion.entity.Some?
  {
    match fetched
    case None => Threw
    case Some(EmptyResult) => Returned(None)
    case Some(RowFound(ConversionFailed)) => Threw
    case Some(RowFound(Converted(e))) => Returned(e)
  }

  /** The non-null values of the futures that completed normally, in order. */
  function Present<T(==)>(outcomes: seq<Outcome<T>>): seq<T> {
    if outcomes == [] then []
    else
      var last := outcomes[|outcomes| - 1];
      Present(outcomes[..|outcomes| - 1]) + (if last.Returned? && last.value.Some? then [last.value.value] else [])
  }

  /** A LinkedHashSet built from a sequence: first occurrences, in order. */
  function Distinct<T(==)>(s: seq<T>): (r: seq<T>)
    ensures forall i :: 0 <= i < |s| ==> s[i] in r
    ensures forall i :: 0 <= i < |r| ==> r[i] in s
    ensures forall i, j :: 0 <= i < j < |r| ==> r[i] != r[j]
    ensures |r| <= |s|
  {
    if s == [] then []
    else
      var init := s[..|s| - 1];
      assert forall i :: 0 <= i < |init| ==> init[i] == s[i];
      var r := Distinct(init);
      if s[|s| - 1] in r then r else r + [s[|s| - 1]]
  }

  predicate NoDuplicates<T(==)>(s: seq<T>) {
    forall i, j :: 0 <= i < j < |s| ==> s[i] != s[j]
  }

  lemma PresentSnoc<T>(outcomes: seq<Outcome<T>>, o: Outcome<T>)
    ensures Present(outcomes + [o]) == Present(outcomes) + (if o.Returned? && o.value.Some? then [o.value.value] else [])
  {
    assert (outcomes + [o])[..|outcomes|] == outcomes;
  }

  lemma DistinctSnoc<T>(s: seq<T>, x: T)
    ensures Distinct(s + [x]) == if x in Distinct(s) then Distinct(s) else Distinct(s) + [x]
  {
    assert (s + [x])[..|s|] == s;
  }

  /** A value is present exactly when some future returned it. */
  lemma {:induction false} PresentMembers<T>(outcomes: seq<Outcome<T>>, x: T)
    ensures x in Present(outcomes) <==> exists i :: 0 <= i < |outcomes| && outcomes[i] == Returned(Some(x))
  {
    if outcomes != [] {
      var n := |outcomes| - 1;
      PresentMembers(outcomes[..n], x);
      if x in Present(outcomes[..n]) {
        var i :| 0 <= i < n && outcomes[..n][i] == Returned(Some(x));
        assert outcomes[i] == Returned(Some(x));
      }
      if exists i :: 0 <= i < |outcomes| && outcomes[i] == Returned(Some(x)) {
        var i :| 0 <= i < |outcomes| && outcomes[i] == Returned(Some(x));
        if i < n {
          assert outcomes[..n][i] == Returned(Some(x));
        }
      }
    }
  }

  /** An entity is in the set exactly when some future returned it. */
  lemma FoundMembers<T>(outcomes: seq<Outcome<T>>, x: T)
    ensures x in Distinct(Present(outcomes)) <==> exists i :: 0 <= i < |outcomes| && outcomes[i] == Returned(Some(x))
  {
    PresentMembers(outcomes, x);
    var present := Present(outcomes);
    var result := Distinct(present);
    if x in present {
      var k :| 0 <= k < |present| && present[k] == x;
    }
    if x in result {
      var k :| 0 <= k < |result| && result[k] == x;
    }
  }

  /** A LinkedHashSet of values that are already distinct keeps them all, in order. */
  lemma {:induction false} DistinctOfDistinct<T>(s: seq<T>)
    requires NoDuplicates(s)
    ensures Distinct(s) == s
  {
    if s != [] {
      var n := |s| - 1;
      assert NoDuplicates(s[..n]);
      DistinctOfDistinct(s[..n]);
      assert s[n] !in s[..n];
      assert s[..n] + [s[n]] == s;
    }
  }

  /** Building the set twice changes nothing. */
  lemma DistinctIdempotent<T>(s: seq<T>)
    ensures Distinct(Distinct(s)) == Distinct(s)
  {
    DistinctOfDistinct(Distinct(s));
  }

  /** The futures getByIds creates: one per id, in id order (duplicate ids give separate futures). */
  function Futures<T(==)>(fetched: seq<Option<RowResult<T>>>): (fs: seq<Outcome<T>>)
    ensures |fs| == |fetched|
    ensures forall i :: 0 <= i < |fetched| ==> fs[i] == ByIdCallback(fetched[i])
  {
    seq(|fetched|, i requires 0 <= i < |fetched| => ByIdCallback(fetched[i]))
  }

  /** What getByIds returns: the LinkedHashSet of the non-null values of the futures. */
  function ByIds<T(==)>(fetched: seq<Option<RowResult<T>>>): seq<T> {
    Distinct(Present(Futures(fetched)))
  }

  /**
   * getByIds keeps an entity exactly when the callback for some id returned
   * it: ids whose row is missing, empty, converted to null or whose fetch
   * threw contribute nothing, and no entity appears twice.
   */
  lemma ByIdsMembers<T>(fetched: seq<Option<RowResult<T>>>, x: T)
    ensures x in ByIds(fetched) <==> exists i :: 0 <= i < |fetched| && ByIdCallback(fetched[i]) == Returned(Some(x))
    ensures NoDuplicates(ByIds(fetched))
  {
    FoundMembers(Futures(fetched), x);
  }

  /** getByIds: submits every fetch, then collects the values of the futures. */
  method GetByIds<T(==)>(fetched: seq<Option<RowResult<T>>>) returns (result: seq<T>)
    ensures result == ByIds(fetched)
  {
    var futures: seq<Outcome<T>> := [];
    var i := 0;
    while i < |fetched|
      invariant 0 <= i <= |fetched|
      invariant futures == Futures(fetched[..i])
    {
      assert fetched[..i + 1][..i] == fetched[..i];
      futures := futures + [ByIdCallback(fetched[i])];
      i := i + 1;
    }
    assert fetched[..i] == fetched;
    result := [];
    var j := 0;
    while j < |futures|
      invariant 0 <= j <= |futures|
      invariant result == Distinct(Present(futures[..j]))
    {
      var f := futures[j];
      PresentSnoc(futures[..j], f);
      assert futures[..j] + [f] == futures[..j + 1];
      if f.Returned? && f.value.Some? {
        DistinctSnoc(Present(futures[..j]), f.value.value);
        if f.value.value !in result {
          result := result + [f.value.value];
        }
      } else {
        assert Present(futures[..j]) + [] == Present(futures[..j]);
      }
      j := j + 1;
    }
    assert futures[..j] == futures;
  }

  /** scanner.next(n): the next n rows at most, none when n is not positive. */
  function Next<T(==)>(matched: seq<RowResult<T>>, n: int): (batch: seq<RowResult<T>>)
    ensures |batch| <= |matched| && batch == matched[..|batch|]
    ensures n >= 0 ==> |batch| <= n
    ensures n >= |matched| ==> batch == matched
  {
    if n <= 0 then [] else if n >= |matched| then matched else matched[..n]
  }

  /** The conversions scanList submits: one per non-empty row, in row order. */
  function Submitted<T(==)>(batch: seq<RowResult<T>>): seq<Conversion<T>> {
    if batch == [] then []
    else
      var last := batch[|batch| - 1];
      Submitted(batch[..|batch| - 1]) + (if last.RowFound? then [last.conversion] else [])
  }

  /** Joining the conversions: the first failure is rethrown, null results are dropped. */
  function Joined<T(==)>(conversions: seq<Conversion<T>>): Result<seq<T>, ReadError> {
    if conversions == [] then Ok([])
    else
      JoinStep(Joined(conversions[..|conversions| - 1]), conversions[|conversions| - 1])
  }

  /** Joining one more future onto the list built so far. */
  function JoinStep<T(==)>(sofar: Result<seq<T>, ReadError>, c: Conversion<T>): Result<seq<T>, ReadError> {
    match sofar
    case Err(e) => Err(e)
    case Ok(ts) =>
      match c
      case ConversionFailed => Err(ConversionError)
      case Converted(None) => Ok(ts)
      case Converted(Some(t)) => Ok(ts + [t])
  }

  /** What scanList returns for the rows the scan matches. */
  function ScanResult<T(==)>(matched: seq<RowResult<T>>, maxRows: int): Result<seq<T>, ReadError> {
    Joined(Submitted(Next(matched, maxRows)))
  }

  /** The entity a row yields when its conversion returned one. */
  predicate Yields<T(==)>(row: RowResult<T>, t: T) {
    row == RowFound(Converted(Some(t)))
  }

  /**
   * scanList(table, scan, maxRows): `matched` is what the scanner for the
   * scan would return row by row.
   */
  method ScanList<T(==)>(matched: seq<RowResult<T>>, maxRows: int) returns (r: Result<seq<T>, ReadError>)
    ensures r == ScanResult(matched, maxRows)
  {
    var results := Next(matched, maxRows);
    var futures: seq<Conversion<T>> := [];
    var i := 0;
    while i < |results|
      invariant 0 <= i <= |results|
      invariant futures == Submitted(results[..i])
    {
      assert results[..i + 1][..i] == results[..i];
      if results[i].RowFound? {
        futures := futures + [results[i].conversion];
      }
      i := i + 1;
    }
    assert results[..i] == results;
    var templates: seq<T> := [];
    var j := 0;
    while j < |futures|
      invariant 0 <= j <= |futures|
      invariant Joined(futures[..j]) == Ok(templates)
    {
      assert futures[..j + 1][..j] == futures[..j];
      match futures[j]
      case ConversionFailed =>
        assert Joined(futures[..j + 1]) == Err(ConversionError);
        JoinedFailurePersists(futures, j + 1);
        return Err(ConversionError);
      case Converted(t) =>
        if t.Some? {
          templates := templates + [t.value];
        }
      j := j + 1;
    }
    assert futures[..j] == futures;
    r := Ok(templates);
  }

  /** Once a conversion has failed, the joined result stays failed. */
  lemma {:induction false} JoinedFailurePersists<T>(conversions: seq<Conversion<T>>, k: nat)
    requires k <= |conversions|
    requires Joined(conversions[..k]) == Err(ConversionError)
    ensures Joined(conversions) == Err(ConversionError)
  {
    if k < |conversions| {
      var n := |conversions| - 1;
      assert conversions[..n][..k] == conversions[..k];
      JoinedFailurePersists(conversions[..n], k);
      assert conversions[..|conversions|] == conversions;
    } else {
      assert conversions[..k] == conversions;
    }
  }

  /**
   * scanList fails exactly when a non-empty row among the first maxRows
   * fails to convert.
   */
  lemma {:induction false} ScanFailsIffConversionFails<T>(batch: seq<RowResult<T>>)
    ensures Joined(Submitted(batch)).Err? <==> exists i :: 0 <= i < |batch| && batch[i] == RowFound(ConversionFailed)
  {
    if batch != [] {
      var n := |batch| - 1;
      var init := batch[..n];
      ScanFailsIffConversionFails(init);
      assert forall i :: 0 <= i < n ==> init[i] == batch[i];
      SubmittedSnoc(init, batch[n]);
      assert init + [batch[n]] == batch;
      if batch[n].RowFound? {
        JoinedSnoc(Submitted(init), batch[n].conversion);
      } else {
        assert Submitted(init) + [] == Submitted(init);
      }
    }
  }

  lemma SubmittedSnoc<T>(batch: seq<RowResult<T>>, row: RowResult<T>)
    ensures Submitted(batch + [row]) == Submitted(batch) + (if row.RowFound? then [row.conversion] else [])
  {
    assert (batch + [row])[..|batch|] == batch;
  }

  lemma JoinedSnoc<T>(conversions: seq<Conversion<T>>, c: Conversion<T>)
    ensures Joined(conversions + [c]) == JoinStep(Joined(conversions), c)
  {
    assert (conversions + [c])[..|conversions|] == conversions;
  }

  /**
   * The entities the rows yield, read off the rows themselves: the non-null
   * conversions of the found rows, in row order, duplicates kept.
   */
  function Yielded<T>(batch: seq<RowResult<T>>): seq<T> {
    if batch == [] then []
    else
      var last := batch[|batch| - 1];
      Yielded(batch[..|batch| - 1])
        + (if last.RowFound? && last.conversion.Converted? && last.conversion.entity.Some? then [last.conversion.entity.value] else [])
  }

  /**
   * When scanList succeeds, its list is exactly the entities the rows
   * yield, in row order and with duplicates kept.
   */
  lemma {:induction false} ScanKeepsOrder<T>(batch: seq<RowResult<T>>)
    requires Joined(Submitted(batch)).Ok?
    ensures Joined(Submitted(batch)).value == Yielded(batch)
  {
    if batch != [] {
      var n := |batch| - 1;
      var init := batch[..n];
      assert init + [batch[n]] == batch;
      SubmittedSnoc(init, batch[n]);
      if batch[n].RowFound? {
        JoinedSnoc(Submitted(init), batch[n].conversion);
      } else {
        assert Submitted(init) + [] == Submitted(init);
      }
      ScanFailsIffConversionFails(init);
      ScanFailsIffConversionFails(batch);
      assert forall i :: 0 <= i < n ==> init[i] == batch[i];
      ScanKeepsOrder(init);
    }
  }

  /**
   * When scanList succeeds, it holds exactly the entities some row yields,
   * and no more entities than rows it read.
   */
  lemma {:induction false} ScanMembers<T>(batch: seq<RowResult<T>>)
    requires Joined(Submitted(batch)).Ok?
    ensures |Joined(Submitted(batch)).value| <= |batch|
    ensures forall t :: t in Joined(Submitted(batch)).value <==> exists i :: 0 <= i < |batch| && Yields(batch[i], t)
  {
    if batch != [] {
      var n := |batch| - 1;
      var init := batch[..n];
      assert init + [batch[n]] == batch;
      SubmittedSnoc(init, batch[n]);
      if batch[n].RowFound? {
        JoinedSnoc(Submitted(init), batch[n].conversion);
      } else {
        assert Submitted(init) + [] == Submitted(init);
      }
      ScanFailsIffConversionFails(init);
      ScanFailsIffConversionFails(batch);
      assert forall i :: 0 <= i < n ==> init[i] == batch[i];
      ScanMembers(init);
    }
  }

  /** With maxRows rows or more allowed, a scan that succeeds returns at most maxRows entities. */
  lemma ScanRespectsMaxRows<T>(matched: seq<RowResult<T>>, maxRows: int)
    requires ScanResult(matched, maxRows).Ok?
    ensures |ScanResult(matched, maxRows).value| <= if maxRows <= 0 then 0 else maxRows
  {
    ScanMembers(Next(matched, maxRows));
  }

  /**
   * getList(query): the scan formScan builds, read with the query's row
   * limit; `rowsFor` is what the table returns for a scan.
   */
  method GetList<T(==)>(params: seq<QueryParameter>, cfg: Configs, maxRows: int, rowsFor: ScanPlan -> seq<RowResult<T>>)
    returns (r: Result<seq<T>, ReadError>)
    ensures PlanOf(params, cfg).Err? ==> r == Err(CompileFailed(PlanOf(params, cfg).error))
    ensures PlanOf(params, cfg).Ok? ==> r == ScanResult(rowsFor(PlanOf(params, cfg).value), MaxScanRows(params, maxRows))
  {
    var scan := FormScan(params, cfg);
    if scan.Err? {
      return Err(CompileFailed(scan.error));
    }
    var n := GetMaxScanRows(params, maxRows);
    var plan := ScanPlan(scan.value.startRow, scan.value.columns, scan.value.filter);
    r := ScanList(rowsFor(plan), n);
  }

  /** The scan getAll runs: every row, filtered by a RowFilter matching any row key. */
  const AllRows := ScanPlan("", [], Some(MatchAll))

  /** getAll(): every row up to the configured limit, as a LinkedHashSet. */
  method GetAll<T(==)>(maxRows: int, rowsFor: ScanPlan -> seq<RowResult<T>>) returns (r: Result<seq<T>, ReadError>)
    ensures ScanResult(rowsFor(AllRows), DefaultScanRows(maxRows)).Err? ==> r == Err(ConversionError)
    ensures ScanResult(rowsFor(AllRows), DefaultScanRows(maxRows)).Ok? ==>
      r == Ok(Distinct(ScanResult(rowsFor(AllRows), DefaultScanRows(maxRows)).value))
  {
    var list := ScanList(rowsFor(AllRows), DefaultScanRows(maxRows));
    if list.Err? {
      return Err(ConversionError);
    }
    r := Ok(Distinct(list.value));
  }
}
