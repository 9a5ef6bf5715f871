/**
 * Listing databases and tables (`getDatabases`, `getTables`, `contains`).
 *
 * The server's answer to the listing query is an input: either the query
 * failed, or it produced rows, each of which `rows.Scan` either reads as a
 * name or fails on. Both functions walk the rows in order, grow their
 * result with `append`, and give up with the first scan error, returning
 * no list at all.
 */
module Listing {
  import opened Outcomes
  import opened Strings

  /** Default value of the `-skipDBs` flag. */
  const DefaultSkipDBs: string := "information_schema,performance_schema,test"

  type Rows = seq<Result<string>>

  predicate IsScanError(row: Result<string>) { row.Err? }

  /** Index of the first row `rows.Scan` fails on, or `|rows|`. */
  function FirstScanError(rows: Rows): (k: nat)
    ensures k <= |rows|
    ensures forall i :: 0 <= i < k ==> rows[i].Ok?
    ensures k < |rows| ==> rows[k].Err?
  {
    FirstWhere(rows, IsScanError)
  }

  predicate AllScanned(rows: Rows)
  {
    forall i :: 0 <= i < |rows| ==> rows[i].Ok?
  }

  /** The names carried by rows that all scanned. */
  function Names(rows: Rows): (names: seq<string>)
    requires AllScanned(rows)
    ensures |names| == |rows|
    ensures forall i :: 0 <= i < |rows| ==> names[i] == rows[i].value
  {
    if rows == [] then [] else Names(rows[..|rows| - 1]) + [rows[|rows| - 1].value]
  }

  /** The names not in `skip`, in their original order. */
  function Keep(names: seq<string>, skip: seq<string>): (kept: seq<string>)
    ensures |kept| <= |names|
  {
    if names == [] then []
    else (if names[0] in skip then [] else [names[0]]) + Keep(names[1..], skip)
  }

  /** `a` is a subsequence of `b`: `b` with some elements dropped. */
  predicate Subsequence(a: seq<string>, b: seq<string>)
    decreases |b|
  {
    if b == [] then a == []
    else (a != [] && a[0] == b[0] && Subsequence(a[1..], b[1..])) || Subsequence(a, b[1..])
  }

  /** What `getTables` returns for a query outcome. */
  function TablesResult(query: Result<Rows>): (r: Result<seq<string>>)
  {
    match query
    case Err(e) => Err(e)
    case Ok(rows) =>
      var k := FirstScanError(rows);
      if k < |rows| then Err(rows[k].error)
      else Ok(Names(rows))
  }

  /** What `getDatabases` returns for a query outcome and a skip flag. */
  function DatabasesResult(query: Result<Rows>, skipDBs: string): (r: Result<seq<string>>)
  {
    match TablesResult(query)
    case Err(e) => Err(e)
    case Ok(names) => Ok(Keep(names, Split(skipDBs, ',')))
  }

  /** `contains`: a linear search that returns at the first match.
      `examined` is the number of elements compared before returning. */
  method Contains(slice: seq<string>, value: string) returns (found: bool, ghost examined: nat)
    ensures found <==> value in slice
    ensures examined <= |slice|
    ensures found ==> examined > 0 && slice[examined - 1] == value && value !in slice[..examined - 1]
    ensures !found ==> examined == |slice|
  {
    for i := 0 to |slice|
      invariant value !in slice[..i]
    {
      if slice[i] == value {
        return true, i + 1;
      }
    }
    return false, |slice|;
  }

  lemma {:induction false} KeepSnoc(names: seq<string>, x: string, skip: seq<string>)
    ensures Keep(names + [x], skip) == Keep(names, skip) + (if x in skip then [] else [x])
    decreases |names|
  {
    if names == [] {
      assert Keep([x], skip) == (if x in skip then [] else [x]) + Keep([], skip);
    } else {
      assert (names + [x])[1..] == names[1..] + [x];
      KeepSnoc(names[1..], x, skip);
    }
  }

  lemma NamesSnoc(rows: Rows, i: nat)
    requires i < |rows| && AllScanned(rows[..i + 1])
    ensures AllScanned(rows[..i])
    ensures Names(rows[..i + 1]) == Names(rows[..i]) + [rows[i].value]
  {
  }

  /** `getDatabases`. */
  method GetDatabases(query: Result<Rows>, skipDBs: string) returns (r: Result<seq<string>>)
    ensures r == DatabasesResult(query, skipDBs)
  {
    if query.Err? {
      return Err(query.error);
    }
    var rows := query.value;
    var databases: seq<string> := [];
    var skipDBList := Split(skipDBs, ',');
    var i := 0;
    while i < |rows|
      invariant 0 <= i <= |rows|
      invariant AllScanned(rows[..i])
      invariant databases == Keep(Names(rows[..i]), skipDBList)
    {
      if rows[i].Err? {
        assert FirstScanError(rows) == i;
        return Err(rows[i].error);
      }
      var database := rows[i].value;
      var skip, _ := Contains(skipDBList, database);
      if !skip {
        databases := databases + [database];
      }
      NamesSnoc(rows, i);
      KeepSnoc(Names(rows[..i]), database, skipDBList);
      i := i + 1;
    }
    assert rows[..i] == rows;
    return Ok(databases);
  }

  /** `getTables`. */
  method GetTables(query: Result<Rows>) returns (r: Result<seq<string>>)
    ensures r == TablesResult(query)
  {
    if query.Err? {
      return Err(query.error);
    }
    var rows := query.value;
    var tables: seq<string> := [];
    var i := 0;
    while i < |rows|
      invariant 0 <= i <= |rows|
      invariant AllScanned(rows[..i])
      invariant tables == Names(rows[..i])
    {
      if rows[i].Err? {
        assert FirstScanError(rows) == i;
        return Err(rows[i].error);
      }
      var table := rows[i].value;
      tables := tables + [table];
      NamesSnoc(rows, i);
      i := i + 1;
    }
    assert rows[..i] == rows;
    return Ok(tables);
  }

  // ---------------------------------------------------------------------
  // Properties of the listing specification

  lemma {:induction false} KeepIsSubsequence(names: seq<string>, skip: seq<string>)
    ensures Subsequence(Keep(names, skip), names)
    decreases |names|
  {
    if names != [] {
      KeepIsSubsequence(names[1..], skip);
      var kept := Keep(names, skip);
      if names[0] in skip {
        assert kept == Keep(names[1..], skip);
      } else {
        assert kept[0] == names[0] && kept[1..] == Keep(names[1..], skip);
      }
    }
  }

  /** Keep keeps exactly the names that are not skipped. */
  lemma {:induction false} KeepMembers(names: seq<string>, skip: seq<string>, x: string)
    ensures x in Keep(names, skip) <==> x in names && x !in skip
    decreases |names|
  {
    if names != [] {
      KeepMembers(names[1..], skip, x);
      assert names == [names[0]] + names[1..];
    }
  }

  /** The listing is all-or-nothing: `getDatabases` returns a list exactly
      when the query worked and every row scanned, and otherwise returns
      the query's error or the first scan error. */
  lemma DatabasesResultAllOrNothing(query: Result<Rows>, skipDBs: string)
    ensures DatabasesResult(query, skipDBs).Ok? <==> query.Ok? && AllScanned(query.value)
    ensures query.Err? ==> DatabasesResult(query, skipDBs) == Err(query.error)
    ensures query.Ok? && !AllScanned(query.value) ==>
      var k := FirstScanError(query.value);
      k < |query.value| && DatabasesResult(query, skipDBs) == Err(query.value[k].error)
  {
  }

  /** On success the result is exactly the scanned names not in the split
      skip list, in row order: nothing skipped gets through, nothing else
      is lost, and nothing is invented. */
  lemma DatabasesResultFilters(query: Result<Rows>, skipDBs: string)
    requires DatabasesResult(query, skipDBs).Ok?
    ensures var dbs := DatabasesResult(query, skipDBs).value;
      && AllScanned(query.value)
      && Subsequence(dbs, Names(query.value))
      && (forall x :: x in dbs <==> x in Names(query.value) && x !in Split(skipDBs, ','))
  {
    var names, skip := Names(query.value), Split(skipDBs, ',');
    KeepIsSubsequence(names, skip);
    forall x ensures x in Keep(names, skip) <==> x in names && x !in skip {
      KeepMembers(names, skip, x);
    }
  }

  lemma DefaultSkipList()
    ensures Split(DefaultSkipDBs, ',') == ["information_schema", "performance_schema", "test"]
  {
    assert DefaultSkipDBs == "information_schema" + [','] + "performance_schema" + [','] + "test";
    SplitThree("information_schema", "performance_schema", "test", ',');
  }

  /** When every row scanned, `getTables` returns all their names. */
  lemma TablesResultAllScanned(rows: Rows)
    requires AllScanned(rows)
    ensures TablesResult(Ok(rows)) == Ok(Names(rows))
  {
    assert FirstScanError(rows) == |rows|;
  }

  lemma DefaultSkipKeep()
    ensures Keep(["information_schema", "test", "appdb"], ["information_schema", "performance_schema", "test"])
            == ["appdb"]
  {
  }

  /** With the default flag, the system databases and `test` are skipped. */
  lemma DefaultSkipExample()
    ensures DatabasesResult(Ok([Ok("information_schema"), Ok("test"), Ok("appdb")]), DefaultSkipDBs)
            == Ok(["appdb"])
  {
    var rows: Rows := [Ok("information_schema"), Ok("test"), Ok("appdb")];
    var names := ["information_schema", "test", "appdb"];
    assert TablesResult(Ok(rows)) == Ok(names) by {
      assert AllScanned(rows);
      TablesResultAllScanned(rows);
      assert Names(rows) == names;
    }
    DefaultSkipList();
    DefaultSkipKeep();
  }

  lemma UntrimmedSkipList()
    ensures Split("a, b", ',') == ["a", " b"]
  {
    assert Join(["a", " b"], ',') == "a, b";
    SplitJoin(["a", " b"], ',');
  }

  lemma UntrimmedSkipKeep()
    ensures Keep(["a", "b", " b"], ["a", " b"]) == ["b"]
  {
  }

  /** Split trims nothing: "a, b" skips "a" and " b" but not "b". */
  lemma UntrimmedSkipExample()
    ensures DatabasesResult(Ok([Ok("a"), Ok("b"), Ok(" b")]), "a, b") == Ok(["b"])
  {
    var rows: Rows := [Ok("a"), Ok("b"), Ok(" b")];
    var names := ["a", "b", " b"];
    assert TablesResult(Ok(rows)) == Ok(names) by {
      assert AllScanned(rows);
      TablesResultAllScanned(rows);
      assert Names(rows) == names;
    }
    UntrimmedSkipList();
    UntrimmedSkipKeep();
  }
}
