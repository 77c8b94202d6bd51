/** The outer join of the two aggregates on the client id
    (`pd.merge(..., how='outer')` followed by `fillna(0)` on both amount
    columns and `Diferencia = Monto_STP - Monto_Reportado`). An outer merge
    sorts the join keys, so rows come out in ascending id order. */
module Matching {
  import opened Aggregation

  /** One client's comparison: ledger total (Monto_STP), reported total
      (Monto_Reportado) and their difference (Diferencia). */
  datatype ComparisonRow = ComparisonRow(clientId: int, ledger: real, reported: real, difference: real)

  predicate Consistent(row: ComparisonRow)
  {
    row.difference == row.ledger - row.reported
  }

  predicate RowsAscending(rows: seq<ComparisonRow>)
  {
    forall i, j :: 0 <= i < j < |rows| ==> rows[i].clientId < rows[j].clientId
  }

  function RowIds(rows: seq<ComparisonRow>): set<int>
  {
    set row | row in rows :: row.clientId
  }

  lemma RowIdsOfCons(h: ComparisonRow, rest: seq<ComparisonRow>)
    ensures RowIds([h] + rest) == {h.clientId} + RowIds(rest)
  {
    var r := [h] + rest;
    forall x | x in RowIds(r) ensures x in {h.clientId} + RowIds(rest) {
      var e :| e in r && e.clientId == x;
      if e != h {
        assert e in rest;
      }
    }
    forall x | x in RowIds(rest) ensures x in RowIds(r) {
      var e :| e in rest && e.clientId == x;
      assert e in r;
    }
  }

  lemma RowsCons(h: ComparisonRow, rest: seq<ComparisonRow>)
    requires RowsAscending(rest)
    requires forall x :: x in RowIds(rest) ==> h.clientId < x
    ensures RowsAscending([h] + rest)
  {
    assert forall k :: 0 <= k < |rest| ==> rest[k].clientId in RowIds(rest);
  }

  /** Every row is consistent and carries each side's total for its id
      (0 where that side has no row). */
  predicate FilledFrom(rows: seq<ComparisonRow>, a: seq<ClientTotal>, b: seq<ClientTotal>)
  {
    forall k :: 0 <= k < |rows| ==>
      (Consistent(rows[k]) && rows[k].ledger == TotalOf(a, rows[k].clientId)
       && rows[k].reported == TotalOf(b, rows[k].clientId))
  }

  lemma FilledCons(h: ComparisonRow, rest: seq<ComparisonRow>,
                   a: seq<ClientTotal>, b: seq<ClientTotal>, a': seq<ClientTotal>, b': seq<ClientTotal>)
    requires FilledFrom(rest, a', b')
    requires Consistent(h) && h.ledger == TotalOf(a, h.clientId) && h.reported == TotalOf(b, h.clientId)
    requires forall x :: x in RowIds(rest) ==> TotalOf(a, x) == TotalOf(a', x) && TotalOf(b, x) == TotalOf(b', x)
    ensures FilledFrom([h] + rest, a, b)
  {
    var r := [h] + rest;
    forall k | 0 < k < |r|
      ensures Consistent(r[k]) && r[k].ledger == TotalOf(a, r[k].clientId) && r[k].reported == TotalOf(b, r[k].clientId)
    {
      assert r[k] == rest[k - 1] && r[k] in rest;
    }
  }

  /** Joins two aggregates: exactly one row per id found in either, in
      ascending id order, each side's total or 0 where it has no row, and
      the difference ledger minus reported. */
  function Join(a: seq<ClientTotal>, b: seq<ClientTotal>): (r: seq<ComparisonRow>)
    requires StrictlyAscending(a) && StrictlyAscending(b)
    ensures RowsAscending(r)
    ensures RowIds(r) == TotalIds(a) + TotalIds(b)
    ensures FilledFrom(r, a, b)
    decreases |a| + |b|
  {
    if a == [] && b == [] then []
    else if b == [] || (a != [] && a[0].clientId < b[0].clientId) then
      IdsOfTail(a);
      AscendingHead(a);
      BelowAll(a[0].clientId, b);
      var h := ComparisonRow(a[0].clientId, a[0].total, 0.0, a[0].total - 0.0);
      var rest := Join(a[1..], b);
      RowIdsOfCons(h, rest);
      RowsCons(h, rest);
      FilledCons(h, rest, a, b, a[1..], b);
      [h] + rest
    else if a == [] || b[0].clientId < a[0].clientId then
      IdsOfTail(b);
      AscendingHead(b);
      BelowAll(b[0].clientId, a);
      var h := ComparisonRow(b[0].clientId, 0.0, b[0].total, 0.0 - b[0].total);
      var rest := Join(a, b[1..]);
      RowIdsOfCons(h, rest);
      RowsCons(h, rest);
      FilledCons(h, rest, a, b, a, b[1..]);
      [h] + rest
    else
      IdsOfTail(a);
      AscendingHead(a);
      IdsOfTail(b);
      AscendingHead(b);
      var h := ComparisonRow(a[0].clientId, a[0].total, b[0].total, a[0].total - b[0].total);
      var rest := Join(a[1..], b[1..]);
      RowIdsOfCons(h, rest);
      RowsCons(h, rest);
      FilledCons(h, rest, a, b, a[1..], b[1..]);
      [h] + rest
  }

  /** An id below every id of an aggregate has no row there. */
  lemma BelowAll(x: int, t: seq<ClientTotal>)
    requires StrictlyAscending(t) && (t == [] || x < t[0].clientId)
    ensures x !in TotalIds(t) && TotalOf(t, x) == 0.0
  {
    if t != [] {
      AscendingHead(t);
      IdsOfTail(t);
    }
    TotalOfAbsent(t, x);
  }

  lemma {:induction false} AscendingRowsCount(rows: seq<ComparisonRow>)
    requires RowsAscending(rows)
    ensures |RowIds(rows)| == |rows|
  {
    if rows != [] {
      var rest := rows[1..];
      assert rows == [rows[0]] + rest;
      RowIdsOfCons(rows[0], rest);
      assert RowsAscending(rest);
      AscendingRowsCount(rest);
    }
  }

  /** The join has exactly one row per client found in either aggregate. */
  lemma OneRowPerClient(a: seq<ClientTotal>, b: seq<ClientTotal>)
    requires StrictlyAscending(a) && StrictlyAscending(b)
    ensures |Join(a, b)| == |TotalIds(a) + TotalIds(b)|
    ensures forall i, j :: 0 <= i < j < |Join(a, b)| ==> Join(a, b)[i].clientId != Join(a, b)[j].clientId
  {
    AscendingRowsCount(Join(a, b));
  }
}
