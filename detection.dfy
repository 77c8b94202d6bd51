/** `detectar_irregularidades`: join the aggregates, fill the Motivo column
    row by row with the cascade, then order the rows by |Diferencia|,
    largest first. */
module Detection {
  import opened Records
  import opened Aggregation
  import opened Matching
  import opened AlternateSearch
  import opened Classification

  /** An output row: the comparison and its Motivo. */
  datatype ClassifiedRow = ClassifiedRow(row: ComparisonRow, reason: Reason)

  /** `Diferencia_Abs`, the sort key. */
  function Magnitude(c: ClassifiedRow): real
  {
    Abs(c.row.difference)
  }

  predicate ByMagnitudeDescending(rows: seq<ClassifiedRow>)
  {
    forall i, j :: 0 <= i < j < |rows| ==> Magnitude(rows[i]) >= Magnitude(rows[j])
  }

  /** What the classification loop produces: each joined row with the
      reason the cascade gives it. */
  function ClassifyAll(rows: seq<ComparisonRow>, pool: seq<IncomeRecord>): seq<ClassifiedRow>
  {
    seq(|rows|, k requires 0 <= k < |rows| =>
      ClassifiedRow(rows[k], Classify(rows[k], AlternateAmounts(pool, rows[k].clientId))))
  }

  /** The head of a sorted sequence, larger than `x`, stays ahead of the
      tail with `x` inserted, so it can be put back in front. */
  lemma HeadDominates(x: ClassifiedRow, s: seq<ClassifiedRow>, rest: seq<ClassifiedRow>)
    requires s != [] && ByMagnitudeDescending(s) && ByMagnitudeDescending(rest)
    requires Magnitude(x) < Magnitude(s[0])
    requires multiset(rest) == multiset(s[1..]) + multiset{x}
    ensures ByMagnitudeDescending([s[0]] + rest)
  {
    forall k | 0 <= k < |rest| ensures Magnitude(s[0]) >= Magnitude(rest[k]) {
      assert rest[k] in multiset(rest);
      if rest[k] != x {
        assert rest[k] in multiset(s[1..]);
        var m :| 0 <= m < |s[1..]| && s[1..][m] == rest[k];
        assert s[m + 1] == rest[k];
      }
    }
    var r := [s[0]] + rest;
    forall i, j | 0 <= i < j < |r| ensures Magnitude(r[i]) >= Magnitude(r[j]) {
      if i > 0 {
        assert r[i] == rest[i - 1] && r[j] == rest[j - 1];
      } else {
        assert r[j] == rest[j - 1];
      }
    }
  }

  function InsertByMagnitude(x: ClassifiedRow, s: seq<ClassifiedRow>): (r: seq<ClassifiedRow>)
    requires ByMagnitudeDescending(s)
    ensures ByMagnitudeDescending(r)
    ensures multiset(r) == multiset(s) + multiset{x}
  {
    if s == [] || Magnitude(x) >= Magnitude(s[0]) then
      [x] + s
    else
      var rest := InsertByMagnitude(x, s[1..]);
      assert s == [s[0]] + s[1..];
      HeadDominates(x, s, rest);
      [s[0]] + rest
  }

  /** `sort_values('Diferencia_Abs', ascending=False)`: the same rows, in
      non-increasing order of |Diferencia|. */
  function SortByMagnitude(s: seq<ClassifiedRow>): (r: seq<ClassifiedRow>)
    ensures ByMagnitudeDescending(r)
    ensures multiset(r) == multiset(s)
  {
    if s == [] then []
    else
      assert s == [s[0]] + s[1..];
      InsertByMagnitude(s[0], SortByMagnitude(s[1..]))
  }

  /** Joins the two aggregates, labels every joined row in a Motivo array
      that starts out all '' and is written cell by cell, and returns the
      labelled rows ordered by |Diferencia|. */
  method DetectIrregularities(ledger: seq<ClientTotal>, reported: seq<ClientTotal>, pool: seq<IncomeRecord>)
    returns (result: seq<ClassifiedRow>)
    requires StrictlyAscending(ledger) && StrictlyAscending(reported)
    ensures multiset(result) == multiset(ClassifyAll(Join(ledger, reported), pool))
    ensures ByMagnitudeDescending(result)
    ensures forall c :: c in result ==>
      (Consistent(c.row) && c.reason != Unassigned && c.reason == Classify(c.row, AlternateAmounts(pool, c.row.clientId)))
    ensures forall c :: c in result ==>
      (c.row.ledger == TotalOf(ledger, c.row.clientId) && c.row.reported == TotalOf(reported, c.row.clientId))
    ensures (set c | c in result :: c.row.clientId) == TotalIds(ledger) + TotalIds(reported)
  {
    var rows := Join(ledger, reported);
    var motivo := new Reason[|rows|](_ => Unassigned);
    for i := 0 to |rows|
      invariant forall k :: 0 <= k < i ==> motivo[k] == Classify(rows[k], AlternateAmounts(pool, rows[k].clientId))
    {
      motivo[i] := ClassifyRow(rows[i], pool);
    }
    var reasons := motivo[..];
    var classified := seq(|rows|, k requires 0 <= k < |rows| => ClassifiedRow(rows[k], reasons[k]));
    assert classified == ClassifyAll(rows, pool);
    result := SortByMagnitude(classified);
    forall c | c in result
      ensures Consistent(c.row) && c.reason == Classify(c.row, AlternateAmounts(pool, c.row.clientId))
      ensures c.row.ledger == TotalOf(ledger, c.row.clientId) && c.row.reported == TotalOf(reported, c.row.clientId)
    {
      assert c in multiset(classified);
      var k :| 0 <= k < |classified| && classified[k] == c;
    }
    ResultIds(rows, classified, result);
  }

  lemma ResultIds(rows: seq<ComparisonRow>, classified: seq<ClassifiedRow>, result: seq<ClassifiedRow>)
    requires |classified| == |rows|
    requires forall k :: 0 <= k < |rows| ==> classified[k].row == rows[k]
    requires multiset(result) == multiset(classified)
    ensures (set c | c in result :: c.row.clientId) == RowIds(rows)
  {
    forall x | x in RowIds(rows) ensures x in (set c | c in result :: c.row.clientId) {
      var row :| row in rows && row.clientId == x;
      var k :| 0 <= k < |rows| && rows[k] == row;
      assert classified[k] in multiset(result);
    }
    forall c | c in result ensures c.row.clientId in RowIds(rows) {
      assert c in multiset(classified);
      var k :| 0 <= k < |classified| && classified[k] == c;
      assert rows[k] in rows;
    }
  }
}
