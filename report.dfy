/** The run behind the "Procesar" button: both aggregates, the detection,
    the Motivo text of every row and the per-reason summary
    (`resultado['Motivo'].value_counts()`). */
module Report {
  import opened Decimal
  import opened Records
  import opened Aggregation
  import opened Matching
  import opened Classification
  import opened Detection

  /** The Motivo text written into a row. */
  function Label(r: Reason): (s: string)
    ensures s == "" <==> r == Unassigned
  {
    match r
    case Unassigned => ""
    case NoPosPayment => "Sin pago aplicado en POS"
    case WithinTolerance => "OK"
    case DuplicatePayment(n) => "Pago duplicado (" + NatString(n) + " veces)"
    case OtherPaymentMethod => "Captura como otro medio de pago"
    case Difference => "Diferencia"
  }

  /** Only the duplicate text starts with 'P'. */
  lemma LabelHead(r: Reason)
    ensures r.DuplicatePayment? <==> |Label(r)| > 0 && Label(r)[0] == 'P'
  {
  }

  /** Distinct reasons get distinct texts, so counting texts counts reasons:
      "Pago duplicado (2 veces)" and "Pago duplicado (3 veces)" are tallied apart. */
  lemma LabelInjective(a: Reason, b: Reason)
    requires Label(a) == Label(b)
    ensures a == b
  {
    LabelHead(a);
    LabelHead(b);
    if a.DuplicatePayment? && b.DuplicatePayment? {
      var x, y := NatString(a.times), NatString(b.times);
      var pre := "Pago duplicado (";
      assert |x| == |y|;
      assert x == Label(a)[|pre|..|pre| + |x|];
      assert y == Label(b)[|pre|..|pre| + |y|];
      NatStringInjective(a.times, b.times);
    }
  }

  /** One line of the summary: a Motivo text and how many rows carry it. */
  datatype LabelCount = LabelCount(text: string, count: nat)

  predicate DistinctLabels(t: seq<LabelCount>)
  {
    forall i, j :: 0 <= i < j < |t| ==> t[i].text != t[j].text
  }

  function SummaryLabels(t: seq<LabelCount>): set<string>
  {
    set e | e in t :: e.text
  }

  /** The count the summary gives `x`, 0 when `x` has no line. */
  function CountOf(t: seq<LabelCount>, x: string): nat
  {
    if t == [] then 0 else if t[0].text == x then t[0].count else CountOf(t[1..], x)
  }

  function SumCounts(t: seq<LabelCount>): nat
  {
    if t == [] then 0 else t[0].count + SumCounts(t[1..])
  }

  lemma SummaryLabelsOfCons(h: LabelCount, rest: seq<LabelCount>)
    ensures SummaryLabels([h] + rest) == {h.text} + SummaryLabels(rest)
  {
    var r := [h] + rest;
    forall x | x in SummaryLabels(r) ensures x in {h.text} + SummaryLabels(rest) {
      var e :| e in r && e.text == x;
      if e != h {
        assert e in rest;
      }
    }
    forall x | x in SummaryLabels(rest) ensures x in SummaryLabels(r) {
      var e :| e in rest && e.text == x;
      assert e in r;
    }
  }

  lemma DistinctCons(h: LabelCount, rest: seq<LabelCount>)
    requires DistinctLabels(rest) && h.text !in SummaryLabels(rest)
    ensures DistinctLabels([h] + rest)
  {
    assert forall k :: 0 <= k < |rest| ==> rest[k].text in SummaryLabels(rest);
  }

  lemma CountOfCons(h: LabelCount, rest: seq<LabelCount>, y: string)
    ensures CountOf([h] + rest, y) == if h.text == y then h.count else CountOf(rest, y)
  {
    assert ([h] + rest)[1..] == rest;
  }

  lemma SumCountsCons(h: LabelCount, rest: seq<LabelCount>)
    ensures SumCounts([h] + rest) == h.count + SumCounts(rest)
  {
    assert ([h] + rest)[1..] == rest;
  }

  /** Every line of a summary counts at least one row. */
  predicate PositiveCounts(t: seq<LabelCount>)
  {
    forall k :: 0 <= k < |t| ==> t[k].count > 0
  }

  /** Counts one more row with text `x`: its line goes up by one, or a new
      line with count 1 is appended. */
  function Bump(t: seq<LabelCount>, x: string): (r: seq<LabelCount>)
    ensures SummaryLabels(r) == SummaryLabels(t) + {x}
  {
    if t == [] then
      SummaryLabelsOfCons(LabelCount(x, 1), []);
      [LabelCount(x, 1)] + []
    else
      var tail := t[1..];
      assert t == [t[0]] + tail;
      SummaryLabelsOfCons(t[0], tail);
      if t[0].text == x then
        var h := LabelCount(x, t[0].count + 1);
        SummaryLabelsOfCons(h, tail);
        [h] + tail
      else
        var rest := Bump(tail, x);
        SummaryLabelsOfCons(t[0], rest);
        [t[0]] + rest
  }

  /** Bumping `x` raises its count by one and no other. */
  lemma {:induction false} BumpCount(t: seq<LabelCount>, x: string, y: string)
    ensures CountOf(Bump(t, x), y) == CountOf(t, y) + (if y == x then 1 else 0)
  {
    if t == [] {
      CountOfCons(LabelCount(x, 1), [], y);
    } else {
      var tail := t[1..];
      assert t == [t[0]] + tail;
      CountOfCons(t[0], tail, y);
      if t[0].text == x {
        CountOfCons(LabelCount(x, t[0].count + 1), tail, y);
      } else {
        BumpCount(tail, x, y);
        CountOfCons(t[0], Bump(tail, x), y);
      }
    }
  }

  /** Bumping adds one to the total of the counts. */
  lemma {:induction false} BumpSum(t: seq<LabelCount>, x: string)
    ensures SumCounts(Bump(t, x)) == SumCounts(t) + 1
  {
    if t == [] {
      SumCountsCons(LabelCount(x, 1), []);
    } else {
      var tail := t[1..];
      assert t == [t[0]] + tail;
      SumCountsCons(t[0], tail);
      if t[0].text == x {
        SumCountsCons(LabelCount(x, t[0].count + 1), tail);
      } else {
        BumpSum(tail, x);
        SumCountsCons(t[0], Bump(tail, x));
      }
    }
  }

  /** Bumping keeps one line per text and every count positive. */
  lemma {:induction false} BumpWellFormed(t: seq<LabelCount>, x: string)
    requires DistinctLabels(t) && PositiveCounts(t)
    ensures DistinctLabels(Bump(t, x)) && PositiveCounts(Bump(t, x))
  {
    if t != [] {
      var tail := t[1..];
      assert t == [t[0]] + tail;
      SummaryLabelsOfCons(t[0], tail);
      if t[0].text == x {
        DistinctCons(LabelCount(x, t[0].count + 1), tail);
      } else {
        BumpWellFormed(tail, x);
        DistinctCons(t[0], Bump(tail, x));
      }
    }
  }

  /** `value_counts()`: one line per distinct text, with the number of rows
      that carry it; the counts add up to the number of rows. Lines are in
      order of first appearance. */
  function Tally(labels: seq<string>): (t: seq<LabelCount>)
    ensures DistinctLabels(t) && PositiveCounts(t)
    ensures SumCounts(t) == |labels|
    ensures forall x :: CountOf(t, x) == multiset(labels)[x]
  {
    if labels == [] then []
    else
      var init := labels[..|labels| - 1];
      var last := labels[|labels| - 1];
      assert labels == init + [last];
      BumpWellFormed(Tally(init), last);
      BumpSum(Tally(init), last);
      forall y ensures CountOf(Bump(Tally(init), last), y) == multiset(labels)[y] {
        BumpCount(Tally(init), last, y);
      }
      Bump(Tally(init), last)
  }

  function Labels(rows: seq<ClassifiedRow>): (r: seq<string>)
    ensures |r| == |rows|
  {
    seq(|rows|, k requires 0 <= k < |rows| => Label(rows[k].reason))
  }

  /** No row of a finished run carries the blank text. */
  lemma NoBlankLabel(rows: seq<ClassifiedRow>)
    requires forall c :: c in rows ==> c.reason != Unassigned
    ensures multiset(Labels(rows))[""] == 0
  {
    var labels := Labels(rows);
    forall k | 0 <= k < |labels| ensures labels[k] != "" {
      assert rows[k] in rows;
    }
  }

  /** The whole run: aggregate the ledger and the report, detect and label
      the differences, and summarise the labels. */
  method Reconcile(ledgerRows: seq<LedgerRow>, sheet: IncomeSheet)
    returns (result: seq<ClassifiedRow>, summary: seq<LabelCount>)
    ensures multiset(result) ==
      multiset(ClassifyAll(Join(LedgerTotals(ledgerRows), IncomeTotals(sheet)), CompleteRecords(sheet)))
    ensures ByMagnitudeDescending(result)
    ensures forall c :: c in result ==> c.reason != Unassigned
    ensures forall c :: c in result ==> !IsExcludedId(c.row.clientId) || c.row.ledger == 0.0
    ensures DistinctLabels(summary) && PositiveCounts(summary) && SumCounts(summary) == |result|
    ensures forall x :: CountOf(summary, x) == multiset(Labels(result))[x]
    ensures CountOf(summary, "") == 0
  {
    var ledger := LedgerTotals(ledgerRows);
    var reported := IncomeTotals(sheet);
    var pool := CompleteRecords(sheet);
    result := DetectIrregularities(ledger, reported, pool);
    summary := Tally(Labels(result));
    NoBlankLabel(result);
    forall c | c in result ensures !IsExcludedId(c.row.clientId) || c.row.ledger == 0.0 {
      ExcludedHasNoLedgerTotal(ledgerRows, c.row.clientId);
    }
  }

  /** An excluded id has no ledger row, so its ledger total reads as 0. */
  lemma ExcludedHasNoLedgerTotal(rows: seq<LedgerRow>, id: int)
    ensures IsExcludedId(id) ==> TotalOf(LedgerTotals(rows), id) == 0.0
  {
    if IsExcludedId(id) {
      TotalOfAbsent(LedgerTotals(rows), id);
    }
  }
}
