/** The classification cascade of `detectar_irregularidades`: the rules are
    tried in order and the first that applies gives the row its reason. */
module Classification {
  import opened Records
  import opened Matching
  import opened AlternateSearch

  /** The value of a row's Motivo cell. */
  datatype Reason =
    | Unassigned                    // '' : the value every cell starts with
    | NoPosPayment                  // "Sin pago aplicado en POS"
    | WithinTolerance               // "OK"
    | DuplicatePayment(times: nat)  // "Pago duplicado (N veces)"
    | OtherPaymentMethod            // "Captura como otro medio de pago"
    | Difference                    // "Diferencia"

  /** Differences up to this many currency units (inclusive) are "OK". */
  const Tolerance: real := 15.0

  /** Python's `round` for the ratio: the nearest integer, halves rounded
      up. (Halves never pass the 0.01 test below, so the tie rule is moot.) */
  function Round(x: real): int
  {
    (x + 0.5).Floor
  }

  /** The overpayment ratio reported / ledger. */
  function Ratio(row: ComparisonRow): real
    requires row.ledger > 0.0
  {
    row.reported / row.ledger
  }

  /** The rule cascade for one row; `alternates` are the amounts of the
      client's records under other payment methods. */
  function Classify(row: ComparisonRow, alternates: seq<real>): (r: Reason)
    ensures r != Unassigned
  {
    if row.reported == 0.0 then NoPosPayment
    else if Abs(row.difference) <= Tolerance then WithinTolerance
    else if row.ledger > 0.0 && row.reported > row.ledger then
      var ratio := Ratio(row);
      if Abs(ratio - Round(ratio) as real) < Epsilon && ratio >= 2.0
      then DuplicatePayment(Round(ratio))
      else Difference
    else if row.ledger > row.reported then
      if HasAlternatePayment(alternates, row.ledger - row.reported) then OtherPaymentMethod else Difference
    else Difference
  }

  /** One iteration of the loop in `detectar_irregularidades`: the same
      cascade, running the alternate-payment search for an underpaid row. */
  method ClassifyRow(row: ComparisonRow, pool: seq<IncomeRecord>) returns (reason: Reason)
    ensures reason == Classify(row, AlternateAmounts(pool, row.clientId))
  {
    if row.reported == 0.0 {
      reason := NoPosPayment;
    } else if Abs(row.difference) <= Tolerance {
      reason := WithinTolerance;
    } else if row.ledger > 0.0 && row.reported > row.ledger {
      var ratio := row.reported / row.ledger;
      if Abs(ratio - Round(ratio) as real) < Epsilon && ratio >= 2.0 {
        reason := DuplicatePayment(Round(ratio));
      } else {
        reason := Difference;
      }
    } else if row.ledger > row.reported {
      var shortfall := row.ledger - row.reported;
      var found := FindAlternatePayment(pool, row.clientId, shortfall);
      if found {
        reason := OtherPaymentMethod;
      } else {
        reason := Difference;
      }
    } else {
      reason := Difference;
    }
  }

  /** A value strictly within 0.01 of an integer rounds to that integer. */
  lemma RoundNear(x: real, n: int)
    requires Abs(x - n as real) < Epsilon
    ensures Round(x) == n
  {
    assert (n as real) <= x + 0.5 < (n as real) + 1.0;
  }

  /** Rule 1 wins outright: a row is "Sin pago aplicado en POS" exactly when
      nothing was reported, whatever the ledger says (0 included). */
  lemma NoPaymentIffNothingReported(row: ComparisonRow, alternates: seq<real>)
    ensures Classify(row, alternates) == NoPosPayment <==> row.reported == 0.0
  {
  }

  /** "OK" exactly when something was reported and |difference| <= 15. */
  lemma OkIffWithinTolerance(row: ComparisonRow, alternates: seq<real>)
    ensures Classify(row, alternates) == WithinTolerance <==>
      row.reported != 0.0 && Abs(row.difference) <= Tolerance
  {
  }

  /** A duplicate of N times exactly when the ledger is positive, the
      overpayment exceeds the tolerance, and the ratio is at least 2 and
      within 0.01 of N. */
  lemma DuplicateIffNearMultiple(row: ComparisonRow, alternates: seq<real>, n: nat)
    requires Consistent(row)
    ensures Classify(row, alternates) == DuplicatePayment(n) <==>
      row.ledger > 0.0 && row.reported - row.ledger > Tolerance
      && Ratio(row) >= 2.0 && Abs(Ratio(row) - n as real) < Epsilon
  {
    if row.ledger > 0.0 && row.reported - row.ledger > Tolerance
      && Ratio(row) >= 2.0 && Abs(Ratio(row) - n as real) < Epsilon {
      RoundNear(Ratio(row), n);
    }
  }

  /** The count N of a duplicate is at least 2, and the reported total is
      within 0.01 ledger-amounts of N times the ledger total. */
  lemma DuplicateMeansMultiple(row: ComparisonRow, alternates: seq<real>)
    requires Classify(row, alternates).DuplicatePayment?
    ensures row.ledger > 0.0 && Classify(row, alternates).times >= 2
    ensures Abs(row.reported - (Classify(row, alternates).times as real) * row.ledger) < Epsilon * row.ledger
  {
    var n := Classify(row, alternates).times as real;
    ScaledError(row.reported, row.ledger, n);
  }

  /** A quotient within 0.01 of `n` means the dividend is within 0.01 divisors of `n` divisors. */
  lemma ScaledError(r: real, l: real, n: real)
    requires l > 0.0 && Abs(r / l - n) < Epsilon
    ensures Abs(r - n * l) < Epsilon * l
  {
    var d := r / l - n;
    assert r - n * l == d * l;
    ScaleStrict(Abs(d), Epsilon, l);
    AbsScale(d, l);
  }

  lemma AbsScale(d: real, l: real)
    requires l > 0.0
    ensures Abs(d * l) == Abs(d) * l
  {
    if d < 0.0 {
      assert d * l < 0.0;
      assert -(d * l) == (-d) * l;
    }
  }

  lemma ScaleStrict(a: real, b: real, c: real)
    requires a < b && c > 0.0
    ensures a * c < b * c
  {
  }

  /** An overpaid row that is not a near-exact multiple is a plain "Diferencia". */
  lemma OverpaymentIsDuplicateOrDifference(row: ComparisonRow, alternates: seq<real>)
    requires Consistent(row) && row.ledger > 0.0 && row.reported - row.ledger > Tolerance
    ensures Classify(row, alternates).DuplicatePayment? || Classify(row, alternates) == Difference
    ensures Classify(row, alternates) == Difference <==>
      !(Ratio(row) >= 2.0 && Abs(Ratio(row) - Round(Ratio(row)) as real) < Epsilon)
  {
  }

  /** An underpaid row (shortfall beyond the tolerance) is "Captura como otro
      medio de pago" exactly when the search explains the shortfall, and
      "Diferencia" otherwise. */
  lemma UnderpaymentIffAlternateFound(row: ComparisonRow, alternates: seq<real>)
    requires Consistent(row) && row.reported != 0.0 && row.difference > Tolerance
    ensures Classify(row, alternates) == OtherPaymentMethod <==> HasAlternatePayment(alternates, row.difference)
    ensures Classify(row, alternates) == OtherPaymentMethod || Classify(row, alternates) == Difference
  {
  }

  /** "Captura como otro medio de pago" is given only to underpaid rows. */
  lemma OtherMethodOnlyWhenUnderpaid(row: ComparisonRow, alternates: seq<real>)
    requires Consistent(row) && Classify(row, alternates) == OtherPaymentMethod
    ensures row.reported != 0.0 && row.difference > Tolerance
    ensures HasAlternatePayment(alternates, row.difference)
  {
  }

  /** 15.00 apart is "OK"; 15.01 apart is not. */
  lemma ToleranceBoundary(id: int, alternates: seq<real>)
    ensures Classify(ComparisonRow(id, 115.0, 100.0, 15.0), alternates) == WithinTolerance
    ensures Classify(ComparisonRow(id, 100.0, 115.0, -15.0), alternates) == WithinTolerance
    ensures Classify(ComparisonRow(id, 115.01, 100.0, 15.01), alternates) != WithinTolerance
    ensures Classify(ComparisonRow(id, 100.0, 115.01, -15.01), alternates) != WithinTolerance
  {
  }

  /** Nothing reported with nothing in the ledger is still "Sin pago". */
  lemma ZeroZeroIsNoPayment(id: int, alternates: seq<real>)
    ensures Classify(ComparisonRow(id, 0.0, 0.0, 0.0), alternates) == NoPosPayment
  {
  }

  /** 100 in the ledger against 300 reported: paid 3 times. */
  lemma ThreefoldPayment(id: int, alternates: seq<real>)
    ensures Classify(ComparisonRow(id, 100.0, 300.0, -200.0), alternates) == DuplicatePayment(3)
  {
    RoundNear(3.0, 3);
  }

  /** A ratio of 1.995 rounds to 2 but is itself below 2: not a duplicate. */
  lemma RatioBelowTwoIsDifference(id: int, alternates: seq<real>)
    ensures Round(1.995) == 2
    ensures Classify(ComparisonRow(id, 1000.0, 1995.0, -995.0), alternates) == Difference
  {
  }

  /** Ledger 500, reported 300: a single 200 record, or 120 and 80 together,
      explain the shortfall; 150 and 30 do not. */
  lemma ShortfallExamples(id: int)
    ensures Classify(ComparisonRow(id, 500.0, 300.0, 200.0), [200.0]) == OtherPaymentMethod
    ensures Classify(ComparisonRow(id, 500.0, 300.0, 200.0), [120.0, 80.0]) == OtherPaymentMethod
    ensures Classify(ComparisonRow(id, 500.0, 300.0, 200.0), [150.0, 30.0]) == Difference
  {
    assert Near([200.0][0], 200.0);
    assert Near([120.0, 80.0][0] + [120.0, 80.0][1], 200.0);
  }

  /** Two equal records are two records: 100 and 100 under another method
      are both searched and together explain a shortfall of 200. */
  lemma EqualRecordsPair(id: int)
    ensures AlternateAmounts([IncomeRecord(id, 100.0, "EFECTIVO"), IncomeRecord(id, 100.0, "EFECTIVO")], id) == [100.0, 100.0]
    ensures Classify(ComparisonRow(id, 500.0, 300.0, 200.0),
      AlternateAmounts([IncomeRecord(id, 100.0, "EFECTIVO"), IncomeRecord(id, 100.0, "EFECTIVO")], id)) == OtherPaymentMethod
  {
    var pool := [IncomeRecord(id, 100.0, "EFECTIVO"), IncomeRecord(id, 100.0, "EFECTIVO")];
    assert pool[1..][1..] == [];
    assert AlternateAmounts(pool, id) == [100.0, 100.0];
    assert Near([100.0, 100.0][0] + [100.0, 100.0][1], 200.0);
  }

  /** Three records that only together make up the shortfall are not looked
      for: the row stays "Diferencia". */
  lemma TriplesIgnored(id: int)
    ensures Classify(ComparisonRow(id, 500.0, 300.0, 200.0), [50.0, 70.0, 80.0]) == Difference
  {
  }
}
