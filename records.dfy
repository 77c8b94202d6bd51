/** The rows of the two spreadsheets after numeric coercion, and the row
    filters that `procesar_pagos_stp` and `procesar_reporte_ingresos` apply
    before grouping. A cell that failed coercion (or was empty) is `None`. */
module Records {
  import opened Decimal

  datatype Option<T> = None | Some(value: T)

  /** A row of the transfer ledger ("Pagos STP"): NumeroClienteSAP and Monto. */
  datatype LedgerRow = LedgerRow(clientId: Option<int>, amount: Option<real>)

  /** A row of the point-of-sale income report: NO. CLIENTE, TOTAL, SUCURSAL,
      ESTATUS and METODO DE PAGO. Text cells hold their string form; an empty
      text cell is a string that matches none of the codes below. */
  datatype IncomeRow = IncomeRow(
    clientId: Option<int>,
    total: Option<real>,
    branch: string,
    status: string,
    payMethod: string)

  /** The income report: its rows, and whether the optional SUCURSAL and
      ESTATUS columns are present (each filter applies only when it is). */
  datatype IncomeSheet = IncomeSheet(hasBranch: bool, hasStatus: bool, rows: seq<IncomeRow>)

  /** One amount attributed to one client, as the grouping step sees it. */
  datatype Payment = Payment(clientId: int, amount: real)

  /** A row of the complete income record set (every payment method). */
  datatype IncomeRecord = IncomeRecord(clientId: int, total: real, payMethod: string)

  const BranchCode: string := "99"
  const ActiveStatus: string := "Activo"
  const PrimaryMethod: string := "STP-03"

  /** Ledger rows that survive dropna on both columns and the "9999" exclusion. */
  predicate LedgerRowCounts(row: LedgerRow)
  {
    row.clientId.Some? && row.amount.Some? && !IsExcludedId(row.clientId.value)
  }

  /** The ledger's payments: rows with both cells present whose id is not a test account. */
  function LedgerPayments(rows: seq<LedgerRow>): (r: seq<Payment>)
    ensures |r| <= |rows|
    ensures forall p :: p in r <==>
      LedgerRow(Some(p.clientId), Some(p.amount)) in rows && !IsExcludedId(p.clientId)
  {
    if rows == [] then []
    else
      var rest := LedgerPayments(rows[1..]);
      if LedgerRowCounts(rows[0])
      then [Payment(rows[0].clientId.value, rows[0].amount.value)] + rest
      else rest
  }

  /** The branch and status filters, each applied only when its column exists. */
  predicate InScope(sheet: IncomeSheet, row: IncomeRow)
  {
    (!sheet.hasBranch || row.branch == BranchCode) && (!sheet.hasStatus || row.status == ActiveStatus)
  }

  /** Rows counted in the main reported aggregate: in scope, paid by the
      primary method, with both id and total present. */
  predicate CountsAsPrimary(sheet: IncomeSheet, row: IncomeRow)
  {
    InScope(sheet, row) && row.payMethod == PrimaryMethod && row.clientId.Some? && row.total.Some?
  }

  /** Some row among `rows` counts as primary and carries exactly payment `p`. */
  ghost predicate HasPrimaryRow(sheet: IncomeSheet, rows: seq<IncomeRow>, p: Payment)
  {
    exists row :: row in rows && CountsAsPrimary(sheet, row)
      && row.clientId == Some(p.clientId) && row.total == Some(p.amount)
  }

  function PrimaryPaymentsFrom(sheet: IncomeSheet, rows: seq<IncomeRow>): (r: seq<Payment>)
    ensures |r| <= |rows|
    ensures forall p :: p in r <==> HasPrimaryRow(sheet, rows, p)
  {
    if rows == [] then []
    else
      var rest := PrimaryPaymentsFrom(sheet, rows[1..]);
      if CountsAsPrimary(sheet, rows[0])
      then [Payment(rows[0].clientId.value, rows[0].total.value)] + rest
      else rest
  }

  /** The payments feeding the main reported aggregate (`df_stp` after dropna). */
  function PrimaryPayments(sheet: IncomeSheet): (r: seq<Payment>)
    ensures forall p :: p in r <==> HasPrimaryRow(sheet, sheet.rows, p)
  {
    PrimaryPaymentsFrom(sheet, sheet.rows)
  }

  /** Rows kept in the complete record set: in scope, any method, with both
      id and total present. */
  predicate CountsAsRecord(sheet: IncomeSheet, row: IncomeRow)
  {
    InScope(sheet, row) && row.clientId.Some? && row.total.Some?
  }

  /** Some row among `rows` is kept and carries exactly record `rec`. */
  ghost predicate HasRecordRow(sheet: IncomeSheet, rows: seq<IncomeRow>, rec: IncomeRecord)
  {
    exists row :: row in rows && KeptAs(sheet, row, rec)
  }

  function CompleteRecordsFrom(sheet: IncomeSheet, rows: seq<IncomeRow>): (r: seq<IncomeRecord>)
    ensures |r| <= |rows|
    ensures forall rec :: rec in r <==> HasRecordRow(sheet, rows, rec)
  {
    if rows == [] then []
    else
      var rest := CompleteRecordsFrom(sheet, rows[1..]);
      assert forall row :: row in rows <==> row == rows[0] || row in rows[1..];
      if CountsAsRecord(sheet, rows[0]) then
        var head := IncomeRecord(rows[0].clientId.value, rows[0].total.value, rows[0].payMethod);
        assert KeptAs(sheet, rows[0], head);
        [head] + rest
      else rest
  }

  /** The complete record set (`df_completo`): every in-scope row of any
      payment method whose id and total are present. */
  function CompleteRecords(sheet: IncomeSheet): (r: seq<IncomeRecord>)
    ensures forall rec :: rec in r <==> HasRecordRow(sheet, sheet.rows, rec)
  {
    CompleteRecordsFrom(sheet, sheet.rows)
  }

  /** The positions of the rows kept in the complete set as record `rec`. */
  function RecordPositions(sheet: IncomeSheet, rows: seq<IncomeRow>, rec: IncomeRecord): set<int>
  {
    set k | 0 <= k < |rows| && KeptAs(sheet, rows[k], rec)
  }

  lemma {:induction false} CompleteRecordsAppend(sheet: IncomeSheet, a: seq<IncomeRow>, b: seq<IncomeRow>)
    ensures CompleteRecordsFrom(sheet, a + b) == CompleteRecordsFrom(sheet, a) + CompleteRecordsFrom(sheet, b)
  {
    if a == [] {
      assert a + b == b;
    } else {
      assert (a + b)[0] == a[0] && (a + b)[1..] == a[1..] + b;
      CompleteRecordsAppend(sheet, a[1..], b);
    }
  }

  /** Row `row` is kept and carries exactly record `rec`. */
  predicate KeptAs(sheet: IncomeSheet, row: IncomeRow, rec: IncomeRecord)
  {
    CountsAsRecord(sheet, row)
      && row.clientId == Some(rec.clientId) && row.total == Some(rec.total) && row.payMethod == rec.payMethod
  }

  lemma RecordPositionsSnoc(sheet: IncomeSheet, init: seq<IncomeRow>, last: IncomeRow, rec: IncomeRecord)
    ensures RecordPositions(sheet, init + [last], rec) ==
      RecordPositions(sheet, init, rec) + (if KeptAs(sheet, last, rec) then {|init|} else {})
  {
    var rows := init + [last];
    forall k | 0 <= k < |init| ensures rows[k] == init[k] {
    }
  }

  lemma CompleteRecordsSingle(sheet: IncomeSheet, last: IncomeRow, rec: IncomeRecord)
    ensures multiset(CompleteRecordsFrom(sheet, [last]))[rec] == if KeptAs(sheet, last, rec) then 1 else 0
  {
    assert [last][1..] == [];
  }

  /** Every kept row yields its own record, duplicates included: a record
      occurs in the complete set exactly as many times as rows carry it. */
  lemma {:induction false} CompleteRecordsCount(sheet: IncomeSheet, rows: seq<IncomeRow>, rec: IncomeRecord)
    ensures multiset(CompleteRecordsFrom(sheet, rows))[rec] == |RecordPositions(sheet, rows, rec)|
    decreases |rows|
  {
    if rows == [] {
      assert RecordPositions(sheet, rows, rec) == {};
    } else {
      var n := |rows| - 1;
      var init, last := rows[..n], rows[n];
      assert rows == init + [last];
      CompleteRecordsAppend(sheet, init, [last]);
      CompleteRecordsSingle(sheet, last, rec);
      CompleteRecordsCount(sheet, init, rec);
      RecordPositionsSnoc(sheet, init, last, rec);
      assert n !in RecordPositions(sheet, init, rec);
    }
  }

  /** The sheet-level count: `df_completo` keeps one record per kept row. */
  lemma CompleteRecordsMultiplicity(sheet: IncomeSheet, rec: IncomeRecord)
    ensures multiset(CompleteRecords(sheet))[rec] == |RecordPositions(sheet, sheet.rows, rec)|
  {
    CompleteRecordsCount(sheet, sheet.rows, rec);
  }
}
