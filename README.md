# Validación de Pagos — reconciliation engine

This project models the reconciliation engine of the "Validación de Pagos"
Streamlit tool, written in Dafny. The engine compares a transfer ledger
("Pagos STP") with a point-of-sale income report ("Reporte de Ingresos")
and gives every client's discrepancy a reason ("Motivo").

The pipeline has these stages:

1. **Ledger aggregation** (`procesar_pagos_stp`, module `Aggregation` over
   `Records`). Rows missing the client id (NumeroClienteSAP) or the amount
   (Monto) are dropped. So are ids whose decimal string starts with "9999"
   (module `Decimal`). The remaining amounts are summed per client.
2. **Report aggregation** (`procesar_reporte_ingresos`).
   - Rows are kept when SUCURSAL is "99" and ESTATUS is "Activo". Each of
     these filters applies only when its column exists.
   - The main aggregate sums, per client, the rows paid by method "STP-03".
   - The complete record set `df_completo` keeps the in-scope rows of every
     payment method.
3. **Matching** (module `Matching`). An outer join of the two aggregates on
   the client id. A missing side reads as 0, and
   `Diferencia = Monto_STP - Monto_Reportado`.
4. **Alternate-payment search** (`buscar_pago_en_otros_metodos`, module
   `AlternateSearch`). It looks at the client's records under methods other
   than "STP-03". It succeeds when one record is strictly within 0.01 of the
   shortfall, or when two distinct records (i < j) together are. It never
   tries three or more records. It is an imperative method with loop
   invariants, proved equal to the predicate `HasAlternatePayment`.
5. **Classification** (the loop of `detectar_irregularidades`, modules
   `Classification` and `Detection`).
   - The cascade is a pure function `Classify`.
   - `DetectIrregularities` fills a Motivo array that starts out blank,
     one cell per joined row, using `ClassifyRow`.
   - It then orders the rows by |Diferencia|, largest first.
6. **Summary** (module `Report`).
   - `Label` gives the Motivo texts.
   - `Tally` gives the per-reason counts (`value_counts`).
   - `Reconcile` runs the whole pipeline behind the "Procesar" button.

Modelling choices:

- **Amounts** are exact reals, so floating-point rounding is not modelled.
- **Client ids** are integers.
- **Cells that fail numeric coercion** are `None`.
- **Aggregates** are sequences strictly ascending in client id, because
  `groupby` and an outer `merge` both sort their keys.

Three behaviours of the code are easy to misread, and the model keeps
them as the code has them:

- **Duplicate test.** The code tests the raw ratio `>= 2`, not the rounded
  one. So a ratio of 1.995 is a "Diferencia" (`RatioBelowTwoIsDifference`).
- **Sort order.** The code's sort is not stable. Only the descending order
  and the permutation are promised.
- **Excluded ids.** The "9999" exclusion applies only to the ledger. An
  excluded id that appears in the income report still gets a comparison
  row, with ledger total 0 (`ExcludedHasNoLedgerTotal`).

## Model

| member | source | states |
|---|---|---|
| Decimal.NatString | streamlit_app.py:34 | the decimal string form of an id is non-empty and made only of digits |
| Decimal.NatStringInjective | streamlit_app.py:34 | distinct ids have distinct string forms |
| Decimal.ExcludedIdCharacterized | streamlit_app.py:34 | the id's string starts with "9999" exactly when the id is non-negative and deleting some number of trailing digits leaves 9999 |
| Records.LedgerPayments | streamlit_app.py:31-34 | a (client, amount) payment survives exactly when some ledger row carries both cells and the id is not excluded; no more payments than rows |
| Records.PrimaryPayments | streamlit_app.py:62-79 | a payment feeds the main reported aggregate exactly when some row is in scope (branch "99" and status "Activo", each only when that column exists), is paid by "STP-03" and carries both cells |
| Records.CompleteRecords | streamlit_app.py:83-89 | a record is in the complete set exactly when some in-scope row (branch and status filters as above), of any payment method, carries its id, total and method with neither missing |
| Records.CompleteRecordsCount | streamlit_app.py:83-89 | each kept row yields its own record: a record occurs as many times as the in-scope rows, with both cells present, that carry it |
| Records.CompleteRecordsMultiplicity | streamlit_app.py:83-89 | the same count for the whole sheet: identical rows stay separate records |
| Aggregation.AddPayment | streamlit_app.py:36 | adding a payment keeps one ascending row per client, adds its id, and raises that client's total by the amount, leaving the others alone |
| Aggregation.Aggregate | streamlit_app.py:36 | the grouped sum has one row per client in ascending id order, its ids are exactly the payments' ids, and each total equals the reference sum of that client's amounts |
| Aggregation.AggregateRowTotals | streamlit_app.py:36 | every row of the grouped sum carries the sum of its client's amounts |
| Aggregation.LedgerTotals | streamlit_app.py:31-37 | the ledger aggregate is ascending and no excluded id appears in it |
| Aggregation.LedgerTotalIsRowSum | streamlit_app.py:31-36 | each client's ledger total equals the sum over the raw rows that have both cells and a non-excluded id (rows with a missing cell contribute nothing) |
| Aggregation.IncomeTotals | streamlit_app.py:80-81 | the reported aggregate has one ascending row per client |
| Aggregation.IncomeTotalIsRowSum | streamlit_app.py:62-80 | each client's reported total equals the sum over raw rows that are in scope, "STP-03" and complete |
| Matching.Join | streamlit_app.py:110-113 | the join has ascending ids, exactly the union of both aggregates' ids, each side's total or 0 where absent, and difference ledger minus reported |
| Matching.OneRowPerClient | streamlit_app.py:110 | the join has exactly one row per client id in the union |
| AlternateSearch.AlternateAmounts | streamlit_app.py:96 | the amounts searched are exactly those of the client's records under a method other than "STP-03" |
| AlternateSearch.AlternateAmountsCount | streamlit_app.py:96-106 | every alternate-method record is searched, duplicates included: each amount occurs as many times as the client's records of that amount under another method |
| AlternateSearch.FindAlternatePayment | streamlit_app.py:95-107 | the search returns true exactly when a single record or a pair i < j is strictly within 0.01 of the shortfall |
| AlternateSearch.NoRecordsNoMatch | streamlit_app.py:97-98 | with no alternate-method records the answer is false |
| AlternateSearch.LoneRecordNotDoubled | streamlit_app.py:103-106 | a single record is never paired with itself: with one record only a single match counts |
| AlternateSearch.PairsUnordered | streamlit_app.py:103-106 | the pair test covers any two distinct positions, in either order |
| AlternateSearch.OrderIrrelevant | streamlit_app.py:99-106 | any reordering of the records gives the same answer |
| Classification.Classify | streamlit_app.py:116-140 | every row receives one of the five reasons, never the blank initial value |
| Classification.ClassifyRow | streamlit_app.py:116-140 | one loop iteration, including the search it runs, gives exactly the cascade's reason |
| Classification.RoundNear | streamlit_app.py:127-128 | a ratio strictly within 0.01 of an integer rounds to that integer |
| Classification.NoPaymentIffNothingReported | streamlit_app.py:121-122 | "Sin pago aplicado en POS" exactly when the reported total is 0, whatever the ledger total |
| Classification.ZeroZeroIsNoPayment | streamlit_app.py:121-122 | 0 against 0 is "Sin pago aplicado en POS", not "OK" |
| Classification.OkIffWithinTolerance | streamlit_app.py:123-124 | "OK" exactly when something was reported and the absolute difference is at most 15 |
| Classification.ToleranceBoundary | streamlit_app.py:123-124 | a difference of 15.00 either way is "OK" and 15.01 is not |
| Classification.DuplicateIffNearMultiple | streamlit_app.py:125-129 | "Pago duplicado (N veces)" exactly when the ledger is positive, the overpayment exceeds 15, the raw ratio is at least 2 and within 0.01 of N |
| Classification.DuplicateMeansMultiple | streamlit_app.py:126-129 | a duplicate count is at least 2, and the reported total lies within 0.01 ledger totals of N times the ledger total |
| Classification.ThreefoldPayment | streamlit_app.py:125-129 | 100 in the ledger against 300 reported is "paid 3 times" |
| Classification.RatioBelowTwoIsDifference | streamlit_app.py:127 | a ratio of 1.995 rounds to 2, yet the row is "Diferencia", because the raw ratio is below 2 |
| Classification.OverpaymentIsDuplicateOrDifference | streamlit_app.py:125-131 | an overpaid row beyond tolerance is a duplicate or, exactly when the ratio test fails, "Diferencia" |
| Classification.UnderpaymentIffAlternateFound | streamlit_app.py:132-138 | an underpaid row beyond tolerance is "Captura como otro medio de pago" exactly when the search succeeds, else "Diferencia" |
| Classification.OtherMethodOnlyWhenUnderpaid | streamlit_app.py:132-136 | that reason is given only to underpaid rows whose shortfall the search explains |
| Classification.ShortfallExamples | streamlit_app.py:132-138 | a shortfall of 200 is explained by one 200 record or by 120 plus 80, but not by 150 plus 30 |
| Classification.EqualRecordsPair | streamlit_app.py:96-106 | two records of 100 under another method are both searched, and together they explain a shortfall of 200 |
| Classification.TriplesIgnored | streamlit_app.py:103-107 | three records that only together make the shortfall leave the row as "Diferencia" |
| Detection.InsertByMagnitude | streamlit_app.py:143-144 | inserting a row into a list sorted by descending abs(Diferencia) keeps it sorted and adds exactly that row |
| Detection.SortByMagnitude | streamlit_app.py:143-144 | the sort returns a permutation of its input in non-increasing abs(Diferencia) order |
| Detection.DetectIrregularities | streamlit_app.py:109-147 | the output is a permutation of the joined rows with their cascade reasons, in non-increasing abs(Diferencia) order; no row keeps a blank Motivo; each row carries both totals and their difference; the ids are the union of both sides' |
| Report.Label | streamlit_app.py:114-140 | the Motivo text is blank exactly for the unassigned initial value |
| Report.LabelHead | streamlit_app.py:129 | only the duplicate text begins with "P" |
| Report.LabelInjective | streamlit_app.py:122-140 | distinct reasons have distinct Motivo texts, so duplicates of different counts are tallied apart |
| Report.Bump | streamlit_app.py:178 | counting one more text adds that text to the summary's set of texts and no other |
| Report.BumpCount | streamlit_app.py:178 | counting one more text raises exactly that text's count by one |
| Report.BumpSum | streamlit_app.py:178 | counting one more text raises the total of the counts by one |
| Report.BumpWellFormed | streamlit_app.py:178 | counting keeps one line per text and every count positive |
| Report.Tally | streamlit_app.py:178 | the summary has one line per distinct text, each count positive and equal to the text's number of occurrences, and the counts add up to the number of rows |
| Report.NoBlankLabel | streamlit_app.py:114-140 | no row of a finished run has a blank Motivo |
| Report.ExcludedHasNoLedgerTotal | streamlit_app.py:34 | an excluded id's ledger total reads as 0 |
| Report.Reconcile | streamlit_app.py:171-178 | a full run returns the joined, classified rows of both aggregates, sorted by descending abs(Diferencia); no row is blank; excluded ids carry ledger total 0; the summary counts every Motivo text exactly and adds up to the number of rows |

## Left out

- The Streamlit interface is not modelled: page setup, uploaders, the button, the tables shown and the download button.
- File reading is not modelled: HTML versus xls/xlsx detection, `read_html`/`read_excel` and promoting the first row to headers. These are I/O through library calls.
- Cleaning currency strings and `pd.to_numeric` coercion are not modelled. Cells arrive as numbers, or as `None` where coercion failed.
- The Excel export and the timestamped file name are left out, because they are I/O and use the clock.
- The `try/except` re-wrapping of errors is left out.
- The missing-column exception, and the KeyError when "METODO DE PAGO" is absent, are left out. The model assumes the id, total and method columns are present.
- Records.PrimaryPayments: the branch where "METODO DE PAGO" is absent (no method filter) is left out, for the same reason.
- Floating point is not modelled. Amounts are exact reals, and Python's banker's `round` is modelled as rounding halves up. The two differ only at halves, which never pass the 0.01 test.
- Decimal.IsExcludedId: the id's string form is modelled as its integer digits. When any NumeroClienteSAP cell fails coercion the column becomes floating point, and ids then print as "99991234.0". Below 10^16 that form starts with the same digits, so the prefix test agrees. From 10^16 up, Python prints the exponent form ("9.999e+16" for 99990000000000000), so the code keeps such a row while the model excludes it.
- Detection.SortByMagnitude: the order among rows with equal abs(Diferencia) is not promised, because pandas' default sort is not stable.
- Report.Tally: the summary lists texts in order of first appearance. `value_counts` orders them by descending count; only the counts are promised.
- The unused `monto_stp_actual` parameter of the search is not modelled.
