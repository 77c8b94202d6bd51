/** Grouping payments per client and summing them (`groupby(...).sum()`),
    for the ledger (`procesar_pagos_stp`) and for the income report's main,
    primary-method aggregate (`procesar_reporte_ingresos`). Grouping yields
    one row per client in ascending id order, as pandas sorts group keys. */
module Aggregation {
  import opened Decimal
  import opened Records

  datatype ClientTotal = ClientTotal(clientId: int, total: real)

  /** Ids strictly increase, so no client has two rows. */
  predicate StrictlyAscending(t: seq<ClientTotal>)
  {
    forall i, j :: 0 <= i < j < |t| ==> t[i].clientId < t[j].clientId
  }

  function TotalIds(t: seq<ClientTotal>): set<int>
  {
    set e | e in t :: e.clientId
  }

  function PaymentIds(ps: seq<Payment>): set<int>
  {
    set p | p in ps :: p.clientId
  }

  /** The sum of client `id`'s amounts, read straight off the payments. */
  function SumFor(ps: seq<Payment>, id: int): real
  {
    if ps == [] then 0.0
    else (if ps[0].clientId == id then ps[0].amount else 0.0) + SumFor(ps[1..], id)
  }

  /** The total an aggregate holds for `id`, and 0 when it has no row for
      `id` (the value the outer join fills in for a missing side). */
  function TotalOf(t: seq<ClientTotal>, id: int): real
  {
    if t == [] then 0.0
    else if t[0].clientId == id then t[0].total
    else TotalOf(t[1..], id)
  }

  lemma {:induction false} TotalOfAbsent(t: seq<ClientTotal>, id: int)
    requires id !in TotalIds(t)
    ensures TotalOf(t, id) == 0.0
  {
    if t != [] {
      assert t[0] in t;
      assert TotalIds(t[1..]) <= TotalIds(t) by {
        forall x | x in TotalIds(t[1..]) ensures x in TotalIds(t) {
          var e :| e in t[1..] && e.clientId == x;
          assert e in t;
        }
      }
      TotalOfAbsent(t[1..], id);
    }
  }

  /** In an aggregate, the total looked up for a row's id is that row's total. */
  lemma {:induction false} TotalOfEntry(t: seq<ClientTotal>, k: int)
    requires StrictlyAscending(t) && 0 <= k < |t|
    ensures TotalOf(t, t[k].clientId) == t[k].total
  {
    if k > 0 {
      assert t[1..][k - 1] == t[k];
      TotalOfEntry(t[1..], k - 1);
    }
  }

  lemma IdsOfTail(t: seq<ClientTotal>)
    requires t != []
    ensures TotalIds(t) == {t[0].clientId} + TotalIds(t[1..])
  {
    assert t == [t[0]] + t[1..];
    forall x | x in TotalIds(t) ensures x in {t[0].clientId} + TotalIds(t[1..]) {
      var e :| e in t && e.clientId == x;
      if e != t[0] {
        assert e in t[1..];
      }
    }
  }

  lemma AscendingHead(t: seq<ClientTotal>)
    requires t != [] && StrictlyAscending(t)
    ensures forall x :: x in TotalIds(t[1..]) ==> t[0].clientId < x
  {
    forall x | x in TotalIds(t[1..]) ensures t[0].clientId < x {
      var e :| e in t[1..] && e.clientId == x;
      var k :| 0 <= k < |t[1..]| && t[1..][k] == e;
      assert t[k + 1] == e;
    }
  }

  /** Putting a row in front of an aggregate whose ids all exceed its own. */
  lemma Cons(h: ClientTotal, rest: seq<ClientTotal>)
    requires StrictlyAscending(rest)
    requires forall x :: x in TotalIds(rest) ==> h.clientId < x
    ensures StrictlyAscending([h] + rest)
    ensures TotalIds([h] + rest) == {h.clientId} + TotalIds(rest)
    ensures forall id :: TotalOf([h] + rest, id) == if id == h.clientId then h.total else TotalOf(rest, id)
  {
    var r := [h] + rest;
    assert r[1..] == rest;
    IdsOfTail(r);
    assert forall k :: 0 <= k < |rest| ==> rest[k].clientId in TotalIds(rest);
  }

  /** Adds one payment to an aggregate: the client's total grows by the
      amount, a new client gets a row in id order, nobody else changes. */
  function AddPayment(t: seq<ClientTotal>, p: Payment): (r: seq<ClientTotal>)
    requires StrictlyAscending(t)
    ensures StrictlyAscending(r)
    ensures TotalIds(r) == TotalIds(t) + {p.clientId}
    ensures forall id :: TotalOf(r, id) == TotalOf(t, id) + (if id == p.clientId then p.amount else 0.0)
  {
    if t == [] then
      Cons(ClientTotal(p.clientId, p.amount), []);
      [ClientTotal(p.clientId, p.amount)] + []
    else
      IdsOfTail(t);
      AscendingHead(t);
      assert StrictlyAscending(t[1..]);
      if t[0].clientId == p.clientId then
        Cons(ClientTotal(p.clientId, t[0].total + p.amount), t[1..]);
        [ClientTotal(p.clientId, t[0].total + p.amount)] + t[1..]
      else if p.clientId < t[0].clientId then
        TotalOfAbsent(t, p.clientId);
        Cons(ClientTotal(p.clientId, p.amount), t);
        [ClientTotal(p.clientId, p.amount)] + t
      else
        var rest := AddPayment(t[1..], p);
        Cons(t[0], rest);
        [t[0]] + rest
  }

  lemma PaymentIdsOfTail(ps: seq<Payment>)
    requires ps != []
    ensures PaymentIds(ps) == {ps[0].clientId} + PaymentIds(ps[1..])
  {
    assert ps == [ps[0]] + ps[1..];
    forall x | x in PaymentIds(ps) ensures x in {ps[0].clientId} + PaymentIds(ps[1..]) {
      var e :| e in ps && e.clientId == x;
      if e != ps[0] {
        assert e in ps[1..];
      }
    }
  }

  /** `groupby(id).sum()`: one row per client that has a payment, in
      ascending id order, holding the sum of that client's amounts. */
  function Aggregate(ps: seq<Payment>): (r: seq<ClientTotal>)
    ensures StrictlyAscending(r)
    ensures TotalIds(r) == PaymentIds(ps)
    ensures forall id :: TotalOf(r, id) == SumFor(ps, id)
  {
    if ps == [] then []
    else
      PaymentIdsOfTail(ps);
      AddPayment(Aggregate(ps[1..]), ps[0])
  }

  /** Every row of an aggregate holds the sum of exactly its client's amounts. */
  lemma AggregateRowTotals(ps: seq<Payment>)
    ensures forall k :: 0 <= k < |Aggregate(ps)| ==>
      Aggregate(ps)[k].total == SumFor(ps, Aggregate(ps)[k].clientId)
  {
    var t := Aggregate(ps);
    forall k | 0 <= k < |t| ensures t[k].total == SumFor(ps, t[k].clientId) {
      TotalOfEntry(t, k);
    }
  }

  /** `procesar_pagos_stp`: the ledger grouped per client. */
  function LedgerTotals(rows: seq<LedgerRow>): (r: seq<ClientTotal>)
    ensures StrictlyAscending(r)
    ensures forall k :: 0 <= k < |r| ==> !IsExcludedId(r[k].clientId)
  {
    var ps := LedgerPayments(rows);
    var r := Aggregate(ps);
    assert forall k :: 0 <= k < |r| ==> r[k].clientId in TotalIds(r);
    r
  }

  /** The main aggregate of `procesar_reporte_ingresos`: in-scope,
      primary-method rows grouped per client. */
  function IncomeTotals(sheet: IncomeSheet): (r: seq<ClientTotal>)
    ensures StrictlyAscending(r)
  {
    Aggregate(PrimaryPayments(sheet))
  }

  /** Reference definition over the raw ledger rows: what a row adds to
      client `id` (nothing when a cell is missing or the id is excluded). */
  function LedgerRowSum(rows: seq<LedgerRow>, id: int): real
  {
    if rows == [] then 0.0
    else
      (if LedgerRowCounts(rows[0]) && rows[0].clientId.value == id then rows[0].amount.value else 0.0)
      + LedgerRowSum(rows[1..], id)
  }

  /** Reference definition over the raw report rows: the sum of `id`'s
      TOTAL over in-scope primary-method rows with both cells present. */
  function PrimaryRowSum(sheet: IncomeSheet, rows: seq<IncomeRow>, id: int): real
  {
    if rows == [] then 0.0
    else
      (if CountsAsPrimary(sheet, rows[0]) && rows[0].clientId.value == id then rows[0].total.value else 0.0)
      + PrimaryRowSum(sheet, rows[1..], id)
  }

  lemma {:induction false} LedgerPaymentsSum(rows: seq<LedgerRow>, id: int)
    ensures SumFor(LedgerPayments(rows), id) == LedgerRowSum(rows, id)
  {
    if rows != [] {
      LedgerPaymentsSum(rows[1..], id);
    }
  }

  lemma {:induction false} PrimaryPaymentsSum(sheet: IncomeSheet, rows: seq<IncomeRow>, id: int)
    ensures SumFor(PrimaryPaymentsFrom(sheet, rows), id) == PrimaryRowSum(sheet, rows, id)
  {
    if rows != [] {
      PrimaryPaymentsSum(sheet, rows[1..], id);
    }
  }

  /** The ledger total of a client is the sum of its surviving rows' amounts;
      rows missing a cell or carrying an excluded id contribute nothing. */
  lemma LedgerTotalIsRowSum(rows: seq<LedgerRow>, id: int)
    ensures TotalOf(LedgerTotals(rows), id) == LedgerRowSum(rows, id)
  {
    LedgerPaymentsSum(rows, id);
  }

  /** The reported total of a client counts only rows of branch "99", status
      "Activo" (each when its column exists) and method "STP-03". */
  lemma IncomeTotalIsRowSum(sheet: IncomeSheet, id: int)
    ensures TotalOf(IncomeTotals(sheet), id) == PrimaryRowSum(sheet, sheet.rows, id)
  {
    PrimaryPaymentsSum(sheet, sheet.rows, id);
  }
}
