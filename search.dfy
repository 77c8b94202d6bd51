/** The alternate-payment search (`buscar_pago_en_otros_metodos`): can a
    client's shortfall be explained by one of its payments recorded under a
    method other than "STP-03", or by two distinct such payments together?
    Three or more payments are never combined. */
module AlternateSearch {
  import opened Records

  /** Amounts closer than this are the same amount. */
  const Epsilon: real := 0.01

  function Abs(x: real): (r: real)
    ensures r >= 0.0 && (r == x || r == -x)
  {
    if x < 0.0 then -x else x
  }

  /** `abs(x - target) < 0.01`: strictly within a cent. */
  predicate Near(x: real, target: real)
  {
    Abs(x - target) < Epsilon
  }

  /** A record of this client paid by some other method than the primary one. */
  predicate IsAlternateOf(rec: IncomeRecord, clientId: int)
  {
    rec.clientId == clientId && rec.payMethod != PrimaryMethod
  }

  /** The amounts of the client's alternate-method records, in record order
      (`pagos_cliente['TOTAL'].values`). */
  function AlternateAmounts(pool: seq<IncomeRecord>, clientId: int): (r: seq<real>)
    ensures |r| <= |pool|
    ensures forall x :: x in r <==> exists rec :: rec in pool && IsAlternateOf(rec, clientId) && rec.total == x
  {
    if pool == [] then []
    else
      var rest := AlternateAmounts(pool[1..], clientId);
      assert forall rec :: rec in pool <==> rec == pool[0] || rec in pool[1..];
      if IsAlternateOf(pool[0], clientId) then [pool[0].total] + rest else rest
  }

  /** The positions in `pool` of the client's alternate-method records of amount `x`. */
  function AlternatePositions(pool: seq<IncomeRecord>, clientId: int, x: real): set<int>
  {
    set k | 0 <= k < |pool| && IsAlternateOf(pool[k], clientId) && pool[k].total == x
  }

  lemma {:induction false} AlternateAmountsAppend(a: seq<IncomeRecord>, b: seq<IncomeRecord>, clientId: int)
    ensures AlternateAmounts(a + b, clientId) == AlternateAmounts(a, clientId) + AlternateAmounts(b, clientId)
  {
    if a == [] {
      assert a + b == b;
    } else {
      assert (a + b)[0] == a[0] && (a + b)[1..] == a[1..] + b;
      AlternateAmountsAppend(a[1..], b, clientId);
    }
  }

  /** Appending one record adds its position exactly when it is an
      alternate-method record of amount `x`. */
  lemma AlternatePositionsSnoc(init: seq<IncomeRecord>, last: IncomeRecord, clientId: int, x: real)
    ensures AlternatePositions(init + [last], clientId, x) ==
      AlternatePositions(init, clientId, x) + (if IsAlternateOf(last, clientId) && last.total == x then {|init|} else {})
  {
    var pool := init + [last];
    forall k | 0 <= k < |init| ensures pool[k] == init[k] {
    }
  }

  lemma AlternateAmountsSingle(last: IncomeRecord, clientId: int)
    ensures AlternateAmounts([last], clientId) == if IsAlternateOf(last, clientId) then [last.total] else []
  {
    assert [last][1..] == [];
  }

  /** Every alternate-method record is searched, duplicates included: an
      amount occurs in the searched list exactly as many times as records of
      that amount. */
  lemma {:induction false} AlternateAmountsCount(pool: seq<IncomeRecord>, clientId: int, x: real)
    ensures multiset(AlternateAmounts(pool, clientId))[x] == |AlternatePositions(pool, clientId, x)|
    decreases |pool|
  {
    if pool == [] {
      assert AlternatePositions(pool, clientId, x) == {};
    } else {
      var n := |pool| - 1;
      var init, last := pool[..n], pool[n];
      assert pool == init + [last];
      AlternateAmountsAppend(init, [last], clientId);
      AlternateAmountsSingle(last, clientId);
      AlternateAmountsCount(init, clientId, x);
      AlternatePositionsSnoc(init, last, clientId, x);
      assert n !in AlternatePositions(init, clientId, x);
    }
  }

  /** Some single record matches the shortfall. */
  predicate SingleMatches(amounts: seq<real>, shortfall: real)
  {
    exists i :: 0 <= i < |amounts| && Near(amounts[i], shortfall)
  }

  /** Some two records at distinct positions i < j match the shortfall together. */
  predicate PairMatches(amounts: seq<real>, shortfall: real)
  {
    exists i, j :: 0 <= i < j < |amounts| && Near(amounts[i] + amounts[j], shortfall)
  }

  /** The search's specification: a single record or a pair explains the shortfall. */
  predicate HasAlternatePayment(amounts: seq<real>, shortfall: real)
  {
    SingleMatches(amounts, shortfall) || PairMatches(amounts, shortfall)
  }

  /** `buscar_pago_en_otros_metodos`: false at once when the client has no
      alternate-method records, then single records in order, then every
      pair i < j; the first match returns true. */
  method FindAlternatePayment(pool: seq<IncomeRecord>, clientId: int, shortfall: real) returns (found: bool)
    ensures found == HasAlternatePayment(AlternateAmounts(pool, clientId), shortfall)
  {
    var amounts := AlternateAmounts(pool, clientId);
    if |amounts| == 0 {
      return false;
    }
    for k := 0 to |amounts|
      invariant forall m :: 0 <= m < k ==> !Near(amounts[m], shortfall)
    {
      if Near(amounts[k], shortfall) {
        return true;
      }
    }
    for i := 0 to |amounts|
      invariant forall p, q :: 0 <= p < i && p < q < |amounts| ==> !Near(amounts[p] + amounts[q], shortfall)
    {
      for j := i + 1 to |amounts|
        invariant forall p, q :: 0 <= p < i && p < q < |amounts| ==> !Near(amounts[p] + amounts[q], shortfall)
        invariant forall q :: i < q < j ==> !Near(amounts[i] + amounts[q], shortfall)
      {
        if Near(amounts[i] + amounts[j], shortfall) {
          return true;
        }
      }
    }
    return false;
  }

  /** Without alternate-method records nothing explains the shortfall. */
  lemma NoRecordsNoMatch(shortfall: real)
    ensures !HasAlternatePayment([], shortfall)
  {
  }

  /** A lone record is never paired with itself: a record of half the
      shortfall explains nothing on its own. */
  lemma LoneRecordNotDoubled(x: real, shortfall: real)
    ensures HasAlternatePayment([x], shortfall) <==> Near(x, shortfall)
  {
    assert [x][0] == x;
  }

  /** Pairs are unordered: any two distinct positions, in either order, count. */
  lemma PairsUnordered(amounts: seq<real>, shortfall: real)
    ensures PairMatches(amounts, shortfall) <==>
      exists i, j :: 0 <= i < |amounts| && 0 <= j < |amounts| && i != j && Near(amounts[i] + amounts[j], shortfall)
  {
    if exists i, j :: 0 <= i < |amounts| && 0 <= j < |amounts| && i != j && Near(amounts[i] + amounts[j], shortfall) {
      var i, j :| 0 <= i < |amounts| && 0 <= j < |amounts| && i != j && Near(amounts[i] + amounts[j], shortfall);
      if j < i {
        assert amounts[j] + amounts[i] == amounts[i] + amounts[j];
      }
    }
  }

  lemma SplitAt(b: seq<real>, p: int)
    requires 0 <= p < |b|
    ensures multiset(b) == multiset(b[..p]) + multiset{b[p]} + multiset(b[p + 1..])
  {
    assert b == b[..p] + [b[p]] + b[p + 1..];
  }

  /** Two values found together in a sequence sit at two distinct positions. */
  lemma TwoPositions(b: seq<real>, x: real, y: real)
    requires multiset{x, y} <= multiset(b)
    ensures exists p, q :: 0 <= p < |b| && 0 <= q < |b| && p != q && b[p] == x && b[q] == y
  {
    assert x in multiset(b);
    var p :| 0 <= p < |b| && b[p] == x;
    SplitAt(b, p);
    var c := b[..p] + b[p + 1..];
    assert multiset(c) == multiset(b) - multiset{x};
    assert y in multiset(c);
    var m :| 0 <= m < |c| && c[m] == y;
    var q := if m < p then m else m + 1;
    assert b[q] == y;
  }

  lemma PairValues(a: seq<real>, i: int, j: int)
    requires 0 <= i < j < |a|
    ensures multiset{a[i], a[j]} <= multiset(a)
  {
    SplitAt(a, j);
    SplitAt(a[..j], i);
    assert a[..j][i] == a[i];
  }

  /** The search looks at amounts by value: reordering the records (any
      permutation) does not change its answer. */
  lemma OrderIrrelevant(a: seq<real>, b: seq<real>, shortfall: real)
    requires multiset(a) == multiset(b)
    ensures HasAlternatePayment(a, shortfall) == HasAlternatePayment(b, shortfall)
  {
    MatchSurvivesReordering(a, b, shortfall);
    MatchSurvivesReordering(b, a, shortfall);
  }

  lemma MatchSurvivesReordering(a: seq<real>, b: seq<real>, shortfall: real)
    requires multiset(a) == multiset(b)
    ensures HasAlternatePayment(a, shortfall) ==> HasAlternatePayment(b, shortfall)
  {
    if SingleMatches(a, shortfall) {
      var i :| 0 <= i < |a| && Near(a[i], shortfall);
      assert a[i] in multiset(b);
      var p :| 0 <= p < |b| && b[p] == a[i];
    } else if PairMatches(a, shortfall) {
      var i, j :| 0 <= i < j < |a| && Near(a[i] + a[j], shortfall);
      PairValues(a, i, j);
      TwoPositions(b, a[i], a[j]);
      var p, q :| 0 <= p < |b| && 0 <= q < |b| && p != q && b[p] == a[i] && b[q] == a[j];
      PairsUnordered(b, shortfall);
    }
  }
}
