/** The finance screen (Financial.tsx): the cash metrics accumulated over the
    campaigns, the chart points of the latest campaigns, and the profit split
    of the accumulated commission. */
module Finance {
  import opened Js
  import opened Lists
  import opened Domain
  import opened Modals
  import Dashboard

  /** The client has paid the campaign. */
  predicate IsPaid(c: Campaign)
  {
    Get(c.financial, "statusPagCliente") == JStr("Pago")
  }

  predicate IsUnpaid(c: Campaign)
  {
    !IsPaid(c)
  }

  /** `grossValue || 0`. */
  function Value(c: Campaign): (v: real)
    ensures v == Dashboard.GrossValue(c)
  {
    AmountOr(Get(c.financial, "grossValue"), 0.0)
  }

  /** `litteTax || value * 0.2`: the commission, 20% of the budget when none is stored. */
  function Tax(c: Campaign): (t: real)
    ensures Get(c.financial, "litteTax").JNum? && Truthy(Get(c.financial, "litteTax")) ==>
      t == Get(c.financial, "litteTax").n.r
    ensures !Truthy(Get(c.financial, "litteTax")) ==> t == 0.2 * Value(c)
  {
    AmountOr(Get(c.financial, "litteTax"), Value(c) * 0.2)
  }

  /** `influencerCut || value * 0.8`: the creator's cut, 80% of the budget when none is stored. */
  function Cut(c: Campaign): (t: real)
    ensures Get(c.financial, "influencerCut").JNum? && Truthy(Get(c.financial, "influencerCut")) ==>
      t == Get(c.financial, "influencerCut").n.r
    ensures !Truthy(Get(c.financial, "influencerCut")) ==> t == 0.8 * Value(c)
  {
    AmountOr(Get(c.financial, "influencerCut"), Value(c) * 0.8)
  }

  /** When neither commission nor cut is stored, they divide the budget. */
  lemma DefaultsDivideBudget(c: Campaign)
    requires !Truthy(Get(c.financial, "litteTax")) && !Truthy(Get(c.financial, "influencerCut"))
    ensures Tax(c) + Cut(c) == Value(c)
  {
  }

  datatype Metrics = Metrics(saldoTotal: real, aReceber: real, repassesPendentes: real)

  /** What one campaign adds to the metrics: a paid campaign its commission to
      the balance, and its cut to the pending transfers unless transferred; an
      unpaid campaign its budget to the receivables. */
  function Contribution(c: Campaign): (m: Metrics)
    ensures IsPaid(c) ==> m.saldoTotal == Tax(c) && m.aReceber == 0.0
    ensures !IsPaid(c) ==> m.saldoTotal == 0.0 && m.repassesPendentes == 0.0 && m.aReceber == Value(c)
    ensures m.repassesPendentes != 0.0 ==> IsPaid(c) && Get(c.financial, "statusRepasse") != JStr("Pago")
    ensures IsPaid(c) && Get(c.financial, "statusRepasse") != JStr("Pago") ==> m.repassesPendentes == Cut(c)
  {
    if IsPaid(c) then
      Metrics(Tax(c), 0.0, if Get(c.financial, "statusRepasse") != JStr("Pago") then Cut(c) else 0.0)
    else Metrics(0.0, Value(c), 0.0)
  }

  function Plus(a: Metrics, b: Metrics): Metrics
  {
    Metrics(a.saldoTotal + b.saldoTotal, a.aReceber + b.aReceber, a.repassesPendentes + b.repassesPendentes)
  }

  /** The metrics of a list, accumulated left to right. */
  function MetricsOf(cs: seq<Campaign>): Metrics
    decreases |cs|
  {
    if cs == [] then Metrics(0.0, 0.0, 0.0)
    else Plus(MetricsOf(cs[..|cs| - 1]), Contribution(cs[|cs| - 1]))
  }

  /** `metrics`: the `forEach` accumulation. */
  method ComputeMetrics(cs: seq<Campaign>) returns (m: Metrics)
    ensures m == MetricsOf(cs)
  {
    var saldoTotal, aReceber, repassesPendentes := 0.0, 0.0, 0.0;
    for i := 0 to |cs|
      invariant Metrics(saldoTotal, aReceber, repassesPendentes) == MetricsOf(cs[..i])
    {
      var c := cs[i];
      assert cs[..i + 1][..i] == cs[..i];
      if IsPaid(c) {
        saldoTotal := saldoTotal + Tax(c);
        if Get(c.financial, "statusRepasse") != JStr("Pago") {
          repassesPendentes := repassesPendentes + Cut(c);
        }
      } else {
        aReceber := aReceber + Value(c);
      }
    }
    assert cs[..|cs|] == cs;
    m := Metrics(saldoTotal, aReceber, repassesPendentes);
  }

  /** The receivables are exactly the budgets of the unpaid campaigns, summed
      as the dashboard sums budgets. */
  lemma {:induction false} ReceivablesAreUnpaidBudgets(cs: seq<Campaign>)
    ensures MetricsOf(cs).aReceber == Dashboard.SumGross(Filter(cs, IsUnpaid))
    decreases |cs|
  {
    if cs != [] {
      var init, last := cs[..|cs| - 1], cs[|cs| - 1];
      assert init + [last] == cs;
      ReceivablesAreUnpaidBudgets(init);
      ReceivableStep(init, last);
      assert MetricsOf(cs).aReceber == MetricsOf(init).aReceber + Contribution(last).aReceber;
    }
  }

  lemma ReceivableStep(init: seq<Campaign>, last: Campaign)
    ensures Dashboard.SumGross(Filter(init + [last], IsUnpaid))
         == Dashboard.SumGross(Filter(init, IsUnpaid)) + Contribution(last).aReceber
  {
    FilterAppend(init, [last], IsUnpaid);
    Dashboard.SumGrossAppend(Filter(init, IsUnpaid), Filter([last], IsUnpaid));
    OneReceivable(last);
  }

  lemma OneReceivable(c: Campaign)
    ensures Dashboard.SumGross(Filter([c], IsUnpaid)) == Contribution(c).aReceber
  {
    assert [c][1..] == [];
    if IsUnpaid(c) {
      assert Filter([c], IsUnpaid) == [c];
      assert [c][..0] == [];
    } else {
      assert Filter([c], IsUnpaid) == [];
    }
  }

  /** With nothing paid there is no balance and no pending transfer. */
  lemma {:induction false} NothingPaid(cs: seq<Campaign>)
    requires forall c | c in cs :: !IsPaid(c)
    ensures MetricsOf(cs).saldoTotal == 0.0 && MetricsOf(cs).repassesPendentes == 0.0
    decreases |cs|
  {
    if cs != [] {
      assert forall c | c in cs[..|cs| - 1] :: c in cs;
      NothingPaid(cs[..|cs| - 1]);
      assert cs[|cs| - 1] in cs;
    }
  }

  // ---------------------------------------------------------------------
  // The chart

  datatype Point = Point(name: string, entrada: real, saida: real)

  /** One campaign's chart point: the first eight characters of its brand,
      its budget in, and its cut plus the partners' share out. */
  function ChartPoint(c: Campaign): (p: Point)
    ensures p.name <= c.brand && |p.name| == if |c.brand| < 8 then |c.brand| else 8
    ensures p.entrada == Value(c)
    ensures p.saida == AmountOr(Get(c.financial, "influencerCut"), 0.0) + AmountOr(Get(c.financial, "partnerSplit"), 0.0)
  {
    Point(if |c.brand| < 8 then c.brand else c.brand[..8],
          AmountOr(Get(c.financial, "grossValue"), 0.0),
          AmountOr(Get(c.financial, "influencerCut"), 0.0) + AmountOr(Get(c.financial, "partnerSplit"), 0.0))
  }

  /** `dataFin`: the first six campaigns, last first. */
  function DataFin(cs: seq<Campaign>): (r: seq<Point>)
    ensures |r| == if |cs| < 6 then |cs| else 6
    ensures forall i | 0 <= i < |r| :: r[i] == ChartPoint(cs[|r| - 1 - i])
  {
    Map(Reverse(Take(cs, 6)), ChartPoint)
  }

  // ---------------------------------------------------------------------
  // The profit split

  /** `saldoTotal * (pct / 100)` for each partner; NaN when the rule is NaN. */
  function Share(saldo: real, pct: Num): (r: Num)
    ensures pct.NaN? <==> r.NaN?
    ensures pct.Fin? ==> r.r == saldo * pct.r / 100.0
  {
    if pct.NaN? then NaN else Fin(saldo * (pct.r / 100.0))
  }

  /** Percentages adding up to 100 divide the whole balance between the partners. */
  lemma SharesSumToBalance(saldo: real, rules: SplitRules)
    requires Add(Add(rules.gestor, rules.operacional), rules.reserva) == Fin(100.0)
    ensures var g, o, r := Share(saldo, rules.gestor), Share(saldo, rules.operacional), Share(saldo, rules.reserva);
      g.Fin? && o.Fin? && r.Fin? && g.r + o.r + r.r == saldo
  {
    var total := rules.gestor.r + rules.operacional.r + rules.reserva.r;
    assert total == 100.0;
    assert saldo * rules.gestor.r / 100.0 + saldo * rules.operacional.r / 100.0 + saldo * rules.reserva.r / 100.0
        == saldo * total / 100.0;
  }
}
