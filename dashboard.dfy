/** The dashboard's summary figures and its deadline panel
    (components/Dashboard.tsx): every dated field of every campaign is checked
    against the current time; overdue fields become delays, fields due within a
    week become upcoming alerts, and each list is sorted by date and cut to five. */
module Dashboard {
  import opened Js
  import opened Lists
  import opened Dates
  import opened Domain

  // ---------------------------------------------------------------------
  // Summary figures

  predicate IsActive(c: Campaign)
  {
    c.status != Some(Completed)
  }

  predicate IsFinished(c: Campaign)
  {
    c.status == Some(Completed)
  }

  /** `campaigns.filter(c => c.status !== FINALIZADA).length`. */
  function ActiveCampaignsCount(cs: seq<Campaign>): (n: nat)
    ensures n == |Filter(cs, IsActive)|
    ensures n + Count(cs, IsFinished) == |cs|
  {
    CountComplement(cs, IsActive, IsFinished);
    Count(cs, IsActive)
  }

  /** `c.financial?.grossValue || 0`. */
  function GrossValue(c: Campaign): real
  {
    AmountOr(Get(c.financial, "grossValue"), 0.0)
  }

  /** The sum of `GrossValue` over a list, left to right as `reduce` adds. */
  function SumGross(cs: seq<Campaign>): real
    decreases |cs|
  {
    if cs == [] then 0.0 else SumGross(cs[..|cs| - 1]) + GrossValue(cs[|cs| - 1])
  }

  /** The gross value of the campaigns that are not finished. */
  function FinancialForecast(cs: seq<Campaign>): real
  {
    SumGross(Filter(cs, IsActive))
  }

  /** Summing two lists one after the other is adding their sums. */
  lemma {:induction false} SumGrossAppend(xs: seq<Campaign>, ys: seq<Campaign>)
    ensures SumGross(xs + ys) == SumGross(xs) + SumGross(ys)
    decreases |ys|
  {
    if ys == [] {
      assert xs + ys == xs;
    } else {
      assert (xs + ys)[..|xs + ys| - 1] == xs + ys[..|ys| - 1];
      assert (xs + ys)[|xs + ys| - 1] == ys[|ys| - 1];
      SumGrossAppend(xs, ys[..|ys| - 1]);
    }
  }

  /** The forecast adds the gross value of each active campaign once, and a
      finished campaign adds nothing. */
  lemma {:induction false} ForecastStep(cs: seq<Campaign>, c: Campaign)
    ensures FinancialForecast(cs + [c]) == FinancialForecast(cs) + (if IsActive(c) then GrossValue(c) else 0.0)
  {
    FilterAppend(cs, [c], IsActive);
    SumGrossAppend(Filter(cs, IsActive), Filter([c], IsActive));
    assert Filter([c], IsActive) == if IsActive(c) then [c] else [];
    if IsActive(c) {
      assert SumGross([c]) == SumGross([c][..0]) + GrossValue(c);
    }
  }

  predicate IsWaiting(l: Lead)
  {
    l.status == Some(Waiting)
  }

  /** `leads.filter(l => l.status === AGUARDANDO).length`. */
  function ActiveLeadsCount(leads: seq<Lead>): (n: nat)
    ensures n == |Filter(leads, IsWaiting)|
    ensures n <= |leads|
    ensures n == |leads| <==> forall l | l in leads :: IsWaiting(l)
  {
    if forall l | l in leads :: IsWaiting(l) then
      FilterAll(leads, IsWaiting);
      Count(leads, IsWaiting)
    else
      var l :| l in leads && !IsWaiting(l);
      FilterMissing(leads, IsWaiting, l);
      Count(leads, IsWaiting)
  }

  // ---------------------------------------------------------------------
  // Deadline checks

  /** One call of `check`: the field's date, the task it stands for, the brand
      shown, the field's status and the status value that marks it done. */
  datatype Check = Check(date: Json, task: string, brand: string, status: Json, concluded: string, campaignId: string)

  datatype Kind = Delay | Upcoming(diff: int)

  /** An entry of either list; `date` is in milliseconds since the epoch. */
  datatype Alert = Alert(date: int, task: string, brand: string, kind: Kind, campaignId: string)

  /** `next7Days` lies seven days after `today`. */
  const Week: int := 7 * MsPerDay

  /** `Number(parts[k])`: a missing part is `undefined`, which is NaN. */
  function PartNumber(parts: seq<string>, k: nat): Num
  {
    if k < |parts| then ToNumber(parts[k]) else NaN
  }

  /** The date a field holds, in milliseconds: a text with a '/' is read as
      day/month/year through the `Date` constructor, any other text as an ISO date. */
  function ParseDeadline(s: string): (r: Option<int>)
    ensures '/' !in s ==> (r.Some? <==> ParseIsoDate(s).Some?)
    ensures '/' !in s && r.Some? ==> r.value == ParseIsoDate(s).value * MsPerDay
  {
    var day :=
      if '/' in s then
        var parts := Split(s, '/');
        ConstructDate(PartNumber(parts, 2), MinusOne(PartNumber(parts, 1)), PartNumber(parts, 0))
      else ParseIsoDate(s);
    if day.Some? then Some(day.value * MsPerDay) else None
  }

  /** `Math.ceil(x / MsPerDay)` for a non-negative number of milliseconds. */
  function CeilDays(x: int): (n: int)
    requires x >= 0
    ensures (n - 1) * MsPerDay < x <= n * MsPerDay
    ensures n >= 0
  {
    (x + MsPerDay - 1) / MsPerDay
  }

  /** What one `check` call pushes, if anything. */
  function Classify(ch: Check, now: int): (r: Option<Alert>)
    ensures !ch.date.JStr? || ch.date.s == "" || ch.date.s == "A definir" ==> r.None?
    ensures ch.status == JStr(ch.concluded) ==> r.None?
    ensures r.Some? ==> ch.date.JStr? && ParseDeadline(ch.date.s) == Some(r.value.date)
    ensures r.Some? ==> r.value.task == ch.task && r.value.brand == ch.brand && r.value.campaignId == ch.campaignId
    ensures r.Some? ==> (r.value.kind.Delay? <==> r.value.date < now)
    ensures r.Some? && r.value.kind.Upcoming? ==>
      now <= r.value.date <= now + Week
      && 0 <= r.value.kind.diff <= 7
      && (r.value.kind.diff - 1) * MsPerDay < r.value.date - now <= r.value.kind.diff * MsPerDay
    ensures (ch.date.JStr? && ch.date.s != "A definir" && ch.status != JStr(ch.concluded)
             && ParseDeadline(ch.date.s).Some? && ParseDeadline(ch.date.s).value <= now + Week) ==> r.Some?
  {
    if !ch.date.JStr? || ch.date.s == "" || ch.date.s == "A definir" then None
    else
      var d := ParseDeadline(ch.date.s);
      if d.None? || ch.status == JStr(ch.concluded) then None
      else if d.value < now then Some(Alert(d.value, ch.task, ch.brand, Delay, ch.campaignId))
      else if d.value <= now + Week then
        var diff := CeilDays(d.value - now);
        assert diff * MsPerDay < 8 * MsPerDay;
        Some(Alert(d.value, ch.task, ch.brand, Upcoming(diff), ch.campaignId))
      else None
  }

  /** The check of one content item, against the status "Postado". */
  function ItemCheck(item: Json, brand: string, campaignId: string): (ch: Check)
    ensures ch.date == Prop(item, "postDate") && ch.status == Prop(item, "status") && ch.concluded == "Postado"
    ensures ch.brand == brand && ch.campaignId == campaignId
  {
    Check(Prop(item, "postDate"),
          "Post: " + Show(Prop(item, "type")) + " (" + Show(Prop(item, "platform")) + ")",
          brand, Prop(item, "status"), "Postado", campaignId)
  }

  /** The checks of the content items, one per item, in order. */
  function ItemChecks(items: seq<Json>, brand: string, campaignId: string): (chs: seq<Check>)
    ensures |chs| == |items|
    ensures forall k | 0 <= k < |items| :: chs[k] == ItemCheck(items[k], brand, campaignId)
    ensures forall ch | ch in chs :: ch.brand == brand && ch.campaignId == campaignId
  {
    if items == [] then []
    else [ItemCheck(items[0], brand, campaignId)] + ItemChecks(items[1..], brand, campaignId)
  }

  /** The two checks `check` is called with before the content items. */
  function ChecksBefore(c: Campaign, brand: string): (chs: seq<Check>)
    ensures |chs| == 2
    ensures forall ch | ch in chs :: ch.brand == brand && ch.campaignId == c.id
  {
    [ Check(Get(c.contrato, "contratoDataPrevista"), "Assinatura Contrato", brand, Get(c.contrato, "statusContrato"), "Assinado", c.id),
      Check(Get(c.roteiro, "roteiroDataPrevista"), "Aprovação Roteiro", brand, Get(c.roteiro, "roteiroStatus"), "Aprovado", c.id) ]
  }

  /** The six checks after the content items; the fourth is the payment due date. */
  function ChecksAfter(c: Campaign, brand: string): (chs: seq<Check>)
    ensures |chs| == 6
    ensures forall ch | ch in chs :: ch.brand == brand && ch.campaignId == c.id
    ensures chs[3] == PaymentDueCheck(c, brand)
  {
    [ Check(Get(c.postagem, "postagemData"), "Publicação Oficial", brand, Get(c.postagem, "postagemStatus"), "Publicado", c.id),
      Check(Get(c.metricas, "metricasDataPrevista"), "Coleta Métricas", brand, Get(c.metricas, "metricasStatus"), "Enviado ao Cliente", c.id),
      Check(Get(c.nf, "nfDataEmissao"), "Emissão de NF", brand, Get(c.nf, "nfStatus"), "Emitida", c.id),
      PaymentDueCheck(c, brand),
      Check(Get(c.repasse, "repasseData"), "Repasse Littê", brand, Get(c.repasse, "repasseStatus"), "Pago", c.id),
      Check(Get(c.produto, "produtoDataEnvio"), "Chegada Produto", brand, Get(c.produto, "produtoStatus"), "Entregue", c.id) ]
  }

  /** The checks of one campaign, in the order `check` is called: two before
      the content items, one per item, and six after. */
  function Checks(c: Campaign, brand: string): (chs: seq<Check>)
    ensures |chs| == 8 + |ContentItems(c)|
    ensures forall k | 0 <= k < |ContentItems(c)| :: chs[2 + k] == ItemCheck(ContentItems(c)[k], brand, c.id)
    ensures forall ch | ch in chs :: ch.brand == brand && ch.campaignId == c.id
    ensures chs[2 + |ContentItems(c)| + 3] == PaymentDueCheck(c, brand)
  {
    var items := ItemChecks(ContentItems(c), brand, c.id);
    var before := ChecksBefore(c, brand);
    var after := ChecksAfter(c, brand);
    Layout(before, items, after);
    before + items + after
  }

  /** Two checks, then the item checks, then six checks: where each one sits. */
  lemma Layout(before: seq<Check>, items: seq<Check>, after: seq<Check>)
    requires |before| == 2 && |after| == 6
    ensures var chs := before + items + after;
      |chs| == 8 + |items|
      && (forall k | 0 <= k < |items| :: chs[2 + k] == items[k])
      && chs[2 + |items| + 3] == after[3]
      && forall ch | ch in chs :: ch in before || ch in items || ch in after
  {
    Concat3(before, items, after);
  }

  /** The client-payment check: its done value is "Pendente", the invoice status. */
  function PaymentDueCheck(c: Campaign, brand: string): (ch: Check)
    ensures ch.status == Get(c.nf, "nfStatus") && ch.concluded == "Pendente"
    ensures ch.date == Get(c.nf, "nfDataPrevistaPagamento")
  {
    Check(Get(c.nf, "nfDataPrevistaPagamento"), "Recebimento Cliente", brand, Get(c.nf, "nfStatus"), "Pendente", c.id)
  }

  /** Influencer i is the campaign's first listed influencer. */
  predicate LinksFirst(c: Campaign, i: Influencer)
  {
    |c.influencerIds| > 0 && c.influencerIds[0] == JStr(i.id)
  }

  /** The brand as the panel shows it: with the `@usuario` of the campaign's
      first influencer, taken from the first record with that id, when one
      is known. */
  function BrandDisplay(c: Campaign, influencers: seq<Influencer>): (b: string)
    ensures (forall i | i in influencers :: !LinksFirst(c, i)) ==> b == c.brand
    ensures forall k | 0 <= k < |influencers| && LinksFirst(c, influencers[k])
                        && (forall j | 0 <= j < k :: !LinksFirst(c, influencers[j])) ::
              b == c.brand + " (@" + influencers[k].usuario + ")"
  {
    var first := if |c.influencerIds| > 0 then c.influencerIds[0] else JUndef;
    var found := Find(influencers, (i: Influencer) => JStr(i.id) == first);
    assert forall k | 0 <= k < |influencers| && LinksFirst(c, influencers[k])
                      && (forall j | 0 <= j < k :: !LinksFirst(c, influencers[j])) ::
             found == Some(influencers[k]) by {
      forall k | 0 <= k < |influencers| && LinksFirst(c, influencers[k])
                 && (forall j | 0 <= j < k :: !LinksFirst(c, influencers[j]))
        ensures found == Some(influencers[k])
      {
        FindFirst(influencers, (i: Influencer) => JStr(i.id) == first, k);
      }
    }
    match found
    case Some(inf) => c.brand + " (@" + inf.usuario + ")"
    case None => c.brand
  }

  /** All checks of all campaigns, campaign by campaign. */
  function AllChecks(cs: seq<Campaign>, influencers: seq<Influencer>): seq<Check>
    decreases |cs|
  {
    if cs == [] then []
    else
      var c := cs[|cs| - 1];
      AllChecks(cs[..|cs| - 1], influencers) + Checks(c, BrandDisplay(c, influencers))
  }

  /** The alerts pushed into one list (`delays` when `delays` holds, else
      `list`) by a run of checks, in push order. */
  function Pushed(chs: seq<Check>, now: int, delays: bool): seq<Alert>
    decreases |chs|
  {
    if chs == [] then [] else Pushed(chs[..|chs| - 1], now, delays) + Pick(Classify(chs[|chs| - 1], now), delays)
  }

  /** The alert, if any, as it is pushed into the list chosen by `delays`. */
  function Pick(a: Option<Alert>, delays: bool): seq<Alert>
  {
    if a.Some? && a.value.kind.Delay? == delays then [a.value] else []
  }

  function ByDate(a: Alert): int { a.date }

  /** The `deadlines` memo: both lists sorted by date and cut to five. */
  method Deadlines(cs: seq<Campaign>, influencers: seq<Influencer>, now: int)
    returns (upcoming: seq<Alert>, delays: seq<Alert>)
    ensures upcoming == Take(SortBy(Pushed(AllChecks(cs, influencers), now, false), ByDate), 5)
    ensures delays == Take(SortBy(Pushed(AllChecks(cs, influencers), now, true), ByDate), 5)
  {
    var list: seq<Alert> := [];
    var late: seq<Alert> := [];
    for i := 0 to |cs|
      invariant list == Pushed(AllChecks(cs[..i], influencers), now, false)
      invariant late == Pushed(AllChecks(cs[..i], influencers), now, true)
    {
      var c := cs[i];
      list, late := RunChecks(Checks(c, BrandDisplay(c, influencers)), now, AllChecks(cs[..i], influencers), list, late);
      AllChecksStep(cs, i, influencers);
    }
    assert cs[..|cs|] == cs;
    upcoming := Take(SortBy(list, ByDate), 5);
    delays := Take(SortBy(late, ByDate), 5);
  }

  /** The checks of one campaign, run in order. */
  method RunChecks(chs: seq<Check>, now: int, ghost before: seq<Check>, list: seq<Alert>, delays: seq<Alert>)
    returns (list': seq<Alert>, delays': seq<Alert>)
    requires list == Pushed(before, now, false) && delays == Pushed(before, now, true)
    ensures list' == Pushed(before + chs, now, false)
    ensures delays' == Pushed(before + chs, now, true)
  {
    list', delays' := list, delays;
    assert before + chs[..0] == before;
    for j := 0 to |chs|
      invariant list' == Pushed(before + chs[..j], now, false)
      invariant delays' == Pushed(before + chs[..j], now, true)
    {
      PushedStep(before, chs, j, now);
      list', delays' := RunCheck(chs[j], now, list', delays');
    }
    assert chs[..|chs|] == chs;
  }

  /** The `check` helper: pushes the field's alert, if any, onto the list it belongs to. */
  method RunCheck(ch: Check, now: int, list: seq<Alert>, delays: seq<Alert>)
    returns (list': seq<Alert>, delays': seq<Alert>)
    ensures list' == list + Pick(Classify(ch, now), false)
    ensures delays' == delays + Pick(Classify(ch, now), true)
  {
    list', delays' := list, delays;
    var a := Classify(ch, now);
    if a.Some? {
      if a.value.kind.Delay? {
        delays' := delays' + [a.value];
      } else {
        list' := list' + [a.value];
      }
    }
  }

  /** One more check appends its alert, if any, to the list it belongs to. */
  lemma PushedStep(before: seq<Check>, chs: seq<Check>, j: nat, now: int)
    requires j < |chs|
    ensures Pushed(before + chs[..j + 1], now, false) == Pushed(before + chs[..j], now, false) + Pick(Classify(chs[j], now), false)
    ensures Pushed(before + chs[..j + 1], now, true) == Pushed(before + chs[..j], now, true) + Pick(Classify(chs[j], now), true)
  {
    var xs := before + chs[..j + 1];
    SnocParts(before, chs, j);
    assert Pushed(xs, now, false) == Pushed(xs[..|xs| - 1], now, false) + Pick(Classify(xs[|xs| - 1], now), false);
    assert Pushed(xs, now, true) == Pushed(xs[..|xs| - 1], now, true) + Pick(Classify(xs[|xs| - 1], now), true);
  }

  /** `before + chs[..j + 1]` is `before + chs[..j]` followed by `chs[j]`. */
  lemma SnocParts<T>(before: seq<T>, chs: seq<T>, j: nat)
    requires j < |chs|
    ensures var xs := before + chs[..j + 1];
      |xs| > 0 && xs[..|xs| - 1] == before + chs[..j] && xs[|xs| - 1] == chs[j]
  {
    var xs := before + chs[..j + 1];
    assert xs[..|xs| - 1] == before + chs[..j];
  }

  /** One more campaign appends its checks. */
  lemma AllChecksStep(cs: seq<Campaign>, i: nat, influencers: seq<Influencer>)
    requires i < |cs|
    ensures AllChecks(cs[..i + 1], influencers)
      == AllChecks(cs[..i], influencers) + Checks(cs[i], BrandDisplay(cs[i], influencers))
  {
    assert cs[..i + 1][..i] == cs[..i];
  }

  // ---------------------------------------------------------------------
  // Properties of the panel

  /** Every delay lies before now and every upcoming alert within the coming
      week, so no alert is in both lists. */
  lemma {:induction false} PushedBounds(chs: seq<Check>, now: int)
    ensures forall a | a in Pushed(chs, now, true) :: a.kind.Delay? && a.date < now
    ensures forall a | a in Pushed(chs, now, false) :: a.kind.Upcoming? && now <= a.date <= now + Week
    decreases |chs|
  {
    if chs != [] {
      PushedBounds(chs[..|chs| - 1], now);
    }
  }

  /** A check whose date is empty or "A definir", or whose status is its done
      value, adds to neither list. */
  lemma {:induction false} SkippedCheck(chs: seq<Check>, ch: Check, now: int, delays: bool)
    requires !ch.date.JStr? || ch.date.s == "" || ch.date.s == "A definir" || ch.status == JStr(ch.concluded)
    ensures Pushed(chs + [ch], now, delays) == Pushed(chs, now, delays)
  {
    assert (chs + [ch])[..|chs|] == chs;
  }

  /** The payment-due field of a campaign whose invoice status is "Pendente"
      never raises an alert, however late its date. */
  lemma PaymentDueSuppressed(c: Campaign, brand: string, now: int)
    requires Get(c.nf, "nfStatus") == JStr("Pendente")
    ensures Classify(Checks(c, brand)[2 + |ContentItems(c)| + 3], now).None?
  {
  }

  /** Each list holds at most five alerts, sorted by date, taken from the
      alerts pushed into it, and every pushed alert left out is no earlier than
      any alert kept. */
  lemma EarliestFive(cs: seq<Campaign>, influencers: seq<Influencer>, now: int, delays: bool)
    ensures var pushed := Pushed(AllChecks(cs, influencers), now, delays);
      var r := Take(SortBy(pushed, ByDate), 5);
      |r| == (if |pushed| < 5 then |pushed| else 5)
      && SortedBy(r, ByDate) && multiset(r) <= multiset(pushed)
      && forall x, y | x in multiset(pushed) - multiset(r) && y in r :: y.date <= x.date
  {
    FiveEarliest(Pushed(AllChecks(cs, influencers), now, delays));
  }

  /** Cutting any list of alerts sorted by date to five keeps the earliest. */
  lemma FiveEarliest(pushed: seq<Alert>)
    ensures var r := Take(SortBy(pushed, ByDate), 5);
      |r| == (if |pushed| < 5 then |pushed| else 5)
      && SortedBy(r, ByDate) && multiset(r) <= multiset(pushed)
      && forall x, y | x in multiset(pushed) - multiset(r) && y in r :: y.date <= x.date
  {
    Smallest(pushed, ByDate, 5);
  }

  /** Reading "d/m/y" with a year of at least 100: the day d of month m of year y. */
  lemma DayMonthYear(d: nat, m: nat, y: nat)
    requires y >= 100
    ensures var day := MakeDay(y, m - 1, d);
      -MaxTime <= day * MsPerDay <= MaxTime ==>
      ParseDeadline(NatText(d) + "/" + NatText(m) + "/" + NatText(y)) == Some(day * MsPerDay)
  {
    var a, b, c := NatText(d), NatText(m), NatText(y);
    SplitThree(a, b, c);
    NumberOfDigits(a);
    NumberOfDigits(b);
    NumberOfDigits(c);
    DmyParts(a + "/" + b + "/" + c, a, b, c);
    ConstructFromDigits(a, b, c, d, m, y);
  }

  /** A text split by '/' into three parts is read as day, month and year. */
  lemma DmyParts(s: string, a: string, b: string, c: string)
    requires '/' in s && Split(s, '/') == [a, b, c]
    ensures var day := ConstructDate(ToNumber(c), MinusOne(ToNumber(b)), ToNumber(a));
      ParseDeadline(s) == if day.Some? then Some(day.value * MsPerDay) else None
  {
  }

  /** The `Date` constructor on the numbers read from three digit strings. */
  lemma ConstructFromDigits(a: string, b: string, c: string, d: nat, m: nat, y: nat)
    requires y >= 100
    requires ToNumber(a) == Fin(d as real) && ToNumber(b) == Fin(m as real) && ToNumber(c) == Fin(y as real)
    ensures ConstructDate(ToNumber(c), MinusOne(ToNumber(b)), ToNumber(a))
      == if -MaxTime <= MakeDay(y, m - 1, d) * MsPerDay <= MaxTime then Some(MakeDay(y, m - 1, d)) else None
  {
    assert MinusOne(ToNumber(b)) == Fin((m - 1) as real);
    ConstructWhole(y, m - 1, d);
  }

  /** The `Date` constructor on whole numbers, with a year of at least 100. */
  lemma ConstructWhole(y: int, m: int, d: int)
    requires y >= 100
    ensures var day := MakeDay(y, m, d);
      ConstructDate(Fin(y as real), Fin(m as real), Fin(d as real))
      == if -MaxTime <= day * MsPerDay <= MaxTime then Some(day) else None
  {
    assert Trunc(y as real) == y && Trunc(m as real) == m && Trunc(d as real) == d;
  }
}
