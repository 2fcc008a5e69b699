/** The calendar screen (Calendar.tsx): the events drawn from the campaigns'
    checklist dates, the month and week grids, the events of one cell, and
    the navigation between months and weeks. Dates are day numbers (see
    `Dates`); the view date keeps only its day. */
module Calendar {
  import opened Js
  import opened Lists
  import opened Dates
  import opened Domain

  datatype EventType = ContratoEvent | ProdutoEvent | RoteiroEvent | ConteudoEvent | PostagemEvent | MetricasEvent | FinanceiroEvent

  datatype Event = Event(
    id: string,
    date: string,
    title: string,
    description: string,
    kind: EventType,
    isReal: bool,
    status: Json,
    brand: string,
    influencerName: string)

  // ---------------------------------------------------------------------
  // The events

  /** A date field as text; a value that is not a string counts as empty. */
  function DateText(j: Json): string
  {
    if j.JStr? then j.s else ""
  }

  /** `formatDate`: no date for "" and "A definir"; "DD/MM/YYYY" is turned
      around into "YYYY-MM-DD"; anything else is kept. */
  function FormatDate(d: string): (r: Option<string>)
    ensures r.None? <==> d == "" || d == "A definir"
    ensures r.Some? && '/' !in d ==> r.value == d
  {
    if d == "" || d == "A definir" then None
    else if '/' in d then Some(Join(Reverse(Split(d, '/')), "-"))
    else Some(d)
  }

  /** A date written day/month/year turns into year-month-day. */
  lemma FormatDayMonthYear(dd: string, mm: string, yyyy: string)
    requires AllDigits(dd) && AllDigits(mm) && AllDigits(yyyy)
    ensures FormatDate(dd + "/" + mm + "/" + yyyy) == Some(yyyy + "-" + mm + "-" + dd)
  {
    SplitThree(dd, mm, yyyy);
    var s := dd + "/" + mm + "/" + yyyy;
    assert s != "A definir" by {
      assert '/' in s;
      assert '/' !in "A definir";
    }
    assert Reverse([dd, mm, yyyy]) == [yyyy, mm, dd];
    assert Join([dd], "-") == dd;
    assert [mm, dd][1..] == [dd];
    assert Join([mm, dd], "-") == mm + "-" + dd;
    assert [yyyy, mm, dd][1..] == [mm, dd];
    assert Join([yyyy, mm, dd], "-") == yyyy + "-" + (mm + "-" + dd);
    assert FormatDate(s) == Some(Join(Reverse(Split(s, '/')), "-"));
    assert yyyy + "-" + (mm + "-" + dd) == yyyy + "-" + mm + "-" + dd;
  }

  function BoolText(b: bool): string
  {
    if b then "true" else "false"
  }

  /** `add`: no event for an empty date; a real date's title gets " (Real)". */
  function AddEvent(c: Campaign, name: string, d: string, title: string, kind: EventType, status: Json, isReal: bool): (r: seq<Event>)
    ensures d == "" <==> r == []
    ensures r != [] ==> (|r| == 1 && r[0].date == d && r[0].kind == kind && r[0].isReal == isReal
      && r[0].title == (if isReal then title + " (Real)" else title)
      && r[0].brand == c.brand && r[0].influencerName == name)
  {
    if d == "" then []
    else
      [Event(c.id + "-" + title + "-" + BoolText(isReal), d, if isReal then title + " (Real)" else title,
             c.brand + " - " + name, kind, isReal, status, c.brand, name)]
  }

  /** `inf?.nome || 'Assessorado'` for the campaign's first influencer. */
  function InfluencerName(c: Campaign, influencers: seq<Influencer>): (name: string)
    ensures name != ""
  {
    var first := if |c.influencerIds| > 0 then c.influencerIds[0] else JUndef;
    var inf := Find(influencers, (i: Influencer) => JStr(i.id) == first);
    if inf.Some? && inf.value.nome != "" then inf.value.nome else "Assessorado"
  }

  /** The events of the contract, product and script dates, before the items. */
  function HeadEvents(c: Campaign, name: string): seq<Event>
  {
    AddEvent(c, name, DateText(Get(c.contrato, "contratoDataPrevista")), "Contrato", ContratoEvent, Get(c.contrato, "statusContrato"), false)
    + AddEvent(c, name, DateText(Get(c.contrato, "contratoDataReal")), "Assinatura Contrato", ContratoEvent, Get(c.contrato, "statusContrato"), true)
    + AddEvent(c, name, DateText(Get(c.produto, "produtoDataEnvio")), "Envio Produto", ProdutoEvent, Get(c.produto, "produtoStatus"), false)
    + AddEvent(c, name, DateText(Get(c.roteiro, "roteiroDataPrevista")), "Roteiro", RoteiroEvent, Get(c.roteiro, "roteiroStatus"), false)
    + AddEvent(c, name, DateText(Get(c.roteiro, "roteiroDataReal")), "Envio Roteiro", RoteiroEvent, Get(c.roteiro, "roteiroStatus"), true)
    + AddEvent(c, name, DateText(Get(c.roteiro, "roteiroDataAprovacao")), "Aprovação Roteiro", RoteiroEvent, Get(c.roteiro, "roteiroStatus"), true)
  }

  /** The events of one content item: its planned post, and its posting
      when the item is posted. */
  function ItemEvents(c: Campaign, name: string, item: Json): (r: seq<Event>)
    ensures |r| == if DateText(Prop(item, "postDate")) == "" then 0
                   else if Prop(item, "status") == JStr("Postado") then 2 else 1
    ensures |r| >= 1 ==> r[0].kind == ConteudoEvent && !r[0].isReal
    ensures |r| == 2 ==> r[1].kind == PostagemEvent && r[1].isReal && r[1].status == JStr("Postado")
  {
    var d := DateText(Prop(item, "postDate"));
    var title := Show(Prop(item, "type")) + " (" + Show(Prop(item, "platform")) + ")";
    AddEvent(c, name, d, title, ConteudoEvent, Prop(item, "status"), false)
    + (if Prop(item, "status") == JStr("Postado") then AddEvent(c, name, d, title, PostagemEvent, JStr("Postado"), true) else [])
  }

  /** The events of a list of items, in order. */
  function ItemsEvents(c: Campaign, name: string, items: seq<Json>): seq<Event>
    decreases |items|
  {
    if items == [] then [] else ItemsEvents(c, name, items[..|items| - 1]) + ItemEvents(c, name, items[|items| - 1])
  }

  /** The events of the posting, metrics, invoice and transfer dates, after the items. */
  function TailEvents(c: Campaign, name: string): seq<Event>
  {
    AddEvent(c, name, DateText(Get(c.postagem, "postagemData")), "Postagem (Geral)", PostagemEvent, Get(c.postagem, "postagemStatus"), false)
    + AddEvent(c, name, DateText(Get(c.metricas, "metricasDataPrevista")), "Coleta Métricas", MetricasEvent, Get(c.metricas, "metricasStatus"), false)
    + AddEvent(c, name, DateText(Get(c.nf, "nfDataEmissao")), "Emissão NF", FinanceiroEvent, Get(c.nf, "nfStatus"), false)
    + AddEvent(c, name, DateText(Get(c.nf, "nfDataPrevistaPagamento")), "Pagamento NF", FinanceiroEvent, Get(c.nf, "nfStatus"), false)
    + AddEvent(c, name, DateText(Get(c.repasse, "repasseData")), "Repasse Littê", FinanceiroEvent, Get(c.repasse, "repasseStatus"), false)
  }

  function CampaignEvents(c: Campaign, name: string): seq<Event>
  {
    HeadEvents(c, name) + ItemsEvents(c, name, ContentItems(c)) + TailEvents(c, name)
  }

  /** The events pushed for a list of campaigns, in order. */
  function RawEvents(cs: seq<Campaign>, influencers: seq<Influencer>): seq<Event>
    decreases |cs|
  {
    if cs == [] then []
    else RawEvents(cs[..|cs| - 1], influencers) + CampaignEvents(cs[|cs| - 1], InfluencerName(cs[|cs| - 1], influencers))
  }

  /** `{ ...ev, date: formatDate(ev.date) || '' }`. */
  function Normalized(e: Event): (r: Event)
    ensures r == e.(date := r.date)
    ensures FormatDate(e.date).None? ==> r.date == ""
  {
    var f := FormatDate(e.date);
    e.(date := if f.Some? then f.value else "")
  }

  predicate HasDate(e: Event)
  {
    e.date != ""
  }

  /** The event list: every pushed event with its date normalised, without
      those left with no date. */
  function Events(cs: seq<Campaign>, influencers: seq<Influencer>): (r: seq<Event>)
    ensures forall e :: e in r <==> e in Map(RawEvents(cs, influencers), Normalized) && e.date != ""
    ensures forall e :: multiset(r)[e] == if e.date != "" then multiset(Map(RawEvents(cs, influencers), Normalized))[e] else 0
    ensures IsSubsequence(r, Map(RawEvents(cs, influencers), Normalized))
  {
    FilterIsSubsequence(Map(RawEvents(cs, influencers), Normalized), HasDate);
    FilterCounts(Map(RawEvents(cs, influencers), Normalized), HasDate);
    Filter(Map(RawEvents(cs, influencers), Normalized), HasDate)
  }

  /** `events`: the pushes of the nested `forEach` loops, then the map and filter. */
  method BuildEvents(cs: seq<Campaign>, influencers: seq<Influencer>) returns (events: seq<Event>)
    ensures events == Events(cs, influencers)
  {
    var list: seq<Event> := [];
    for i := 0 to |cs|
      invariant list == RawEvents(cs[..i], influencers)
    {
      var c := cs[i];
      var name := InfluencerName(c, influencers);
      var head := list + HeadEvents(c, name);
      var withItems := PushItems(c, name, ContentItems(c), head);
      list := withItems + TailEvents(c, name);
      RawEventsStep(cs, i, influencers, head, withItems, list);
    }
    assert cs[..|cs|] == cs;
    events := Filter(Map(list, Normalized), HasDate);
  }

  /** The inner `forEach` over the content items. */
  method PushItems(c: Campaign, name: string, items: seq<Json>, list: seq<Event>) returns (r: seq<Event>)
    ensures r == list + ItemsEvents(c, name, items)
  {
    r := list;
    for k := 0 to |items|
      invariant r == list + ItemsEvents(c, name, items[..k])
    {
      ItemsEventsStep(c, name, items, k, list);
      r := r + ItemEvents(c, name, items[k]);
    }
    assert items[..|items|] == items;
  }

  /** One more item appends its events. */
  lemma ItemsEventsStep(c: Campaign, name: string, items: seq<Json>, k: nat, list: seq<Event>)
    requires k < |items|
    ensures list + ItemsEvents(c, name, items[..k + 1])
      == (list + ItemsEvents(c, name, items[..k])) + ItemEvents(c, name, items[k])
  {
    ItemsEventsSnoc(c, name, items, k);
    AppendAssoc(list, ItemsEvents(c, name, items[..k]), ItemEvents(c, name, items[k]));
  }

  lemma ItemsEventsSnoc(c: Campaign, name: string, items: seq<Json>, k: nat)
    requires k < |items|
    ensures ItemsEvents(c, name, items[..k + 1]) == ItemsEvents(c, name, items[..k]) + ItemEvents(c, name, items[k])
  {
    assert items[..k + 1][..k] == items[..k];
  }

  lemma AppendAssoc<T>(a: seq<T>, b: seq<T>, c: seq<T>)
    ensures a + (b + c) == (a + b) + c
  {
  }

  lemma RawEventsStep(cs: seq<Campaign>, i: nat, influencers: seq<Influencer>, head: seq<Event>, withItems: seq<Event>, list: seq<Event>)
    requires i < |cs|
    requires head == RawEvents(cs[..i], influencers) + HeadEvents(cs[i], InfluencerName(cs[i], influencers))
    requires withItems == head + ItemsEvents(cs[i], InfluencerName(cs[i], influencers), ContentItems(cs[i]))
    requires list == withItems + TailEvents(cs[i], InfluencerName(cs[i], influencers))
    ensures list == RawEvents(cs[..i + 1], influencers)
  {
    var c, name := cs[i], InfluencerName(cs[i], influencers);
    RawEventsSnoc(cs, i, influencers);
    Assoc(RawEvents(cs[..i], influencers), HeadEvents(c, name), ItemsEvents(c, name, ContentItems(c)), TailEvents(c, name));
  }

  lemma RawEventsSnoc(cs: seq<Campaign>, i: nat, influencers: seq<Influencer>)
    requires i < |cs|
    ensures RawEvents(cs[..i + 1], influencers) == RawEvents(cs[..i], influencers) + CampaignEvents(cs[i], InfluencerName(cs[i], influencers))
  {
    assert cs[..i + 1][..i] == cs[..i];
  }

  lemma Assoc<T>(r: seq<T>, h: seq<T>, m: seq<T>, t: seq<T>)
    ensures ((r + h) + m) + t == r + ((h + m) + t)
  {
  }

  // ---------------------------------------------------------------------
  // The grids

  datatype Cell = Cell(day: int, isCurrentRange: bool, date: Option<int>)

  /** `new Date(year, month + 1, 0).getDate()`. */
  function MonthLength(y: int, m0: int): int
  {
    FromDays(MakeDay(y, m0 + 1, 0)).day
  }

  /** Day 0 of the next month is the last day of this one. */
  lemma MonthLengthIsDaysInMonth(y: int, m0: int)
    requires 0 <= m0 < 12
    ensures MonthLength(y, m0) == DaysInMonth(y, m0)
  {
    var last := Date(y, m0, DaysInMonth(y, m0));
    if m0 == 11 {
      YearStep(y);
      MonthsMakeYear(y);
    }
    assert Days(last) == MakeDay(y, m0 + 1, 0);
    DaysInjective(FromDays(MakeDay(y, m0 + 1, 0)), last);
  }

  /** The weekday of the first of the view date's month: the number of blank leading cells. */
  function StartOffset(view: int): (off: int)
    ensures 0 <= off < 7
  {
    Weekday(MakeDay(FromDays(view).year, FromDays(view).month, 1))
  }

  function NumDays(view: int): int
  {
    MonthLength(FromDays(view).year, FromDays(view).month)
  }

  /** `generateGrid` in month mode: 42 cells, cell i showing day
      `i - startOffset + 1`, dated only when that day is in the month. */
  function MonthGrid(view: int): (cells: seq<Cell>)
    ensures |cells| == 42
    ensures forall i | 0 <= i < 42 :: (cells[i].day == i - StartOffset(view) + 1
      && (cells[i].isCurrentRange <==> 1 <= cells[i].day <= NumDays(view))
      && (cells[i].date.Some? <==> cells[i].isCurrentRange)
      && (cells[i].isCurrentRange ==> cells[i].date.value == MakeDay(FromDays(view).year, FromDays(view).month, cells[i].day)))
  {
    var dt := FromDays(view);
    GridCells(dt.year, dt.month, StartOffset(view), NumDays(view))
  }

  /** The 42 cells of a month grid with `off` leading blanks and `numDays` days. */
  function GridCells(y: int, m0: int, off: int, numDays: int): (cells: seq<Cell>)
    ensures |cells| == 42
    ensures forall i | 0 <= i < 42 :: (cells[i].day == i - off + 1
      && (cells[i].isCurrentRange <==> 1 <= cells[i].day <= numDays)
      && (cells[i].date.Some? <==> cells[i].isCurrentRange)
      && (cells[i].isCurrentRange ==> cells[i].date.value == MakeDay(y, m0, cells[i].day)))
  {
    seq(42, i requires 0 <= i < 42 =>
      var d := i - off + 1;
      var inMonth := d > 0 && d <= numDays;
      Cell(d, inMonth, if inMonth then Some(MakeDay(y, m0, d)) else None))
  }

  /** Every day of the view date's month has its cell, in range, dated with that day. */
  lemma MonthGridCoversMonth(view: int, d: int)
    requires 1 <= d <= DaysInMonth(FromDays(view).year, FromDays(view).month)
    ensures var i := d + StartOffset(view) - 1;
      0 <= i < 42 && MonthGrid(view)[i].isCurrentRange
      && FromDays(MonthGrid(view)[i].date.value) == Date(FromDays(view).year, FromDays(view).month, d)
  {
    var dt := FromDays(view);
    MonthLengthIsDaysInMonth(dt.year, dt.month);
    var i := d + StartOffset(view) - 1;
    var n := MonthGrid(view)[i].date.value;
    assert n == Days(Date(dt.year, dt.month, d));
    DaysInjective(FromDays(n), Date(dt.year, dt.month, d));
  }

  /** The Sunday on or before a day. */
  function WeekStart(view: int): (s: int)
    ensures Weekday(s) == 0 && s <= view < s + 7
  {
    view - Weekday(view)
  }

  /** `generateGrid` in week mode: the seven days from the Sunday on or before
      the view date, all in range. */
  function WeekGrid(view: int): (cells: seq<Cell>)
    ensures |cells| == 7
    ensures forall i | 0 <= i < 7 :: cells[i] == DayCell(WeekStart(view) + i)
  {
    var start := WeekStart(view);
    seq(7, i requires 0 <= i < 7 => DayCell(start + i))
  }

  /** The in-range cell of day number n: its day of the month, and n itself. */
  function DayCell(n: int): (cell: Cell)
    ensures cell.isCurrentRange && cell.date == Some(n) && cell.day == FromDays(n).day
  {
    Cell(FromDays(n).day, true, Some(n))
  }

  /** The `YYYY-MM-DD` key of a day, months and days padded to two digits. */
  function DayKey(n: int): string
  {
    var dt := FromDays(n);
    IntText(dt.year) + "-" + Pad2(NatText(dt.month + 1)) + "-" + Pad2(NatText(dt.day))
  }

  /** In years 1000 to 9999 the key of a day is an ISO date that reads back
      as that same day. */
  lemma {:induction false} DayKeyReadsBack(n: int)
    requires 1000 <= FromDays(n).year <= 9999
    ensures ParseIsoDate(DayKey(n)) == Some(n)
  {
    var dt := FromDays(n);
    var y, m, d := NatText(dt.year), Pad2(NatText(dt.month + 1)), Pad2(NatText(dt.day));
    assert DayKey(n) == y + "-" + m + "-" + d;
    FourDigits(dt.year);
    TwoDigits(dt.month + 1);
    TwoDigits(dt.day);
    IsoTextReads(y, m, d);
    assert MakeDay(DigitsValue(y), DigitsValue(m) - 1, DigitsValue(d)) == n;
  }

  /** A year from 1000 to 9999 is written with four digits. */
  lemma FourDigits(y: int)
    requires 1000 <= y <= 9999
    ensures |NatText(y)| == 4
  {
    var q1 := y / 10;
    var q2 := q1 / 10;
    var q3 := q2 / 10;
    assert 10 <= q2 <= 99 && 1 <= q3 <= 9;
    assert |NatText(q2)| == 2 by {
      assert NatText(q2) == NatText(q3) + [DigitChar(q2 % 10)];
    }
    assert |NatText(q1)| == 3 by {
      assert NatText(q1) == NatText(q2) + [DigitChar(q1 % 10)];
    }
    assert NatText(y) == NatText(q1) + [DigitChar(y % 10)];
  }

  /** A number from 1 to 99, padded to two digits, keeps its value. */
  lemma TwoDigits(k: int)
    requires 1 <= k <= 99
    ensures |Pad2(NatText(k))| == 2 && AllDigits(Pad2(NatText(k)))
    ensures DigitsValue(Pad2(NatText(k))) == k
  {
    var t := NatText(k);
    if k < 10 {
      assert Pad2(t) == "0" + t;
      assert ("0" + t)[..1] == "0";
    } else {
      assert t == NatText(k / 10) + [DigitChar(k % 10)];
    }
  }

  /** `getDayEvents`: none for an undated cell, otherwise the events on that day. */
  function DayEvents(events: seq<Event>, date: Option<int>): (r: seq<Event>)
    ensures date.None? ==> r == []
    ensures date.Some? ==> forall e :: e in r <==> e in events && e.date == DayKey(date.value)
    ensures IsSubsequence(r, events)
  {
    if date.None? then
      assert IsSubsequence([], events);
      []
    else
      FilterIsSubsequence(events, (e: Event) => e.date == DayKey(date.value));
      Filter(events, (e: Event) => e.date == DayKey(date.value))
  }

  lemma PaddedDigits(s: string)
    requires AllDigits(s) && |s| >= 1
    ensures AllDigits(Pad2(s))
  {
  }

  /** An event dated "DD/MM/YYYY" is shown on the cell of that day. */
  lemma SlashDateOnItsDay(y: nat, m0: int, d: int)
    requires Valid(Date(y, m0, d))
    ensures FormatDate(Pad2(NatText(d)) + "/" + Pad2(NatText(m0 + 1)) + "/" + NatText(y))
         == Some(DayKey(Days(Date(y, m0, d))))
  {
    PaddedDigits(NatText(d));
    PaddedDigits(NatText(m0 + 1));
    FormatDayMonthYear(Pad2(NatText(d)), Pad2(NatText(m0 + 1)), NatText(y));
    KeyOfDate(y, m0, d);
  }

  /** The key of a valid date's day number spells that date. */
  lemma KeyOfDate(y: nat, m0: int, d: int)
    requires Valid(Date(y, m0, d))
    ensures DayKey(Days(Date(y, m0, d))) == NatText(y) + "-" + Pad2(NatText(m0 + 1)) + "-" + Pad2(NatText(d))
  {
    DaysInjective(FromDays(Days(Date(y, m0, d))), Date(y, m0, d));
  }

  // ---------------------------------------------------------------------
  // Navigation

  datatype ViewMode = MonthMode | WeekMode

  /** `handlePrev` (step -1) and `handleNext` (step 1): a month moves by
      `setMonth`, keeping the day number (which may run over), a week by seven days. */
  function Navigate(view: int, mode: ViewMode, step: int): int
    requires step == 1 || step == -1
  {
    var dt := FromDays(view);
    match mode
    case MonthMode => MakeDay(dt.year, dt.month + step, dt.day)
    case WeekMode => view + 7 * step
  }

  /** In week mode, forward then back returns to the same day. */
  lemma WeekNavigationReturns(view: int)
    ensures Navigate(Navigate(view, WeekMode, 1), WeekMode, -1) == view
    ensures Navigate(view, WeekMode, 1) == view + 7
  {
  }

  /** In month mode, a day no later than the 28th keeps its day in the
      neighbouring month. */
  lemma MonthNavigationKeepsDay(view: int, step: int)
    requires step == 1 || step == -1
    requires FromDays(view).day <= 28
    ensures var dt := FromDays(view);
      FromDays(Navigate(view, MonthMode, step))
        == Date(dt.year + (dt.month + step) / 12, (dt.month + step) % 12, dt.day)
  {
    var dt := FromDays(view);
    var n := Navigate(view, MonthMode, step);
    assert n == MakeDay(dt.year, dt.month + step, dt.day);
    var target := Date(dt.year + (dt.month + step) / 12, (dt.month + step) % 12, dt.day);
    assert Valid(target) by {
      assert DaysInMonth(target.year, target.month) >= 28;
    }
    assert Days(target) == n;
    DaysInjective(FromDays(n), target);
  }
}
