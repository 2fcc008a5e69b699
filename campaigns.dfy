/** The campaigns screen (Campaigns.tsx): the list filter, and the editor of
    the selected campaign's checklist with its content-item list. */
module Campaigns {
  import opened Js
  import opened Lists
  import opened Domain

  // ---------------------------------------------------------------------
  // The list filter

  /** The status filter: active jobs only, every status, or one status. */
  datatype StatusFilter = ActiveOnly | AllStatuses | Only(status: CampaignStatus)

  predicate StatusMatches(c: Campaign, f: StatusFilter)
  {
    match f
    case ActiveOnly => c.status != Some(Completed)
    case AllStatuses => true
    case Only(s) => c.status == Some(s)
  }

  predicate Listed(c: Campaign, term: string, f: StatusFilter)
  {
    (Matches(c.brand, term) || Matches(c.title, term)) && StatusMatches(c, f)
  }

  /** `filteredCampaigns`: the campaigns whose brand or title contains the
      search term and whose status passes the filter, in their original order. */
  function FilteredCampaigns(cs: seq<Campaign>, term: string, f: StatusFilter): (r: seq<Campaign>)
    ensures IsSubsequence(r, cs)
    ensures forall c | c in r :: Matches(c.brand, term) || Matches(c.title, term)
    ensures forall c | c in cs :: c in r <==> Listed(c, term, f)
    ensures f == ActiveOnly ==> forall c | c in r :: c.status != Some(Completed)
    ensures f == ActiveOnly ==> forall c | c in cs && c.status != Some(Completed) && Matches(c.brand, term) :: c in r
    ensures f.Only? ==> forall c | c in r :: c.status == Some(f.status)
  {
    FilterIsSubsequence(cs, c => Listed(c, term, f));
    Filter(cs, c => Listed(c, term, f))
  }

  /** With no search term and the `ALL` filter, the list is every campaign. */
  lemma EmptySearchListsAll(cs: seq<Campaign>)
    ensures FilteredCampaigns(cs, "", AllStatuses) == cs
  {
    forall c | c in cs
      ensures Listed(c, "", AllStatuses)
    {
      EmptyTermMatches(c.brand);
    }
    FilterAll(cs, c => Listed(c, "", AllStatuses));
  }

  // ---------------------------------------------------------------------
  // Local edits of the selected campaign

  /** `handleToggleStatus`: a finished job goes back to execution, anything
      else is finished. */
  function Toggle(s: Option<CampaignStatus>): (r: Option<CampaignStatus>)
    ensures s == Some(Completed) <==> r == Some(Execution)
    ensures s != Some(Completed) <==> r == Some(Completed)
  {
    if s == Some(Completed) then Some(Execution) else Some(Completed)
  }

  /** Toggling twice returns to the status the toggle itself produces:
      execution and finished alternate. */
  lemma ToggleTwice(s: Option<CampaignStatus>)
    requires s == Some(Execution) || s == Some(Completed)
    ensures Toggle(Toggle(s)) == s
  {
  }

  /** The fields the checklist editor updates through `handleLocalUpdate`. */
  datatype Edit =
    | DocEdit(doc: DocName, value: Obj)
    | StatusEdit(status: Option<CampaignStatus>)
    | NotesEdit(notes: string)

  /** `{ ...selectedCampaign, [field]: value }`: the named field takes the
      new value and every other field keeps its value. */
  function Apply(c: Campaign, e: Edit): (r: Campaign)
    ensures e.DocEdit? ==> Doc(r, e.doc) == e.value && forall d | d != e.doc :: Doc(r, d) == Doc(c, d)
    ensures e.DocEdit? ==>
      r.(contrato := c.contrato, produto := c.produto, roteiro := c.roteiro, conteudo := c.conteudo,
         postagem := c.postagem, metricas := c.metricas, nf := c.nf, repasse := c.repasse) == c
    ensures e.StatusEdit? ==> r.status == e.status && r.(status := c.status) == c
    ensures e.NotesEdit? ==> r.observacoesCampanha == e.notes && r.(observacoesCampanha := c.observacoesCampanha) == c
  {
    match e
    case DocEdit(d, o) => WithDoc(c, d, o)
    case StatusEdit(s) => c.(status := s)
    case NotesEdit(t) => c.(observacoesCampanha := t)
  }

  // ---------------------------------------------------------------------
  // Content items

  /** The placeholder appended for content slot `i` (counted from 0). */
  function ContentSlot(id: string, i: nat): (j: Json)
    ensures Prop(j, "title") == JStr("Conteúdo " + NatText(i + 1))
    ensures Prop(j, "type") == JStr("Reels") && Prop(j, "status") == JStr("Pendente")
    ensures Prop(j, "platform") == JStr("Instagram") && Prop(j, "postDate") == JStr("")
  {
    JObj(map[
      "id" := JStr(id), "title" := JStr("Conteúdo " + NatText(i + 1)), "type" := JStr("Reels"),
      "status" := JStr("Pendente"), "postDate" := JStr(""), "postLink" := JStr(""),
      "driveLink" := JStr(""), "platform" := JStr("Instagram")])
  }

  /** The slots `from .. to - 1`; `uuid(k)` is the k-th identifier drawn. */
  function Slots(from: nat, to: nat, uuid: nat -> string): (r: seq<Json>)
    requires from <= to
    ensures |r| == to - from
    ensures forall k | 0 <= k < to - from :: r[k] == ContentSlot(uuid(k), from + k)
  {
    seq(to - from, k requires 0 <= k < to - from => ContentSlot(uuid(k), from + k))
  }

  /** One more slot appends the slot `to`. */
  lemma SlotsStep(from: nat, to: nat, uuid: nat -> string)
    requires from <= to
    ensures Slots(from, to + 1, uuid) == Slots(from, to, uuid) + [ContentSlot(uuid(to - from), to)]
  {
    var a, b := Slots(from, to + 1, uuid), Slots(from, to, uuid) + [ContentSlot(uuid(to - from), to)];
    assert forall k | 0 <= k < |a| :: a[k] == b[k];
  }

  /** The smallest integer not below q. */
  function Ceil(q: real): (n: int)
    ensures q <= n as real < q + 1.0
  {
    -((-q).Floor)
  }

  /** Where `slice(0, q)` ends on a list of length len. */
  function SliceEnd(q: real, len: nat): (k: nat)
    ensures k <= len
    ensures 0.0 <= q ==> k == (if q.Floor < len then q.Floor else len)
    ensures Trunc(q) < 0 ==> k == (if len + Trunc(q) < 0 then 0 else len + Trunc(q))
  {
    var t := Trunc(q);
    if t < 0 then (if len + t < 0 then 0 else len + t) else if t > len then len else t
  }

  /** The item list after the quantity is set to `qty`: slots are appended up
      to `qty`, or the list is cut at `qty`; NaN changes nothing. */
  function Resized(items: seq<Json>, qty: Num, uuid: nat -> string): seq<Json>
  {
    match qty
    case NaN => items
    case Fin(q) =>
      if q > |items| as real then items + Slots(|items|, Ceil(q), uuid)
      else if q < |items| as real then items[..SliceEnd(q, |items|)]
      else items
  }

  /** The quantity input's handler: the push loop and the slice. */
  method ResizeItems(items: seq<Json>, qty: Num, uuid: nat -> string) returns (r: seq<Json>)
    ensures r == Resized(items, qty, uuid)
  {
    r := items;
    if qty.NaN? {
      return;
    }
    var q := qty.r;
    if q > |items| as real {
      var i := |items|;
      while (i as real) < q
        invariant |items| <= i <= Ceil(q)
        invariant r == items + Slots(|items|, i, uuid)
        decreases Ceil(q) - i
      {
        SlotsStep(|items|, i, uuid);
        r := r + [ContentSlot(uuid(i - |items|), i)];
        i := i + 1;
      }
    } else if q < |items| as real {
      r := r[..SliceEnd(q, |items|)];
    }
  }

  /** For a whole quantity n, the list has exactly n items, of which the
      first min(n, old length) are the old ones, and the rest fresh slots. */
  lemma ResizeToQuantity(items: seq<Json>, n: nat, uuid: nat -> string)
    ensures var r := Resized(items, Fin(n as real), uuid);
      |r| == n
      && (n <= |items| ==> r == items[..n])
      && (n > |items| ==>
            r[..|items|] == items && forall i | |items| <= i < n :: r[i] == ContentSlot(uuid(i - |items|), i))
  {
    if n > |items| {
      assert Ceil(n as real) == n;
    } else if n < |items| {
      assert (n as real).Floor == n;
    }
  }

  /** `newItems[index] = { ...item, [key]: value }`. */
  function EditItem(items: seq<Json>, index: nat, key: string, value: Json): (r: seq<Json>)
    requires index < |items|
    ensures |r| == |items|
    ensures forall i | 0 <= i < |items| && i != index :: r[i] == items[i]
    ensures Prop(r[index], key) == value
    ensures forall k | k != key :: Prop(r[index], k) == Prop(items[index], k)
  {
    items[index := JObj(Spread(items[index])[key := value])]
  }

  /** The financial summary's split: 80% to the creator, 20% commission.
      Both are NaN when the budget is not a number. */
  function Shares(gross: Num): (r: (Num, Num))
    ensures gross.Fin? ==> r.0.Fin? && r.1.Fin? && r.0.r + r.1.r == gross.r && r.0.r == 4.0 * r.1.r
    ensures gross.NaN? ==> r.0.NaN? && r.1.NaN?
  {
    match gross
    case NaN => (NaN, NaN)
    case Fin(g) => (Fin(g * 0.8), Fin(g * 0.2))
  }

  // ---------------------------------------------------------------------
  // The editor's state

  /** The campaign open in the checklist editor, if any. */
  class CampaignEditor {
    var selected: Option<Campaign>

    constructor (selected: Option<Campaign>)
      ensures this.selected == selected
    {
      this.selected := selected;
    }

    /** `handleLocalUpdate`: nothing happens without a selection. */
    method LocalUpdate(e: Edit)
      modifies this
      ensures old(selected).None? ==> selected.None?
      ensures old(selected).Some? ==> selected == Some(Apply(old(selected).value, e))
    {
      if selected.None? {
        return;
      }
      selected := Some(Apply(selected.value, e));
    }

    /** `handleToggleStatus`. */
    method ToggleStatus()
      modifies this
      ensures old(selected).None? ==> selected.None?
      ensures old(selected).Some? ==> selected == Some(old(selected).value.(status := Toggle(old(selected).value.status)))
    {
      if selected.None? {
        return;
      }
      LocalUpdate(StatusEdit(Toggle(selected.value.status)));
    }

    /** The quantity input: the items are resized and the quantity stored
        with them in the content sub-document. */
    method SetQuantity(qty: Num, uuid: nat -> string)
      modifies this
      requires selected.Some?
      ensures selected.Some?
      ensures var c := old(selected).value;
        selected == Some(WithDoc(c, Conteudo,
          c.conteudo["quantidadeConteudos" := JNum(qty)]["items" := JArr(Resized(ContentItems(c), qty, uuid))]))
    {
      var c := selected.value;
      var items := ResizeItems(ContentItems(c), qty, uuid);
      LocalUpdate(DocEdit(Conteudo, c.conteudo["quantidadeConteudos" := JNum(qty)]["items" := JArr(items)]));
    }

    /** A per-item field edit of the item at `index`. */
    method SetItemField(index: nat, key: string, value: Json)
      modifies this
      requires selected.Some? && index < |ContentItems(selected.value)|
      ensures selected.Some?
      ensures var c := old(selected).value;
        selected == Some(WithDoc(c, Conteudo, c.conteudo["items" := JArr(EditItem(ContentItems(c), index, key, value))]))
    {
      var c := selected.value;
      LocalUpdate(DocEdit(Conteudo, c.conteudo["items" := JArr(EditItem(ContentItems(c), index, key, value))]));
    }
  }
}
