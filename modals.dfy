/** The form dialogs (components/Modals.tsx): each reads its form's entries,
    rejects the submission when a required entry is missing, and otherwise
    builds the record it hands to its caller. */
module Modals {
  import opened Js
  import opened Lists
  import opened Domain

  /** `Object.fromEntries(new FormData(form))`: one text per enabled, named
      control. A disabled control contributes no entry. */
  type Form = map<string, string>

  /** `data[k]`: the entry, or `undefined` when the form has none. */
  function Field(fd: Form, k: string): (j: Json)
    ensures k in fd ==> j == JStr(fd[k])
    ensures k !in fd ==> j == JUndef
  {
    if k in fd then JStr(fd[k]) else JUndef
  }

  /** `!data[k]`: the entry is absent or empty. */
  predicate Missing(fd: Form, k: string)
  {
    !Truthy(Field(fd, k))
  }

  /** `String(data[k])`: an absent entry reads "undefined". */
  function Text(fd: Form, k: string): (s: string)
    ensures k in fd ==> s == fd[k]
    ensures k !in fd ==> s == "undefined"
  {
    Show(Field(fd, k))
  }

  /** `String(data[k] || '')`. */
  function TextOrEmpty(fd: Form, k: string): (s: string)
    ensures k in fd ==> s == fd[k]
    ensures k !in fd ==> s == ""
  {
    if k in fd then fd[k] else ""
  }

  // ---------------------------------------------------------------------
  // FinancialAdjustmentModal

  /** The adjustment is passed on only with a non-empty amount. */
  function AdjustmentSave(fd: Form): (r: Option<Form>)
    ensures r.Some? <==> "amount" in fd && fd["amount"] != ""
    ensures r.Some? ==> r.value == fd
  {
    if Missing(fd, "amount") then None else Some(fd)
  }

  // ---------------------------------------------------------------------
  // PartnerSplitModal

  /** The three percentages of the profit split, as numbers. */
  datatype SplitRules = SplitRules(gestor: Num, operacional: Num, reserva: Num)

  /** A sum of numbers where any NaN makes the sum NaN. */
  function Add(a: Num, b: Num): (r: Num)
    ensures r.NaN? <==> a.NaN? || b.NaN?
    ensures r.Fin? ==> r.r == a.r + b.r
  {
    if a.NaN? || b.NaN? then NaN else Fin(a.r + b.r)
  }

  /** `Number(data.gestor) + Number(data.operacional) + Number(data.reserva)`. */
  function SplitTotal(fd: Form): Num
  {
    Add(Add(JsNumber(Field(fd, "gestor")), JsNumber(Field(fd, "operacional"))), JsNumber(Field(fd, "reserva")))
  }

  /** The split form is passed on only when its percentages add up to exactly 100. */
  function SplitSave(fd: Form): (r: Option<Form>)
    ensures r.Some? <==> SplitTotal(fd) == Fin(100.0)
    ensures r.Some? ==> r.value == fd
  {
    if SplitTotal(fd) != Fin(100.0) then None else Some(fd)
  }

  /** The percentage a field starts with: the current rule, unless it is 0
      (or missing), when the default is shown instead. */
  function SplitDefault(current: Option<Num>, default: real): (r: Num)
    ensures current.Some? && NumTruthy(current.value) ==> r == current.value
    ensures !(current.Some? && NumTruthy(current.value)) ==> r == Fin(default)
  {
    if current.Some? then NumOr(current.value, Fin(default)) else Fin(default)
  }

  /** The three fields' initial values: 30, 30 and 40 unless a non-zero rule is stored. */
  function SplitInitial(init: Option<SplitRules>): (r: SplitRules)
    ensures init.None? ==> r == SplitRules(Fin(30.0), Fin(30.0), Fin(40.0))
    ensures init.Some? && NumTruthy(init.value.gestor) ==> r.gestor == init.value.gestor
    ensures init.Some? && !NumTruthy(init.value.gestor) ==> r.gestor == Fin(30.0)
    ensures init.Some? && NumTruthy(init.value.operacional) ==> r.operacional == init.value.operacional
    ensures init.Some? && !NumTruthy(init.value.operacional) ==> r.operacional == Fin(30.0)
    ensures init.Some? && NumTruthy(init.value.reserva) ==> r.reserva == init.value.reserva
    ensures init.Some? && !NumTruthy(init.value.reserva) ==> r.reserva == Fin(40.0)
  {
    SplitRules(
      SplitDefault(if init.Some? then Some(init.value.gestor) else None, 30.0),
      SplitDefault(if init.Some? then Some(init.value.operacional) else None, 30.0),
      SplitDefault(if init.Some? then Some(init.value.reserva) else None, 40.0))
  }

  // ---------------------------------------------------------------------
  // NewLeadModal

  /** What the new-lead form hands to its caller, or None when brand, object
      or influencer is missing. `id` is the UUID the dialog draws. */
  function NewLeadSubmission(fd: Form, id: string): (r: Option<Obj>)
    ensures r.None? <==> Missing(fd, "brand") || Missing(fd, "object") || Missing(fd, "influencer")
    ensures r.Some? ==> (Get(r.value, "campaignObject") == JStr(fd["object"])
      && Get(r.value, "influencerIds") == JArr([JStr(fd["influencer"])])
      && Get(r.value, "timeline") == JArr([])
      && Get(r.value, "proposedValue") == JReal(NumberOr(Field(fd, "proposedValue"), 0.0)))
    ensures r.Some? ==> "object" !in r.value && "influencer" !in r.value
  {
    if Missing(fd, "brand") || Missing(fd, "object") || Missing(fd, "influencer") then None
    else
      Some(NewLeadObj(id, fd["brand"], Text(fd, "startDate"), Text(fd, "scope"), Text(fd, "status"),
                      Text(fd, "phase"), fd["object"], fd["influencer"], NumberOr(Field(fd, "proposedValue"), 0.0)))
  }

  /** The submitted lead: the form's object becomes `campaignObject`, its
      influencer the one-element `influencerIds`, and the history starts empty. */
  function NewLeadObj(id: string, brand: string, startDate: string, scope: string, status: string,
                      phase: string, obj: string, influencer: string, proposed: real): (o: Obj)
    ensures Get(o, "campaignObject") == JStr(obj) && Get(o, "influencerIds") == JArr([JStr(influencer)])
    ensures Get(o, "timeline") == JArr([]) && Get(o, "proposedValue") == JReal(proposed)
    ensures "object" !in o && "influencer" !in o
  {
    var o := map[
      "id" := JStr(id),
      "brand" := JStr(brand),
      "startDate" := JStr(startDate),
      "scope" := JStr(scope),
      "status" := JStr(status),
      "phase" := JStr(phase),
      "campaignObject" := JStr(obj),
      "influencerIds" := JArr([JStr(influencer)]),
      "proposedValue" := JReal(proposed),
      "timeline" := JArr([])];
    assert "object" != "status" by { assert "object"[0] != "status"[0]; }
    o
  }

  // ---------------------------------------------------------------------
  // NewCampaignModal

  /** What the direct-campaign form hands to its caller, or None when brand,
      title, influencer or closed value is missing. */
  function NewCampaignSubmission(fd: Form, id: string, nowIso: string): (r: Option<Obj>)
    ensures r.None? <==> Missing(fd, "brand") || Missing(fd, "title") || Missing(fd, "influencer") || Missing(fd, "closedValue")
    ensures r.Some? ==> (Get(r.value, "status") == JStr("PLANEJAMENTO") && Get(r.value, "checklist") == JArr([])
      && Get(r.value, "influencerIds") == JArr([JStr(fd["influencer"])])
      && Get(r.value, "financial") == JObj(NewFinancial(NumberOr(Field(fd, "closedValue"), 0.0), nowIso)))
    ensures r.Some? ==> "influencer" !in r.value && "value" !in r.value
  {
    if Missing(fd, "brand") || Missing(fd, "title") || Missing(fd, "influencer") || Missing(fd, "closedValue") then None
    else
      Some(DirectCampaignObj(id, fd["brand"], fd["title"], fd["influencer"], Text(fd, "startDate"),
                             Text(fd, "briefing"), NewFinancial(NumberOr(Field(fd, "closedValue"), 0.0), nowIso)))
  }

  /** The object literal the direct-campaign form submits. */
  function DirectCampaignObj(id: string, brand: string, title: string, influencer: string,
                             startDate: string, briefing: string, financial: Obj): (m: Obj)
    ensures Get(m, "status") == JStr("PLANEJAMENTO") && Get(m, "checklist") == JArr([])
    ensures Get(m, "influencerIds") == JArr([JStr(influencer)]) && Get(m, "financial") == JObj(financial)
    ensures "influencer" !in m && "value" !in m
  {
    map[
      "id" := JStr(id),
      "brand" := JStr(brand),
      "title" := JStr(title),
      "influencerIds" := JArr([JStr(influencer)]),
      "status" := JStr("PLANEJAMENTO"),
      "startDate" := JStr(startDate),
      "endDate" := JStr(""),
      "briefing" := JStr(briefing),
      "financial" := JObj(financial),
      "timeline" := JArr([]),
      "checklist" := JArr([])]
  }

  // ---------------------------------------------------------------------
  // CampaignFormModal

  /** The edited campaign: the form's fields over the old campaign, and the
      budget over the old financial block. */
  function CampaignEdit(c: Campaign, fd: Form): (r: Campaign)
    ensures r.(title := c.title, brand := c.brand, influencerIds := c.influencerIds, status := c.status,
               startDate := c.startDate, briefing := c.briefing, driveLink := c.driveLink,
               internalNotes := c.internalNotes, financial := c.financial) == c
    ensures r.title == Text(fd, "title") && r.brand == Text(fd, "brand")
    ensures r.status == ParseCampaignStatus(Field(fd, "status"))
    ensures r.startDate == Text(fd, "startDate") && r.briefing == Text(fd, "briefing")
    ensures r.driveLink == Text(fd, "driveLink") && r.internalNotes == Text(fd, "internalNotes")
    ensures r.influencerIds == [JStr(Text(fd, "influencer"))]
    ensures r.financial.Keys == c.financial.Keys + {"grossValue"}
    ensures forall k | k in c.financial && k != "grossValue" :: r.financial[k] == c.financial[k]
    ensures NumTruthy(JsNumber(Field(fd, "grossValue"))) ==> r.financial["grossValue"] == JReal(JsNumber(Field(fd, "grossValue")).r)
    ensures !NumTruthy(JsNumber(Field(fd, "grossValue"))) ==> r.financial["grossValue"] == JReal(AmountOr(Get(c.financial, "grossValue"), 0.0))
  {
    c.(title := Text(fd, "title"),
       brand := Text(fd, "brand"),
       influencerIds := [JStr(Text(fd, "influencer"))],
       status := ParseCampaignStatus(Field(fd, "status")),
       startDate := Text(fd, "startDate"),
       briefing := Text(fd, "briefing"),
       driveLink := Text(fd, "driveLink"),
       internalNotes := Text(fd, "internalNotes"),
       financial := c.financial["grossValue" := JReal(NumberOr(Field(fd, "grossValue"), AmountOr(Get(c.financial, "grossValue"), 0.0)))])
  }

  /** `Number(data[k])` of an absent or empty entry is undefined's NaN or 0: falsy either way. */
  lemma EmptyEntryReadsZero(fd: Form, k: string)
    requires k !in fd || fd[k] == ""
    ensures !NumTruthy(JsNumber(Field(fd, k)))
  {
    if k in fd {
      assert Trim(fd[k]) == "";
    }
  }

  /** An empty budget entry keeps the old budget. */
  lemma EmptyBudgetKeepsOld(c: Campaign, fd: Form)
    requires "grossValue" !in fd || fd["grossValue"] == ""
    requires AmountOr(Get(c.financial, "grossValue"), 0.0) != 0.0
    ensures Get(CampaignEdit(c, fd).financial, "grossValue") == Get(c.financial, "grossValue")
  {
    EmptyEntryReadsZero(fd, "grossValue");
    var stored := Get(c.financial, "grossValue");
    assert stored.JNum? && NumTruthy(stored.n);
    var r := CampaignEdit(c, fd);
    assert r.financial["grossValue"] == JReal(stored.n.r);
  }

  // ---------------------------------------------------------------------
  // TemplateFormModal

  /** The task rows a template dialog starts with: the template's own tasks,
      or one empty row for a new template. */
  function InitialTasks(template: Option<Template>): (r: seq<string>)
    ensures template.Some? ==> r == template.value.tasks
    ensures template.None? ==> r == [""]
  {
    if template.Some? then template.value.tasks else [""]
  }

  predicate IsFilled(t: string)
  {
    Trim(t) != ""
  }

  /** The saved template, or None without a title. The rows left blank are dropped. */
  function TemplateSave(template: Option<Template>, fd: Form, tasks: seq<string>, uuid: string): (r: Option<Template>)
    ensures r.None? <==> Missing(fd, "title")
    ensures r.Some? ==> forall t | t in r.value.tasks :: Trim(t) != ""
    ensures r.Some? ==> forall t | t in tasks && Trim(t) != "" :: t in r.value.tasks
    ensures r.Some? ==> IsSubsequence(r.value.tasks, tasks)
    ensures r.Some? ==> forall t :: multiset(r.value.tasks)[t] == if IsFilled(t) then multiset(tasks)[t] else 0
    ensures r.Some? ==> r.value.title == fd["title"]
    ensures r.Some? && "description" in fd ==> r.value.description == fd["description"]
    ensures r.Some? && "description" !in fd ==> r.value.description == ""
    ensures r.Some? && template.Some? && template.value.id != "" ==> r.value.id == template.value.id
    ensures r.Some? && !(template.Some? && template.value.id != "") ==> r.value.id == uuid
  {
    if Missing(fd, "title") then None
    else
      FilterIsSubsequence(tasks, IsFilled);
      FilterCounts(tasks, IsFilled);
      var id := if template.Some? && template.value.id != "" then template.value.id else uuid;
      var description := if "description" in fd then fd["description"] else "";
      Some(Template(id, fd["title"], description, Filter(tasks, IsFilled)))
  }

  /** Typing into row i: a copy of the rows with row i replaced. */
  function EditTask(tasks: seq<string>, i: nat, v: string): (r: seq<string>)
    requires i < |tasks|
    ensures |r| == |tasks| && r[i] == v
    ensures forall k | 0 <= k < |tasks| && k != i :: r[k] == tasks[k]
  {
    tasks[i := v]
  }

  /** `tasks.filter((_, idx) => idx !== i)`, written as the filter walks the
      rows, with `from` the index of the first row of `tasks`. */
  function RemoveTaskFrom(tasks: seq<string>, i: nat, from: nat): (r: seq<string>)
    ensures from <= i < from + |tasks| ==> r == tasks[..i - from] + tasks[i - from + 1..]
    ensures !(from <= i < from + |tasks|) ==> r == tasks
    decreases |tasks|
  {
    if tasks == [] then []
    else
      var rest := RemoveTaskFrom(tasks[1..], i, from + 1);
      if from == i then
        assert tasks[..0] + tasks[1..] == tasks[1..];
        rest
      else
        assert tasks == [tasks[0]] + tasks[1..];
        [tasks[0]] + rest
  }

  /** Removing row i deletes exactly that row. */
  function RemoveTask(tasks: seq<string>, i: nat): (r: seq<string>)
    ensures i < |tasks| ==> |r| == |tasks| - 1 && r == tasks[..i] + tasks[i + 1..]
    ensures i >= |tasks| ==> r == tasks
  {
    RemoveTaskFrom(tasks, i, 0)
  }

  /** The "add item" button appends an empty row. */
  function AddTask(tasks: seq<string>): (r: seq<string>)
    ensures |r| == |tasks| + 1 && r[..|tasks|] == tasks && r[|tasks|] == ""
  {
    tasks + [""]
  }

  /** A row added and left empty never reaches the saved template. */
  lemma {:induction false} AddedRowDropped(template: Option<Template>, fd: Form, tasks: seq<string>, uuid: string)
    requires !Missing(fd, "title")
    ensures TemplateSave(template, fd, AddTask(tasks), uuid).value.tasks == TemplateSave(template, fd, tasks, uuid).value.tasks
  {
    FilterAppend(tasks, [""], IsFilled);
    assert Trim("") == "";
    assert Filter([""], IsFilled) == [];
  }

  // ---------------------------------------------------------------------
  // InfluencerFormModal

  /** The optional text fields written as `String(data.x || '')`. */
  function FormTextFields(): set<string>
  {
    {"camiseta", "calca", "sapato", "enderecoNome", "rua", "numero", "complemento", "bairro",
     "cidade", "estado", "cep", "cpf", "rg", "cnpj", "testemunhaNome", "testemunhaEmail",
     "testemunhaTelefone", "testemunhaCpf", "testemunhaRg", "pjRazaoSocial", "pjCnpj",
     "pjEmail", "pjEndereco", "pjInscricaoMunicipal", "pjInscricaoEstadual", "bancoNome",
     "bancoAgencia", "bancoConta", "bancoPix"}
  }

  lemma FormTextFieldsExclude()
    ensures "idade" !in FormTextFields() && "observacoes" !in FormTextFields()
  {
  }

  /** The values the form resolves before validating: an administrator's
      entries, or for anyone else the influencer's stored values. */
  datatype Resolved = Resolved(email: string, status: string, usuario: string, observacoes: Json)

  function Resolve(isAdmin: bool, original: Option<Influencer>, fd: Form): (r: Resolved)
    ensures !isAdmin && original.Some? ==>
      r.email == original.value.email && r.usuario == original.value.usuario
      && (original.value.status != "" ==> r.status == original.value.status)
      && (Truthy(Observacoes(original.value)) ==> r.observacoes == Observacoes(original.value))
    ensures isAdmin ==> r.usuario == RemoveFirst(Text(fd, "usuario"), '@') && r.email == Text(fd, "email")
  {
    if isAdmin then
      Resolved(Text(fd, "email"), TextOr(Field(fd, "status"), "Ativo"),
               RemoveFirst(Text(fd, "usuario"), '@'), JStr(TextOrEmpty(fd, "observacoes")))
    else if original.Some? then
      var o := original.value;
      Resolved(o.email, if o.status != "" then o.status else "Ativo", o.usuario,
               if Truthy(Observacoes(o)) then Observacoes(o) else JStr(""))
    else Resolved("", "Ativo", "", JStr(""))
  }

  /** The influencer built from the form once it passes validation. */
  function BuildInfluencer(original: Option<Influencer>, fd: Form, res: Resolved, uuid: string, nowIso: string): (i: Influencer)
    ensures original.Some? && original.value.id != "" ==> i.id == original.value.id
    ensures i.email == res.email && i.usuario == res.usuario && i.status == res.status
    ensures Get(i.extra, "observacoes") == res.observacoes
    ensures forall k | k in FormTextFields() :: Get(i.extra, k) == JStr(TextOrEmpty(fd, k))
  {
    FormTextFieldsExclude();
    var textFields := map k | k in FormTextFields() :: JStr(TextOrEmpty(fd, k));
    var age := if Missing(fd, "idade") then JUndef else JNum(JsNumber(Field(fd, "idade")));
    Influencer(
      id := if original.Some? && original.value.id != "" then original.value.id else uuid,
      nome := Text(fd, "nome"),
      usuario := res.usuario,
      email := res.email,
      telefone := Text(fd, "telefone"),
      status := res.status,
      dataCadastro := if original.Some? && original.value.dataCadastro != "" then original.value.dataCadastro else nowIso,
      urlPastaDrive := TextOrEmpty(fd, "urlPastaDrive"),
      pjDataCriacao := TextOrEmpty(fd, "pjDataCriacao"),
      bancoTipo := TextOr(Field(fd, "bancoTipo"), "PF"),
      extra := textFields["idade" := age]["observacoes" := res.observacoes])
  }

  /** The save as written: the required check reads the form's own `usuario`
      entry, which a disabled control never supplies. */
  function InfluencerSaveAsWritten(role: UserRole, original: Option<Influencer>, fd: Form, uuid: string, nowIso: string): (r: Option<Influencer>)
    ensures r.None? <==> (Missing(fd, "nome") || Missing(fd, "usuario")
      || Resolve(role == AdminRole, original, fd).email == "" || Missing(fd, "telefone"))
  {
    var res := Resolve(role == AdminRole, original, fd);
    if Missing(fd, "nome") || Missing(fd, "usuario") || res.email == "" || Missing(fd, "telefone") then None
    else Some(BuildInfluencer(original, fd, res, uuid, nowIso))
  }

  /** For anyone but an administrator the username control is disabled, so the
      form has no `usuario` entry and the save as written is always refused. */
  lemma NonAdminSaveRefused(role: UserRole, original: Option<Influencer>, fd: Form, uuid: string, nowIso: string)
    requires role != AdminRole && "usuario" !in fd
    ensures InfluencerSaveAsWritten(role, original, fd, uuid, nowIso).None?
  {
  }

  /** The save with the required check on the resolved username: an
      administrator's entry, or the stored username for anyone else. */
  function InfluencerSave(role: UserRole, original: Option<Influencer>, fd: Form, uuid: string, nowIso: string): (r: Option<Influencer>)
    ensures var res := Resolve(role == AdminRole, original, fd);
      r.None? <==> Missing(fd, "nome") || res.usuario == "" || res.email == "" || Missing(fd, "telefone")
    ensures r.Some? ==> r.value.usuario != "" && r.value.email != ""
  {
    var res := Resolve(role == AdminRole, original, fd);
    if Missing(fd, "nome") || res.usuario == "" || res.email == "" || Missing(fd, "telefone") then None
    else Some(BuildInfluencer(original, fd, res, uuid, nowIso))
  }

  /** An influencer editing their own record keeps their email, status,
      username and notes, whatever the form holds, and keeps their id. */
  lemma SelfEditKeepsProtectedFields(role: UserRole, o: Influencer, fd: Form, uuid: string, nowIso: string)
    requires role != AdminRole
    requires o.usuario != "" && o.email != "" && o.status != "" && o.id != ""
    requires !Missing(fd, "nome") && !Missing(fd, "telefone")
    ensures var r := InfluencerSave(role, Some(o), fd, uuid, nowIso);
      r.Some? && r.value.id == o.id && r.value.email == o.email && r.value.usuario == o.usuario
      && r.value.status == o.status
      && (Truthy(Observacoes(o)) ==> Get(r.value.extra, "observacoes") == Observacoes(o))
  {
  }

  /** The administrator's username loses its first '@'. */
  lemma AdminUsernameStripsAt(o: Option<Influencer>, fd: Form, uuid: string, nowIso: string, name: string)
    requires !Missing(fd, "nome") && !Missing(fd, "telefone") && "email" in fd && fd["email"] != ""
    requires '@' !in name && name != ""
    requires "usuario" in fd && fd["usuario"] == "@" + name
    ensures var r := InfluencerSave(AdminRole, o, fd, uuid, nowIso);
      r.Some? && r.value.usuario == name
  {
    assert IndexOf("@" + name, '@') == 0;
    assert ("@" + name)[1..] == name;
  }
}
