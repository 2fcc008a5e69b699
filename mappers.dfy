/** The translation between database rows (snake_case columns) and the
    front end's records, and the UUID fallback, from the service layer. */
module Mappers {
  import opened Js
  import opened Domain

  // ---------------------------------------------------------------------
  // UUID fallback

  const UuidTemplate: string := "xxxxxxxx-xxxx-4xxx-yxxx-xxxxxxxxxxxx"

  predicate IsLowerHex(c: char) { ('0' <= c <= '9') || ('a' <= c <= 'f') }

  function HexLower(d: nat): (c: char)
    requires d < 16
    ensures IsLowerHex(c)
  {
    if d < 10 then DigitChar(d) else ((d - 10 + 'a' as int) as char)
  }

  /** The random draws `Math.random() * 16 | 0`, the k-th of them being draw(k). */
  ghost predicate Nibbles(draw: nat -> nat) { forall k :: draw(k) < 16 }

  /** `t.replace(/[xy]/g, ...)`: each placeholder, left to right, takes the next
      random nibble r, starting with draw(k); an `x` becomes r in hexadecimal,
      a `y` becomes `(r & 3) | 8`. */
  function FillTemplate(t: string, draw: nat -> nat, k: nat): (u: string)
    requires Nibbles(draw)
    ensures |u| == |t|
    ensures forall i | 0 <= i < |t| && t[i] != 'x' && t[i] != 'y' :: u[i] == t[i]
    ensures forall i | 0 <= i < |t| && t[i] == 'x' :: IsLowerHex(u[i])
    ensures forall i | 0 <= i < |t| && t[i] == 'y' :: u[i] in "89ab"
  {
    if t == [] then ""
    else
      var next := if t[0] == 'x' || t[0] == 'y' then k + 1 else k;
      var rest := FillTemplate(t[1..], draw, next);
      var u := [FillChar(t[0], draw(k))] + rest;
      assert forall i | 1 <= i < |t| :: u[i] == rest[i - 1] && t[i] == t[1..][i - 1];
      u
  }

  /** What one template character becomes when r is the next draw: an `x`
      the hexadecimal digit of r, a `y` that of `(r & 3) | 8`, anything else itself. */
  function FillChar(c: char, r: nat): (f: char)
    requires r < 16
    ensures c != 'x' && c != 'y' ==> f == c
    ensures c == 'x' ==> IsLowerHex(f)
    ensures c == 'y' ==> f in "89ab"
  {
    if c == 'x' then HexLower(r)
    else if c == 'y' then
      var f := HexLower(r % 4 + 8);
      assert f == "89ab"[r % 4];
      f
    else c
  }

  /** `generateUUID()`: the platform's `crypto.randomUUID()` when there is one,
      otherwise the template filled with random nibbles. */
  function GenerateUuid(platform: Option<string>, draw: nat -> nat): string
    requires Nibbles(draw)
  {
    if platform.Some? then platform.value else FillTemplate(UuidTemplate, draw, 0)
  }

  /** The fallback keeps the template's length and hyphens, writes the version
      digit 4 at index 14 and one of 8, 9, a, b at index 19. */
  lemma UuidShape(draw: nat -> nat)
    requires Nibbles(draw)
    ensures var u := GenerateUuid(None, draw);
      |u| == 36 && u[8] == '-' && u[13] == '-' && u[18] == '-' && u[23] == '-'
      && u[14] == '4' && u[19] in "89ab"
  {
    TemplateShape();
    FillShape(UuidTemplate, draw);
  }

  /** The template: 36 characters, hyphens at 8, 13, 18 and 23, the version
      digit 4 at 14 and the variant placeholder `y` at 19. */
  lemma TemplateShape()
    ensures var t := UuidTemplate;
      |t| == 36 && t[8] == '-' && t[13] == '-' && t[18] == '-' && t[23] == '-'
      && t[14] == '4' && t[19] == 'y'
  {
  }

  lemma FillShape(t: string, draw: nat -> nat)
    requires Nibbles(draw)
    requires |t| == 36 && t[8] == '-' && t[13] == '-' && t[18] == '-' && t[23] == '-'
    requires t[14] == '4' && t[19] == 'y'
    ensures var u := FillTemplate(t, draw, 0);
      |u| == 36 && u[8] == '-' && u[13] == '-' && u[18] == '-' && u[23] == '-'
      && u[14] == '4' && u[19] in "89ab"
  {
  }

  // ---------------------------------------------------------------------
  // Database row to front-end record

  /** `Number(x) || 0`. */
  function NumberOr0(j: Json): (r: real)
    ensures JsNumber(j).Fin? && JsNumber(j).r != 0.0 ==> r == JsNumber(j).r
    ensures !(JsNumber(j).Fin? && JsNumber(j).r != 0.0) ==> r == 0.0
  {
    AmountOr(JNum(JsNumber(j)), 0.0)
  }

  /** `Array.isArray(x) ? x : []`. */
  function ArrayOrEmpty(j: Json): seq<Json>
  {
    if j.JArr? then j.elems else []
  }

  /** A row as the database returns it: its `id` column is text. */
  predicate IsRow(row: Obj) { Get(row, "id").JStr? }

  /** `mapLeadToFE`; `created_at` falls back to the current time `nowIso`. */
  function LeadToFE(row: Obj, nowIso: string): (l: Lead)
    requires IsRow(row)
    ensures l.id == Get(row, "id").s
    ensures l.brand == TextOr(Get(row, "brand"), "") && l.scope == TextOr(Get(row, "scope"), "")
    ensures l.campaignObject == TextOr(Get(row, "campaign_object"), "")
    ensures l.responsible == TextOr(Get(row, "responsible"), "")
    ensures l.startDate == TextOr(Get(row, "start_date"), "") && l.lastContact == TextOr(Get(row, "last_contact"), "")
    ensures l.createdAt == TextOr(Get(row, "created_at"), nowIso)
    ensures l.proposedValue == NumberOr0(Get(row, "proposed_value")) && l.closedValue == NumberOr0(Get(row, "closed_value"))
    ensures l.value == NumberOr0(Get(row, "value"))
    ensures Get(row, "proposed_value") == JUndef ==> l.proposedValue == 0.0
    ensures Get(row, "influencer_ids").JArr? ==> l.influencerIds == Get(row, "influencer_ids").elems
    ensures !Get(row, "influencer_ids").JArr? ==> l.influencerIds == []
    ensures Get(row, "timeline").JArr? ==> l.timeline == Get(row, "timeline").elems
    ensures !Get(row, "timeline").JArr? ==> l.timeline == []
    ensures l.phase == ParseLeadPhase(Get(row, "phase"))
    ensures l.status == ParseLeadStatus(Get(row, "status"))
  {
    Lead(
      id := Get(row, "id").s,
      brand := TextOr(Get(row, "brand"), ""),
      campaignObject := TextOr(Get(row, "campaign_object"), ""),
      influencerIds := ArrayOrEmpty(Get(row, "influencer_ids")),
      proposedValue := NumberOr0(Get(row, "proposed_value")),
      closedValue := NumberOr0(Get(row, "closed_value")),
      value := NumberOr0(Get(row, "value")),
      phase := ParseLeadPhase(Get(row, "phase")),
      status := ParseLeadStatus(Get(row, "status")),
      responsible := TextOr(Get(row, "responsible"), ""),
      scope := TextOr(Get(row, "scope"), ""),
      startDate := TextOr(Get(row, "start_date"), ""),
      lastContact := TextOr(Get(row, "last_contact"), ""),
      timeline := ArrayOrEmpty(Get(row, "timeline")),
      createdAt := TextOr(Get(row, "created_at"), nowIso))
  }

  /** `{...defaults, ...stored}`: the stored keys win. */
  function WithDefaults(defaults: Obj, stored: Json): (o: Obj)
    ensures o.Keys == defaults.Keys + Spread(stored).Keys
    ensures forall k | k in Spread(stored) :: o[k] == Spread(stored)[k]
    ensures forall k | k in defaults && k !in Spread(stored) :: o[k] == defaults[k]
  {
    defaults + Spread(stored)
  }

  /** The stored sub-document column of a campaign row. */
  function DocColumn(d: DocName): string
  {
    match d
    case Contrato => "contrato"
    case Produto => "produto"
    case Roteiro => "roteiro"
    case Conteudo => "conteudo"
    case Postagem => "postagem"
    case Metricas => "metricas"
    case Nf => "nf"
    case Repasse => "repasse"
  }

  function DefaultFinancial(): Obj
  {
    NewFinancial(0.0, "")
  }

  /** `mapCampaignToFE`. */
  function CampaignToFE(row: Obj): (c: Campaign)
    requires IsRow(row)
  {
    Campaign(
      id := Get(row, "id").s,
      title := TextOr(Get(row, "title"), ""),
      brand := TextOr(Get(row, "brand"), ""),
      influencerIds := ArrayOrEmpty(Get(row, "influencer_ids")),
      status := ParseCampaignStatus(Get(row, "status")),
      startDate := TextOr(Get(row, "start_date"), ""),
      endDate := TextOr(Get(row, "end_date"), ""),
      briefing := TextOr(Get(row, "briefing"), ""),
      driveLink := TextOr(Get(row, "drive_link"), ""),
      internalNotes := TextOr(Get(row, "internal_notes"), ""),
      influencerNotes := TextOr(Get(row, "influencer_notes"), ""),
      contrato := WithDefaults(DefaultContrato(), Get(row, "contrato")),
      produto := WithDefaults(DefaultProduto(), Get(row, "produto")),
      roteiro := WithDefaults(DefaultRoteiro(), Get(row, "roteiro")),
      conteudo := WithDefaults(DefaultConteudo(), Get(row, "conteudo")),
      postagem := WithDefaults(DefaultPostagem(), Get(row, "postagem")),
      metricas := WithDefaults(DefaultMetricas(), Get(row, "metricas")),
      nf := WithDefaults(DefaultNf(), Get(row, "nf")),
      repasse := WithDefaults(DefaultRepasse(), Get(row, "repasse")),
      observacoesCampanha := TextOr(Get(row, "observacoes_campanha"), ""),
      financial := WithDefaults(DefaultFinancial(), Get(row, "financial")),
      checklist := ArrayOrEmpty(Get(row, "checklist")),
      timeline := ArrayOrEmpty(Get(row, "timeline")))
  }

  /** Every sub-document of a mapped campaign has every default key, and a
      key present in the stored sub-document keeps its stored value. */
  lemma CampaignDocsComplete(row: Obj, d: DocName)
    requires IsRow(row)
    ensures var doc := Doc(CampaignToFE(row), d);
      var stored := Spread(Get(row, DocColumn(d)));
      DefaultDoc(d).Keys <= doc.Keys
      && (forall k | k in stored :: doc[k] == stored[k])
      && (forall k | k in DefaultDoc(d) && k !in stored :: doc[k] == DefaultDoc(d)[k])
  {
  }

  /** The financial block of a mapped campaign has every key of the default
      block, and a key present in the stored block keeps its stored value. */
  lemma CampaignFinancialComplete(row: Obj)
    requires IsRow(row)
    ensures var fin := CampaignToFE(row).financial;
      var stored := Spread(Get(row, "financial"));
      DefaultFinancial().Keys <= fin.Keys
      && (forall k | k in stored :: fin[k] == stored[k])
      && (forall k | k in DefaultFinancial() && k !in stored :: fin[k] == DefaultFinancial()[k])
  {
  }

  /** The optional influencer fields that pass through unchanged: front-end name to column. */
  function PassThrough(): map<string, string>
  {
    map[
      "idade" := "idade", "avatar" := "avatar", "camiseta" := "camiseta", "calca" := "calca",
      "sapato" := "sapato", "enderecoNome" := "endereco_nome", "rua" := "rua", "numero" := "numero",
      "complemento" := "complemento", "bairro" := "bairro", "cidade" := "cidade", "estado" := "estado",
      "cep" := "cep", "cpf" := "cpf", "rg" := "rg", "cnpj" := "cnpj",
      "testemunhaNome" := "testemunha_nome", "testemunhaEmail" := "testemunha_email",
      "testemunhaTelefone" := "testemunha_telefone", "testemunhaCpf" := "testemunha_cpf",
      "testemunhaRg" := "testemunha_rg", "pjRazaoSocial" := "pj_razao_social", "pjCnpj" := "pj_cnpj",
      "pjEmail" := "pj_email", "pjEndereco" := "pj_endereco",
      "pjInscricaoMunicipal" := "pj_inscricao_municipal",
      "pjInscricaoEstadual" := "pj_inscricao_estadual", "bancoNome" := "banco_nome",
      "bancoAgencia" := "banco_agencia", "bancoConta" := "banco_conta", "bancoPix" := "banco_pix",
      "observacoes" := "observacoes", "created_at" := "created_at"]
  }

  /** `mapInfluencerToFE`. */
  function InfluencerToFE(row: Obj): (i: Influencer)
    requires IsRow(row)
    ensures !Truthy(Get(row, "status")) ==> i.status == "Ativo"
    ensures !Truthy(Get(row, "banco_tipo")) ==> i.bancoTipo == "PF"
    ensures i.extra.Keys == PassThrough().Keys
    ensures forall k | k in PassThrough() :: i.extra[k] == Get(row, PassThrough()[k])
  {
    Influencer(
      id := Get(row, "id").s,
      nome := TextOr(Get(row, "nome"), ""),
      usuario := TextOr(Get(row, "usuario"), ""),
      email := TextOr(Get(row, "email"), ""),
      telefone := TextOr(Get(row, "telefone"), ""),
      status := TextOr(Get(row, "status"), "Ativo"),
      dataCadastro := TextOr(Get(row, "data_cadastro"), ""),
      urlPastaDrive := TextOr(Get(row, "url_pasta_drive"), ""),
      pjDataCriacao := TextOr(Get(row, "pj_data_criacao"), ""),
      bancoTipo := TextOr(Get(row, "banco_tipo"), "PF"),
      extra := map k | k in PassThrough() :: Get(row, PassThrough()[k]))
  }

  /** The influencer as a JavaScript object. */
  function InfluencerObj(i: Influencer): Obj
  {
    i.extra + map[
      "id" := JStr(i.id), "nome" := JStr(i.nome), "usuario" := JStr(i.usuario),
      "email" := JStr(i.email), "telefone" := JStr(i.telefone), "status" := JStr(i.status),
      "dataCadastro" := JStr(i.dataCadastro), "urlPastaDrive" := JStr(i.urlPastaDrive),
      "pjDataCriacao" := JStr(i.pjDataCriacao), "bancoTipo" := JStr(i.bancoTipo)]
  }

  // ---------------------------------------------------------------------
  // Front-end record to database row

  /** When a field is copied: when it is truthy, or whenever it is not `undefined`. */
  datatype Rule = IfTruthy | IfDefined

  /** The right-hand side of one `if (x.field) db.column = x.field` line of a mapper. */
  datatype Line = Line(field: string, rule: Rule)

  /** A mapper's lines, by the column each one writes; no two lines of a
      mapper write the same column, so their order does not affect the row. */
  type Lines = map<string, Line>

  predicate Copies(o: Obj, l: Line)
  {
    match l.rule
    case IfTruthy => Truthy(Get(o, l.field))
    case IfDefined => Get(o, l.field) != JUndef
  }

  /** The row that a mapper's lines build: a column is present exactly when its
      line's condition holds, and then holds the field's value. */
  function Row(o: Obj, lines: Lines): (db: Obj)
    ensures forall c | c in lines :: (c in db <==> Copies(o, lines[c]))
    ensures db.Keys <= lines.Keys
    ensures forall c | c in db :: db[c] == Get(o, lines[c].field)
  {
    map c | c in lines && Copies(o, lines[c]) :: Get(o, lines[c].field)
  }

  /** `mapXToDB`: starts from an empty object and runs the mapper's lines. */
  method MapToDB(o: Obj, lines: Lines) returns (db: Obj)
    ensures db == Row(o, lines)
  {
    db := map[];
    var todo := lines.Keys;
    while todo != {}
      invariant todo <= lines.Keys
      invariant db == map c | c in lines.Keys - todo && Copies(o, lines[c]) :: Get(o, lines[c].field)
      decreases |todo|
    {
      var c :| c in todo;
      if Copies(o, lines[c]) {
        db := db[c := Get(o, lines[c].field)];
      }
      todo := todo - {c};
    }
  }

  /** The lines of `mapLeadToDB`. */
  function LeadLines(): Lines
  {
    map[
      "id" := Line("id", IfTruthy), "brand" := Line("brand", IfTruthy),
      "campaign_object" := Line("campaignObject", IfTruthy),
      "influencer_ids" := Line("influencerIds", IfTruthy),
      "proposed_value" := Line("proposedValue", IfDefined),
      "closed_value" := Line("closedValue", IfDefined), "value" := Line("value", IfDefined),
      "phase" := Line("phase", IfTruthy), "status" := Line("status", IfTruthy),
      "responsible" := Line("responsible", IfTruthy), "scope" := Line("scope", IfTruthy),
      "start_date" := Line("startDate", IfTruthy), "last_contact" := Line("lastContact", IfTruthy),
      "timeline" := Line("timeline", IfTruthy)]
  }

  /** The lines of `mapCampaignToDB`. */
  function CampaignLines(): Lines
  {
    map[
      "id" := Line("id", IfTruthy), "title" := Line("title", IfTruthy),
      "brand" := Line("brand", IfTruthy), "influencer_ids" := Line("influencerIds", IfTruthy),
      "status" := Line("status", IfTruthy), "start_date" := Line("startDate", IfTruthy),
      "end_date" := Line("endDate", IfTruthy), "briefing" := Line("briefing", IfTruthy),
      "drive_link" := Line("driveLink", IfDefined),
      "internal_notes" := Line("internalNotes", IfDefined),
      "influencer_notes" := Line("influencerNotes", IfDefined),
      "contrato" := Line("contrato", IfTruthy), "produto" := Line("produto", IfTruthy),
      "roteiro" := Line("roteiro", IfTruthy), "conteudo" := Line("conteudo", IfTruthy),
      "postagem" := Line("postagem", IfTruthy), "metricas" := Line("metricas", IfTruthy),
      "nf" := Line("nf", IfTruthy), "repasse" := Line("repasse", IfTruthy),
      "observacoes_campanha" := Line("observacoesCampanha", IfDefined),
      "financial" := Line("financial", IfTruthy), "checklist" := Line("checklist", IfTruthy),
      "timeline" := Line("timeline", IfTruthy)]
  }

  /** The lines of `mapInfluencerToDB`: every field is copied when truthy. */
  function InfluencerLines(): Lines
  {
    map[
      "id" := Line("id", IfTruthy), "nome" := Line("nome", IfTruthy),
      "usuario" := Line("usuario", IfTruthy), "email" := Line("email", IfTruthy),
      "telefone" := Line("telefone", IfTruthy), "status" := Line("status", IfTruthy),
      "data_cadastro" := Line("dataCadastro", IfTruthy),
      "url_pasta_drive" := Line("urlPastaDrive", IfTruthy), "idade" := Line("idade", IfTruthy),
      "avatar" := Line("avatar", IfTruthy), "camiseta" := Line("camiseta", IfTruthy),
      "calca" := Line("calca", IfTruthy), "sapato" := Line("sapato", IfTruthy),
      "endereco_nome" := Line("enderecoNome", IfTruthy), "rua" := Line("rua", IfTruthy),
      "numero" := Line("numero", IfTruthy), "complemento" := Line("complemento", IfTruthy),
      "bairro" := Line("bairro", IfTruthy), "cidade" := Line("cidade", IfTruthy),
      "estado" := Line("estado", IfTruthy), "cep" := Line("cep", IfTruthy),
      "cpf" := Line("cpf", IfTruthy), "rg" := Line("rg", IfTruthy), "cnpj" := Line("cnpj", IfTruthy),
      "testemunha_nome" := Line("testemunhaNome", IfTruthy),
      "testemunha_email" := Line("testemunhaEmail", IfTruthy),
      "testemunha_telefone" := Line("testemunhaTelefone", IfTruthy),
      "testemunha_cpf" := Line("testemunhaCpf", IfTruthy),
      "testemunha_rg" := Line("testemunhaRg", IfTruthy),
      "pj_razao_social" := Line("pjRazaoSocial", IfTruthy), "pj_cnpj" := Line("pjCnpj", IfTruthy),
      "pj_data_criacao" := Line("pjDataCriacao", IfTruthy), "pj_email" := Line("pjEmail", IfTruthy),
      "pj_endereco" := Line("pjEndereco", IfTruthy),
      "pj_inscricao_municipal" := Line("pjInscricaoMunicipal", IfTruthy),
      "pj_inscricao_estadual" := Line("pjInscricaoEstadual", IfTruthy),
      "banco_tipo" := Line("bancoTipo", IfTruthy), "banco_nome" := Line("bancoNome", IfTruthy),
      "banco_agencia" := Line("bancoAgencia", IfTruthy), "banco_conta" := Line("bancoConta", IfTruthy),
      "banco_pix" := Line("bancoPix", IfTruthy), "observacoes" := Line("observacoes", IfTruthy),
      "created_at" := Line("created_at", IfTruthy)]
  }

  function LeadRow(o: Obj): Obj { Row(o, LeadLines()) }

  function CampaignRow(o: Obj): Obj { Row(o, CampaignLines()) }

  function InfluencerRow(o: Obj): Obj { Row(o, InfluencerLines()) }

  method MapLeadToDB(lead: Obj) returns (db: Obj)
    ensures db == LeadRow(lead)
  {
    db := MapToDB(lead, LeadLines());
  }

  method MapCampaignToDB(camp: Obj) returns (db: Obj)
    ensures db == CampaignRow(camp)
  {
    db := MapToDB(camp, CampaignLines());
  }

  method MapInfluencerToDB(inf: Obj) returns (db: Obj)
    ensures db == InfluencerRow(inf)
  {
    db := MapToDB(inf, InfluencerLines());
  }

  // ---------------------------------------------------------------------
  // Properties of the mappers

  /** Writing a lead and reading its row back gives the same lead, except that
      `createdAt`, which the row does not carry, becomes the reading time. */
  lemma LeadRoundTrip(l: Lead, nowIso: string)
    requires l.id != ""
    ensures IsRow(LeadRow(LeadObj(l)))
    ensures LeadToFE(LeadRow(LeadObj(l)), nowIso) == l.(createdAt := nowIso)
  {
    LeadRowIds(l);
    LeadRowAmounts(l);
    LeadRowEnums(l);
    LeadRowTexts(l);
    LeadRowDates(l);
    LeadRowNoCreatedAt(l);
    LeadFromRow(LeadRow(LeadObj(l)), l, nowIso);
  }

  /** The lead row never carries `created_at`. */
  lemma LeadRowNoCreatedAt(l: Lead)
    ensures "created_at" !in LeadRow(LeadObj(l))
  {
    assert "created_at" !in LeadLines();
  }

  /** Each column of `row`, read as `mapLeadToFE` reads it, gives the
      corresponding field of `l` (all but `createdAt`). */
  predicate ColumnsReadAs(row: Obj, l: Lead)
  {
    Get(row, "id") == JStr(l.id)
    && ArrayOrEmpty(Get(row, "influencer_ids")) == l.influencerIds
    && ArrayOrEmpty(Get(row, "timeline")) == l.timeline
    && NumberOr0(Get(row, "proposed_value")) == l.proposedValue
    && NumberOr0(Get(row, "closed_value")) == l.closedValue
    && NumberOr0(Get(row, "value")) == l.value
    && ParseLeadPhase(Get(row, "phase")) == l.phase
    && ParseLeadStatus(Get(row, "status")) == l.status
    && TextOr(Get(row, "brand"), "") == l.brand
    && TextOr(Get(row, "campaign_object"), "") == l.campaignObject
    && TextOr(Get(row, "responsible"), "") == l.responsible
    && TextOr(Get(row, "scope"), "") == l.scope
    && TextOr(Get(row, "start_date"), "") == l.startDate
    && TextOr(Get(row, "last_contact"), "") == l.lastContact
  }

  /** A row whose columns read back as the fields of `l`, and which has no
      `created_at`, reads back as `l` stamped with the reading time. */
  lemma LeadFromRow(row: Obj, l: Lead, nowIso: string)
    requires ColumnsReadAs(row, l) && "created_at" !in row
    ensures IsRow(row)
    ensures LeadToFE(row, nowIso) == l.(createdAt := nowIso)
  {
  }

  // One lemma per column of the lead row, each looked up in a small context.

  lemma LeadRowId(l: Lead)
    ensures l.id != "" ==> Get(LeadRow(LeadObj(l)), "id") == JStr(l.id)
  {
    assert LeadLines()["id"] == Line("id", IfTruthy);
    assert LeadObj(l)["id"] == JStr(l.id);
  }

  lemma LeadRowInfluencerIds(l: Lead)
    ensures ArrayOrEmpty(Get(LeadRow(LeadObj(l)), "influencer_ids")) == l.influencerIds
  {
    assert LeadLines()["influencer_ids"] == Line("influencerIds", IfTruthy);
    assert LeadObj(l)["influencerIds"] == JArr(l.influencerIds);
  }

  lemma LeadRowTimeline(l: Lead)
    ensures ArrayOrEmpty(Get(LeadRow(LeadObj(l)), "timeline")) == l.timeline
  {
    assert LeadLines()["timeline"] == Line("timeline", IfTruthy);
    assert LeadObj(l)["timeline"] == JArr(l.timeline);
  }

  lemma LeadRowProposedValue(l: Lead)
    ensures NumberOr0(Get(LeadRow(LeadObj(l)), "proposed_value")) == l.proposedValue
  {
    assert LeadLines()["proposed_value"] == Line("proposedValue", IfDefined);
    assert LeadObj(l)["proposedValue"] == JReal(l.proposedValue);
  }

  lemma LeadRowClosedValue(l: Lead)
    ensures NumberOr0(Get(LeadRow(LeadObj(l)), "closed_value")) == l.closedValue
  {
    assert LeadLines()["closed_value"] == Line("closedValue", IfDefined);
    assert LeadObj(l)["closedValue"] == JReal(l.closedValue);
  }

  lemma LeadRowValue(l: Lead)
    ensures NumberOr0(Get(LeadRow(LeadObj(l)), "value")) == l.value
  {
    assert LeadLines()["value"] == Line("value", IfDefined);
    assert LeadObj(l)["value"] == JReal(l.value);
  }

  lemma LeadRowPhase(l: Lead)
    ensures ParseLeadPhase(Get(LeadRow(LeadObj(l)), "phase")) == l.phase
  {
    assert LeadLines()["phase"] == Line("phase", IfTruthy);
    assert LeadObj(l)["phase"] == LeadPhaseJson(l.phase);
  }

  lemma LeadRowStatus(l: Lead)
    ensures ParseLeadStatus(Get(LeadRow(LeadObj(l)), "status")) == l.status
  {
    assert LeadLines()["status"] == Line("status", IfTruthy);
    assert LeadObj(l)["status"] == LeadStatusJson(l.status);
  }

  lemma LeadRowBrand(l: Lead)
    ensures TextOr(Get(LeadRow(LeadObj(l)), "brand"), "") == l.brand
  {
    assert LeadLines()["brand"] == Line("brand", IfTruthy);
    assert LeadObj(l)["brand"] == JStr(l.brand);
  }

  lemma LeadRowCampaignObject(l: Lead)
    ensures TextOr(Get(LeadRow(LeadObj(l)), "campaign_object"), "") == l.campaignObject
  {
    assert LeadLines()["campaign_object"] == Line("campaignObject", IfTruthy);
    assert LeadObj(l)["campaignObject"] == JStr(l.campaignObject);
  }

  lemma LeadRowResponsible(l: Lead)
    ensures TextOr(Get(LeadRow(LeadObj(l)), "responsible"), "") == l.responsible
  {
    assert LeadLines()["responsible"] == Line("responsible", IfTruthy);
    assert LeadObj(l)["responsible"] == JStr(l.responsible);
  }

  lemma LeadRowScope(l: Lead)
    ensures TextOr(Get(LeadRow(LeadObj(l)), "scope"), "") == l.scope
  {
    assert LeadLines()["scope"] == Line("scope", IfTruthy);
    assert LeadObj(l)["scope"] == JStr(l.scope);
  }

  lemma LeadRowStartDate(l: Lead)
    ensures TextOr(Get(LeadRow(LeadObj(l)), "start_date"), "") == l.startDate
  {
    assert LeadLines()["start_date"] == Line("startDate", IfTruthy);
    assert LeadObj(l)["startDate"] == JStr(l.startDate);
  }

  lemma LeadRowLastContact(l: Lead)
    ensures TextOr(Get(LeadRow(LeadObj(l)), "last_contact"), "") == l.lastContact
  {
    assert LeadLines()["last_contact"] == Line("lastContact", IfTruthy);
    assert LeadObj(l)["lastContact"] == JStr(l.lastContact);
  }

  /** The id and the two lists survive the lead row. */
  lemma LeadRowIds(l: Lead)
    ensures var row := LeadRow(LeadObj(l));
      (l.id != "" ==> Get(row, "id") == JStr(l.id))
      && ArrayOrEmpty(Get(row, "influencer_ids")) == l.influencerIds
      && ArrayOrEmpty(Get(row, "timeline")) == l.timeline
  {
    LeadRowId(l); LeadRowInfluencerIds(l); LeadRowTimeline(l);
  }

  /** The three amounts survive the lead row, zero included. */
  lemma LeadRowAmounts(l: Lead)
    ensures var row := LeadRow(LeadObj(l));
      NumberOr0(Get(row, "proposed_value")) == l.proposedValue
      && NumberOr0(Get(row, "closed_value")) == l.closedValue
      && NumberOr0(Get(row, "value")) == l.value
  {
    LeadRowProposedValue(l); LeadRowClosedValue(l); LeadRowValue(l);
  }

  /** Phase and status survive the lead row. */
  lemma LeadRowEnums(l: Lead)
    ensures var row := LeadRow(LeadObj(l));
      ParseLeadPhase(Get(row, "phase")) == l.phase
      && ParseLeadStatus(Get(row, "status")) == l.status
  {
    LeadRowPhase(l); LeadRowStatus(l);
  }

  /** Brand, object and responsible survive the lead row, empty text included. */
  lemma LeadRowTexts(l: Lead)
    ensures var row := LeadRow(LeadObj(l));
      TextOr(Get(row, "brand"), "") == l.brand
      && TextOr(Get(row, "campaign_object"), "") == l.campaignObject
      && TextOr(Get(row, "responsible"), "") == l.responsible
  {
    LeadRowBrand(l); LeadRowCampaignObject(l); LeadRowResponsible(l);
  }

  /** Scope, start date and last contact survive the lead row. */
  lemma LeadRowDates(l: Lead)
    ensures var row := LeadRow(LeadObj(l));
      TextOr(Get(row, "scope"), "") == l.scope
      && TextOr(Get(row, "start_date"), "") == l.startDate
      && TextOr(Get(row, "last_contact"), "") == l.lastContact
  {
    LeadRowScope(l); LeadRowStartDate(l); LeadRowLastContact(l);
  }

  /** `mapLeadToDB` leaves out empty text fields but keeps amounts equal to 0,
      which it tests against `undefined` only. */
  lemma LeadRowEmptyAndZero(o: Obj)
    ensures Get(o, "brand") == JStr("") ==> "brand" !in LeadRow(o)
    ensures Get(o, "campaignObject") == JStr("") ==> "campaign_object" !in LeadRow(o)
    ensures Get(o, "scope") == JStr("") ==> "scope" !in LeadRow(o)
    ensures Get(o, "startDate") == JStr("") ==> "start_date" !in LeadRow(o)
    ensures Get(o, "proposedValue") == JReal(0.0) ==> Get(LeadRow(o), "proposed_value") == JReal(0.0)
    ensures Get(o, "closedValue") == JReal(0.0) ==> Get(LeadRow(o), "closed_value") == JReal(0.0)
    ensures Get(o, "value") == JReal(0.0) ==> Get(LeadRow(o), "value") == JReal(0.0)
  {
    LeadRowDropsEmptyText(o);
    LeadRowKeepsZero(o);
  }

  /** The four text columns tested for truthiness. */
  lemma LeadRowDropsEmptyText(o: Obj)
    ensures Get(o, "brand") == JStr("") ==> "brand" !in LeadRow(o)
    ensures Get(o, "campaignObject") == JStr("") ==> "campaign_object" !in LeadRow(o)
    ensures Get(o, "scope") == JStr("") ==> "scope" !in LeadRow(o)
    ensures Get(o, "startDate") == JStr("") ==> "start_date" !in LeadRow(o)
  {
    var lines := LeadLines();
    assert lines["brand"].field == "brand" && lines["campaign_object"].field == "campaignObject";
    assert lines["scope"].field == "scope" && lines["start_date"].field == "startDate";
  }

  /** The three amount columns tested against `undefined`. */
  lemma LeadRowKeepsZero(o: Obj)
    ensures Get(o, "proposedValue") == JReal(0.0) ==> Get(LeadRow(o), "proposed_value") == JReal(0.0)
    ensures Get(o, "closedValue") == JReal(0.0) ==> Get(LeadRow(o), "closed_value") == JReal(0.0)
    ensures Get(o, "value") == JReal(0.0) ==> Get(LeadRow(o), "value") == JReal(0.0)
  {
    var lines := LeadLines();
    assert lines["proposed_value"] == Line("proposedValue", IfDefined);
    assert lines["closed_value"] == Line("closedValue", IfDefined);
    assert lines["value"] == Line("value", IfDefined);
  }

  /** `mapCampaignToDB` copies the drive link and the three notes fields even
      when they are empty, unlike the other text fields. */
  lemma CampaignRowKeepsEmptyNotes(o: Obj)
    ensures Get(o, "driveLink") == JStr("") ==> Get(CampaignRow(o), "drive_link") == JStr("")
    ensures Get(o, "internalNotes") == JStr("") ==> Get(CampaignRow(o), "internal_notes") == JStr("")
    ensures Get(o, "influencerNotes") == JStr("") ==> Get(CampaignRow(o), "influencer_notes") == JStr("")
    ensures Get(o, "observacoesCampanha") == JStr("") ==> Get(CampaignRow(o), "observacoes_campanha") == JStr("")
    ensures Get(o, "briefing") == JStr("") ==> "briefing" !in CampaignRow(o)
  {
    var lines := CampaignLines();
    assert lines["drive_link"] == Line("driveLink", IfDefined);
    assert lines["internal_notes"] == Line("internalNotes", IfDefined);
    assert lines["influencer_notes"] == Line("influencerNotes", IfDefined);
    assert lines["observacoes_campanha"] == Line("observacoesCampanha", IfDefined);
    assert lines["briefing"] == Line("briefing", IfTruthy);
  }

  /** `mapInfluencerToDB` drops an age of 0 and copies any other age. */
  lemma InfluencerRowAge(o: Obj)
    ensures Get(o, "idade") == JReal(0.0) ==> "idade" !in InfluencerRow(o)
    ensures Get(o, "idade").JNum? && NumTruthy(Get(o, "idade").n) ==> Get(InfluencerRow(o), "idade") == Get(o, "idade")
  {
    assert InfluencerLines()["idade"] == Line("idade", IfTruthy);
  }
}
