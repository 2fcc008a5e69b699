/** The records of the agency dashboard as the front end holds them: leads
    (prospections), campaigns with their eight checklist sub-documents,
    influencers and checklist templates, with the enumerations of the
    database schema. */
module Domain {
  import opened Js

  // ---------------------------------------------------------------------
  // Enumerations

  datatype UserRole = AdminRole | InfluencerRole | GuestRole

  function RoleText(r: UserRole): string
  {
    match r
    case AdminRole => "ADMINISTRADOR"
    case InfluencerRole => "INFLUENCIADOR"
    case GuestRole => "CONVIDADO"
  }

  datatype LeadStatus = Waiting | Refused | Closed

  function LeadStatusText(s: LeadStatus): string
  {
    match s
    case Waiting => "AGUARDANDO"
    case Refused => "RECUSADO"
    case Closed => "FECHADO"
  }

  /** A stored lead status; any value outside the enumeration reads as no status. */
  function ParseLeadStatus(j: Json): (r: Option<LeadStatus>)
    ensures r.Some? <==> j in {JStr("AGUARDANDO"), JStr("RECUSADO"), JStr("FECHADO")}
    ensures r.Some? ==> j == JStr(LeadStatusText(r.value))
  {
    if j == JStr("AGUARDANDO") then Some(Waiting)
    else if j == JStr("RECUSADO") then Some(Refused)
    else if j == JStr("FECHADO") then Some(Closed)
    else None
  }

  datatype LeadPhase = Contact | Quote | Negotiation

  function LeadPhaseText(p: LeadPhase): string
  {
    match p
    case Contact => "1º CONTATO"
    case Quote => "ORÇAMENTO"
    case Negotiation => "NEGOCIAÇÃO"
  }

  function ParseLeadPhase(j: Json): (r: Option<LeadPhase>)
    ensures r.Some? <==> j in {JStr("1º CONTATO"), JStr("ORÇAMENTO"), JStr("NEGOCIAÇÃO")}
    ensures r.Some? ==> j == JStr(LeadPhaseText(r.value))
  {
    if j == JStr("1º CONTATO") then Some(Contact)
    else if j == JStr("ORÇAMENTO") then Some(Quote)
    else if j == JStr("NEGOCIAÇÃO") then Some(Negotiation)
    else None
  }

  datatype CampaignStatus = Planning | Execution | Completed

  function CampaignStatusText(s: CampaignStatus): string
  {
    match s
    case Planning => "PLANEJAMENTO"
    case Execution => "EM ANDAMENTO"
    case Completed => "FINALIZADA"
  }

  function ParseCampaignStatus(j: Json): (r: Option<CampaignStatus>)
    ensures r.Some? <==> j in {JStr("PLANEJAMENTO"), JStr("EM ANDAMENTO"), JStr("FINALIZADA")}
    ensures r.Some? ==> j == JStr(CampaignStatusText(r.value))
  {
    if j == JStr("PLANEJAMENTO") then Some(Planning)
    else if j == JStr("EM ANDAMENTO") then Some(Execution)
    else if j == JStr("FINALIZADA") then Some(Completed)
    else None
  }

  /** Each enumeration's text reads back as the same value. */
  lemma EnumTextsRoundTrip(s: LeadStatus, p: LeadPhase, c: CampaignStatus)
    ensures ParseLeadStatus(JStr(LeadStatusText(s))) == Some(s)
    ensures ParseLeadPhase(JStr(LeadPhaseText(p))) == Some(p)
    ensures ParseCampaignStatus(JStr(CampaignStatusText(c))) == Some(c)
  {
  }

  /** An optional enumeration value as the object property holding it (`undefined` for none). */
  function LeadStatusJson(s: Option<LeadStatus>): Json
  {
    if s.Some? then JStr(LeadStatusText(s.value)) else JUndef
  }

  function LeadPhaseJson(p: Option<LeadPhase>): Json
  {
    if p.Some? then JStr(LeadPhaseText(p.value)) else JUndef
  }

  function CampaignStatusJson(s: Option<CampaignStatus>): Json
  {
    if s.Some? then JStr(CampaignStatusText(s.value)) else JUndef
  }

  // ---------------------------------------------------------------------
  // Records

  function JReal(r: real): Json { JNum(Fin(r)) }

  /** A lead (prospection). `phase` and `status` come straight from nullable columns. */
  datatype Lead = Lead(
    id: string,
    influencerIds: seq<Json>,
    brand: string,
    campaignObject: string,
    phase: Option<LeadPhase>,
    status: Option<LeadStatus>,
    proposedValue: real,
    closedValue: real,
    value: real,
    responsible: string,
    scope: string,
    lastContact: string,
    startDate: string,
    timeline: seq<Json>,
    createdAt: string)

  /** The lead as a JavaScript object. */
  function LeadObj(l: Lead): Obj
  {
    map[
      "id" := JStr(l.id), "brand" := JStr(l.brand), "campaignObject" := JStr(l.campaignObject),
      "influencerIds" := JArr(l.influencerIds), "proposedValue" := JReal(l.proposedValue),
      "closedValue" := JReal(l.closedValue), "value" := JReal(l.value),
      "phase" := LeadPhaseJson(l.phase), "status" := LeadStatusJson(l.status),
      "responsible" := JStr(l.responsible), "scope" := JStr(l.scope),
      "startDate" := JStr(l.startDate), "lastContact" := JStr(l.lastContact),
      "timeline" := JArr(l.timeline), "createdAt" := JStr(l.createdAt)]
  }

  /** The eight checklist sub-documents of a campaign. */
  datatype DocName = Contrato | Produto | Roteiro | Conteudo | Postagem | Metricas | Nf | Repasse

  /** A campaign. The sub-documents and `financial` are free-form objects. */
  datatype Campaign = Campaign(
    id: string,
    title: string,
    brand: string,
    influencerIds: seq<Json>,
    status: Option<CampaignStatus>,
    startDate: string,
    endDate: string,
    briefing: string,
    driveLink: string,
    internalNotes: string,
    influencerNotes: string,
    contrato: Obj,
    produto: Obj,
    roteiro: Obj,
    conteudo: Obj,
    postagem: Obj,
    metricas: Obj,
    nf: Obj,
    repasse: Obj,
    observacoesCampanha: string,
    financial: Obj,
    timeline: seq<Json>,
    checklist: seq<Json>)

  function Doc(c: Campaign, d: DocName): Obj
  {
    match d
    case Contrato => c.contrato
    case Produto => c.produto
    case Roteiro => c.roteiro
    case Conteudo => c.conteudo
    case Postagem => c.postagem
    case Metricas => c.metricas
    case Nf => c.nf
    case Repasse => c.repasse
  }

  /** `c.conteudo.items || []`: the content items; a value that is not an
      array counts as none. */
  function ContentItems(c: Campaign): seq<Json>
  {
    var items := Get(c.conteudo, "items");
    if items.JArr? then items.elems else []
  }

  /** `{...c, [d]: o}` for a sub-document. */
  function WithDoc(c: Campaign, d: DocName, o: Obj): (r: Campaign)
    ensures Doc(r, d) == o
    ensures forall e | e != d :: Doc(r, e) == Doc(c, e)
    ensures r.(contrato := c.contrato, produto := c.produto, roteiro := c.roteiro, conteudo := c.conteudo,
               postagem := c.postagem, metricas := c.metricas, nf := c.nf, repasse := c.repasse) == c
  {
    match d
    case Contrato => c.(contrato := o)
    case Produto => c.(produto := o)
    case Roteiro => c.(roteiro := o)
    case Conteudo => c.(conteudo := o)
    case Postagem => c.(postagem := o)
    case Metricas => c.(metricas := o)
    case Nf => c.(nf := o)
    case Repasse => c.(repasse := o)
  }

  /** The campaign as a JavaScript object. */
  function CampaignObj(c: Campaign): Obj
  {
    map[
      "id" := JStr(c.id), "title" := JStr(c.title), "brand" := JStr(c.brand),
      "influencerIds" := JArr(c.influencerIds), "status" := CampaignStatusJson(c.status),
      "startDate" := JStr(c.startDate), "endDate" := JStr(c.endDate), "briefing" := JStr(c.briefing),
      "driveLink" := JStr(c.driveLink), "internalNotes" := JStr(c.internalNotes),
      "influencerNotes" := JStr(c.influencerNotes),
      "contrato" := JObj(c.contrato), "produto" := JObj(c.produto), "roteiro" := JObj(c.roteiro),
      "conteudo" := JObj(c.conteudo), "postagem" := JObj(c.postagem), "metricas" := JObj(c.metricas),
      "nf" := JObj(c.nf), "repasse" := JObj(c.repasse),
      "observacoesCampanha" := JStr(c.observacoesCampanha), "financial" := JObj(c.financial),
      "timeline" := JArr(c.timeline), "checklist" := JArr(c.checklist)]
  }

  /** The default sub-documents every campaign is given, as literals in the source. */
  function DefaultContrato(): Obj
  {
    map["precisaContrato" := JStr("Sim"), "statusContrato" := JStr("Pendente"),
        "contratoDataPrevista" := JStr(""), "contratoDataReal" := JStr(""),
        "contratoLink" := JStr(""), "contratoObservacoes" := JStr("")]
  }

  function DefaultProduto(): Obj
  {
    map["precisaProduto" := JStr("Não"), "nomeProduto" := JStr(""), "produtoQuantidade" := JReal(0.0),
        "produtoStatus" := JStr("Não Enviado"), "produtoEnderecoEnvio" := JStr(""),
        "produtoDataEnvio" := JStr(""), "produtoCodigoRastreio" := JStr(""),
        "produtoLinkRastreamento" := JStr("")]
  }

  function DefaultRoteiro(): Obj
  {
    map["precisaRoteiro" := JStr("Sim"), "roteiroTipo" := JStr(""), "numeroVersoes" := JReal(1.0),
        "roteiroStatus" := JStr("Não Iniciado"), "roteiroDataPrevista" := JStr(""),
        "roteiroDataReal" := JStr(""), "roteiroDataAprovacao" := JStr(""),
        "roteiroPastaGoogleDocs" := JStr(""), "roteiroFeedbackCliente" := JStr("")]
  }

  function DefaultConteudo(): Obj
  {
    map["quantidadeConteudos" := JReal(1.0), "linkPastaConteudo" := JStr(""), "items" := JArr([])]
  }

  function DefaultPostagem(): Obj
  {
    map["postagemStatus" := JStr("Não Postado"), "postagemRedeSocial" := JStr("Instagram"),
        "postagemTipo" := JStr("Reels"), "postagemData" := JStr(""), "dataRealPostagem" := JStr(""),
        "postagemHorario" := JStr(""), "postagemLink" := JStr("")]
  }

  function DefaultMetricas(): Obj
  {
    map["metricasDataPrevista" := JStr(""), "metricasStatus" := JStr("Pendente"),
        "linkPastaMetricas" := JStr("")]
  }

  function DefaultNf(): Obj
  {
    map["nfStatus" := JStr("Pendente"), "nfTipo" := JStr("NFSe"), "nfNumero" := JStr(""),
        "nfCnpjEmissor" := JStr(""), "nfDataEmissao" := JStr(""),
        "nfDataPrevistaPagamento" := JStr(""), "nfValor" := JReal(0.0), "nfLinkPdf" := JStr("")]
  }

  function DefaultRepasse(): Obj
  {
    map["valorTotal" := JReal(0.0), "repasseInfluenciador" := JReal(0.0),
        "repasseTaxaLitte" := JReal(0.0), "repasseStatus" := JStr("Pendente"),
        "repasseData" := JStr(""), "repasseLinkComprovante" := JStr("")]
  }

  function DefaultDoc(d: DocName): Obj
  {
    match d
    case Contrato => DefaultContrato()
    case Produto => DefaultProduto()
    case Roteiro => DefaultRoteiro()
    case Conteudo => DefaultConteudo()
    case Postagem => DefaultPostagem()
    case Metricas => DefaultMetricas()
    case Nf => DefaultNf()
    case Repasse => DefaultRepasse()
  }

  /** The financial block a new campaign starts with, stamped at `nowIso`. */
  function NewFinancial(grossValue: real, nowIso: string): (f: Obj)
    ensures Get(f, "grossValue") == JReal(grossValue)
    ensures Get(f, "statusPagCliente") == Get(f, "statusRepasse") == Get(f, "statusNF") == JStr("Pendente")
  {
    map["grossValue" := JReal(grossValue), "influencerCut" := JReal(0.0), "litteTax" := JReal(0.0),
        "partnerSplit" := JReal(0.0), "withdrawalStatus" := JStr("PENDENTE"),
        "expectedPaymentDate" := JStr(""), "statusPagCliente" := JStr("Pendente"),
        "statusRepasse" := JStr("Pendente"), "statusNF" := JStr("Pendente"),
        "dataCriacao" := JStr(nowIso), "ultimaAtualizacao" := JStr(nowIso)]
  }

  /** An influencer. The fields with a default are named; the optional
      pass-through fields are kept by their front-end names in `extra`. */
  datatype Influencer = Influencer(
    id: string,
    nome: string,
    usuario: string,
    email: string,
    telefone: string,
    status: string,
    dataCadastro: string,
    urlPastaDrive: string,
    pjDataCriacao: string,
    bancoTipo: string,
    extra: Obj)

  /** `inf.observacoes`, one of the pass-through fields. */
  function Observacoes(i: Influencer): Json
  {
    Get(i.extra, "observacoes")
  }

  /** A checklist template. */
  datatype Template = Template(id: string, title: string, description: string, tasks: seq<string>)
}
