/** The application's write handlers (App.tsx): creating a lead, changing a
    lead's status (which converts a lead closed for the first time into a
    campaign), creating a campaign directly, and saving the profit split.
    Every database write is recorded, in order, in the application's effect log. */
module Handlers {
  import opened Js
  import opened Lists
  import opened Domain
  import opened Modals

  /** The signed-in user's profile; an empty `fullName` stands for a missing name. */
  datatype Profile = Profile(id: string, fullName: string)

  /** The current time, as `new Date().toISOString()` and as
      `toLocaleDateString('pt-BR')` write it. */
  datatype Clock = Clock(nowIso: string, localDate: string)

  /** The Drive search a generated campaign links to, before the encoded brand. */
  const DriveSearch: string := "https://drive.google.com/drive/u/0/search?q="
  /** The notes of a generated campaign, before the closed value. */
  const ClosureNotesPrefix: string := "Campanha gerada via conversão de prospecção. Valor fechado: R$ "

  /** `new Date().toISOString().split('T')[0]`. */
  function Today(clock: Clock): string
  {
    Split(clock.nowIso, 'T')[0]
  }

  /** A write requested from the database, in the order it is awaited. */
  datatype Effect =
    | CreateLeadWrite(lead: Obj)
    | CreateCampaignWrite(campaign: Campaign)
    | NotificationWrite(notification: Obj)
    | UpdateLeadWrite(leadId: string, patch: Obj)
    | SettingsWrite(key: string, rules: SplitRules)
    | AuditWrite(entityType: string, entityId: string, action: string, before: SplitRules, after: SplitRules)
    | UpdateCampaignWrite(campaignId: string, campaign: Campaign)
    | CreateInfluencerWrite(influencer: Influencer)
    | UpdateInfluencerWrite(influencerId: string, influencer: Influencer)
    | AdjustmentAuditWrite(entityType: string, entityId: string, action: string, values: Form)

  // ---------------------------------------------------------------------
  // handleCreateLead

  /** `profile?.full_name || fallback`. */
  function ProfileName(profile: Option<Profile>, fallback: string): (s: string)
    ensures profile.Some? && profile.value.fullName != "" ==> s == profile.value.fullName
    ensures !(profile.Some? && profile.value.fullName != "") ==> s == fallback
  {
    if profile.Some? && profile.value.fullName != "" then profile.value.fullName else fallback
  }

  /** `x || fallback` on any value. */
  function Or(x: Json, fallback: Json): (r: Json)
    ensures Truthy(x) ==> r == x
    ensures !Truthy(x) ==> r == fallback
  {
    if Truthy(x) then x else fallback
  }

  /** The object literal of a new lead. */
  function LeadLiteral(id: string, brand: Json, campaignObject: Json, influencerIds: Json, phase: Json,
                       status: Json, proposed: Num, responsible: string, scope: Json, startDate: Json,
                       lastContact: string): (m: Obj)
    ensures Get(m, "campaignObject") == campaignObject && Get(m, "influencerIds") == influencerIds
    ensures Get(m, "phase") == phase && Get(m, "status") == status
    ensures Get(m, "proposedValue") == JNum(proposed) && Get(m, "value") == JNum(proposed)
    ensures Get(m, "closedValue") == JReal(0.0) && Get(m, "timeline") == JArr([])
    ensures Get(m, "lastContact") == JStr(lastContact) && Get(m, "responsible") == JStr(responsible)
  {
    map[
      "id" := JStr(id), "brand" := brand, "campaignObject" := campaignObject,
      "influencerIds" := influencerIds, "phase" := phase, "status" := status,
      "proposedValue" := JNum(proposed), "closedValue" := JReal(0.0), "value" := JNum(proposed),
      "responsible" := JStr(responsible), "scope" := scope, "startDate" := startDate,
      "lastContact" := JStr(lastContact), "timeline" := JArr([])]
  }

  /** The lead as written: it reads `data.object` and `data.influencer`. */
  function NewLeadAsWritten(data: Obj, profile: Option<Profile>, clock: Clock, id: string): (m: Obj)
    ensures Get(m, "campaignObject") == Get(data, "object")
    ensures Get(m, "influencerIds") == JArr([Get(data, "influencer")])
  {
    LeadLiteral(id, Get(data, "brand"), Get(data, "object"), JArr([Get(data, "influencer")]),
                Or(Get(data, "phase"), JStr(LeadPhaseText(Contact))),
                Or(Get(data, "status"), JStr(LeadStatusText(Waiting))),
                JsNumber(Get(data, "proposedValue")), ProfileName(profile, "Agente Littê"),
                Or(Get(data, "scope"), JStr("")), Or(Get(data, "startDate"), JStr("")), clock.nowIso)
  }

  /** The new lead, reading the object and the influencer list under the names
      the new-lead form gives them. It starts unclosed, with its value equal to
      the proposed value, an empty history, and phase and status defaulting to
      first contact and waiting. */
  function NewLead(data: Obj, profile: Option<Profile>, clock: Clock, id: string): (m: Obj)
    ensures Get(m, "campaignObject") == Get(data, "campaignObject")
    ensures Get(m, "influencerIds") == Get(data, "influencerIds")
    ensures Get(m, "closedValue") == JReal(0.0) && Get(m, "timeline") == JArr([])
    ensures Get(m, "value") == Get(m, "proposedValue") == JNum(JsNumber(Get(data, "proposedValue")))
    ensures !Truthy(Get(data, "phase")) ==> Get(m, "phase") == JStr("1º CONTATO")
    ensures !Truthy(Get(data, "status")) ==> Get(m, "status") == JStr("AGUARDANDO")
    ensures Get(m, "lastContact") == JStr(clock.nowIso)
  {
    LeadLiteral(id, Get(data, "brand"), Get(data, "campaignObject"), Get(data, "influencerIds"),
                Or(Get(data, "phase"), JStr(LeadPhaseText(Contact))),
                Or(Get(data, "status"), JStr(LeadStatusText(Waiting))),
                JsNumber(Get(data, "proposedValue")), ProfileName(profile, "Agente Littê"),
                Or(Get(data, "scope"), JStr("")), Or(Get(data, "startDate"), JStr("")), clock.nowIso)
  }

  /** Whatever the new-lead form accepts, the lead as written loses the
      campaign object and links no influencer. */
  lemma NewLeadLosesObjectAndInfluencer(fd: Form, formId: string, profile: Option<Profile>, clock: Clock, id: string)
    requires NewLeadSubmission(fd, formId).Some?
    ensures var lead := NewLeadAsWritten(NewLeadSubmission(fd, formId).value, profile, clock, id);
      Get(lead, "campaignObject") == JUndef && Get(lead, "influencerIds") == JArr([JUndef])
      && fd["object"] != "" && fd["influencer"] != ""
  {
  }

  /** The corrected lead keeps what the form collected. */
  lemma NewLeadKeepsForm(fd: Form, formId: string, profile: Option<Profile>, clock: Clock, id: string)
    requires NewLeadSubmission(fd, formId).Some?
    ensures var lead := NewLead(NewLeadSubmission(fd, formId).value, profile, clock, id);
      Get(lead, "campaignObject") == JStr(fd["object"])
      && Get(lead, "influencerIds") == JArr([JStr(fd["influencer"])])
      && Get(lead, "proposedValue") == JReal(NumberOr(Field(fd, "proposedValue"), 0.0))
  {
    var sub := NewLeadSubmission(fd, formId).value;
    var proposed := NumberOr(Field(fd, "proposedValue"), 0.0);
    assert Get(sub, "proposedValue") == JReal(proposed);
    assert JsNumber(JReal(proposed)) == Fin(proposed);
  }

  // ---------------------------------------------------------------------
  // Direct campaign creation

  /** The campaign shell both creation paths share: planning status, no end
      date, no notes, the default sub-documents and an empty history. */
  function CampaignShell(id: string, title: string, brand: string, influencerIds: seq<Json>,
                         startDate: string, briefing: string, driveLink: string, internalNotes: string,
                         financial: Obj, checklist: seq<Json>): (c: Campaign)
    ensures c.status == Some(Planning) && c.endDate == "" && c.timeline == []
    ensures forall d :: Doc(c, d) == DefaultDoc(d)
    ensures c.id == id && c.title == title && c.brand == brand && c.influencerIds == influencerIds
    ensures c.startDate == startDate && c.financial == financial && c.checklist == checklist
    ensures c.briefing == briefing && c.driveLink == driveLink && c.internalNotes == internalNotes
  {
    Campaign(
      id := id, title := title, brand := brand, influencerIds := influencerIds,
      status := Some(Planning), startDate := startDate, endDate := "", briefing := briefing,
      driveLink := driveLink, internalNotes := internalNotes, influencerNotes := "",
      contrato := DefaultContrato(), produto := DefaultProduto(), roteiro := DefaultRoteiro(),
      conteudo := DefaultConteudo(), postagem := DefaultPostagem(), metricas := DefaultMetricas(),
      nf := DefaultNf(), repasse := DefaultRepasse(), observacoesCampanha := "",
      financial := financial, timeline := [], checklist := checklist)
  }

  /** The direct campaign as written: it reads `data.influencer` and `data.value`. */
  function DirectCampaignAsWritten(data: Obj, clock: Clock, id: string): (c: Campaign)
    ensures c.influencerIds == [Get(data, "influencer")]
    ensures c.financial == NewFinancial(NumberOr(Get(data, "value"), 0.0), clock.nowIso)
  {
    CampaignShell(id, TextOr(Get(data, "title"), TextOr(Get(data, "brand"), "")), TextOr(Get(data, "brand"), ""),
                  [Get(data, "influencer")], TextOr(Get(data, "startDate"), Today(clock)),
                  TextOr(Get(data, "briefing"), ""), "", "",
                  NewFinancial(NumberOr(Get(data, "value"), 0.0), clock.nowIso), [])
  }

  /** The direct campaign, reading the influencer list and the budget where
      the direct-campaign form puts them. */
  function DirectCampaign(data: Obj, clock: Clock, id: string): (c: Campaign)
    ensures Get(data, "influencerIds").JArr? ==> c.influencerIds == Get(data, "influencerIds").elems
    ensures c.financial == NewFinancial(NumberOr(Prop(Get(data, "financial"), "grossValue"), 0.0), clock.nowIso)
    ensures c.status == Some(Planning) && c.checklist == []
  {
    var ids := Get(data, "influencerIds");
    CampaignShell(id, TextOr(Get(data, "title"), TextOr(Get(data, "brand"), "")), TextOr(Get(data, "brand"), ""),
                  if ids.JArr? then ids.elems else [], TextOr(Get(data, "startDate"), Today(clock)),
                  TextOr(Get(data, "briefing"), ""), "", "",
                  NewFinancial(NumberOr(Prop(Get(data, "financial"), "grossValue"), 0.0), clock.nowIso), [])
  }

  /** Whatever the direct-campaign form accepts, the campaign as written has a
      budget of 0 and links no influencer. */
  lemma DirectCampaignLosesBudget(fd: Form, formId: string, clock: Clock, id: string)
    requires NewCampaignSubmission(fd, formId, clock.nowIso).Some?
    ensures var c := DirectCampaignAsWritten(NewCampaignSubmission(fd, formId, clock.nowIso).value, clock, id);
      Get(c.financial, "grossValue") == JReal(0.0) && c.influencerIds == [JUndef]
  {
    var data := NewCampaignSubmission(fd, formId, clock.nowIso).value;
    assert Get(data, "value") == JUndef && Get(data, "influencer") == JUndef;
    assert NumberOr(JUndef, 0.0) == 0.0;
  }

  /** The corrected campaign keeps the form's budget and influencer. */
  lemma DirectCampaignKeepsForm(fd: Form, formId: string, clock: Clock, id: string)
    requires NewCampaignSubmission(fd, formId, clock.nowIso).Some?
    ensures var c := DirectCampaign(NewCampaignSubmission(fd, formId, clock.nowIso).value, clock, id);
      Get(c.financial, "grossValue") == JReal(NumberOr(Field(fd, "closedValue"), 0.0))
      && "influencer" in fd && c.influencerIds == [JStr(fd["influencer"])]
  {
    var data := NewCampaignSubmission(fd, formId, clock.nowIso).value;
    DirectKeepsBudget(fd, data, clock, id);
    DirectKeepsInfluencer(fd, data, clock, id);
  }

  lemma DirectKeepsBudget(fd: Form, data: Obj, clock: Clock, id: string)
    requires Get(data, "financial") == JObj(NewFinancial(NumberOr(Field(fd, "closedValue"), 0.0), clock.nowIso))
    ensures Get(DirectCampaign(data, clock, id).financial, "grossValue") == JReal(NumberOr(Field(fd, "closedValue"), 0.0))
  {
    var g := NumberOr(Field(fd, "closedValue"), 0.0);
    assert Prop(Get(data, "financial"), "grossValue") == JReal(g);
    assert NumberOr(JReal(g), 0.0) == g;
  }

  lemma DirectKeepsInfluencer(fd: Form, data: Obj, clock: Clock, id: string)
    requires "influencer" in fd && Get(data, "influencerIds") == JArr([JStr(fd["influencer"])])
    ensures DirectCampaign(data, clock, id).influencerIds == [JStr(fd["influencer"])]
  {
  }

  // ---------------------------------------------------------------------
  // handleUpdateLeadStatus

  /** `leads.find(l => l.id === id)`. */
  function LeadById(leads: seq<Lead>, id: string): (r: Option<Lead>)
    ensures r.Some? ==> r.value in leads && r.value.id == id
    ensures r.None? ==> forall l | l in leads :: l.id != id
  {
    Find(leads, (l: Lead) => l.id == id)
  }

  /** One checklist entry of a generated campaign, not yet done. */
  function ChecklistItem(id: string, area: string, task: string): (j: Json)
    ensures Prop(j, "module") == JStr(area) && Prop(j, "done") == JBool(false)
  {
    JObj(map["id" := JStr(id), "module" := JStr(area), "task" := JStr(task), "done" := JBool(false)])
  }

  /** The text after "R$ " in the generated campaign's notes:
      `additionalData?.closedValue || lead.proposedValue`. */
  function ClosedValueText(lead: Lead, additional: Obj): string
  {
    var closed := Get(additional, "closedValue");
    if Truthy(closed) then Show(closed) else NumText(Fin(lead.proposedValue))
  }

  /** The campaign generated when a lead is closed. `uuid(k)` is the k-th
      identifier drawn: the campaign's, then its two checklist entries'. */
  function ClosureCampaign(lead: Lead, additional: Obj, clock: Clock, uuid: nat -> string): (c: Campaign)
    ensures c.id == uuid(0)
    ensures c.title == lead.brand + " - " + lead.campaignObject && c.brand == lead.brand
    ensures c.status == Some(Planning) && c.endDate == "" && c.influencerIds == lead.influencerIds
    ensures c.startDate == TextOr(Get(additional, "startDate"), if lead.startDate != "" then lead.startDate else Today(clock))
    ensures Get(c.financial, "grossValue") == JReal(NumberOr(Get(additional, "closedValue"), lead.value))
    ensures c.internalNotes == ClosureNotesPrefix + ClosedValueText(lead, additional)
    ensures |c.checklist| == 2
      && Prop(c.checklist[0], "module") == JStr("Contrato") && Prop(c.checklist[0], "done") == JBool(false)
      && Prop(c.checklist[1], "module") == JStr("Roteiro") && Prop(c.checklist[1], "done") == JBool(false)
    ensures forall d :: Doc(c, d) == DefaultDoc(d)
  {
    var gross := NumberOr(Get(additional, "closedValue"), lead.value);
    CampaignShell(
      uuid(0), lead.brand + " - " + lead.campaignObject, lead.brand, lead.influencerIds,
      TextOr(Get(additional, "startDate"), if lead.startDate != "" then lead.startDate else Today(clock)),
      lead.scope,
      DriveSearch + EncodeUriComponent(lead.brand),
      ClosureNotesPrefix + ClosedValueText(lead, additional),
      NewFinancial(gross, clock.nowIso),
      [ChecklistItem(uuid(1), "Contrato", "Minuta de Contrato"), ChecklistItem(uuid(2), "Roteiro", "Briefing Recebido")])
  }

  /** Without a closed value, the budget falls back to the lead's value while
      the notes quote the proposed value. */
  lemma ClosureFallbacks(lead: Lead, additional: Obj, clock: Clock, uuid: nat -> string)
    requires "closedValue" !in additional
    ensures var c := ClosureCampaign(lead, additional, clock, uuid);
      Get(c.financial, "grossValue") == JReal(lead.value)
      && c.internalNotes == ClosureNotesPrefix + NumText(Fin(lead.proposedValue))
  {
  }

  /** The notification announcing a generated campaign. */
  function ClosureNotification(profile: Option<Profile>, campaign: Campaign, lead: Lead, clock: Clock): (n: Obj)
    ensures Get(n, "campaign_id") == JStr(campaign.id)
    ensures Get(n, "type") == JStr("CAMPAIGN_CREATED")
  {
    map[
      "user_id" := JStr(if profile.Some? then profile.value.id else ""),
      "campaign_id" := JStr(campaign.id),
      "title" := JStr("Nova Campanha Gerada"),
      "message" := JStr("O andamento " + lead.brand + " foi convertido em campanha."),
      "type" := JStr("CAMPAIGN_CREATED"),
      "event_date" := JStr(clock.nowIso)]
  }

  /** The history entry recorded with every status change. */
  function TimelineEntry(id: string, status: LeadStatus, profile: Option<Profile>, additional: Obj, clock: Clock): (e: Json)
    ensures !Truthy(Get(additional, "lastMessage")) ==> Prop(e, "notes") == JStr("")
    ensures Truthy(Get(additional, "lastMessage")) ==> Prop(e, "notes") == Get(additional, "lastMessage")
    ensures Prop(e, "action") == JStr("Alteração para " + LeadStatusText(status))
  {
    JObj(map[
      "id" := JStr(id),
      "date" := JStr(clock.localDate),
      "action" := JStr("Alteração para " + LeadStatusText(status)),
      "user" := JStr(ProfileName(profile, "Admin")),
      "notes" := Or(Get(additional, "lastMessage"), JStr(""))])
  }

  /** `{ status, ...additionalData, timeline: updatedTimeline }`. */
  function LeadPatch(lead: Lead, status: LeadStatus, additional: Obj, entry: Json): (p: Obj)
    ensures p.Keys == additional.Keys + {"status", "timeline"}
    ensures p["timeline"] == JArr(lead.timeline + [entry])
    ensures "status" !in additional ==> p["status"] == JStr(LeadStatusText(status))
    ensures forall k | k in additional && k != "timeline" :: p[k] == additional[k]
  {
    (map["status" := JStr(LeadStatusText(status))] + additional)["timeline" := JArr(lead.timeline + [entry])]
  }

  /** Whether the change converts the lead: it becomes closed and was not closed before. */
  predicate Converts(lead: Lead, status: LeadStatus)
  {
    status == Closed && lead.status != Some(Closed)
  }

  /** The writes a status change requests, in order. */
  function StatusChange(role: UserRole, profile: Option<Profile>, leads: seq<Lead>, leadId: string,
                        status: LeadStatus, additional: Obj, clock: Clock, uuid: nat -> string): (r: seq<Effect>)
    ensures role == InfluencerRole ==> r == []
    ensures LeadById(leads, leadId).None? ==> r == []
    ensures role != InfluencerRole && LeadById(leads, leadId).Some? ==>
      var lead := LeadById(leads, leadId).value;
      |r| == (if Converts(lead, status) then 3 else 1)
      && r[|r| - 1].UpdateLeadWrite? && r[|r| - 1].leadId == leadId
  {
    if role == InfluencerRole then []
    else
      match LeadById(leads, leadId)
      case None => []
      case Some(lead) => LeadWrites(lead, leadId, status, profile, additional, clock, uuid)
  }

  /** The writes for a lead that was found: the generated campaign and its
      notification when the change converts the lead, then the lead's update. */
  function LeadWrites(lead: Lead, leadId: string, status: LeadStatus, profile: Option<Profile>,
                      additional: Obj, clock: Clock, uuid: nat -> string): (r: seq<Effect>)
    ensures |r| == (if Converts(lead, status) then 3 else 1)
    ensures r[|r| - 1].UpdateLeadWrite? && r[|r| - 1].leadId == leadId
  {
    if Converts(lead, status) then
      var c := ClosureCampaign(lead, additional, clock, uuid);
      [CreateCampaignWrite(c), NotificationWrite(ClosureNotification(profile, c, lead, clock)),
       LeadUpdate(lead, leadId, status, profile, additional, clock, uuid(3))]
    else
      [LeadUpdate(lead, leadId, status, profile, additional, clock, uuid(0))]
  }

  /** The final write of a status change: the lead's patch, its history grown
      by the entry with id `entryId`. */
  function LeadUpdate(lead: Lead, leadId: string, status: LeadStatus, profile: Option<Profile>,
                      additional: Obj, clock: Clock, entryId: string): (w: Effect)
    ensures w.UpdateLeadWrite? && w.leadId == leadId
    ensures "timeline" in w.patch
    ensures w.patch["timeline"] == JArr(lead.timeline + [TimelineEntry(entryId, status, profile, additional, clock)])
  {
    UpdateLeadWrite(leadId, LeadPatch(lead, status, additional, TimelineEntry(entryId, status, profile, additional, clock)))
  }

  /** On conversion the writes are the campaign, then its notification, then the lead. */
  lemma ConversionOrder(role: UserRole, profile: Option<Profile>, leads: seq<Lead>, leadId: string,
                        additional: Obj, clock: Clock, uuid: nat -> string)
    requires role != InfluencerRole && LeadById(leads, leadId).Some?
    requires LeadById(leads, leadId).value.status != Some(Closed)
    ensures var r := StatusChange(role, profile, leads, leadId, Closed, additional, clock, uuid);
      |r| == 3 && r[0].CreateCampaignWrite? && r[1].NotificationWrite? && r[2].UpdateLeadWrite?
      && Get(r[1].notification, "campaign_id") == JStr(r[0].campaign.id)
      && r[0].campaign.title == LeadById(leads, leadId).value.brand + " - " + LeadById(leads, leadId).value.campaignObject
  {
  }

  /** Closing a lead that is already closed generates no second campaign. */
  lemma NoSecondConversion(role: UserRole, profile: Option<Profile>, leads: seq<Lead>, leadId: string,
                           status: LeadStatus, additional: Obj, clock: Clock, uuid: nat -> string)
    requires LeadById(leads, leadId).Some? && LeadById(leads, leadId).value.status == Some(Closed)
    ensures forall e | e in StatusChange(role, profile, leads, leadId, status, additional, clock, uuid) :: !e.CreateCampaignWrite?
  {
  }

  /** Every accepted change appends exactly one entry to the lead's history. */
  lemma HistoryGrowsByOne(role: UserRole, profile: Option<Profile>, leads: seq<Lead>, leadId: string,
                          status: LeadStatus, additional: Obj, clock: Clock, uuid: nat -> string)
    requires role != InfluencerRole && LeadById(leads, leadId).Some?
    ensures var r := StatusChange(role, profile, leads, leadId, status, additional, clock, uuid);
      var lead := LeadById(leads, leadId).value;
      exists e :: Get(r[|r| - 1].patch, "timeline") == JArr(lead.timeline + [e])
        && Prop(e, "notes") == Or(Get(additional, "lastMessage"), JStr(""))
  {
    var lead := LeadById(leads, leadId).value;
    var e := TimelineEntry(uuid(if Converts(lead, status) then 3 else 0), status, profile, additional, clock);
    LastTimeline(role, profile, leads, leadId, status, additional, clock, uuid);
    assert Prop(e, "notes") == Or(Get(additional, "lastMessage"), JStr(""));
  }

  /** The last write of an accepted change carries the lead's history with
      the new entry appended. */
  lemma LastTimeline(role: UserRole, profile: Option<Profile>, leads: seq<Lead>, leadId: string,
                     status: LeadStatus, additional: Obj, clock: Clock, uuid: nat -> string)
    requires role != InfluencerRole && LeadById(leads, leadId).Some?
    ensures var r := StatusChange(role, profile, leads, leadId, status, additional, clock, uuid);
      var lead := LeadById(leads, leadId).value;
      |r| > 0 && r[|r| - 1].UpdateLeadWrite?
      && Get(r[|r| - 1].patch, "timeline")
         == JArr(lead.timeline + [TimelineEntry(uuid(if Converts(lead, status) then 3 else 0), status, profile, additional, clock)])
  {
    var lead := LeadById(leads, leadId).value;
    LastWriteUpdatesLead(lead, leadId, status, profile, additional, clock, uuid);
    assert StatusChange(role, profile, leads, leadId, status, additional, clock, uuid)
        == LeadWrites(lead, leadId, status, profile, additional, clock, uuid);
  }

  /** The last write for a found lead is its update, whose history entry takes
      the fourth UUID on conversion and the first otherwise. */
  lemma LastWriteUpdatesLead(lead: Lead, leadId: string, status: LeadStatus, profile: Option<Profile>,
                             additional: Obj, clock: Clock, uuid: nat -> string)
    ensures var r := LeadWrites(lead, leadId, status, profile, additional, clock, uuid);
      r[|r| - 1] == LeadUpdate(lead, leadId, status, profile, additional, clock, uuid(if Converts(lead, status) then 3 else 0))
  {
  }

  // ---------------------------------------------------------------------
  // handleSaveSplit

  /** `{ gestor: Number(data.gestor), ... }`. */
  function SplitFromForm(fd: Form): (r: SplitRules)
    ensures SplitSave(fd).Some? ==> Add(Add(r.gestor, r.operacional), r.reserva) == Fin(100.0)
    ensures r.gestor == JsNumber(Field(fd, "gestor"))
  {
    SplitRules(JsNumber(Field(fd, "gestor")), JsNumber(Field(fd, "operacional")), JsNumber(Field(fd, "reserva")))
  }

  /** The writes of a saved split: the new rules stored as settings, then
      the audit entry with the old and the new rules. */
  function SplitWrites(before: SplitRules, after: SplitRules): seq<Effect>
  {
    [SettingsWrite("split_rules", after),
     AuditWrite("FINANCE_CONFIG", "GLOBAL", "UPDATE_SPLIT_RULES", before, after)]
  }

  // ---------------------------------------------------------------------
  // The application's state

  class App {
    var role: UserRole
    var profile: Option<Profile>
    var leads: seq<Lead>
    var splitRules: SplitRules
    /** The writes requested so far. */
    var log: seq<Effect>

    constructor (role: UserRole, profile: Option<Profile>, leads: seq<Lead>, splitRules: SplitRules)
      ensures this.role == role && this.profile == profile && this.leads == leads
      ensures this.splitRules == splitRules && log == []
    {
      this.role := role;
      this.profile := profile;
      this.leads := leads;
      this.splitRules := splitRules;
      log := [];
    }

    /** `handleCreateLead` as written: one write of the lead built from
        `data.object` and `data.influencer`. */
    method CreateLead(data: Obj, clock: Clock, id: string)
      modifies this
      ensures log == old(log) + [CreateLeadWrite(NewLeadAsWritten(data, profile, clock, id))]
      ensures role == old(role) && profile == old(profile) && leads == old(leads) && splitRules == old(splitRules)
    {
      var lead := NewLeadAsWritten(data, profile, clock, id);
      log := log + [CreateLeadWrite(lead)];
    }

    /** `handleCreateLead` corrected: the lead keeps the dialog's
        `campaignObject` and `influencerIds`. */
    method CreateLeadCorrected(data: Obj, clock: Clock, id: string)
      modifies this
      ensures log == old(log) + [CreateLeadWrite(NewLead(data, profile, clock, id))]
      ensures role == old(role) && profile == old(profile) && leads == old(leads) && splitRules == old(splitRules)
    {
      var lead := NewLead(data, profile, clock, id);
      log := log + [CreateLeadWrite(lead)];
    }

    /** The direct-campaign handler as written: one write of the campaign
        built from `data.influencer` and `data.value`. */
    method CreateDirectCampaign(data: Obj, clock: Clock, id: string)
      modifies this
      ensures log == old(log) + [CreateCampaignWrite(DirectCampaignAsWritten(data, clock, id))]
      ensures role == old(role) && profile == old(profile) && leads == old(leads) && splitRules == old(splitRules)
    {
      var c := DirectCampaignAsWritten(data, clock, id);
      log := log + [CreateCampaignWrite(c)];
    }

    /** The direct-campaign handler corrected: the campaign keeps the
        dialog's `influencerIds` and `financial.grossValue`. */
    method CreateDirectCampaignCorrected(data: Obj, clock: Clock, id: string)
      modifies this
      ensures log == old(log) + [CreateCampaignWrite(DirectCampaign(data, clock, id))]
      ensures role == old(role) && profile == old(profile) && leads == old(leads) && splitRules == old(splitRules)
    {
      var c := DirectCampaign(data, clock, id);
      log := log + [CreateCampaignWrite(c)];
    }

    /** `handleUpdateLeadStatus`. */
    method UpdateLeadStatus(leadId: string, status: LeadStatus, additional: Obj, clock: Clock, uuid: nat -> string)
      modifies this
      ensures log == old(log) + StatusChange(role, profile, leads, leadId, status, additional, clock, uuid)
      ensures role == old(role) && profile == old(profile) && leads == old(leads) && splitRules == old(splitRules)
    {
      if role == InfluencerRole {
        return;
      }
      var found := LeadById(leads, leadId);
      if found.None? {
        return;
      }
      log := log + LeadWrites(found.value, leadId, status, profile, additional, clock, uuid);
    }

    /** `handleSaveSplit`: the new rules replace the old, are stored, and the
        change is audited with both versions. */
    method SaveSplit(fd: Form)
      modifies this
      ensures splitRules == SplitFromForm(fd)
      ensures log == old(log) + SplitWrites(old(splitRules), splitRules)
      ensures role == old(role) && profile == old(profile) && leads == old(leads)
    {
      var rules := SplitFromForm(fd);
      log := log + SplitWrites(splitRules, rules);
      splitRules := rules;
    }

    /** `handleUpdateCampaign`: an influencer may not edit campaigns; anyone
        else writes the campaign under its own id. */
    method UpdateCampaign(c: Campaign)
      modifies this
      ensures role == InfluencerRole ==> log == old(log)
      ensures role != InfluencerRole ==> log == old(log) + [UpdateCampaignWrite(c.id, c)]
      ensures role == old(role) && profile == old(profile) && leads == old(leads) && splitRules == old(splitRules)
    {
      if role == InfluencerRole {
        return;
      }
      log := log + [UpdateCampaignWrite(c.id, c)];
    }

    /** `handleSaveInfluencer`: the edit dialog updates the record under its
        id, the new-influencer dialog creates it. */
    method SaveInfluencer(inf: Influencer, editing: bool)
      modifies this
      ensures editing ==> log == old(log) + [UpdateInfluencerWrite(inf.id, inf)]
      ensures !editing ==> log == old(log) + [CreateInfluencerWrite(inf)]
      ensures role == old(role) && profile == old(profile) && leads == old(leads) && splitRules == old(splitRules)
    {
      if editing {
        log := log + [UpdateInfluencerWrite(inf.id, inf)];
      } else {
        log := log + [CreateInfluencerWrite(inf)];
      }
    }

    /** `handleFinancialAdjustment`: the adjustment is only audited, with no
        previous values; no balance changes. */
    method RegisterAdjustment(fd: Form)
      modifies this
      ensures log == old(log) + [AdjustmentAuditWrite("FINNA_ADJUSTMENT", "MANUAL", "REGISTER_ADJUSTMENT", fd)]
      ensures role == old(role) && profile == old(profile) && leads == old(leads) && splitRules == old(splitRules)
    {
      log := log + [AdjustmentAuditWrite("FINNA_ADJUSTMENT", "MANUAL", "REGISTER_ADJUSTMENT", fd)];
    }
  }
}
