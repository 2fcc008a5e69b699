/** The prospection pipeline (Pipeline.tsx): the list of open leads and the
    status-change form of the selected lead. */
module Pipeline {
  import opened Js
  import opened Lists
  import opened Domain
  import opened Modals
  import Handlers

  /** `filteredLeads`: the waiting leads whose brand or campaign object
      contains the search term and whose phase passes the filter (`None` is
      `ALL`), in their original order. */
  function FilteredLeads(leads: seq<Lead>, term: string, phase: Option<LeadPhase>): (r: seq<Lead>)
    ensures IsSubsequence(r, leads)
    ensures forall l | l in r :: l.status == Some(Waiting)
    ensures forall l | l in leads :: l in r <==>
      (l.status == Some(Waiting) && (Matches(l.brand, term) || Matches(l.campaignObject, term))
       && (phase.None? || l.phase == phase))
  {
    FilterIsSubsequence(leads, l => Shown(l, term, phase));
    Filter(leads, l => Shown(l, term, phase))
  }

  predicate Shown(l: Lead, term: string, phase: Option<LeadPhase>)
  {
    l.status == Some(Waiting) && (Matches(l.brand, term) || Matches(l.campaignObject, term))
    && (phase.None? || l.phase == phase)
  }

  /** With no search term and every phase, the list is the waiting leads. */
  lemma EmptySearchListsWaiting(leads: seq<Lead>)
    ensures forall l | l in leads :: l in FilteredLeads(leads, "", None) <==> l.status == Some(Waiting)
  {
    forall l | l in leads
      ensures Matches(l.brand, "")
    {
      EmptyTermMatches(l.brand);
    }
  }

  /** `formData.get(k)`: the entry, or null. */
  function FormGet(fd: Form, k: string): (j: Json)
    ensures k in fd ==> j == JStr(fd[k])
    ensures k !in fd ==> j == JNull
  {
    if k in fd then JStr(fd[k]) else JNull
  }

  /** A refusal needs a reason that is more than white space. */
  predicate RefusalWithoutReason(fd: Form)
  {
    FormGet(fd, "status") == JStr(LeadStatusText(Refused))
    && ("lastMessage" !in fd || Trim(fd["lastMessage"]) == "")
  }

  /** The `additionalData` of an accepted submission. */
  function AdditionalData(fd: Form): (m: Obj)
    ensures Get(m, "lastMessage") == FormGet(fd, "lastMessage")
    ensures Get(m, "proposedValue") == JNum(JsNumber(FormGet(fd, "proposedValue")))
    ensures Get(m, "closedValue") == JNum(JsNumber(FormGet(fd, "closedValue")))
    ensures "status" !in m && "timeline" !in m
  {
    map[
      "phase" := FormGet(fd, "phase"),
      "responsible" := FormGet(fd, "responsible"),
      "proposedValue" := JNum(JsNumber(FormGet(fd, "proposedValue"))),
      "closedValue" := JNum(JsNumber(FormGet(fd, "closedValue"))),
      "scope" := FormGet(fd, "scope"),
      "startDate" := FormGet(fd, "startDate"),
      "lastMessage" := FormGet(fd, "lastMessage"),
      "campaignObject" := FormGet(fd, "campaignObject")]
  }

  /** One call of `onUpdateStatus`. */
  datatype StatusCall = StatusCall(leadId: string, status: Json, additional: Obj)

  /** The lead-detail state of the pipeline screen. */
  class PipelineScreen {
    var selected: Option<Lead>
    var isEditing: bool
    /** The calls made to `onUpdateStatus`, in order. */
    var calls: seq<StatusCall>

    constructor (selected: Option<Lead>)
      ensures this.selected == selected && !isEditing && calls == []
    {
      this.selected := selected;
      isEditing := false;
      calls := [];
    }

    /** `handleEditSubmit`: a refusal without a reason is turned away and
        changes nothing; otherwise `onUpdateStatus` is called once and the
        detail view closes. */
    method EditSubmit(fd: Form)
      requires selected.Some?
      modifies this
      ensures RefusalWithoutReason(fd) ==>
        calls == old(calls) && selected == old(selected) && isEditing == old(isEditing)
      ensures !RefusalWithoutReason(fd) ==>
        calls == old(calls) + [StatusCall(old(selected).value.id, FormGet(fd, "status"), AdditionalData(fd))]
        && selected.None? && !isEditing
    {
      if RefusalWithoutReason(fd) {
        return;
      }
      calls := calls + [StatusCall(selected.value.id, FormGet(fd, "status"), AdditionalData(fd))];
      isEditing := false;
      selected := None;
    }
  }

  /** A refusal that gets through carries its reason into the lead's history:
      the new history entry's notes are the reason given. */
  lemma RefusalReasonRecorded(fd: Form, entryId: string, profile: Option<Handlers.Profile>, clock: Handlers.Clock)
    requires !RefusalWithoutReason(fd)
    requires FormGet(fd, "status") == JStr(LeadStatusText(Refused))
    ensures "lastMessage" in fd && fd["lastMessage"] != ""
    ensures Prop(Handlers.TimelineEntry(entryId, Refused, profile, AdditionalData(fd), clock), "notes")
         == JStr(fd["lastMessage"])
  {
  }
}
