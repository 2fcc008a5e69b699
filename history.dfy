/** The archive (components/History.tsx): finished campaigns and refused
    leads, with a search over each. */
module History {
  import opened Js
  import opened Lists
  import opened Domain
  import Campaigns
  import Pipeline

  datatype Tab = CampaignsTab | LeadsTab

  predicate ArchivedCampaign(c: Campaign, term: string)
  {
    c.status == Some(Completed) && (Matches(c.title, term) || Matches(c.brand, term))
  }

  predicate ArchivedLead(l: Lead, term: string)
  {
    l.status == Some(Refused) && (Matches(l.brand, term) || Matches(l.campaignObject, term))
  }

  /** The campaigns tab: the finished campaigns whose title or brand
      contains the term, in their original order. */
  function ArchivedCampaigns(cs: seq<Campaign>, term: string): (r: seq<Campaign>)
    ensures IsSubsequence(r, cs)
    ensures forall c | c in r :: c.status == Some(Completed)
    ensures forall c | c in cs :: c in r <==> ArchivedCampaign(c, term)
  {
    FilterIsSubsequence(cs, c => ArchivedCampaign(c, term));
    Filter(cs, c => ArchivedCampaign(c, term))
  }

  /** The leads tab: the refused leads whose brand or campaign object
      contains the term, in their original order. */
  function ArchivedLeads(leads: seq<Lead>, term: string): (r: seq<Lead>)
    ensures IsSubsequence(r, leads)
    ensures forall l | l in r :: l.status == Some(Refused)
    ensures forall l | l in leads :: l in r <==> ArchivedLead(l, term)
  {
    FilterIsSubsequence(leads, l => ArchivedLead(l, term));
    Filter(leads, l => ArchivedLead(l, term))
  }

  /** `filteredData`, by tab. */
  datatype Rows = CampaignRows(campaigns: seq<Campaign>) | LeadRows(leads: seq<Lead>)

  /** With no search, a campaign is either archived here or listed among the
      active jobs of the campaigns screen, never both. */
  lemma ArchiveCompletesActiveList(cs: seq<Campaign>)
    ensures forall c | c in cs ::
      (c in ArchivedCampaigns(cs, "") <==> c !in Campaigns.FilteredCampaigns(cs, "", Campaigns.ActiveOnly))
  {
    forall c | c in cs
      ensures Matches(c.title, "") && Matches(c.brand, "")
    {
      EmptyTermMatches(c.title);
      EmptyTermMatches(c.brand);
    }
  }

  /** With no search, a refused lead is archived and a waiting one is in the
      pipeline; a closed lead (now a campaign) is in neither list. */
  lemma LeadsSplitBetweenScreens(leads: seq<Lead>)
    ensures forall l | l in leads :: l in ArchivedLeads(leads, "") <==> l.status == Some(Refused)
    ensures forall l | l in leads ::
      (l in ArchivedLeads(leads, "") || l in Pipeline.FilteredLeads(leads, "", None))
      <==> (l.status == Some(Refused) || l.status == Some(Waiting))
  {
    Pipeline.EmptySearchListsWaiting(leads);
    forall l | l in leads
      ensures Matches(l.brand, "")
    {
      EmptyTermMatches(l.brand);
    }
  }

  /** The archive screen's state. */
  class HistoryScreen {
    var tab: Tab
    var term: string

    constructor ()
      ensures tab == CampaignsTab && term == ""
    {
      tab := CampaignsTab;
      term := "";
    }

    /** The rows shown for the current tab and search. */
    function Shown(cs: seq<Campaign>, leads: seq<Lead>): (r: Rows)
      reads this
      ensures tab == CampaignsTab ==> r == CampaignRows(ArchivedCampaigns(cs, term))
      ensures tab == LeadsTab ==> r == LeadRows(ArchivedLeads(leads, term))
    {
      match tab
      case CampaignsTab => CampaignRows(ArchivedCampaigns(cs, term))
      case LeadsTab => LeadRows(ArchivedLeads(leads, term))
    }

    /** A tab button: the tab changes and the search is cleared. */
    method SelectTab(t: Tab)
      modifies this
      ensures tab == t && term == ""
    {
      tab := t;
      term := "";
    }

    /** Typing in the search box. */
    method Search(s: string)
      modifies this
      ensures tab == old(tab) && term == s
    {
      term := s;
    }
  }

  /** Right after switching tabs everything of that tab is listed: the
      finished campaigns, or the refused leads. */
  lemma SwitchShowsWholeTab(cs: seq<Campaign>, leads: seq<Lead>)
    ensures forall c | c in cs :: c in ArchivedCampaigns(cs, "") <==> c.status == Some(Completed)
    ensures forall l | l in leads :: l in ArchivedLeads(leads, "") <==> l.status == Some(Refused)
  {
    forall c | c in cs
      ensures Matches(c.title, "")
    {
      EmptyTermMatches(c.title);
    }
    forall l | l in leads
      ensures Matches(l.brand, "")
    {
      EmptyTermMatches(l.brand);
    }
  }
}
