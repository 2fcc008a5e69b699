/** The creators screen (components/InfluencerManager.tsx): the searchable
    list of influencers and the detail view with their campaigns. */
module Influencers {
  import opened Js
  import opened Lists
  import opened Domain

  predicate Found(inf: Influencer, term: string)
  {
    Matches(inf.nome, term) || Matches(inf.usuario, term)
  }

  /** `filteredInfluencers`: the influencers whose name or handle contains the
      term, in their original order. */
  function FilteredInfluencers(infs: seq<Influencer>, term: string): (r: seq<Influencer>)
    ensures IsSubsequence(r, infs)
    ensures forall i | i in infs :: i in r <==> Found(i, term)
  {
    FilterIsSubsequence(infs, i => Found(i, term));
    Filter(infs, i => Found(i, term))
  }

  /** Clearing the search (the ✕ button) lists everyone. */
  lemma EmptySearchListsAll(infs: seq<Influencer>)
    ensures FilteredInfluencers(infs, "") == infs
  {
    forall i | i in infs
      ensures Found(i, "")
    {
      EmptyTermMatches(i.nome);
    }
    FilterAll(infs, i => Found(i, ""));
  }

  predicate Features(c: Campaign, inf: Influencer)
  {
    JStr(inf.id) in c.influencerIds
  }

  /** `influencerCampaigns`: nothing without a selection, otherwise the
      campaigns whose `influencerIds` include the selected influencer. */
  function InfluencerCampaigns(selected: Option<Influencer>, cs: seq<Campaign>): (r: seq<Campaign>)
    ensures selected.None? ==> r == []
    ensures IsSubsequence(r, cs)
    ensures selected.Some? ==> forall c | c in cs :: c in r <==> JStr(selected.value.id) in c.influencerIds
  {
    if selected.None? then []
    else
      FilterIsSubsequence(cs, c => Features(c, selected.value));
      Filter(cs, c => Features(c, selected.value))
  }

  /** The detail depends on the selected influencer's id alone: two records
      with the same id see the same campaigns. */
  lemma CampaignsFollowIds(a: Influencer, b: Influencer, cs: seq<Campaign>)
    requires a.id == b.id
    ensures InfluencerCampaigns(Some(a), cs) == InfluencerCampaigns(Some(b), cs)
  {
    FilterCongruent(cs, c => Features(c, a), c => Features(c, b));
  }

  /** `viewMode`: the general or the personal data tab of the detail view. */
  datatype ViewMode = General | Personal

  /** The screen's state; `edits`, `deletes` and `windows` record the calls to
      `onEdit`, `onDelete` and `window.open`. */
  class InfluencerScreen {
    var selected: Option<Influencer>
    var viewMode: ViewMode
    var term: string
    var edits: seq<Influencer>
    var deletes: seq<string>
    var windows: seq<string>

    constructor ()
      ensures selected.None? && viewMode == General && term == ""
      ensures edits == [] && deletes == [] && windows == []
    {
      selected := None;
      viewMode := General;
      term := "";
      edits := [];
      deletes := [];
      windows := [];
    }

    /** The card's details button: the detail opens on the general tab. */
    method OpenDetails(inf: Influencer)
      modifies this
      ensures selected == Some(inf) && viewMode == General
      ensures term == old(term) && edits == old(edits) && deletes == old(deletes) && windows == old(windows)
    {
      selected := Some(inf);
      viewMode := General;
    }

    /** The detail's edit button: the editor is asked for and the detail closes. */
    method EditFromDetails()
      modifies this
      requires selected.Some?
      ensures edits == old(edits) + [old(selected).value] && selected.None?
      ensures viewMode == old(viewMode) && term == old(term) && deletes == old(deletes) && windows == old(windows)
    {
      edits := edits + [selected.value];
      selected := None;
    }

    /** The card's delete button: `onDelete?.(id)` does nothing when no
        handler was given. */
    method Delete(id: string, hasHandler: bool)
      modifies this
      ensures deletes == if hasHandler then old(deletes) + [id] else old(deletes)
      ensures selected == old(selected) && viewMode == old(viewMode) && term == old(term)
      ensures edits == old(edits) && windows == old(windows)
    {
      if hasHandler {
        deletes := deletes + [id];
      }
    }

    /** `handleOpenDrive`: an empty link opens nothing. */
    method OpenDrive(url: string)
      modifies this
      ensures windows == if url != "" then old(windows) + [url] else old(windows)
      ensures selected == old(selected) && viewMode == old(viewMode) && term == old(term)
      ensures edits == old(edits) && deletes == old(deletes)
    {
      if url != "" {
        windows := windows + [url];
      }
    }

    /** Closing the detail. */
    method Close()
      modifies this
      ensures selected.None?
      ensures viewMode == old(viewMode) && term == old(term)
      ensures edits == old(edits) && deletes == old(deletes) && windows == old(windows)
    {
      selected := None;
    }
  }
}
