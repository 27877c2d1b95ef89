/** The syndicats screen of the super-admin shell
    (components/superadmin/SyndicatsManagement.tsx): the search and the
    three-way approval filter over the syndicats, and the approve button of
    a card. */
module SuperAdminSyndicats {
  import opened Wrappers
  import opened Text
  import opened Seqs
  import opened SyndicatsManagement

  const ApprovalFilters: set<string> := {"all", "approved", "pending"}

  predicate MatchesStatus(s: Syndicat, statusFilter: string) {
    statusFilter == "all" || (statusFilter == "approved" && s.isApproved)
    || (statusFilter == "pending" && !s.isApproved)
  }

  function Matching(search: string, statusFilter: string): Syndicat -> bool {
    s => MatchesSearch(s, search) && MatchesStatus(s, statusFilter)
  }

  /** `filteredSyndicats`. */
  function FilterByApproval(syndicats: seq<Syndicat>, search: string, statusFilter: string): seq<Syndicat> {
    Filter(syndicats, Matching(search, statusFilter))
  }

  /** A syndicat is listed iff it is one of the syndicats, its name or domain
      contains the search ignoring case, and the filter is 'all' or its
      approval state; the list keeps the syndicats' order. */
  lemma FilterByApprovalContract(syndicats: seq<Syndicat>, search: string, statusFilter: string, s: Syndicat)
    ensures s in FilterByApproval(syndicats, search, statusFilter) <==>
            s in syndicats && (ContainsIgnoringCase(s.name, search) || ContainsIgnoringCase(s.domain, search))
            && (statusFilter == "all" || (statusFilter == "approved" && s.isApproved)
                || (statusFilter == "pending" && !s.isApproved))
    ensures IsSubseq(FilterByApproval(syndicats, search, statusFilter), syndicats)
  {
    FilterMembers(syndicats, Matching(search, statusFilter), s);
    FilterIsSubseq(syndicats, Matching(search, statusFilter));
  }

  /** 'approved' and 'pending' select complementary parts of the search
      matches. */
  lemma {:induction false} ApprovalSplit(syndicats: seq<Syndicat>, search: string)
    ensures |FilterByApproval(syndicats, search, "approved")| + |FilterByApproval(syndicats, search, "pending")|
            == |FilterByApproval(syndicats, search, "all")|
    ensures forall s :: MatchesSearch(s, search) ==> (MatchesStatus(s, "approved") <==> !MatchesStatus(s, "pending"))
  {
    if syndicats != [] {
      ApprovalSplit(syndicats[1..], search);
    }
  }

  /** 'all' with an empty search lists every syndicat, in order; it is the
      same list as the root page's screen shows with 'all'. */
  lemma EmptySearchKeepsAll(syndicats: seq<Syndicat>, search: string)
    ensures FilterByApproval(syndicats, "", "all") == syndicats
    ensures FilterByApproval(syndicats, search, "all") == FilterSyndicats(syndicats, search, "all")
  {
    forall i | 0 <= i < |syndicats| ensures MatchesSearch(syndicats[i], "") {
      ContainsIgnoringCaseEmpty(syndicats[i].name);
    }
    FilterAll(syndicats, Matching("", "all"));
    SameAllList(syndicats, search);
  }

  lemma {:induction false} SameAllList(syndicats: seq<Syndicat>, search: string)
    ensures FilterByApproval(syndicats, search, "all") == FilterSyndicats(syndicats, search, "all")
  {
    if syndicats != [] {
      SameAllList(syndicats[1..], search);
    }
  }

  /** The card's Approve button, shown for a syndicat not yet approved. */
  predicate ApproveShown(s: Syndicat) {
    !s.isApproved
  }

  /** The approve button appears exactly on the cards the 'pending' filter
      lists, and matches the root page's card. */
  lemma ApproveShownContract(s: Syndicat)
    ensures ApproveShown(s) <==> MatchesStatus(s, "pending")
    ensures ApproveShown(s) <==> Approve in CardButtons(s)
  {
    CardButtonsContract(s);
  }

  class ApprovalPage {
    const syndicats: seq<Syndicat>
    var searchTerm: string
    var statusFilter: string
    var selectedSyndicat: Option<Syndicat>
    var showProfileModal: bool

    predicate Valid()
      reads this
    {
      statusFilter in ApprovalFilters
    }

    constructor (ss: seq<Syndicat>)
      ensures Valid() && syndicats == ss
      ensures searchTerm == "" && statusFilter == "all" && selectedSyndicat.None? && !showProfileModal
    {
      syndicats := ss;
      searchTerm := "";
      statusFilter := "all";
      selectedSyndicat := None;
      showProfileModal := false;
    }

    function Listed(): seq<Syndicat>
      reads this
    {
      FilterByApproval(syndicats, searchTerm, statusFilter)
    }

    method SetSearch(search: string)
      modifies this
      ensures searchTerm == search && statusFilter == old(statusFilter)
      ensures selectedSyndicat == old(selectedSyndicat) && showProfileModal == old(showProfileModal)
    {
      searchTerm := search;
    }

    /** The three filter buttons. */
    method SetStatusFilter(statusFilter': string)
      requires statusFilter' in ApprovalFilters
      modifies this
      ensures Valid() && statusFilter == statusFilter' && searchTerm == old(searchTerm)
      ensures selectedSyndicat == old(selectedSyndicat) && showProfileModal == old(showProfileModal)
    {
      statusFilter := statusFilter';
    }

    /** `handleViewProfile(syndicat)`. */
    method HandleViewProfile(s: Syndicat)
      modifies this
      ensures selectedSyndicat == Some(s) && showProfileModal
      ensures searchTerm == old(searchTerm) && statusFilter == old(statusFilter)
    {
      selectedSyndicat := Some(s);
      showProfileModal := true;
    }

    /** The profile modal's close button; the selection stays. */
    method CloseProfile()
      modifies this
      ensures !showProfileModal && selectedSyndicat == old(selectedSyndicat)
      ensures searchTerm == old(searchTerm) && statusFilter == old(statusFilter)
    {
      showProfileModal := false;
    }
  }
}
