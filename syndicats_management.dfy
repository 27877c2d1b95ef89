/** The syndicats screen of the root page (components/SyndicatsManagement.tsx):
    the search and the five-way status filter, the navigation to a
    syndicat's members, and the buttons of a syndicat card. */
module SyndicatsManagement {
  import opened Wrappers
  import opened Text
  import opened Seqs
  import HomePage

  /** `Syndicat` (lib/types/superadmin.ts), as far as the screens read it. */
  datatype Syndicat = Syndicat(id: string, isApproved: bool, isActive: bool, name: string, description: string,
                               domain: string, kind: string, creationDate: string, lastUpdate: string,
                               organizationId: string, memberCount: Option<int>)

  const StatusFilters: set<string> := {"all", "approved", "pending", "active", "inactive"}

  // ---------------------------------------------------------------- the list

  predicate MatchesSearch(s: Syndicat, search: string) {
    ContainsIgnoringCase(s.name, search) || ContainsIgnoringCase(s.domain, search)
  }

  /** The filter callback with its early returns. */
  predicate Keeps(s: Syndicat, search: string, status: string) {
    if status == "all" then MatchesSearch(s, search)
    else if status == "approved" then MatchesSearch(s, search) && s.isApproved
    else if status == "pending" then MatchesSearch(s, search) && !s.isApproved
    else if status == "active" then MatchesSearch(s, search) && s.isActive
    else if status == "inactive" then MatchesSearch(s, search) && !s.isActive
    else MatchesSearch(s, search)
  }

  function Keeping(search: string, status: string): Syndicat -> bool {
    s => Keeps(s, search, status)
  }

  /** `filteredSyndicats`. */
  function FilterSyndicats(syndicats: seq<Syndicat>, search: string, status: string): seq<Syndicat> {
    Filter(syndicats, Keeping(search, status))
  }

  /** A syndicat is listed iff it is one of the syndicats, its name or domain
      contains the search ignoring case, and it has the selected property
      ('all' asking for none); the list is a sub-sequence of the
      syndicats. */
  lemma FilterSyndicatsContract(syndicats: seq<Syndicat>, search: string, status: string, s: Syndicat)
    ensures s in FilterSyndicats(syndicats, search, status) <==>
            s in syndicats && (ContainsIgnoringCase(s.name, search) || ContainsIgnoringCase(s.domain, search))
            && (status == "approved" ==> s.isApproved) && (status == "pending" ==> !s.isApproved)
            && (status == "active" ==> s.isActive) && (status == "inactive" ==> !s.isActive)
    ensures IsSubseq(FilterSyndicats(syndicats, search, status), syndicats)
  {
    FilterMembers(syndicats, Keeping(search, status), s);
    FilterIsSubseq(syndicats, Keeping(search, status));
  }

  /** 'approved' and 'pending' split the search matches by approval, and
      'active' and 'inactive' split them by activity: each pair's lists
      together are as long as the 'all' list. */
  lemma {:induction false} StatusPairsSplit(syndicats: seq<Syndicat>, search: string)
    ensures |FilterSyndicats(syndicats, search, "approved")| + |FilterSyndicats(syndicats, search, "pending")|
            == |FilterSyndicats(syndicats, search, "all")|
    ensures |FilterSyndicats(syndicats, search, "active")| + |FilterSyndicats(syndicats, search, "inactive")|
            == |FilterSyndicats(syndicats, search, "all")|
  {
    if syndicats != [] {
      StatusPairsSplit(syndicats[1..], search);
    }
  }

  /** 'all' with an empty search lists every syndicat. */
  lemma EmptySearchKeepsAll(syndicats: seq<Syndicat>)
    ensures FilterSyndicats(syndicats, "", "all") == syndicats
  {
    forall i | 0 <= i < |syndicats| ensures Keeps(syndicats[i], "", "all") {
      ContainsIgnoringCaseEmpty(syndicats[i].name);
    }
    FilterAll(syndicats, Keeping("", "all"));
  }

  // ---------------------------------------------------------------- card buttons

  datatype CardButton = View | MembersButton | Approve | Disapprove | Activate | Deactivate

  /** The buttons a card shows. */
  function CardButtons(s: Syndicat): set<CardButton> {
    {View, MembersButton} + (if s.isApproved then {Disapprove} else {Approve})
    + (if s.isActive then {Deactivate} else {Activate})
  }

  /** A card shows exactly one of Approve and Disapprove, by approval, and
      exactly one of Activate and Deactivate, by activity. */
  lemma CardButtonsContract(s: Syndicat)
    ensures View in CardButtons(s) && MembersButton in CardButtons(s)
    ensures Approve in CardButtons(s) <==> !s.isApproved
    ensures Disapprove in CardButtons(s) <==> s.isApproved
    ensures Deactivate in CardButtons(s) <==> s.isActive
    ensures Activate in CardButtons(s) <==> !s.isActive
    ensures |CardButtons(s)| == 4
  {
    var approval := if s.isApproved then Disapprove else Approve;
    var activity := if s.isActive then Deactivate else Activate;
    assert CardButtons(s) == {View, MembersButton, approval, activity};
  }

  // ---------------------------------------------------------------- the screen

  class SyndicatsPage {
    const syndicats: seq<Syndicat>
    /** The `onNavigate` prop: the root page's `handleNavigate`, or absent. */
    const onNavigate: Option<HomePage.Home>
    var searchTerm: string
    var filterStatus: string
    var selectedSyndicat: Option<Syndicat>
    var showProfileModal: bool

    predicate Valid()
      reads this
    {
      filterStatus in StatusFilters
    }

    constructor (ss: seq<Syndicat>, navigate: Option<HomePage.Home>)
      ensures Valid() && syndicats == ss && onNavigate == navigate
      ensures searchTerm == "" && filterStatus == "all" && selectedSyndicat.None? && !showProfileModal
    {
      syndicats := ss;
      onNavigate := navigate;
      searchTerm := "";
      filterStatus := "all";
      selectedSyndicat := None;
      showProfileModal := false;
    }

    function Listed(): seq<Syndicat>
      reads this
    {
      FilterSyndicats(syndicats, searchTerm, filterStatus)
    }

    method SetSearch(search: string)
      modifies this
      ensures searchTerm == search && filterStatus == old(filterStatus)
      ensures selectedSyndicat == old(selectedSyndicat) && showProfileModal == old(showProfileModal)
    {
      searchTerm := search;
    }

    /** The five status buttons. */
    method SetFilterStatus(status: string)
      requires status in StatusFilters
      modifies this
      ensures Valid() && filterStatus == status && searchTerm == old(searchTerm)
      ensures selectedSyndicat == old(selectedSyndicat) && showProfileModal == old(showProfileModal)
    {
      filterStatus := status;
    }

    /** `handleViewProfile(syndicat)`. */
    method HandleViewProfile(s: Syndicat)
      modifies this
      ensures selectedSyndicat == Some(s) && showProfileModal
      ensures searchTerm == old(searchTerm) && filterStatus == old(filterStatus)
    {
      selectedSyndicat := Some(s);
      showProfileModal := true;
    }

    /** The profile modal's close button and its approve, disapprove,
        activate and deactivate actions, which only log: the modal closes
        and the selection stays. */
    method CloseProfile()
      modifies this
      ensures !showProfileModal && selectedSyndicat == old(selectedSyndicat)
      ensures searchTerm == old(searchTerm) && filterStatus == old(filterStatus)
    {
      showProfileModal := false;
    }

    /** `handleViewMembers(id)`: navigates to the members screen with the id
        when the prop is there; with no prop nothing changes. Once on a
        signed-in root page, the members screen receives that id. */
    method HandleViewMembers(id: string)
      modifies if onNavigate.Some? then {onNavigate.value} else {}
      ensures onNavigate.Some? ==>
                onNavigate.value.currentView == "members"
                && onNavigate.value.viewData == Some(HomePage.NavData(Some(id)))
                && onNavigate.value.isAuthenticated == old(onNavigate.value.isAuthenticated)
                && onNavigate.value.userEmail == old(onNavigate.value.userEmail)
                && (onNavigate.value.isAuthenticated ==> onNavigate.value.Shown() == HomePage.Members(Some(id)))
    {
      if onNavigate.Some? {
        onNavigate.value.HandleNavigate("members", Some(HomePage.NavData(Some(id))));
      }
    }
  }
}
