/** The members screen (components/MembersManagement.tsx): six filter
    selections and the predicate that keeps a member when all six criteria
    hold. */
module MembersManagement {
  import opened Wrappers
  import opened Text
  import opened Seqs

  /** `ComplianceDetails`, as far as the screen reads it. */
  datatype Compliance = Compliance(userId: string, isVerified: bool)

  /** `SyndicatMember`; `branchId` is optional. */
  datatype Membership = Membership(id: string, userId: string, syndicatId: string, branchId: Option<string>,
                                   role: string, joinDate: string, isActive: bool, isApproved: bool)

  /** A member row: the user, the syndicat name and role the screen joins to
      it, its membership and its optional compliance details. */
  datatype Member = Member(id: string, email: string, firstName: string, lastName: string,
                           isActive: bool, isEmailVerified: bool, syndicatName: string, role: string,
                           membership: Membership, complianceDetails: Option<Compliance>)

  const StatusFilters: set<string> := {"all", "active", "inactive", "verified", "pending"}
  const RoleFilters: set<string> := {"all", "ADMIN", "MEMBER", "MODERATOR"}
  const ApprovalFilters: set<string> := {"all", "approved", "pending"}

  /** The six selections of the screen. */
  datatype Filters = Filters(search: string, status: string, syndicat: string, role: string, branch: string,
                             approval: string)

  // ---------------------------------------------------------------- criteria

  /** `member.complianceDetails?.isVerified`, absent details reading as not
      verified. */
  predicate IsVerified(m: Member) {
    m.complianceDetails.Some? && m.complianceDetails.value.isVerified
  }

  predicate MatchesSearch(m: Member, search: string) {
    ContainsIgnoringCase(m.firstName, search) || ContainsIgnoringCase(m.lastName, search)
    || ContainsIgnoringCase(m.email, search)
  }

  predicate MatchesApproval(m: Member, approval: string) {
    approval == "all" || (approval == "approved" && m.membership.isApproved)
    || (approval == "pending" && !m.membership.isApproved)
  }

  /** What the status button selects, stated case by case. */
  predicate StatusSelects(m: Member, status: string) {
    match status
    case "active" => m.membership.isActive
    case "inactive" => !m.membership.isActive
    case "verified" => IsVerified(m)
    case "pending" => !IsVerified(m)
    case _ => true
  }

  /** `matchesStatus`: a flag set to true and then reassigned by each `if`
      whose value is the selected one. */
  method ComputeMatchesStatus(m: Member, status: string) returns (matchesStatus: bool)
    ensures matchesStatus == StatusSelects(m, status)
  {
    matchesStatus := true;
    if status == "active" {
      matchesStatus := m.membership.isActive;
    }
    if status == "inactive" {
      matchesStatus := !m.membership.isActive;
    }
    if status == "verified" {
      matchesStatus := m.complianceDetails.Some? && m.complianceDetails.value.isVerified;
    }
    if status == "pending" {
      matchesStatus := !(m.complianceDetails.Some? && m.complianceDetails.value.isVerified);
    }
  }

  /** The six criteria of `filteredMembers`. */
  predicate Keeps(f: Filters, m: Member) {
    MatchesSearch(m, f.search)
    && (f.syndicat == "all" || m.syndicatName == f.syndicat)
    && (f.role == "all" || m.membership.role == f.role)
    && (f.branch == "all" || m.membership.branchId == Some(f.branch))
    && MatchesApproval(m, f.approval)
    && StatusSelects(m, f.status)
  }

  function Keeping(f: Filters): Member -> bool {
    m => Keeps(f, m)
  }

  /** `filteredMembers`. */
  function FilterMembersBy(members: seq<Member>, f: Filters): seq<Member> {
    Filter(members, Keeping(f))
  }

  // ---------------------------------------------------------------- lemmas

  /** A member is listed iff it is one of the members and all six criteria
      hold; the list keeps the members' order, and the count shown is the
      number of members meeting the criteria. */
  lemma FilterMembersContract(members: seq<Member>, f: Filters, m: Member)
    ensures m in FilterMembersBy(members, f) <==>
            m in members && MatchesSearch(m, f.search)
            && (f.syndicat == "all" || m.syndicatName == f.syndicat)
            && (f.role == "all" || m.membership.role == f.role)
            && (f.branch == "all" || m.membership.branchId == Some(f.branch))
            && MatchesApproval(m, f.approval) && StatusSelects(m, f.status)
    ensures IsSubseq(FilterMembersBy(members, f), members)
    ensures |FilterMembersBy(members, f)| == CountIf(members, Keeping(f))
  {
    FilterMembers(members, Keeping(f), m);
    FilterIsSubseq(members, Keeping(f));
    CountIfFilter(members, Keeping(f));
  }

  /** Every selection at 'all' and an empty search list every member. */
  lemma AllFiltersKeepAll(members: seq<Member>)
    ensures FilterMembersBy(members, Filters("", "all", "all", "all", "all", "all")) == members
  {
    var f := Filters("", "all", "all", "all", "all", "all");
    forall i | 0 <= i < |members| ensures Keeps(f, members[i]) {
      ContainsIgnoringCaseEmpty(members[i].firstName);
    }
    FilterAll(members, Keeping(f));
  }

  /** 'verified' and 'pending' select complementary members, a member
      without compliance details counting as pending; 'active' and
      'inactive' are complementary as well. */
  lemma StatusComplement(m: Member)
    ensures StatusSelects(m, "verified") <==> !StatusSelects(m, "pending")
    ensures m.complianceDetails.None? ==> StatusSelects(m, "pending")
    ensures StatusSelects(m, "active") <==> !StatusSelects(m, "inactive")
    ensures StatusSelects(m, "all")
  {
  }

  /** 'approved' and 'pending' split the members by their approval. */
  lemma ApprovalComplement(m: Member)
    ensures MatchesApproval(m, "approved") <==> !MatchesApproval(m, "pending")
    ensures MatchesApproval(m, "approved") <==> m.membership.isApproved
  {
  }

  /** The syndicat selection is compared with the syndicat name: a value no
      member's syndicat name equals (such as an id) lists nobody. */
  lemma SyndicatComparedWithName(members: seq<Member>, f: Filters)
    requires f.syndicat != "all"
    requires forall i :: 0 <= i < |members| ==> members[i].syndicatName != f.syndicat
    ensures FilterMembersBy(members, f) == []
  {
    var r := FilterMembersBy(members, f);
    if r != [] {
      FilterMembers(members, Keeping(f), r[0]);
    }
  }

  /** The initial syndicat selection: the prop when it is a non-empty string,
      else 'all'. */
  function InitialSyndicat(syndicatId: Option<string>): (s: string)
    ensures s == "all" <==> syndicatId.None? || syndicatId.value == "" || syndicatId.value == "all"
  {
    if syndicatId.Some? && syndicatId.value != "" then syndicatId.value else "all"
  }

  // ---------------------------------------------------------------- the screen

  class MembersPage {
    const members: seq<Member>
    var filters: Filters
    var selectedMember: Option<Member>
    var showProfileModal: bool

    /** Each selection holds one of its values. */
    predicate Valid()
      reads this
    {
      filters.status in StatusFilters && filters.role in RoleFilters && filters.approval in ApprovalFilters
    }

    constructor (ms: seq<Member>, syndicatId: Option<string>)
      ensures Valid() && members == ms
      ensures filters == Filters("", "all", InitialSyndicat(syndicatId), "all", "all", "all")
      ensures selectedMember.None? && !showProfileModal
    {
      members := ms;
      filters := Filters("", "all", InitialSyndicat(syndicatId), "all", "all", "all");
      selectedMember := None;
      showProfileModal := false;
    }

    /** The list on screen; its length is the badge's count. */
    function Listed(): seq<Member>
      reads this
    {
      FilterMembersBy(members, filters)
    }

    /** The search box. */
    method SetSearch(search: string)
      modifies this
      ensures filters == old(filters).(search := search)
      ensures selectedMember == old(selectedMember) && showProfileModal == old(showProfileModal)
    {
      filters := filters.(search := search);
    }

    /** The syndicat, role and branch selects. */
    method SetSelects(syndicat: string, role: string, branch: string)
      requires Valid() && role in RoleFilters
      modifies this
      ensures Valid() && filters == old(filters).(syndicat := syndicat, role := role, branch := branch)
      ensures selectedMember == old(selectedMember) && showProfileModal == old(showProfileModal)
    {
      filters := filters.(syndicat := syndicat, role := role, branch := branch);
    }

    /** The five status buttons. */
    method SetFilterStatus(status: string)
      requires Valid() && status in StatusFilters
      modifies this
      ensures Valid() && filters == old(filters).(status := status)
      ensures selectedMember == old(selectedMember) && showProfileModal == old(showProfileModal)
    {
      filters := filters.(status := status);
    }

    /** The two approval buttons, the only setters of the approval selection:
        once pressed, it never returns to 'all'. */
    method SetFilterApproval(approved: bool)
      requires Valid()
      modifies this
      ensures Valid() && filters == old(filters).(approval := if approved then "approved" else "pending")
      ensures filters.approval != "all"
      ensures selectedMember == old(selectedMember) && showProfileModal == old(showProfileModal)
    {
      filters := filters.(approval := if approved then "approved" else "pending");
    }

    /** `handleViewProfile(member)`. */
    method HandleViewProfile(m: Member)
      modifies this
      ensures selectedMember == Some(m) && showProfileModal && filters == old(filters)
    {
      selectedMember := Some(m);
      showProfileModal := true;
    }

    /** The profile modal's close button; the selection stays. */
    method CloseProfile()
      modifies this
      ensures !showProfileModal && selectedMember == old(selectedMember) && filters == old(filters)
    {
      showProfileModal := false;
    }
  }
}
