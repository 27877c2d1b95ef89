/** The flagged content screen (components/FlaggedContent.tsx): publications
    and events tagged by kind and put in one list, the kind filter and the
    search over that list. */
module FlaggedContent {
  import opened Wrappers
  import opened Text
  import opened Seqs

  /** `Publication` (lib/types/superadmin.ts), as far as the screen reads it. */
  datatype Publication = Publication(id: string, content: string, authorId: string, creationDate: string,
                                     lastUpdate: string, status: string, likeCount: int, branchId: string,
                                     flaggedReason: Option<string>, flaggedBy: Option<string>,
                                     flaggedAt: Option<string>)

  /** `Event` (lib/types/superadmin.ts), as far as the screen reads it. */
  datatype Event = Event(id: string, title: string, description: string, lieu: string, startDate: string,
                         endDate: string, branchId: string, status: Option<string>,
                         flaggedReason: Option<string>, flaggedBy: Option<string>, flaggedAt: Option<string>)

  /** A record with its `type` tag. */
  datatype Item = PublicationItem(publication: Publication) | EventItem(event: Event)

  const TypeFilters: set<string> := {"all", "publications", "events"}

  /** The publications tagged 'publication'. */
  function TagPublications(ps: seq<Publication>): (r: seq<Item>)
    ensures |r| == |ps| && forall i :: 0 <= i < |ps| ==> r[i] == PublicationItem(ps[i])
  {
    seq(|ps|, i requires 0 <= i < |ps| => PublicationItem(ps[i]))
  }

  /** The events tagged 'event'. */
  function TagEvents(es: seq<Event>): (r: seq<Item>)
    ensures |r| == |es| && forall i :: 0 <= i < |es| ==> r[i] == EventItem(es[i])
  {
    seq(|es|, i requires 0 <= i < |es| => EventItem(es[i]))
  }

  /** `allFlaggedContent`. */
  function AllFlagged(ps: seq<Publication>, es: seq<Event>): seq<Item> {
    TagPublications(ps) + TagEvents(es)
  }

  /** The combined list is every publication, tagged, in order, followed by
      every event, tagged, in order. */
  lemma AllFlaggedContract(ps: seq<Publication>, es: seq<Event>)
    ensures |AllFlagged(ps, es)| == |ps| + |es|
    ensures forall i :: 0 <= i < |ps| ==> AllFlagged(ps, es)[i] == PublicationItem(ps[i])
    ensures forall j :: 0 <= j < |es| ==> AllFlagged(ps, es)[|ps| + j] == EventItem(es[j])
  {
  }

  // ---------------------------------------------------------------- the filter

  /** `matchesType`. */
  predicate MatchesType(item: Item, filterType: string) {
    filterType == "all" || (filterType == "publications" && item.PublicationItem?)
    || (filterType == "events" && item.EventItem?)
  }

  /** `x?.toLowerCase().includes(term)`: an absent field matches nothing. */
  predicate OptionalContains(field: Option<string>, search: string) {
    field.Some? && ContainsIgnoringCase(field.value, search)
  }

  /** The search each kind is matched on. */
  predicate MatchesSearch(item: Item, search: string) {
    match item
    case PublicationItem(p) => ContainsIgnoringCase(p.content, search) || OptionalContains(p.flaggedReason, search)
    case EventItem(e) =>
      ContainsIgnoringCase(e.title, search) || ContainsIgnoringCase(e.description, search)
      || OptionalContains(e.flaggedReason, search)
  }

  function Matching(filterType: string, search: string): Item -> bool {
    item => MatchesType(item, filterType) && MatchesSearch(item, search)
  }

  function OfType(filterType: string): Item -> bool {
    item => MatchesType(item, filterType)
  }

  /** `filteredContent`. */
  function FilterContent(items: seq<Item>, filterType: string, search: string): seq<Item> {
    Filter(items, Matching(filterType, search))
  }

  /** An item is listed iff it is in the list, its kind is allowed and it
      matches the search on the fields of its kind; the list keeps the
      order, and the badge counts the items meeting both tests. */
  lemma FilterContentContract(items: seq<Item>, filterType: string, search: string, item: Item)
    ensures item in FilterContent(items, filterType, search) <==>
            item in items && MatchesType(item, filterType)
            && (match item
                case PublicationItem(p) =>
                  ContainsIgnoringCase(p.content, search)
                  || (p.flaggedReason.Some? && ContainsIgnoringCase(p.flaggedReason.value, search))
                case EventItem(e) =>
                  ContainsIgnoringCase(e.title, search) || ContainsIgnoringCase(e.description, search)
                  || (e.flaggedReason.Some? && ContainsIgnoringCase(e.flaggedReason.value, search)))
    ensures IsSubseq(FilterContent(items, filterType, search), items)
    ensures |FilterContent(items, filterType, search)| == CountIf(items, Matching(filterType, search))
  {
    FilterMembers(items, Matching(filterType, search), item);
    FilterIsSubseq(items, Matching(filterType, search));
    CountIfFilter(items, Matching(filterType, search));
  }

  /** 'publications' lists only publications and 'events' only events. */
  lemma TypeFilterKinds(items: seq<Item>, search: string)
    ensures forall x :: x in FilterContent(items, "publications", search) ==> x.PublicationItem?
    ensures forall x :: x in FilterContent(items, "events", search) ==> x.EventItem?
  {
    forall x | x in FilterContent(items, "publications", search) ensures x.PublicationItem? {
      FilterMembers(items, Matching("publications", search), x);
    }
    forall x | x in FilterContent(items, "events", search) ensures x.EventItem? {
      FilterMembers(items, Matching("events", search), x);
    }
  }

  lemma {:induction false} EmptySearchIsTypeFilter(items: seq<Item>, filterType: string)
    ensures FilterContent(items, filterType, "") == Filter(items, OfType(filterType))
  {
    if items != [] {
      EmptySearchIsTypeFilter(items[1..], filterType);
      match items[0]
      case PublicationItem(p) => {
        ContainsIgnoringCaseEmpty(p.content);
      }
      case EventItem(e) => {
        ContainsIgnoringCaseEmpty(e.title);
      }
    }
  }

  /** An empty search keeps every item the kind filter allows: all of the
      combined list under 'all', exactly the tagged publications under
      'publications' and exactly the tagged events under 'events'. */
  lemma EmptySearchKeepsKind(ps: seq<Publication>, es: seq<Event>)
    ensures FilterContent(AllFlagged(ps, es), "all", "") == AllFlagged(ps, es)
    ensures FilterContent(AllFlagged(ps, es), "publications", "") == TagPublications(ps)
    ensures FilterContent(AllFlagged(ps, es), "events", "") == TagEvents(es)
  {
    var tp, te := TagPublications(ps), TagEvents(es);
    EmptySearchIsTypeFilter(tp + te, "all");
    EmptySearchIsTypeFilter(tp + te, "publications");
    EmptySearchIsTypeFilter(tp + te, "events");
    FilterAll(tp + te, OfType("all"));
    FilterAppend(tp, te, OfType("publications"));
    FilterAll(tp, OfType("publications"));
    FilterNone(te, OfType("publications"));
    FilterAppend(tp, te, OfType("events"));
    FilterNone(tp, OfType("events"));
    FilterAll(te, OfType("events"));
  }

  // ---------------------------------------------------------------- the screen

  class FlaggedPage {
    const items: seq<Item>
    var searchTerm: string
    var filterType: string
    var selectedContent: Option<Item>
    var showDetailModal: bool

    predicate Valid()
      reads this
    {
      filterType in TypeFilters
    }

    /** The screen over the flagged publications and events. */
    constructor (ps: seq<Publication>, es: seq<Event>)
      ensures Valid() && items == AllFlagged(ps, es)
      ensures searchTerm == "" && filterType == "all" && selectedContent.None? && !showDetailModal
    {
      items := AllFlagged(ps, es);
      searchTerm := "";
      filterType := "all";
      selectedContent := None;
      showDetailModal := false;
    }

    /** The list on screen; its length is the badge's count. */
    function Listed(): seq<Item>
      reads this
    {
      FilterContent(items, filterType, searchTerm)
    }

    method SetSearch(search: string)
      modifies this
      ensures searchTerm == search && filterType == old(filterType)
      ensures selectedContent == old(selectedContent) && showDetailModal == old(showDetailModal)
    {
      searchTerm := search;
    }

    /** The three kind buttons. */
    method SetFilterType(filterType': string)
      requires filterType' in TypeFilters
      modifies this
      ensures Valid() && filterType == filterType' && searchTerm == old(searchTerm)
      ensures selectedContent == old(selectedContent) && showDetailModal == old(showDetailModal)
    {
      filterType := filterType';
    }

    /** `handleViewDetail(content)`. */
    method HandleViewDetail(item: Item)
      modifies this
      ensures selectedContent == Some(item) && showDetailModal
      ensures searchTerm == old(searchTerm) && filterType == old(filterType)
    {
      selectedContent := Some(item);
      showDetailModal := true;
    }

    /** The detail modal's close button and its approve and delete actions,
        which only log: the modal closes and the selection stays. */
    method CloseDetail()
      modifies this
      ensures !showDetailModal && selectedContent == old(selectedContent)
      ensures searchTerm == old(searchTerm) && filterType == old(filterType)
    {
      showDetailModal := false;
    }
  }
}
