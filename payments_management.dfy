/** The payments screen (components/PaymentsManagement.tsx): the search and
    status filter over the payments, the three summary figures, and the
    colour, label and icon of a status. */
module PaymentsManagement {
  import opened Wrappers
  import opened Text
  import opened Seqs

  /** `Payment['status']` (lib/types/superadmin.ts). */
  datatype PaymentStatus = Pending | Completed | Failed | Refunded

  /** The status as the record spells it. */
  function StatusText(s: PaymentStatus): string {
    match s
    case Pending => "PENDING"
    case Completed => "COMPLETED"
    case Failed => "FAILED"
    case Refunded => "REFUNDED"
  }

  /** A payment with the syndicat name the screen joins to it; amounts are
      whole numbers here. */
  datatype Payment = Payment(id: string, syndicatId: string, syndicatName: string, amount: int,
                             currency: string, status: PaymentStatus, paymentDate: string,
                             paymentMethod: string, description: string)

  /** The values of the status buttons and of the period select. */
  const StatusFilters: set<string> := {"all", "completed", "pending", "failed", "refunded"}
  const Periods: set<string> := {"all", "today", "week", "month", "year"}

  /** The status button that selects `s`. */
  function StatusFilterOf(s: PaymentStatus): string {
    match s
    case Pending => "pending"
    case Completed => "completed"
    case Failed => "failed"
    case Refunded => "refunded"
  }

  // ---------------------------------------------------------------- the list

  predicate MatchesSearch(p: Payment, search: string) {
    ContainsIgnoringCase(p.syndicatName, search) || ContainsIgnoringCase(p.description, search)
    || ContainsIgnoringCase(p.id, search)
  }

  /** `filterStatus === 'all' || payment.status === filterStatus.toUpperCase()`. */
  predicate MatchesStatus(p: Payment, filter: string) {
    filter == "all" || StatusText(p.status) == Upper(filter)
  }

  /** `filteredPayments`; the period is not an argument, as it is not read. */
  function FilterPayments(payments: seq<Payment>, search: string, filter: string): seq<Payment> {
    Filter(payments, Matching(search, filter))
  }

  function Matching(search: string, filter: string): Payment -> bool {
    p => MatchesSearch(p, search) && MatchesStatus(p, filter)
  }

  function HasStatus(s: PaymentStatus): Payment -> bool {
    (p: Payment) => p.status == s
  }

  function Amount(p: Payment): int {
    p.amount
  }

  /** A payment is listed iff it is one of the payments, matches the search,
      and the filter is 'all' or its status; the list keeps the payments'
      order. */
  lemma FilterPaymentsContract(payments: seq<Payment>, search: string, filter: string, p: Payment)
    ensures p in FilterPayments(payments, search, filter) <==>
            p in payments && MatchesSearch(p, search) && (filter == "all" || StatusText(p.status) == Upper(filter))
    ensures IsSubseq(FilterPayments(payments, search, filter), payments)
  {
    FilterMembers(payments, Matching(search, filter), p);
    FilterIsSubseq(payments, Matching(search, filter));
  }

  /** Each status button selects exactly the payments of its own status. */
  lemma StatusButtonSelects(p: Payment, s: PaymentStatus)
    ensures StatusFilterOf(s) in StatusFilters
    ensures MatchesStatus(p, StatusFilterOf(s)) <==> p.status == s
  {
    UpperStatusFilter(s);
    UpperStatusFilter(p.status);
    if StatusText(p.status) == StatusText(s) {
      StatusTextInjective(p.status, s);
    }
  }

  lemma UpperStatusFilter(s: PaymentStatus)
    ensures Upper(StatusFilterOf(s)) == StatusText(s)
  {
    var f := StatusFilterOf(s);
    assert |Upper(f)| == |StatusText(s)|;
    forall i | 0 <= i < |f| ensures Upper(f)[i] == StatusText(s)[i] {
      assert Upper(f)[i] == UpperChar(f[i]);
    }
  }

  lemma StatusTextInjective(s: PaymentStatus, t: PaymentStatus)
    requires StatusText(s) == StatusText(t)
    ensures s == t
  {
  }

  /** The number of `xs` with status `s`. */
  function CountStatus(xs: seq<Payment>, s: PaymentStatus): nat {
    CountIf(xs, HasStatus(s))
  }

  lemma {:induction false} StatusCountsCover(xs: seq<Payment>)
    ensures CountStatus(xs, Completed) + CountStatus(xs, Pending) + CountStatus(xs, Failed)
            + CountStatus(xs, Refunded) == |xs|
  {
    if xs != [] {
      StatusCountsCover(xs[1..]);
    }
  }

  lemma {:induction false} FilterByStatus(payments: seq<Payment>, search: string, s: PaymentStatus)
    ensures FilterPayments(payments, search, StatusFilterOf(s))
            == Filter(FilterPayments(payments, search, "all"), HasStatus(s))
  {
    if payments != [] {
      var x, rest := payments[0], payments[1..];
      FilterByStatus(rest, search, s);
      StatusButtonSelects(x, s);
      var head := if Matching(search, "all")(x) then [x] else [];
      assert FilterPayments(payments, search, "all") == head + FilterPayments(rest, search, "all");
      FilterAppend(head, FilterPayments(rest, search, "all"), HasStatus(s));
      assert Filter(head, HasStatus(s)) == if Matching(search, StatusFilterOf(s))(x) then [x] else [] by {
        if head != [] {
          assert head[1..] == [];
        }
      }
    }
  }

  /** The four status buttons split the search matches: each match appears
      under exactly one of them, and their lists' lengths add up to the
      length of the 'all' list. */
  lemma StatusFiltersPartition(payments: seq<Payment>, search: string)
    ensures |FilterPayments(payments, search, "completed")| + |FilterPayments(payments, search, "pending")|
            + |FilterPayments(payments, search, "failed")| + |FilterPayments(payments, search, "refunded")|
            == |FilterPayments(payments, search, "all")|
  {
    var all := FilterPayments(payments, search, "all");
    FilterByStatus(payments, search, Completed);
    FilterByStatus(payments, search, Pending);
    FilterByStatus(payments, search, Failed);
    FilterByStatus(payments, search, Refunded);
    CountIfFilter(all, HasStatus(Completed));
    CountIfFilter(all, HasStatus(Pending));
    CountIfFilter(all, HasStatus(Failed));
    CountIfFilter(all, HasStatus(Refunded));
    StatusCountsCover(all);
  }

  /** 'all' with an empty search lists every payment. */
  lemma EmptySearchKeepsAll(payments: seq<Payment>)
    ensures FilterPayments(payments, "", "all") == payments
  {
    forall i | 0 <= i < |payments| ensures MatchesSearch(payments[i], "") {
      ContainsIgnoringCaseEmpty(payments[i].syndicatName);
    }
    FilterAll(payments, Matching("", "all"));
  }

  // ---------------------------------------------------------------- summary figures

  /** `totalRevenue`: the amounts of the completed payments. */
  function TotalRevenue(payments: seq<Payment>): int {
    SumOf(Filter(payments, HasStatus(Completed)), Amount)
  }

  /** `pendingAmount`: the amounts of the pending payments. */
  function PendingAmount(payments: seq<Payment>): int {
    SumOf(Filter(payments, HasStatus(Pending)), Amount)
  }

  /** `failedCount`. */
  function FailedCount(payments: seq<Payment>): nat {
    |Filter(payments, HasStatus(Failed))|
  }

  /** The amounts of the payments of `xs` with status `s`. */
  function StatusSum(xs: seq<Payment>, s: PaymentStatus): int {
    if xs == [] then 0 else (if xs[0].status == s then xs[0].amount else 0) + StatusSum(xs[1..], s)
  }

  lemma {:induction false} SumOfStatus(xs: seq<Payment>, s: PaymentStatus)
    ensures SumOf(Filter(xs, HasStatus(s)), Amount) == StatusSum(xs, s)
  {
    if xs != [] {
      SumOfStatus(xs[1..], s);
      var r := Filter(xs, HasStatus(s));
      if xs[0].status == s {
        assert r[0] == xs[0] && r[1..] == Filter(xs[1..], HasStatus(s));
      } else {
        assert r == Filter(xs[1..], HasStatus(s));
      }
    }
  }

  lemma {:induction false} StatusSumNonNegative(xs: seq<Payment>, s: PaymentStatus)
    requires forall i :: 0 <= i < |xs| ==> xs[i].amount >= 0
    ensures StatusSum(xs, s) >= 0
  {
    if xs != [] {
      StatusSumNonNegative(xs[1..], s);
    }
  }

  /** Each figure adds up or counts only the payments of its own status;
      with no negative amount the two sums are not negative. */
  lemma SummaryContract(payments: seq<Payment>)
    ensures TotalRevenue(payments) == StatusSum(payments, Completed)
    ensures PendingAmount(payments) == StatusSum(payments, Pending)
    ensures FailedCount(payments) == CountStatus(payments, Failed)
    ensures (forall i :: 0 <= i < |payments| ==> payments[i].amount >= 0) ==>
              TotalRevenue(payments) >= 0 && PendingAmount(payments) >= 0
  {
    SumOfStatus(payments, Completed);
    SumOfStatus(payments, Pending);
    CountIfFilter(payments, HasStatus(Failed));
    if forall i :: 0 <= i < |payments| ==> payments[i].amount >= 0 {
      StatusSumNonNegative(payments, Completed);
      StatusSumNonNegative(payments, Pending);
    }
  }

  /** The four per-status sums share out every payment's amount. */
  lemma {:induction false} StatusSumsCover(xs: seq<Payment>)
    ensures StatusSum(xs, Completed) + StatusSum(xs, Pending) + StatusSum(xs, Failed) + StatusSum(xs, Refunded)
            == SumOf(xs, Amount)
  {
    if xs != [] {
      StatusSumsCover(xs[1..]);
    }
  }

  // ---------------------------------------------------------------- status maps

  datatype StatusIcon = CheckCircle | Clock | XCircle | RefreshCw | DollarSign

  /** The four spellings the maps know. */
  predicate KnownStatus(status: string) {
    status == "COMPLETED" || status == "PENDING" || status == "FAILED" || status == "REFUNDED"
  }

  /** `getStatusColor(status)`. */
  function GetStatusColor(status: string): string {
    if status == "COMPLETED" then "success"
    else if status == "PENDING" then "warning"
    else if status == "FAILED" then "error"
    else if status == "REFUNDED" then "info"
    else "default"
  }

  /** `getStatusLabel(status)`. */
  function GetStatusLabel(status: string): string {
    if status == "COMPLETED" then "Complété"
    else if status == "PENDING" then "En attente"
    else if status == "FAILED" then "Échoué"
    else if status == "REFUNDED" then "Remboursé"
    else status
  }

  /** `getStatusIcon(status)`. */
  function GetStatusIcon(status: string): StatusIcon {
    if status == "COMPLETED" then CheckCircle
    else if status == "PENDING" then Clock
    else if status == "FAILED" then XCircle
    else if status == "REFUNDED" then RefreshCw
    else DollarSign
  }

  /** The fallbacks are taken exactly for a spelling outside the four: the
      colour 'default', the spelling itself as label, the dollar icon. */
  lemma StatusMapsDefaults(status: string)
    ensures GetStatusColor(status) == "default" <==> !KnownStatus(status)
    ensures GetStatusLabel(status) == status <==> !KnownStatus(status)
    ensures GetStatusIcon(status) == DollarSign <==> !KnownStatus(status)
  {
  }

  /** Every status of a payment is known, and the three maps tell the four
      statuses apart. */
  lemma StatusMapsDistinguish(s: PaymentStatus, t: PaymentStatus)
    ensures KnownStatus(StatusText(s))
    ensures GetStatusIcon(StatusText(s)) == GetStatusIcon(StatusText(t)) <==> s == t
    ensures GetStatusColor(StatusText(s)) == GetStatusColor(StatusText(t)) <==> s == t
    ensures GetStatusLabel(StatusText(s)) == GetStatusLabel(StatusText(t)) <==> s == t
  {
  }

  // ---------------------------------------------------------------- the screen

  class PaymentsPage {
    const payments: seq<Payment>
    var searchTerm: string
    var filterStatus: string
    var filterPeriod: string
    var selectedPayment: Option<Payment>
    var showDetailModal: bool

    predicate Valid()
      reads this
    {
      filterStatus in StatusFilters && filterPeriod in Periods
    }

    constructor (ps: seq<Payment>)
      ensures Valid() && payments == ps
      ensures searchTerm == "" && filterStatus == "all" && filterPeriod == "all"
      ensures selectedPayment.None? && !showDetailModal
    {
      payments := ps;
      searchTerm := "";
      filterStatus := "all";
      filterPeriod := "all";
      selectedPayment := None;
      showDetailModal := false;
    }

    /** The list on screen. */
    function Listed(): seq<Payment>
      reads this
    {
      FilterPayments(payments, searchTerm, filterStatus)
    }

    method SetSearch(search: string)
      modifies this
      ensures searchTerm == search && Listed() == FilterPayments(payments, search, filterStatus)
      ensures filterStatus == old(filterStatus) && filterPeriod == old(filterPeriod)
      ensures selectedPayment == old(selectedPayment) && showDetailModal == old(showDetailModal)
    {
      searchTerm := search;
    }

    /** The five status buttons. */
    method SetFilterStatus(filter: string)
      requires Valid() && filter in StatusFilters
      modifies this
      ensures Valid() && filterStatus == filter && Listed() == FilterPayments(payments, searchTerm, filter)
      ensures searchTerm == old(searchTerm) && filterPeriod == old(filterPeriod)
      ensures selectedPayment == old(selectedPayment) && showDetailModal == old(showDetailModal)
    {
      filterStatus := filter;
    }

    /** The period select: the list on screen does not change. */
    method SetFilterPeriod(period: string)
      requires Valid() && period in Periods
      modifies this
      ensures Valid() && filterPeriod == period && Listed() == old(Listed())
      ensures searchTerm == old(searchTerm) && filterStatus == old(filterStatus)
      ensures selectedPayment == old(selectedPayment) && showDetailModal == old(showDetailModal)
    {
      filterPeriod := period;
    }

    /** `handleViewDetail(payment)`. */
    method HandleViewDetail(payment: Payment)
      modifies this
      ensures selectedPayment == Some(payment) && showDetailModal
      ensures searchTerm == old(searchTerm) && filterStatus == old(filterStatus) && filterPeriod == old(filterPeriod)
    {
      selectedPayment := Some(payment);
      showDetailModal := true;
    }

    /** The detail modal's close button; the selection stays. */
    method CloseDetail()
      modifies this
      ensures !showDetailModal && selectedPayment == old(selectedPayment)
      ensures searchTerm == old(searchTerm) && filterStatus == old(filterStatus) && filterPeriod == old(filterPeriod)
    {
      showDetailModal := false;
    }
  }
}
