/**
 * The Residents page, src/components/pages/Residents.jsx: the search and
 * payment-status filter over the residents `useResidents` loads, the
 * counts on the status buttons, and the payment modal that "Pay fees"
 * opens.
 */
module ResidentsPage {
  import opened Outcomes
  import opened Domain
  import opened PageFilters
  import Seqs
  import Text
  import Payments
  import Residents

  /**
   * The search test: name, e-mail or room contain the term ignoring case,
   * or the phone contains the term exactly as typed.
   */
  function MatchesSearch(term: string): Resident -> bool
  {
    (r: Resident) =>
      Text.ContainsIgnoringCase(r.name, term) || Text.ContainsIgnoringCase(r.email, term) ||
      Text.Contains(r.phone, term) || Text.ContainsIgnoringCase(r.roomId, term)
  }

  /** Search and status filter together. */
  function Shown(term: string, status: StatusFilter<PaymentStatus>): Resident -> bool
  {
    (r: Resident) => MatchesSearch(term)(r) && Admits(status, r.paymentStatus)
  }

  /** Every resident matches the empty search term. */
  lemma EmptySearchMatches(r: Resident)
    ensures MatchesSearch("")(r)
  {
    Text.ContainsEmpty(Text.Lower(r.name));
  }

  /** Searching for a resident's own name finds that resident. */
  lemma FoundByName(r: Resident)
    ensures MatchesSearch(r.name)(r)
  {
    Text.ContainsSelf(Text.Lower(r.name));
  }

  /**
   * `filteredResidents`: in their loaded order, the residents that match
   * the search and whose payment status the filter admits.
   */
  function FilteredResidents(residents: seq<Resident>, term: string, status: StatusFilter<PaymentStatus>)
    : (r: seq<Resident>)
    ensures Seqs.IsSubsequence(r, residents)
    ensures forall x {:trigger multiset(r)[x]} :: multiset(r)[x] == if MatchesSearch(term)(x) && Admits(status, x.paymentStatus) then multiset(residents)[x] else 0
    ensures forall x :: x in r <==> x in residents && MatchesSearch(term)(x) && Admits(status, x.paymentStatus)
  {
    Seqs.Filter(residents, Shown(term, status))
  }

  /** With an empty search and "all", every resident is listed, in order. */
  lemma EmptySearchListsAll(residents: seq<Resident>)
    ensures FilteredResidents(residents, "", All) == residents
  {
    forall x | x in residents
      ensures Shown("", All)(x)
    {
      EmptySearchMatches(x);
    }
    Seqs.FilterKeepsAll(residents, Shown("", All));
  }

  /**
   * A status button narrows what "all" shows for the same search: its list
   * is the "all" list with the other statuses taken out.
   */
  lemma StatusNarrowsAll(residents: seq<Resident>, term: string, s: PaymentStatus)
    ensures FilteredResidents(residents, term, Only(s)) ==
            Seqs.Filter(FilteredResidents(residents, term, All), Shown(term, Only(s)))
    ensures Seqs.IsSubsequence(FilteredResidents(residents, term, Only(s)), FilteredResidents(residents, term, All))
  {
    Seqs.FilterNarrower(residents, Shown(term, Only(s)), Shown(term, All));
  }

  datatype StatusCounts = StatusCounts(all: nat, paid: nat, pending: nat, overdue: nat)

  function PaymentStatusOf(r: Resident): PaymentStatus { r.paymentStatus }

  /** Every resident's status is one of the three the buttons count. */
  lemma EveryStatusListed(residents: seq<Resident>)
    ensures forall x :: x in residents ==>
      PaymentStatusOf(x) in [PaymentStatus.Paid, PaymentStatus.Pending, PaymentStatus.Overdue]
  {
    forall x | x in residents
      ensures PaymentStatusOf(x) in [PaymentStatus.Paid, PaymentStatus.Pending, PaymentStatus.Overdue]
    {
      match x.paymentStatus
      case Paid =>
      case Pending =>
      case Overdue =>
    }
  }

  /**
   * `statusCounts`: "all" is the number of residents, and since every
   * resident has exactly one of the three statuses, the three per-status
   * counts add up to it; each count is the length of the list its
   * button shows.
   */
  function CountStatuses(residents: seq<Resident>): (c: StatusCounts)
    ensures c.all == |residents|
    ensures c.paid + c.pending + c.overdue == c.all
    ensures c.paid == |FilteredResidents(residents, "", Only(PaymentStatus.Paid))|
    ensures c.pending == |FilteredResidents(residents, "", Only(PaymentStatus.Pending))|
    ensures c.overdue == |FilteredResidents(residents, "", Only(PaymentStatus.Overdue))|
  {
    ButtonCounts(residents);
    StatusesCoverAll(residents);
    StatusCounts(|residents|,
                 Seqs.CountOf(residents, PaymentStatusOf, PaymentStatus.Paid),
                 Seqs.CountOf(residents, PaymentStatusOf, PaymentStatus.Pending),
                 Seqs.CountOf(residents, PaymentStatusOf, PaymentStatus.Overdue))
  }

  /** Every resident has exactly one of the listed statuses, so the per-status counts add up to all of them. */
  lemma StatusesCoverAll(residents: seq<Resident>)
    ensures Seqs.CountOf(residents, PaymentStatusOf, PaymentStatus.Paid) +
            Seqs.CountOf(residents, PaymentStatusOf, PaymentStatus.Pending) +
            Seqs.CountOf(residents, PaymentStatusOf, PaymentStatus.Overdue) == |residents|
  {
    var vs := [PaymentStatus.Paid, PaymentStatus.Pending, PaymentStatus.Overdue];
    EveryStatusListed(residents);
    Seqs.CountsCoverAll(residents, PaymentStatusOf, vs);
    var ws := vs[1..];
    assert ws == [PaymentStatus.Pending, PaymentStatus.Overdue] && ws[1..] == [PaymentStatus.Overdue];
    assert ws[1..][1..] == [];
    assert Seqs.SumCounts(residents, PaymentStatusOf, ws[1..]) ==
           Seqs.CountOf(residents, PaymentStatusOf, PaymentStatus.Overdue);
    assert Seqs.SumCounts(residents, PaymentStatusOf, ws) ==
           Seqs.CountOf(residents, PaymentStatusOf, PaymentStatus.Pending) + Seqs.SumCounts(residents, PaymentStatusOf, ws[1..]);
  }

  /** Each status button's count is the length of the list it shows. */
  lemma ButtonCounts(residents: seq<Resident>)
    ensures Seqs.CountOf(residents, PaymentStatusOf, PaymentStatus.Paid) == |FilteredResidents(residents, "", Only(PaymentStatus.Paid))|
    ensures Seqs.CountOf(residents, PaymentStatusOf, PaymentStatus.Pending) == |FilteredResidents(residents, "", Only(PaymentStatus.Pending))|
    ensures Seqs.CountOf(residents, PaymentStatusOf, PaymentStatus.Overdue) == |FilteredResidents(residents, "", Only(PaymentStatus.Overdue))|
  {
    CountIsListLength(residents, PaymentStatus.Paid);
    CountIsListLength(residents, PaymentStatus.Pending);
    CountIsListLength(residents, PaymentStatus.Overdue);
  }

  /** The count on a status button is the length of the list that button shows with an empty search. */
  lemma CountIsListLength(residents: seq<Resident>, s: PaymentStatus)
    ensures Seqs.CountOf(residents, PaymentStatusOf, s) == |FilteredResidents(residents, "", Only(s))|
  {
    forall x | x in residents
      ensures Seqs.KeyIs(PaymentStatusOf, s)(x) == Shown("", Only(s))(x)
    {
      EmptySearchMatches(x);
      assert Seqs.KeyIs(PaymentStatusOf, s)(x) == (PaymentStatusOf(x) == s);
      assert PaymentStatusOf(x) == x.paymentStatus;
      assert Shown("", Only(s))(x) == (MatchesSearch("")(x) && Admits(Only(s), x.paymentStatus));
    }
    Seqs.FilterSame(residents, Seqs.KeyIs(PaymentStatusOf, s), Shown("", Only(s)));
  }

  /** The message of the `TypeError` a call of an undefined function raises. */
  const NotAFunction: string := "processPayment is not a function"

  /** What `useResidents` hands the page: the residents and `refetch`, but no `processPayment`. */
  datatype ResidentsHook = ResidentsHook(residents: seq<Resident>, providesProcessPayment: bool)

  /** `useResidents` as it is written: the returned object has no `processPayment` entry. */
  function UseResidents(store: Residents.ResidentService, now: int): (h: ResidentsHook)
    reads store
    ensures !h.providesProcessPayment
    ensures h.residents == store.GetCurrentResidents(now)
  {
    ResidentsHook(store.GetCurrentResidents(now), false)
  }

  /** The page's modal state and the residents it lists. */
  class ResidentsPage {
    var residents: seq<Resident>
    var showPaymentForm: bool
    var selectedResident: Option<Resident>

    /** The payment modal is rendered when it is shown and a resident is selected. */
    predicate ModalOpen()
      reads this
    {
      showPaymentForm && selectedResident.Some?
    }

    constructor (loaded: seq<Resident>)
      ensures residents == loaded && !showPaymentForm && selectedResident == None
      ensures !ModalOpen()
    {
      residents := loaded;
      showPaymentForm := false;
      selectedResident := None;
    }

    /** `handlePayFees`: select the resident and show the modal. */
    method HandlePayFees(r: Resident)
      modifies this
      ensures selectedResident == Some(r) && showPaymentForm
      ensures ModalOpen()
      ensures residents == old(residents)
    {
      selectedResident := Some(r);
      showPaymentForm := true;
    }

    /** `handlePaymentCancel`: hide the modal and clear the selection. */
    method HandlePaymentCancel()
      modifies this
      ensures !showPaymentForm && selectedResident == None
      ensures !ModalOpen()
      ensures residents == old(residents)
    {
      showPaymentForm := false;
      selectedResident := None;
    }

    /**
     * `handlePaymentSuccess` as written: `processPayment` comes from a hook
     * that does not provide it, so the call raises a `TypeError`, the catch
     * reports its message, and the modal stays as it was. No payment is
     * recorded.
     */
    method HandlePaymentSuccessAsWritten(hook: ResidentsHook, paymentData: PaymentRequest) returns (error: Option<string>)
      requires !hook.providesProcessPayment
      modifies this
      ensures error == Some(NotAFunction)
      ensures residents == old(residents) && showPaymentForm == old(showPaymentForm)
      ensures selectedResident == old(selectedResident)
    {
      error := Some(NotAFunction);
    }

    /**
     * `handlePaymentSuccess` with `processPayment` wired to the payment
     * service: a recorded payment closes the modal, clears the selection
     * and reloads the current residents; a failed one reports the service's
     * message and leaves the modal open.
     */
    method HandlePaymentSuccess(payments: Payments.PaymentService, store: Residents.ResidentService,
                                paymentData: PaymentRequest, randomFails: bool, txn: string, now: int)
      returns (error: Option<string>)
      modifies this, payments
      ensures randomFails ==>
        error == Some(Payments.ProcessingFailed) && payments.history == old(payments.history) &&
        residents == old(residents) && showPaymentForm == old(showPaymentForm) &&
        selectedResident == old(selectedResident)
      ensures !randomFails ==>
        error.None? && !showPaymentForm && selectedResident == None && !ModalOpen() &&
        residents == store.GetCurrentResidents(now) &&
        |payments.history| == |old(payments.history)| + 1 &&
        payments.history[..|old(payments.history)|] == old(payments.history) &&
        payments.history[|old(payments.history)|].residentId == paymentData.residentId &&
        payments.history[|old(payments.history)|].amount == paymentData.amount
    {
      var r := payments.ProcessPayment(paymentData, randomFails, txn, now);
      if r.Err? {
        return Some(r.message);
      }
      showPaymentForm := false;
      selectedResident := None;
      residents := store.GetCurrentResidents(now);
      error := None;
    }
  }

  /**
   * Paying fees as the page is written never closes the modal: open it for
   * any resident, submit any payment, and it is still open.
   */
  method PayFeesAsWritten(store: Residents.ResidentService, r: Resident, paymentData: PaymentRequest, now: int)
    returns (stillOpen: bool, error: Option<string>)
    ensures stillOpen && error == Some(NotAFunction)
  {
    var page := new ResidentsPage(store.GetCurrentResidents(now));
    page.HandlePayFees(r);
    error := page.HandlePaymentSuccessAsWritten(UseResidents(store, now), paymentData);
    stillOpen := page.ModalOpen();
  }
}
