/** The admin booking list (src/Components/AdminDashboard.jsx): the fetch
    that drops past bookings, the search-driven ordering, the live updates
    pushed by the server, approval with an amount, rejection, and the rules
    that decide which buttons and chips a booking card shows. */
module AdminDashboard {

  import opened Wrappers
  import opened Calendar
  import opened JsText
  import opened Lists
  import opened Feedback

  /** The largest amount the payment gateway accepts, in rupees. */
  const MaxAmount := 1000000

  /** The page size requested from the server. */
  const PageLimit := 6

  /** A booking as /admin/bookings returns it, reduced to the fields the
      dashboard's logic reads: its `_id` and `id` (either may be missing),
      the customer name, the day of `new Date(b.date)` (None when the date
      does not parse), its status and whether it is paid. */
  datatype BookingRecord = BookingRecord(
    mongoId: Option<string>, altId: Option<string>, name: string,
    date: Option<Date>, status: Option<string>, isPaid: bool)

  /** The response body: a bare array, or a page object whose `bookings`
      or `totalPages` may be missing. */
  datatype BookingsBody =
    | ListBody(items: seq<BookingRecord>)
    | PageBody(bookings: Option<seq<BookingRecord>>, totalPages: Option<int>)

  /** The query parameters of GET /admin/bookings. */
  datatype FetchParams = FetchParams(page: int, limit: int, search: string)

  /** The fetched list: the array itself, or the page's `bookings || []`. */
  function FetchedList(body: BookingsBody): (r: seq<BookingRecord>)
    ensures body.ListBody? ==> r == body.items
    ensures body.PageBody? && body.bookings.Some? ==> r == body.bookings.value
    ensures body.PageBody? && body.bookings.None? ==> r == []
  {
    match body
    case ListBody(items) => items
    case PageBody(bookings, _) => bookings.GetOr([])
  }

  /** The page count: 1 for a bare array, else `totalPages || 1`. */
  function PageCount(body: BookingsBody): (r: int)
    ensures body.ListBody? ==> r == 1
    ensures body.PageBody? && (body.totalPages.None? || body.totalPages == Some(0)) ==> r == 1
    ensures body.PageBody? && body.totalPages.Some? && body.totalPages.value != 0 ==> r == body.totalPages.value
  {
    match body
    case ListBody(_) => 1
    case PageBody(_, tp) => if tp.None? || tp.value == 0 then 1 else tp.value
  }

  /** A booking is kept when its day is today or later; one whose date does
      not parse compares false and is dropped. */
  predicate IsUpcoming(today: Date, b: BookingRecord) {
    b.date.Some? && DayLeq(today, b.date.value)
  }

  function UpcomingTest(today: Date): BookingRecord -> bool {
    b => IsUpcoming(today, b)
  }

  function Upcoming(list: seq<BookingRecord>, today: Date): (r: seq<BookingRecord>)
    ensures forall i :: 0 <= i < |r| ==> r[i].date.Some? && DayLeq(today, r[i].date.value)
    ensures forall b :: b in r <==> b in list && IsUpcoming(today, b)
  {
    FilterMembers(list, UpcomingTest(today));
    Filter(list, UpcomingTest(today))
  }

  /** Bookings whose day has come are dropped and the rest keep their order:
      the list kept from one fetch, followed by the list kept from the next,
      is the list kept from both. */
  lemma UpcomingAppend(s: seq<BookingRecord>, t: seq<BookingRecord>, today: Date)
    ensures Upcoming(s + t, today) == Upcoming(s, today) + Upcoming(t, today)
  {
    FilterAppend(s, t, UpcomingTest(today));
  }

  /** A list with nothing in the past comes back whole. */
  lemma UpcomingKeepsFuture(s: seq<BookingRecord>, today: Date)
    requires forall i :: 0 <= i < |s| ==> IsUpcoming(today, s[i])
    ensures Upcoming(s, today) == s
  {
    FilterAll(s, UpcomingTest(today));
  }

  // ---------------------------------------------------------------------
  // Search ordering

  /** `a.name.toLowerCase().startsWith(searchTerm.toLowerCase())`. */
  predicate Matches(term: string, b: BookingRecord) {
    StartsWith(Lower(b.name), Lower(term))
  }

  function MatchTest(term: string): BookingRecord -> bool {
    b => Matches(term, b)
  }

  /** sortedBookings: `[...bookings].sort(compare)` with the comparator
      `bMatch - aMatch`, so the bookings whose name starts with the term
      come first, each group in its original order. */
  function SortedBookings(term: string, bookings: seq<BookingRecord>): (r: seq<BookingRecord>)
    ensures r == Filter(bookings, MatchTest(term)) + Filter(bookings, Not(MatchTest(term)))
  {
    StableSortIsPartition(MatchTest(term), bookings);
    StableSort(MatchTest(term), bookings)
  }

  /** The ordering is a permutation of the list. */
  lemma SortedIsPermutation(term: string, bookings: seq<BookingRecord>)
    ensures multiset(SortedBookings(term, bookings)) == multiset(bookings)
  {
    FilterSplit(bookings, MatchTest(term));
  }

  /** Every booking whose name starts with the term comes before every one
      whose name does not. */
  lemma SortedMatchesFirst(term: string, bookings: seq<BookingRecord>, i: int, j: int)
    requires var r := SortedBookings(term, bookings);
             0 <= i < |r| && 0 <= j < |r| && Matches(term, r[j]) && !Matches(term, r[i])
    ensures j < i
  {
  }

  /** With an empty search term every name matches and the order is kept. */
  lemma SortedEmptyTerm(bookings: seq<BookingRecord>)
    ensures SortedBookings("", bookings) == bookings
  {
    assert forall i :: 0 <= i < |bookings| ==> Matches("", bookings[i]);
    FilterAll(bookings, MatchTest(""));
    FilterNone(bookings, Not(MatchTest("")));
  }

  // ---------------------------------------------------------------------
  // Live updates and removals

  /** The `paymentUpdate` event: the records with that `_id` take the new
      paid flag; everything else is untouched. */
  function ApplyPayment(list: seq<BookingRecord>, bookingId: Option<string>, isPaid: bool): (r: seq<BookingRecord>)
    ensures |r| == |list|
    ensures forall i :: 0 <= i < |r| ==> r[i].(isPaid := list[i].isPaid) == list[i]
    ensures forall i :: 0 <= i < |r| ==> r[i].isPaid == if list[i].mongoId == bookingId then isPaid else list[i].isPaid
  {
    seq(|list|, i requires 0 <= i < |list| =>
      if list[i].mongoId == bookingId then list[i].(isPaid := isPaid) else list[i])
  }

  /** The `bookingDeleted` event: the records with that `_id` go. */
  function KeepTest(bookingId: Option<string>): BookingRecord -> bool {
    (b: BookingRecord) => b.mongoId != bookingId
  }

  function RemoveDeleted(list: seq<BookingRecord>, bookingId: Option<string>): (r: seq<BookingRecord>)
    ensures forall b :: b in r <==> b in list && b.mongoId != bookingId
  {
    FilterMembers(list, KeepTest(bookingId));
    Filter(list, KeepTest(bookingId))
  }

  /** After a rejection: the records whose `_id` or `id` is the rejected id go. */
  function SurviveTest(id: Option<string>): BookingRecord -> bool {
    (b: BookingRecord) => b.mongoId != id && b.altId != id
  }

  function RemoveRejected(list: seq<BookingRecord>, id: Option<string>): (r: seq<BookingRecord>)
    ensures forall b :: b in r <==> b in list && b.mongoId != id && b.altId != id
  {
    FilterMembers(list, SurviveTest(id));
    Filter(list, SurviveTest(id))
  }

  /** The removals keep the survivors' order: removing from a concatenation
      is removing from each part. */
  lemma RemovalsKeepOrder(s: seq<BookingRecord>, t: seq<BookingRecord>, id: Option<string>)
    ensures RemoveDeleted(s + t, id) == RemoveDeleted(s, id) + RemoveDeleted(t, id)
    ensures RemoveRejected(s + t, id) == RemoveRejected(s, id) + RemoveRejected(t, id)
  {
    FilterAppend(s, t, KeepTest(id));
    FilterAppend(s, t, SurviveTest(id));
  }

  /** The live updates and rejections never bring back a booking from the
      past: what was upcoming after the last fetch stays upcoming. */
  lemma UpdatesKeepUpcoming(list: seq<BookingRecord>, today: Date, id: Option<string>, isPaid: bool)
    requires forall b :: b in list ==> IsUpcoming(today, b)
    ensures forall b :: b in ApplyPayment(list, id, isPaid) ==> IsUpcoming(today, b)
    ensures forall b :: b in RemoveDeleted(list, id) ==> IsUpcoming(today, b)
    ensures forall b :: b in RemoveRejected(list, id) ==> IsUpcoming(today, b)
  {
    var r := ApplyPayment(list, id, isPaid);
    forall b | b in r
      ensures IsUpcoming(today, b)
    {
      var i :| 0 <= i < |r| && r[i] == b;
      assert list[i] in list;
    }
  }

  /** The id a card's buttons pass: `b._id || b.id`. */
  function CardId(b: BookingRecord): (r: Option<string>)
    ensures r == b.mongoId || r == b.altId
    ensures b.mongoId.Some? && b.mongoId.value != "" ==> r == b.mongoId
    ensures r != b.mongoId ==> r == b.altId
  {
    if b.mongoId.Some? && b.mongoId.value != "" then b.mongoId else b.altId
  }

  /** Rejecting through a card removes that card's booking. */
  lemma RejectRemovesCard(list: seq<BookingRecord>, b: BookingRecord)
    ensures b !in RemoveRejected(list, CardId(b))
  {
  }

  // ---------------------------------------------------------------------
  // Approval

  datatype AmountCheck = AmountOk(amount: int) | AmountInvalid | AmountTooLarge

  /** handleConfirmApprove's checks on the typed amount `text`, where
      `parsed` is `Number(text)` (None for NaN). */
  function CheckAmount(text: string, parsed: Option<int>): (r: AmountCheck)
    ensures r.AmountOk? <==> text != "" && parsed.Some? && 0 < parsed.value <= MaxAmount
    ensures r.AmountOk? ==> r.amount == parsed.value
    ensures r.AmountTooLarge? <==> text != "" && parsed.Some? && parsed.value > MaxAmount
  {
    if text == "" || parsed.None? || parsed.value <= 0 then AmountInvalid
    else if parsed.value > MaxAmount then AmountTooLarge
    else AmountOk(parsed.value)
  }

  // ---------------------------------------------------------------------
  // Card rules

  /** The Approve button: `!b.status || b.status !== "approved"`. */
  function ShowApprove(b: BookingRecord): (r: bool)
    ensures r <==> b.status != Some("approved")
  {
    b.status.None? || b.status.value == "" || b.status.value != "approved"
  }

  /** The Reject button shows until the booking is paid. */
  function ShowReject(b: BookingRecord): (r: bool)
    ensures r <==> PaidColor(b) == Error
  {
    !b.isPaid
  }

  /** The status chip's text: the status, or "pending". */
  function StatusLabel(b: BookingRecord): (r: string)
    ensures r != ""
    ensures b.status.Some? && b.status.value != "" ==> r == b.status.value
    ensures b.status.None? || b.status.value == "" ==> r == "pending"
  {
    OrElse(b.status, "pending")
  }

  /** The status chip's colour. */
  function StatusColor(b: BookingRecord): (r: Severity)
    ensures r == Success <==> b.status == Some("approved")
    ensures r == Error <==> b.status == Some("rejected")
    ensures r == Warning <==> b.status != Some("approved") && b.status != Some("rejected")
  {
    if b.status == Some("approved") then Success
    else if b.status == Some("rejected") then Error
    else Warning
  }

  /** The paid chip's colour. */
  function PaidColor(b: BookingRecord): (r: Severity)
    ensures r == Success || r == Error
    ensures r == Success <==> b.isPaid
  {
    if b.isPaid then Success else Error
  }

  /** A payment update for a card's booking decides its Reject button: it
      disappears once paid and returns if the payment is withdrawn. */
  lemma PaymentDecidesReject(list: seq<BookingRecord>, i: int, isPaid: bool)
    requires 0 <= i < |list|
    ensures ShowReject(ApplyPayment(list, list[i].mongoId, isPaid)[i]) == !isPaid
  {
  }

  // ---------------------------------------------------------------------
  // The dashboard

  /** The texts of the dashboard's notifications. */
  datatype Message =
    | Note(text: string)
    | PaymentReceived(name: string)
    | AmountCapExceeded(max: int)
    | ApprovedWithAmount(amount: int)

  const InvalidAmountText := "Please enter a valid amount."
  const ProcessingText := "Processing approval, please wait..."
  const GatewayLimitText := "\U{26A0}\U{FE0F} Amount exceeds Razorpay limit. Please enter a smaller amount."
  const ApproveFailedText := "Error approving booking"
  const RejectedText := "Booking rejected and deleted \U{2705}"
  const RejectFailedText := "Error rejecting booking"

  /** The message shown when approval fails: the gateway-limit text when the
      error description mentions the maximum amount, else the server's
      message, else a generic text. */
  function ApproveErrorMessage(body: ErrorBody): (r: string)
    ensures r != ""
    ensures body.description.Some? && Includes(body.description.value, "maximum amount") ==> r == GatewayLimitText
    ensures !(body.description.Some? && Includes(body.description.value, "maximum amount")) ==>
              r == (if body.message.Some? && body.message.value != "" then body.message.value else ApproveFailedText)
  {
    if body.description.Some? && Includes(body.description.value, "maximum amount") then GatewayLimitText
    else OrElse(body.message, ApproveFailedText)
  }

  /** The approval request: the booking id in the path and the amount in the body. */
  datatype ApproveRequest = ApproveRequest(bookingId: Option<string>, amount: int)

  class Dashboard {
    var bookings: seq<BookingRecord>
    var searchTerm: string
    var page: int
    var totalPages: int
    var loading: bool
    var toast: Toast<Message>
    var amountDialogOpen: bool
    var selectedBookingId: Option<string>
    var amount: string

    constructor ()
      ensures bookings == [] && searchTerm == "" && page == 1 && totalPages == 1 && !loading
      ensures toast == Toast(false, Note(""), Info)
      ensures !amountDialogOpen && selectedBookingId == None && amount == ""
    {
      bookings := [];
      searchTerm := "";
      page := 1;
      totalPages := 1;
      loading := false;
      toast := Toast(false, Note(""), Info);
      amountDialogOpen := false;
      selectedBookingId := None;
      amount := "";
    }

    /** The list shown, in the order shown. */
    function Shown(): (r: seq<BookingRecord>)
      reads this
      ensures multiset(r) == multiset(bookings)
      ensures forall i, j :: 0 <= i < |r| && 0 <= j < |r| && Matches(searchTerm, r[j]) && !Matches(searchTerm, r[i]) ==> j < i
      ensures searchTerm == "" ==> r == bookings
    {
      SortedIsPermutation(searchTerm, bookings);
      SortedEmptyTerm(bookings);
      forall i, j | 0 <= i < |SortedBookings(searchTerm, bookings)| && 0 <= j < |SortedBookings(searchTerm, bookings)|
                    && Matches(searchTerm, SortedBookings(searchTerm, bookings)[j])
                    && !Matches(searchTerm, SortedBookings(searchTerm, bookings)[i])
        ensures j < i
      {
        SortedMatchesFirst(searchTerm, bookings, i, j);
      }
      SortedBookings(searchTerm, bookings)
    }

    /** fetchBookings: request the current page; on success keep today's
        and later bookings in the order received and take the page count;
        on failure keep the old list. `today` stands for `new Date()` at
        midnight. */
    method FetchBookings(reply: Reply<BookingsBody>, today: Date) returns (params: FetchParams)
      modifies this`bookings, this`totalPages, this`loading
      ensures params == FetchParams(page, PageLimit, searchTerm)
      ensures !loading
      ensures reply.Ok? ==> bookings == Upcoming(FetchedList(reply.data), today)
                            && totalPages == PageCount(reply.data)
      ensures reply.Failed? ==> bookings == old(bookings) && totalPages == old(totalPages)
    {
      loading := true;
      params := FetchParams(page, PageLimit, searchTerm);
      if reply.Ok? {
        var all := FetchedList(reply.data);
        totalPages := PageCount(reply.data);
        bookings := Upcoming(all, today);
      }
      loading := false;
    }

    /** The search box: a new term starts again from page 1. */
    method SetSearchTerm(term: string)
      modifies this`searchTerm, this`page
      ensures searchTerm == term && page == 1
    {
      searchTerm := term;
      page := 1;
    }

    /** The pagination control. */
    method SetPage(p: int)
      modifies this`page
      ensures page == p
    {
      page := p;
    }

    /** The `paymentUpdate` push event. */
    method OnPaymentUpdate(bookingId: Option<string>, isPaid: bool, name: Option<string>)
      modifies this`bookings, this`toast
      ensures bookings == ApplyPayment(old(bookings), bookingId, isPaid)
      ensures toast == if isPaid then Toast(true, PaymentReceived(OrElse(name, "a booking")), Success) else old(toast)
    {
      bookings := ApplyPayment(bookings, bookingId, isPaid);
      if isPaid {
        toast := Toast(true, PaymentReceived(OrElse(name, "a booking")), Success);
      }
    }

    /** The `bookingDeleted` push event. */
    method OnBookingDeleted(bookingId: Option<string>)
      modifies this`bookings
      ensures bookings == RemoveDeleted(old(bookings), bookingId)
    {
      bookings := RemoveDeleted(bookings, bookingId);
    }

    /** handleOpenAmountDialog. */
    method OpenAmountDialog(id: Option<string>)
      modifies this`selectedBookingId, this`amount, this`amountDialogOpen
      ensures selectedBookingId == id && amount == "" && amountDialogOpen
    {
      selectedBookingId := id;
      amount := "";
      amountDialogOpen := true;
    }

    /** handleConfirmApprove: an amount that is empty, not a number, not
        positive or above the cap is refused without a request; otherwise
        the approval is POSTed, and on success the dialog closes and the
        list is fetched again. `parsed` is `Number(amount)`. */
    method ConfirmApprove(parsed: Option<int>, post: Reply<()>, refetch: Reply<BookingsBody>, today: Date)
      returns (sent: Option<ApproveRequest>)
      modifies this`toast, this`amountDialogOpen, this`bookings, this`totalPages, this`loading
      ensures var check := CheckAmount(amount, parsed);
              && (check.AmountInvalid? ==> sent == None && toast == Toast(true, Note(InvalidAmountText), Error))
              && (check.AmountTooLarge? ==> sent == None && toast == Toast(true, AmountCapExceeded(MaxAmount), Error))
              && (!check.AmountOk? ==> amountDialogOpen == old(amountDialogOpen))
              && (!(check.AmountOk? && post.Ok?) ==>
                    bookings == old(bookings) && totalPages == old(totalPages) && loading == old(loading))
              && (check.AmountOk? ==> sent == Some(ApproveRequest(selectedBookingId, check.amount)))
              && (check.AmountOk? && post.Ok? ==>
                    && !amountDialogOpen && !loading
                    && toast == Toast(true, ApprovedWithAmount(check.amount), Success)
                    && (refetch.Ok? ==> bookings == Upcoming(FetchedList(refetch.data), today)
                                        && totalPages == PageCount(refetch.data))
                    && (refetch.Failed? ==> bookings == old(bookings) && totalPages == old(totalPages)))
              && (check.AmountOk? && post.Failed? ==>
                    && amountDialogOpen == old(amountDialogOpen)
                    && toast == Toast(true, Note(ApproveErrorMessage(post.body)), Error))
      ensures sent.Some? ==> 0 < sent.value.amount <= MaxAmount
    {
      var check := CheckAmount(amount, parsed);
      if check.AmountInvalid? {
        toast := Toast(true, Note(InvalidAmountText), Error);
        return None;
      }
      if check.AmountTooLarge? {
        toast := Toast(true, AmountCapExceeded(MaxAmount), Error);
        return None;
      }
      toast := Toast(true, Note(ProcessingText), Info);
      sent := Some(ApproveRequest(selectedBookingId, check.amount));
      if post.Ok? {
        amountDialogOpen := false;
        var _ := FetchBookings(refetch, today);
        toast := Toast(true, ApprovedWithAmount(check.amount), Success);
      } else {
        toast := Toast(true, Note(ApproveErrorMessage(post.body)), Error);
      }
    }

    /** handleReject: POST the rejection; on success drop the booking from
        the list, else report the server's message. */
    method Reject(id: Option<string>, post: Reply<()>)
      modifies this`bookings, this`toast
      ensures post.Ok? ==> bookings == RemoveRejected(old(bookings), id)
                           && toast == Toast(true, Note(RejectedText), Success)
      ensures post.Failed? ==> bookings == old(bookings)
                               && toast == Toast(true, Note(OrElse(post.body.message, RejectFailedText)), Error)
    {
      if post.Ok? {
        bookings := RemoveRejected(bookings, id);
        toast := Toast(true, Note(RejectedText), Success);
      } else {
        toast := Toast(true, Note(OrElse(post.body.message, RejectFailedText)), Error);
      }
    }
  }
}
