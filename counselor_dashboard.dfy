/** The counselor dashboard backed by the server: the signed-in counselor's
    bookings, filtered by a status tab, summarised by two counters, with the
    actions offered for each booking and the status updates they request. The
    network calls are inputs: what a fetch returned, and whether an update
    succeeded. */
module CounselorDashboard {
  import opened Wrappers
  import opened Seqs

  /** The fields of a listed booking the dashboard reads. */
  datatype BookingItem = BookingItem(id: int, status: string, studentName: Option<string>, studentEmail: string)

  /** The buttons of a booking card. */
  datatype Action = StartSession | Reschedule | Contact | Cancel | ViewNotes | FollowUp | ViewDetails

  const DefaultName := "Faculty Member"

  /** The filter tabs, in display order; there is no tab for 'confirmed'. */
  const FilterTabs: seq<string> := ["all", "pending", "completed", "cancelled"]

  predicate IsEnumStatus(s: string) {
    s == "pending" || s == "confirmed" || s == "completed" || s == "cancelled"
  }

  /** The test `booking.status === status`. */
  function HasStatus(status: string): BookingItem -> bool {
    (b: BookingItem) => b.status == status
  }

  /** `filteredBookings`: everything under 'all', otherwise the bookings with exactly
      that status in their original order. */
  function FilteredBookings(bookings: seq<BookingItem>, filter: string): (r: seq<BookingItem>)
    ensures filter == "all" ==> r == bookings
    ensures filter != "all" ==> SubsequenceOf(r, bookings)
    ensures filter != "all" ==> forall b :: b in r <==> b in bookings && b.status == filter
    ensures filter != "all" ==> forall b :: multiset(r)[b] == if b.status == filter then multiset(bookings)[b] else 0
  {
    FilterMultiplicity(HasStatus(filter), bookings);
    if filter == "all" then bookings else Filter(HasStatus(filter), bookings)
  }

  /** A confirmed booking is listed only under the 'all' tab. */
  lemma ConfirmedOnlyUnderAll(bookings: seq<BookingItem>, tab: string, b: BookingItem)
    requires tab in FilterTabs && b.status == "confirmed"
    requires b in FilteredBookings(bookings, tab)
    ensures tab == "all"
  {
  }

  predicate IsUpcoming(b: BookingItem) {
    b.status == "pending" || b.status == "confirmed"
  }

  /** `upcomingCount`: pending and confirmed bookings. */
  function UpcomingCount(bookings: seq<BookingItem>): (n: nat)
    ensures n <= |bookings|
    ensures n == |FilteredBookings(bookings, "pending")| + |FilteredBookings(bookings, "confirmed")|
  {
    FilterSplit(HasStatus("pending"), HasStatus("confirmed"), IsUpcoming, bookings);
    |Filter(IsUpcoming, bookings)|
  }

  /** `completedThisWeek`: every completed booking, whatever its date. */
  function CompletedCount(bookings: seq<BookingItem>): (n: nat)
    ensures n <= |bookings|
    ensures n == |FilteredBookings(bookings, "completed")|
  {
    |Filter(HasStatus("completed"), bookings)|
  }

  /** When every status is one of the four, the upcoming and completed counters and
      the cancelled bookings account for every booking. */
  lemma CountsPartition(bookings: seq<BookingItem>)
    requires forall b :: b in bookings ==> IsEnumStatus(b.status)
    ensures UpcomingCount(bookings) + CompletedCount(bookings) + |FilteredBookings(bookings, "cancelled")| == |bookings|
  {
    FilterSplit(IsUpcoming, HasStatus("completed"), IsUpcomingOrCompleted, bookings);
    FilterSplit(IsUpcomingOrCompleted, HasStatus("cancelled"), IsKnown, bookings);
    FilterKeepsAll(IsKnown, bookings);
  }

  predicate IsUpcomingOrCompleted(b: BookingItem) {
    IsUpcoming(b) || b.status == "completed"
  }

  predicate IsKnown(b: BookingItem) {
    IsEnumStatus(b.status)
  }

  /** `getActionButtons`: the buttons offered for a booking status. */
  function ActionButtons(status: string): (r: seq<Action>)
    ensures status == "pending" || status == "confirmed" ==> r == [StartSession, Reschedule, Contact, Cancel]
    ensures status == "completed" ==> r == [ViewNotes, FollowUp]
    ensures status == "cancelled" ==> r == [Reschedule, ViewDetails]
    ensures r == [] <==> !IsEnumStatus(status)
    ensures StartSession in r <==> Cancel in r
    ensures StartSession in r <==> status == "pending" || status == "confirmed"
    ensures ViewNotes in r <==> status == "completed"
    ensures ViewDetails in r <==> status == "cancelled"
    ensures Reschedule in r <==> status != "completed" && IsEnumStatus(status)
  {
    if status == "pending" || status == "confirmed" then [StartSession, Reschedule, Contact, Cancel]
    else if status == "completed" then [ViewNotes, FollowUp]
    else if status == "cancelled" then [Reschedule, ViewDetails]
    else []
  }

  /** The status a button asks the server to set for its booking: 'confirmed' for
      Start Session, 'cancelled' for Cancel once the user confirms, none otherwise. */
  function RequestedStatus(action: Action, userConfirmed: bool): (r: Option<string>)
    ensures r.Some? ==> IsEnumStatus(r.value)
    ensures r == Some("confirmed") <==> action == StartSession
    ensures r == Some("cancelled") <==> action == Cancel && userConfirmed
  {
    match action
    case StartSession => Some("confirmed")
    case Cancel => if userConfirmed then Some("cancelled") else None
    case _ => None
  }

  /** Whether bookings are requested for a counselor name: not for an empty name nor
      for the placeholder shown before the signed-in user is read. */
  function ShouldFetch(counselorName: string): (r: bool)
    ensures r ==> counselorName != ""
    ensures r <==> counselorName != "" && counselorName != DefaultName
  {
    counselorName != "" && counselorName != DefaultName
  }

  /** What a listing request produced: a response (whose `bookings` may be absent), or an error. */
  datatype FetchResult = Fetched(bookings: Option<seq<BookingItem>>) | FetchFailed

  /** The user stored under `authUser`, when present and parseable. */
  datatype StoredUser = StoredUser(id: Option<int>, name: Option<string>)

  class Dashboard {
    var currentFilter: string
    var counselorName: string
    var counselorId: Option<int>
    var bookings: seq<BookingItem>
    var loading: bool

    constructor ()
      ensures currentFilter == "all" && counselorName == DefaultName && counselorId.None?
      ensures bookings == [] && loading
    {
      currentFilter, counselorName, counselorId, bookings, loading := "all", DefaultName, None, [], true;
    }

    /** The first effect: a stored user with a non-empty name becomes the counselor. */
    method LoadUser(stored: Option<StoredUser>)
      modifies this
      ensures stored.Some? && stored.value.name.Some? && stored.value.name.value != "" ==>
                counselorName == stored.value.name.value && counselorId == stored.value.id
      ensures !(stored.Some? && stored.value.name.Some? && stored.value.name.value != "") ==>
                counselorName == old(counselorName) && counselorId == old(counselorId)
      ensures bookings == old(bookings) && currentFilter == old(currentFilter) && loading == old(loading)
    {
      if stored.Some? && stored.value.name.Some? && stored.value.name.value != "" {
        counselorName := stored.value.name.value;
        counselorId := stored.value.id;
      }
    }

    /** The fetch effect: skipped for the placeholder name; otherwise a response with
        bookings replaces the list, one without leaves it, an error empties it, and
        loading ends. */
    method FetchBookings(result: FetchResult)
      modifies this
      ensures !ShouldFetch(old(counselorName)) ==> bookings == old(bookings) && loading == old(loading)
      ensures ShouldFetch(old(counselorName)) ==> !loading
      ensures ShouldFetch(old(counselorName)) && result.Fetched? && result.bookings.Some? ==>
                bookings == result.bookings.value
      ensures ShouldFetch(old(counselorName)) && result.Fetched? && result.bookings.None? ==>
                bookings == old(bookings)
      ensures ShouldFetch(old(counselorName)) && result.FetchFailed? ==> bookings == []
      ensures counselorName == old(counselorName) && counselorId == old(counselorId)
      ensures currentFilter == old(currentFilter)
    {
      if !ShouldFetch(counselorName) {
        return;
      }
      if result.FetchFailed? {
        bookings := [];
      } else if result.bookings.Some? {
        bookings := result.bookings.value;
      }
      loading := false;
    }

    /** The refresh button: the same guard and request as the fetch effect, but an
        error keeps the current list instead of emptying it. */
    method Refresh(result: FetchResult)
      modifies this
      ensures !ShouldFetch(old(counselorName)) ==> bookings == old(bookings) && loading == old(loading)
      ensures ShouldFetch(old(counselorName)) ==> !loading
      ensures ShouldFetch(old(counselorName)) && result.Fetched? && result.bookings.Some? ==>
                bookings == result.bookings.value
      ensures !(result.Fetched? && result.bookings.Some?) ==> bookings == old(bookings)
      ensures counselorName == old(counselorName) && counselorId == old(counselorId)
      ensures currentFilter == old(currentFilter)
    {
      if !ShouldFetch(counselorName) {
        return;
      }
      loading := true;
      if result.Fetched? && result.bookings.Some? {
        bookings := result.bookings.value;
      }
      loading := false;
    }

    /** A tab click. */
    method SetFilter(filter: string)
      modifies this
      ensures currentFilter == filter
      ensures bookings == old(bookings) && counselorName == old(counselorName) && loading == old(loading)
      ensures counselorId == old(counselorId)
    {
      currentFilter := filter;
    }

    /** `startSession` and `cancelSession` after their requests: once the status update
        succeeded, a refreshed list with bookings replaces the list; a failed update
        or refresh leaves it as it was. */
    method AfterStatusUpdate(updateSucceeded: bool, refresh: FetchResult)
      modifies this
      ensures updateSucceeded && refresh.Fetched? && refresh.bookings.Some? ==> bookings == refresh.bookings.value
      ensures !(updateSucceeded && refresh.Fetched? && refresh.bookings.Some?) ==> bookings == old(bookings)
      ensures currentFilter == old(currentFilter) && counselorName == old(counselorName) && loading == old(loading)
      ensures counselorId == old(counselorId)
    {
      if updateSucceeded && refresh.Fetched? && refresh.bookings.Some? {
        bookings := refresh.bookings.value;
      }
    }
  }
}
