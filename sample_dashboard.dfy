/** The earlier counselor dashboard, driven by six fixed sample bookings whose
    statuses are 'upcoming', 'completed' and 'cancelled'. The list has no setter:
    the filter, the counters and the buttons read it, and the session actions
    only show notices. */
module SampleDashboard {
  import opened Wrappers
  import opened Seqs
  import CounselorDashboard

  datatype SampleBooking = SampleBooking(
    id: string,
    studentName: string,
    studentEmail: string,
    date: string,
    time: string,
    duration: string,
    sessionType: string,
    status: string,
    notes: string)

  /** The sample bookings, in display order. */
  const Bookings: seq<SampleBooking> := [
    SampleBooking("BK001", "Emma Johnson", "emma.j@email.com", "2025-09-25", "10:00 AM", "60 minutes",
                  "Academic Guidance", "upcoming", "First-time student, academic planning"),
    SampleBooking("BK002", "Michael Chen", "m.chen@email.com", "2025-09-25", "2:00 PM", "45 minutes",
                  "Course Selection", "upcoming", "Help with semester course planning"),
    SampleBooking("BK003", "Sofia Rodriguez", "sofia.r@email.com", "2025-09-24", "11:30 AM", "60 minutes",
                  "Academic Support", "completed", "Study strategies and time management"),
    SampleBooking("BK004", "David Thompson", "d.thompson@email.com", "2025-09-25", "4:30 PM", "60 minutes",
                  "Career Guidance", "upcoming", "Discussion about career paths and internships"),
    SampleBooking("BK005", "Lisa Park", "lisa.park@email.com", "2025-09-23", "1:00 PM", "45 minutes",
                  "Academic Planning", "cancelled", "Student cancelled due to schedule conflict"),
    SampleBooking("BK006", "James Wilson", "j.wilson@email.com", "2025-09-22", "3:00 PM", "60 minutes",
                  "Academic Assessment", "completed", "Initial academic needs assessment completed")
  ]

  /** The filter tabs, in display order. */
  const FilterTabs: seq<string> := ["all", "upcoming", "completed", "cancelled"]

  function HasStatus(status: string): SampleBooking -> bool {
    (b: SampleBooking) => b.status == status
  }

  /** `filteredBookings`: all six under 'all', otherwise those with exactly that
      status, in their original order. */
  function FilteredBookings(filter: string): (r: seq<SampleBooking>)
    ensures filter == "all" ==> r == Bookings
    ensures filter != "all" ==> SubsequenceOf(r, Bookings)
    ensures filter != "all" ==> forall b :: b in r <==> b in Bookings && b.status == filter
  {
    if filter == "all" then Bookings else Filter(HasStatus(filter), Bookings)
  }

  /** `upcomingCount`. */
  function UpcomingCount(): (n: nat)
    ensures n == |FilteredBookings("upcoming")| && n <= |Bookings|
  {
    assert "upcoming" != "all";
    |Filter(HasStatus("upcoming"), Bookings)|
  }

  /** `completedThisWeek`. */
  function CompletedCount(): (n: nat)
    ensures n == |FilteredBookings("completed")| && n <= |Bookings|
  {
    assert "completed" != "all";
    |Filter(HasStatus("completed"), Bookings)|
  }

  /** The sample data shows three upcoming sessions and two completed ones. */
  lemma SampleCounts()
    ensures UpcomingCount() == 3 && CompletedCount() == 2
    ensures |FilteredBookings("cancelled")| == 1
  {
    var b := Bookings;
    assert b[1..][1..][1..][1..][1..][1..] == [];
    assert Filter(HasStatus("upcoming"), b[5..]) == [];
    assert Filter(HasStatus("completed"), b[5..]) == [b[5]];
    assert Filter(HasStatus("cancelled"), b[5..]) == [];
    assert b[1..][1..] == b[2..] && b[2..][1..] == b[3..] && b[3..][1..] == b[4..]
        && b[4..][1..] == b[5..];
  }

  /** Every sample booking is listed under exactly one tab besides 'all'. */
  lemma OneTabEach(b: SampleBooking, t: string, u: string)
    requires b in Bookings
    requires t in FilterTabs && t != "all" && b in FilteredBookings(t)
    requires u in FilterTabs && u != "all" && b in FilteredBookings(u)
    ensures t == u
  {
  }

  lemma EveryBookingHasATab(b: SampleBooking)
    requires b in Bookings
    ensures exists t :: t in FilterTabs && t != "all" && b in FilteredBookings(t)
  {
    assert b.status in FilterTabs && b.status != "all";
    assert b in FilteredBookings(b.status);
  }

  /** `getActionButtons`: four buttons for an upcoming session, two for a completed
      or cancelled one, none otherwise. */
  function ActionButtons(status: string): (r: seq<CounselorDashboard.Action>)
    ensures status == "upcoming" ==> |r| == 4
    ensures status == "completed" || status == "cancelled" ==> |r| == 2
    ensures r == [] <==> status != "upcoming" && status != "completed" && status != "cancelled"
    ensures CounselorDashboard.StartSession in r <==> status == "upcoming"
    ensures status == "upcoming" ==> r == [CounselorDashboard.StartSession, CounselorDashboard.Reschedule,
                                           CounselorDashboard.Contact, CounselorDashboard.Cancel]
    ensures status == "completed" ==> r == [CounselorDashboard.ViewNotes, CounselorDashboard.FollowUp]
    ensures status == "cancelled" ==> r == [CounselorDashboard.Reschedule, CounselorDashboard.ViewDetails]
  {
    if status == "upcoming" then
      [CounselorDashboard.StartSession, CounselorDashboard.Reschedule, CounselorDashboard.Contact, CounselorDashboard.Cancel]
    else if status == "completed" then [CounselorDashboard.ViewNotes, CounselorDashboard.FollowUp]
    else if status == "cancelled" then [CounselorDashboard.Reschedule, CounselorDashboard.ViewDetails]
    else []
  }

  /** The server-backed dashboard offers an upcoming booking's buttons for pending
      and confirmed bookings, and the same buttons for completed and cancelled ones. */
  lemma ButtonsAgreeWithServerDashboard(status: string)
    requires status == "upcoming" || status == "completed" || status == "cancelled"
    ensures ActionButtons(status)
         == CounselorDashboard.ActionButtons(if status == "upcoming" then "pending" else status)
    ensures status == "upcoming" ==> ActionButtons(status) == CounselorDashboard.ActionButtons("confirmed")
  {
  }

  /** The notice a button shows for the booking it belongs to (the ids are distinct,
      so `bookings.find` by id returns that booking). The session actions of this
      version only notify: Start Session always, Cancel only once the user
      confirms; no button changes a booking. */
  function ActionNotice(action: CounselorDashboard.Action, booking: SampleBooking, userConfirmed: bool): (r: Option<string>)
    ensures r.None? <==> action == CounselorDashboard.Cancel && !userConfirmed
    ensures action == CounselorDashboard.StartSession ==> r == Some("Starting session for booking " + booking.id)
    ensures action == CounselorDashboard.Cancel && userConfirmed ==> r == Some("Session " + booking.id + " cancelled")
  {
    match action
    case StartSession => Some("Starting session for booking " + booking.id)
    case Cancel => if userConfirmed then Some("Session " + booking.id + " cancelled") else None
    case Reschedule => Some("Opening reschedule dialog for booking " + booking.id)
    case Contact => Some("Contacting " + booking.studentName + " at " + booking.studentEmail)
    case ViewNotes => Some("Opening session notes for booking " + booking.id)
    case FollowUp => Some("Adding follow-up for booking " + booking.id)
    case ViewDetails => Some("Viewing details for booking " + booking.id)
  }

  /** The sample ids are distinct. */
  lemma DistinctIds()
    ensures forall i, j :: 0 <= i < j < |Bookings| ==> Bookings[i].id != Bookings[j].id
  {
  }
}
