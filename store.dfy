/** The SQLite store behind the server: the `users` and `bookings` tables, their
    constraints (UNIQUE email, the role and status CHECKs, NOT NULL columns,
    AUTOINCREMENT ids), the data-access functions and the boot-time migration
    and administrator seed. */
module Store {
  import opened Wrappers
  import opened Text
  import opened Seqs

  // ----- enumerated columns -------------------------------------------------

  /** `users.user_type`, restricted by CHECK to three values. */
  datatype Role = Student | Counselor | Admin {
    function Name(): string {
      match this
      case Student => "student"
      case Counselor => "counselor"
      case Admin => "admin"
    }
  }

  /** The CHECK on `users.user_type`: which strings are accepted, and as which role. */
  function ParseRole(s: string): (r: Option<Role>)
    ensures r.Some? <==> s == "student" || s == "counselor" || s == "admin"
    ensures r.Some? ==> r.value.Name() == s
  {
    if s == "student" then Some(Student)
    else if s == "counselor" then Some(Counselor)
    else if s == "admin" then Some(Admin)
    else None
  }

  /** `bookings.status`, restricted by CHECK to four values. */
  datatype Status = Pending | Confirmed | Completed | Cancelled {
    function Name(): string {
      match this
      case Pending => "pending"
      case Confirmed => "confirmed"
      case Completed => "completed"
      case Cancelled => "cancelled"
    }
  }

  /** The CHECK on `bookings.status`. */
  function ParseStatus(s: string): (r: Option<Status>)
    ensures r.Some? <==> s == "pending" || s == "confirmed" || s == "completed" || s == "cancelled"
    ensures r.Some? ==> r.value.Name() == s
  {
    if s == "pending" then Some(Pending)
    else if s == "confirmed" then Some(Confirmed)
    else if s == "completed" then Some(Completed)
    else if s == "cancelled" then Some(Cancelled)
    else None
  }

  // ----- rows -----------------------------------------------------------------

  /** A row of `users` (`created_at` is left out). NULL columns are `None`. */
  datatype User = User(
    id: nat,
    email: string,
    passwordHash: string,
    name: Option<string>,
    role: Role,
    emergencyContact: Option<string>,
    institution: Option<string>)

  /** The argument object of `createUser`; absent properties are `None`. */
  datatype NewUser = NewUser(
    email: string,
    passwordHash: string,
    name: Option<string>,
    userType: Option<string>,
    emergencyContact: Option<string>,
    institution: Option<string>)

  /** The optional self-reported indicators of a booking. */
  datatype Survey = Survey(
    urgencyLevel: Option<string>,
    anxietyLevel: Option<string>,
    depressionLevel: Option<string>,
    academicStress: Option<string>,
    burnoutLevel: Option<string>,
    sleepQuality: Option<string>,
    socialIsolation: Option<string>,
    additionalConcerns: Option<string>)

  /** A row of `bookings` (`created_at` is left out). The status column has no
      NOT NULL, and the CHECK lets NULL through, so it may be `None`. */
  datatype Booking = Booking(
    id: nat,
    studentId: int,
    counselorId: int,
    preferredDate: string,
    preferredTime: string,
    sessionType: string,
    reason: string,
    survey: Survey,
    status: Option<Status>)

  /** The `bookingData` object given to `createBooking`; absent properties are `None`. */
  datatype NewBooking = NewBooking(
    studentId: Option<int>,
    counselorId: Option<int>,
    preferredDate: Option<string>,
    preferredTime: Option<string>,
    sessionType: Option<string>,
    reason: Option<string>,
    survey: Survey,
    status: Option<string>)

  /** The SQLite constraint an INSERT or UPDATE violated; the statement then throws. */
  datatype DbError = NotNull(column: string) | CheckFailed(column: string) | UniqueFailed(column: string)

  /** A row of the `getCounselorsByInstitution` result: `SELECT id, name, email`. */
  datatype CounselorSummary = CounselorSummary(id: nat, name: Option<string>, email: string)

  /** A row of the counselor listings: `b.*` joined with the student's name and
      email and the counselor's name. */
  datatype BookingView = BookingView(
    booking: Booking,
    studentName: Option<string>,
    studentEmail: string,
    counselorName: Option<string>)

  // ----- table invariants -----------------------------------------------------

  /** AUTOINCREMENT ids: positive, increasing in insertion order, below the next id;
      and the UNIQUE constraint on email. */
  ghost predicate UsersValid(users: seq<User>, nextId: nat) {
    && 1 <= nextId
    && (forall i :: 0 <= i < |users| ==> 1 <= users[i].id < nextId)
    && (forall i, j :: 0 <= i < j < |users| ==> users[i].id < users[j].id)
    && (forall i, j :: 0 <= i < j < |users| ==> users[i].email != users[j].email)
  }

  ghost predicate BookingsValid(bookings: seq<Booking>, nextId: nat) {
    && 1 <= nextId
    && (forall i :: 0 <= i < |bookings| ==> 1 <= bookings[i].id < nextId)
    && (forall i, j :: 0 <= i < j < |bookings| ==> bookings[i].id < bookings[j].id)
  }

  // ----- lookups ---------------------------------------------------------------

  /** `getUserByEmail`: `SELECT * FROM users WHERE email = ?`, absent when no row matches. */
  function GetUserByEmail(users: seq<User>, email: string): (r: Option<User>)
    ensures r.Some? ==> r.value in users && r.value.email == email
    ensures r.None? <==> forall u :: u in users ==> u.email != email
  {
    if users == [] then None
    else if users[0].email == email then Some(users[0])
    else GetUserByEmail(users[1..], email)
  }

  /** `getUserById`: `SELECT * FROM users WHERE id = ?`. */
  function GetUserById(users: seq<User>, id: int): (r: Option<User>)
    ensures r.Some? ==> r.value in users && r.value.id == id
    ensures r.None? <==> forall u :: u in users ==> u.id != id
  {
    if users == [] then None
    else if users[0].id == id then Some(users[0])
    else GetUserById(users[1..], id)
  }

  /** Appending a row under the next id and a fresh email keeps the table valid. */
  lemma AppendUserValid(users: seq<User>, nextId: nat, row: User)
    requires UsersValid(users, nextId)
    requires row.id == nextId && GetUserByEmail(users, row.email).None?
    ensures UsersValid(users + [row], nextId + 1)
  {
    forall i | 0 <= i < |users| ensures users[i].email != row.email {
      assert users[i] in users;
    }
  }

  /** A user appended under an email nobody has is what the email lookup finds next. */
  lemma {:induction false} LookupAfterAppend(users: seq<User>, u: User)
    requires GetUserByEmail(users, u.email).None?
    ensures GetUserByEmail(users + [u], u.email) == Some(u)
    ensures forall e :: e != u.email ==> GetUserByEmail(users + [u], e) == GetUserByEmail(users, e)
  {
    if users != [] {
      assert (users + [u])[1..] == users[1..] + [u];
      LookupAfterAppend(users[1..], u);
    } else {
      assert (users + [u])[1..] == [];
    }
  }

  /** Appending a user whose id is new does not change what an existing id finds. */
  lemma {:induction false} IdLookupAfterAppend(users: seq<User>, u: User, id: int)
    requires id != u.id
    ensures GetUserById(users + [u], id) == GetUserById(users, id)
  {
    if users != [] {
      assert (users + [u])[1..] == users[1..] + [u];
      IdLookupAfterAppend(users[1..], u, id);
    } else {
      assert (users + [u])[1..] == [];
    }
  }

  /** The WHERE clause of `getCounselorsByInstitution`. */
  function IsCounselorAt(institution: string): User -> bool {
    (u: User) => u.role == Counselor && u.institution == Some(institution)
  }

  /** The selected columns `id, name, email`. */
  function Summary(u: User): CounselorSummary {
    CounselorSummary(u.id, u.name, u.email)
  }

  /** `getCounselorsByInstitution`: the id, name and email of every user whose role
      is counselor and whose institution equals the argument (a NULL institution
      never equals), in table order. */
  function GetCounselorsByInstitution(users: seq<User>, institution: string): (r: seq<CounselorSummary>)
    ensures |r| <= |users|
    ensures |r| == |Filter(IsCounselorAt(institution), users)|
    ensures forall i :: 0 <= i < |r| ==> r[i] == Summary(Filter(IsCounselorAt(institution), users)[i])
    ensures forall c :: c in r <==>
      exists u :: u in users && u.role == Counselor && u.institution == Some(institution)
                  && c == CounselorSummary(u.id, u.name, u.email)
  {
    if users == [] then []
    else
      var u := users[0];
      var rest := GetCounselorsByInstitution(users[1..], institution);
      assert forall v :: v in users <==> v == u || v in users[1..];
      if u.role == Counselor && u.institution == Some(institution)
      then [Summary(u)] + rest
      else rest
  }

  // ----- createUser --------------------------------------------------------------

  /** The role `createUser` writes: `userType || 'student'`. */
  function RequestedRole(userType: Option<string>): string {
    OrDefault(userType, "student")
  }

  /** Why the INSERT of `createUser` throws, if it does: first the user_type CHECK,
      then the UNIQUE email index (the order SQLite checks constraints in). */
  function CreateUserError(users: seq<User>, req: NewUser): (r: Option<DbError>)
    ensures r.None? <==> ParseRole(RequestedRole(req.userType)).Some? && GetUserByEmail(users, req.email).None?
    ensures ParseRole(RequestedRole(req.userType)).None? ==> r == Some(CheckFailed("user_type"))
    ensures ParseRole(RequestedRole(req.userType)).Some? && GetUserByEmail(users, req.email).Some?
            ==> r == Some(UniqueFailed("email"))
  {
    if ParseRole(RequestedRole(req.userType)).None? then Some(CheckFailed("user_type"))
    else if GetUserByEmail(users, req.email).Some? then Some(UniqueFailed("email"))
    else None
  }

  /** The row `createUser` inserts: role defaults to student, falsy optional text becomes NULL. */
  function UserRow(id: nat, req: NewUser): (u: User)
    requires ParseRole(RequestedRole(req.userType)).Some?
    ensures u.id == id && u.email == req.email && u.passwordHash == req.passwordHash
    ensures !Truthy(req.userType) ==> u.role == Student
    ensures Truthy(req.userType) ==> u.role.Name() == req.userType.value
    ensures u.name.Some? <==> Truthy(req.name)
    ensures u.emergencyContact.Some? <==> Truthy(req.emergencyContact)
    ensures u.institution.Some? <==> Truthy(req.institution)
    ensures u.name == OrNull(req.name) && u.emergencyContact == OrNull(req.emergencyContact)
    ensures u.institution == OrNull(req.institution)
  {
    User(id, req.email, req.passwordHash, OrNull(req.name), ParseRole(RequestedRole(req.userType)).value,
         OrNull(req.emergencyContact), OrNull(req.institution))
  }

  // ----- createBooking ----------------------------------------------------------

  /** `bookingData.status || 'pending'`. */
  function RequestedStatus(status: Option<string>): string {
    OrDefault(status, "pending")
  }

  /** Why the INSERT of `createBooking` throws, if it does: a NOT NULL column left
      absent (in column order), else the status CHECK. */
  function CreateBookingError(req: NewBooking): (r: Option<DbError>)
    ensures r.None? <==>
      && req.studentId.Some? && req.counselorId.Some?
      && req.preferredDate.Some? && req.preferredTime.Some?
      && req.sessionType.Some? && req.reason.Some?
      && ParseStatus(RequestedStatus(req.status)).Some?
    ensures r.Some? && r.value.CheckFailed? ==> r.value.column == "status"
  {
    if req.studentId.None? then Some(NotNull("student_id"))
    else if req.counselorId.None? then Some(NotNull("counselor_id"))
    else if req.preferredDate.None? then Some(NotNull("preferred_date"))
    else if req.preferredTime.None? then Some(NotNull("preferred_time"))
    else if req.sessionType.None? then Some(NotNull("session_type"))
    else if req.reason.None? then Some(NotNull("reason"))
    else if ParseStatus(RequestedStatus(req.status)).None? then Some(CheckFailed("status"))
    else None
  }

  /** The survey columns as stored: each falsy answer becomes NULL, a truthy one is kept. */
  function SurveyRow(s: Survey): (r: Survey)
    ensures r.urgencyLevel == OrNull(s.urgencyLevel) && r.anxietyLevel == OrNull(s.anxietyLevel)
    ensures r.depressionLevel == OrNull(s.depressionLevel) && r.academicStress == OrNull(s.academicStress)
    ensures r.burnoutLevel == OrNull(s.burnoutLevel) && r.sleepQuality == OrNull(s.sleepQuality)
    ensures r.socialIsolation == OrNull(s.socialIsolation) && r.additionalConcerns == OrNull(s.additionalConcerns)
  {
    Survey(OrNull(s.urgencyLevel), OrNull(s.anxietyLevel), OrNull(s.depressionLevel), OrNull(s.academicStress),
           OrNull(s.burnoutLevel), OrNull(s.sleepQuality), OrNull(s.socialIsolation), OrNull(s.additionalConcerns))
  }

  /** The row `createBooking` inserts: the supplied status or 'pending', falsy survey answers as NULL. */
  function BookingRow(id: nat, req: NewBooking): (b: Booking)
    requires CreateBookingError(req).None?
    ensures b.id == id && b.studentId == req.studentId.value && b.counselorId == req.counselorId.value
    ensures !Truthy(req.status) ==> b.status == Some(Pending)
    ensures Truthy(req.status) ==> b.status.Some? && b.status.value.Name() == req.status.value
    ensures b.survey.urgencyLevel.Some? <==> Truthy(req.survey.urgencyLevel)
    ensures b.survey.additionalConcerns.Some? <==> Truthy(req.survey.additionalConcerns)
    ensures b.preferredDate == req.preferredDate.value && b.preferredTime == req.preferredTime.value
    ensures b.sessionType == req.sessionType.value && b.reason == req.reason.value
    ensures b.survey == SurveyRow(req.survey)
  {
    Booking(id, req.studentId.value, req.counselorId.value, req.preferredDate.value, req.preferredTime.value,
            req.sessionType.value, req.reason.value, SurveyRow(req.survey),
            Some(ParseStatus(RequestedStatus(req.status)).value))
  }

  // ----- updateBookingStatus -------------------------------------------------------

  /** The table after `UPDATE bookings SET status = ? WHERE id = ?`; `None` is NULL. */
  function SetStatus(bookings: seq<Booking>, id: int, s: Option<Status>): (r: seq<Booking>)
    ensures |r| == |bookings|
    ensures forall k :: 0 <= k < |r| ==>
      if bookings[k].id == id then r[k] == bookings[k].(status := s) else r[k] == bookings[k]
  {
    seq(|bookings|, k requires 0 <= k < |bookings| =>
      if bookings[k].id == id then bookings[k].(status := s) else bookings[k])
  }

  /** Setting the same status twice gives the same table as setting it once. */
  lemma SetStatusIdempotent(bookings: seq<Booking>, id: int, s: Option<Status>)
    ensures SetStatus(SetStatus(bookings, id, s), id, s) == SetStatus(bookings, id, s)
  {
  }

  /** How many rows the UPDATE touches (`info.changes`). */
  function CountWithId(bookings: seq<Booking>, id: int): (n: nat)
    ensures n == 0 <==> forall b :: b in bookings ==> b.id != id
    ensures n <= |bookings|
  {
    if bookings == [] then 0
    else (if bookings[0].id == id then 1 else 0) + CountWithId(bookings[1..], id)
  }

  // ----- counselor listings -----------------------------------------------------------

  /** The WHERE clause of the two listing queries. */
  datatype CounselorKey = ById(id: int) | ByName(name: string)

  /** The booking survives both inner joins and the WHERE clause. */
  predicate JoinMatches(users: seq<User>, b: Booking, key: CounselorKey) {
    && GetUserById(users, b.studentId).Some?
    && GetUserById(users, b.counselorId).Some?
    && match key
       case ById(id) => b.counselorId == id
       case ByName(n) => GetUserById(users, b.counselorId).value.name == Some(n)
  }

  function ViewOf(users: seq<User>, b: Booking): BookingView
    requires GetUserById(users, b.studentId).Some? && GetUserById(users, b.counselorId).Some?
  {
    var s := GetUserById(users, b.studentId).value;
    var c := GetUserById(users, b.counselorId).value;
    BookingView(b, s.name, s.email, c.name)
  }

  /** The test the joins and the WHERE clause apply to a booking. */
  function Matches(users: seq<User>, key: CounselorKey): Booking -> bool {
    (b: Booking) => JoinMatches(users, b, key)
  }

  /** The joined and filtered rows, before ORDER BY, in table order: one view per
      matching booking. */
  function Joined(users: seq<User>, bookings: seq<Booking>, key: CounselorKey): (r: seq<BookingView>)
    ensures forall v :: v in r ==> v.booking in bookings && JoinMatches(users, v.booking, key)
                                    && v == ViewOf(users, v.booking)
    ensures forall b :: b in bookings && JoinMatches(users, b, key) ==> ViewOf(users, b) in r
    ensures |r| == |Filter(Matches(users, key), bookings)|
    ensures forall i :: 0 <= i < |r| ==> r[i].booking == Filter(Matches(users, key), bookings)[i]
  {
    if bookings == [] then []
    else
      var b := bookings[0];
      var rest := Joined(users, bookings[1..], key);
      assert forall x :: x in bookings <==> x == b || x in bookings[1..];
      if JoinMatches(users, b, key) then [ViewOf(users, b)] + rest else rest
  }

  /** `ORDER BY b.preferred_date DESC, b.preferred_time DESC`: `x` may come before `y`. */
  predicate Precedes(x: BookingView, y: BookingView) {
    var dx, dy := x.booking.preferredDate, y.booking.preferredDate;
    (LexLe(dy, dx) && dx != dy) || (dx == dy && LexLe(y.booking.preferredTime, x.booking.preferredTime))
  }

  predicate SortedDesc(rows: seq<BookingView>) {
    forall i, j :: 0 <= i < j < |rows| ==> Precedes(rows[i], rows[j])
  }

  lemma PrecedesTotal(x: BookingView, y: BookingView)
    ensures Precedes(x, y) || Precedes(y, x)
  {
    LexLeTotal(x.booking.preferredDate, y.booking.preferredDate);
    LexLeTotal(x.booking.preferredTime, y.booking.preferredTime);
  }

  lemma PrecedesTransitive(x: BookingView, y: BookingView, z: BookingView)
    requires Precedes(x, y) && Precedes(y, z)
    ensures Precedes(x, z)
  {
    var dx, dy, dz := x.booking.preferredDate, y.booking.preferredDate, z.booking.preferredDate;
    if dx != dy && dy != dz {
      LexLeTransitive(dz, dy, dx);
      if dx == dz { LexLeAntisymmetric(dx, dy); }
    } else if dx != dy {
      assert dy == dz;
    } else if dy != dz {
      assert dx == dy;
    } else {
      LexLeTransitive(z.booking.preferredTime, y.booking.preferredTime, x.booking.preferredTime);
    }
  }

  /** Inserts one row into a sorted listing. */
  function Insert(x: BookingView, rows: seq<BookingView>): (r: seq<BookingView>)
    requires SortedDesc(rows)
    ensures SortedDesc(r)
    ensures multiset(r) == multiset(rows) + multiset{x}
    decreases |rows|
  {
    if rows == [] then [x]
    else if Precedes(x, rows[0]) then
      PrecedesAllOf(x, rows);
      ConsSorted(x, rows);
      [x] + rows
    else
      PrecedesTotal(x, rows[0]);
      var tail := Insert(x, rows[1..]);
      assert rows == [rows[0]] + rows[1..];
      HeadBeforeRest(rows);
      InsertStep(rows[0], x, rows[1..], tail);
      [rows[0]] + tail
  }

  /** A row that precedes every row of a sorted listing can go in front of it. */
  lemma ConsSorted(h: BookingView, t: seq<BookingView>)
    requires SortedDesc(t)
    requires forall y :: y in multiset(t) ==> Precedes(h, y)
    ensures SortedDesc([h] + t)
  {
    assert forall j :: 0 <= j < |t| ==> t[j] in multiset(t);
  }

  lemma HeadBeforeRest(rows: seq<BookingView>)
    requires SortedDesc(rows) && rows != []
    ensures forall y :: y in multiset(rows[1..]) ==> Precedes(rows[0], y)
  {
    forall y | y in multiset(rows[1..]) ensures Precedes(rows[0], y) {
      var j :| 0 <= j < |rows[1..]| && rows[1..][j] == y;
      assert rows[j + 1] == y;
    }
  }

  lemma PrecedesAllOf(x: BookingView, rows: seq<BookingView>)
    requires SortedDesc(rows) && rows != [] && Precedes(x, rows[0])
    ensures forall y :: y in multiset(rows) ==> Precedes(x, y)
  {
    forall y | y in multiset(rows) ensures Precedes(x, y) {
      var j :| 0 <= j < |rows| && rows[j] == y;
      if j > 0 { PrecedesTransitive(x, rows[0], rows[j]); }
    }
  }

  lemma InsertStep(h: BookingView, x: BookingView, rest: seq<BookingView>, tail: seq<BookingView>)
    requires forall y :: y in multiset(rest) ==> Precedes(h, y)
    requires Precedes(h, x)
    requires multiset(tail) == multiset(rest) + multiset{x}
    requires SortedDesc(tail)
    ensures SortedDesc([h] + tail)
  {
    ConsSorted(h, tail);
  }

  /** Sorts a listing by date, then time, both descending (ties keep no particular order). */
  function SortDesc(rows: seq<BookingView>): (r: seq<BookingView>)
    ensures SortedDesc(r)
    ensures multiset(r) == multiset(rows)
    decreases |rows|
  {
    if rows == [] then []
    else
      assert rows == [rows[0]] + rows[1..];
      Insert(rows[0], SortDesc(rows[1..]))
  }

  /** Two listings with the same multiset of rows have the same rows. */
  lemma SameElements(a: seq<BookingView>, b: seq<BookingView>)
    requires multiset(a) == multiset(b)
    ensures forall v :: v in a <==> v in b
  {
    forall v ensures v in a <==> v in b {
      assert v in a <==> v in multiset(a);
      assert v in b <==> v in multiset(b);
    }
  }

  /** `getBookingsByCounselor`: the bookings of that counselor id whose student and
      counselor rows both exist, newest date and time first. */
  function GetBookingsByCounselor(users: seq<User>, bookings: seq<Booking>, counselorId: int): (r: seq<BookingView>)
    ensures SortedDesc(r)
    ensures forall v :: v in r ==> v.booking in bookings && JoinMatches(users, v.booking, ById(counselorId))
                                    && v.booking.counselorId == counselorId && v == ViewOf(users, v.booking)
    ensures forall b :: b in bookings && b.counselorId == counselorId
                        && GetUserById(users, b.studentId).Some? && GetUserById(users, b.counselorId).Some?
                        ==> ViewOf(users, b) in r
    ensures multiset(r) == multiset(Joined(users, bookings, ById(counselorId)))
  {
    var rows := Joined(users, bookings, ById(counselorId));
    var r := SortDesc(rows);
    SameElements(r, rows);
    r
  }

  /** `getBookingsByCounselorName`: the same listing keyed by the counselor's display
      name (a NULL name never matches). */
  function GetBookingsByCounselorName(users: seq<User>, bookings: seq<Booking>, name: string): (r: seq<BookingView>)
    ensures SortedDesc(r)
    ensures forall v :: v in r ==> v.booking in bookings && JoinMatches(users, v.booking, ByName(name))
                                    && v == ViewOf(users, v.booking) && v.counselorName == Some(name)
    ensures forall b :: b in bookings && JoinMatches(users, b, ByName(name)) ==> ViewOf(users, b) in r
    ensures multiset(r) == multiset(Joined(users, bookings, ByName(name)))
  {
    var rows := Joined(users, bookings, ByName(name));
    var r := SortDesc(rows);
    SameElements(r, rows);
    r
  }

  /** When exactly the user with id `counselorId` carries the display name `name`, the
      two listings coincide. */
  lemma {:induction false} ListingsAgree(users: seq<User>, bookings: seq<Booking>, counselorId: int, name: string)
    requires forall u :: u in users ==> (u.name == Some(name) <==> u.id == counselorId)
    ensures GetBookingsByCounselor(users, bookings, counselorId) == GetBookingsByCounselorName(users, bookings, name)
  {
    JoinedAgree(users, bookings, counselorId, name);
  }

  lemma {:induction false} JoinedAgree(users: seq<User>, bookings: seq<Booking>, counselorId: int, name: string)
    requires forall u :: u in users ==> (u.name == Some(name) <==> u.id == counselorId)
    ensures Joined(users, bookings, ById(counselorId)) == Joined(users, bookings, ByName(name))
    decreases |bookings|
  {
    if bookings != [] {
      JoinedAgree(users, bookings[1..], counselorId, name);
    }
  }

  // ----- boot-time migration ---------------------------------------------------------

  /** The columns of `users` after the migration: `emergency_contact` and then
      `institution` are appended when missing. */
  function MigratedColumns(columns: seq<string>): (r: seq<string>)
    ensures "emergency_contact" in r && "institution" in r
    ensures |r| >= |columns| && r[..|columns|] == columns
    ensures forall c :: c in r[|columns|..] ==> c !in columns
    ensures |r| - |columns| == (if "emergency_contact" in columns then 0 else 1) + (if "institution" in columns then 0 else 1)
    ensures forall c :: c in r[|columns|..] ==> c == "emergency_contact" || c == "institution"
    ensures "emergency_contact" !in columns && "institution" !in columns ==>
              r[|columns|..] == ["emergency_contact", "institution"]
  {
    var withEmergency := if "emergency_contact" in columns then columns else columns + ["emergency_contact"];
    if "institution" in withEmergency then withEmergency else withEmergency + ["institution"]
  }

  lemma MigrationIdempotent(columns: seq<string>)
    ensures MigratedColumns(MigratedColumns(columns)) == MigratedColumns(columns)
  {
  }

  const AdminEmail := "admin@local"

  /** The request `ensureAdminSeed` passes to `createUser` (the hash of 'admin123' is an input). */
  function AdminRequest(passwordHash: string): NewUser {
    NewUser(AdminEmail, passwordHash, Some("Administrator"), Some("admin"), None, None)
  }

  // ----- the database handle -------------------------------------------------------------

  /** The single shared database: both tables, their AUTOINCREMENT counters and the
      column list of `users`. */
  class Database {
    var users: seq<User>
    var bookings: seq<Booking>
    var nextUserId: nat
    var nextBookingId: nat
    var userColumns: seq<string>

    ghost predicate Valid()
      reads this
    {
      UsersValid(users, nextUserId) && BookingsValid(bookings, nextBookingId)
    }

    /** Opening the file: `CREATE TABLE IF NOT EXISTS` keeps an existing `users`
        table's columns and creates the full table otherwise; rows of an existing
        file are not modelled. */
    constructor Open(existingUserColumns: Option<seq<string>>)
      ensures Valid()
      ensures users == [] && bookings == [] && nextUserId == 1 && nextBookingId == 1
      ensures userColumns == existingUserColumns.GetOr(
        ["id", "email", "password_hash", "name", "user_type", "emergency_contact", "institution", "created_at"])
    {
      users, bookings := [], [];
      nextUserId, nextBookingId := 1, 1;
      userColumns := existingUserColumns.GetOr(
        ["id", "email", "password_hash", "name", "user_type", "emergency_contact", "institution", "created_at"]);
    }

    /** The boot-time `ALTER TABLE` step: only missing columns are added. */
    method MigrateUserColumns()
      modifies this
      ensures userColumns == MigratedColumns(old(userColumns))
      ensures users == old(users) && bookings == old(bookings)
      ensures nextUserId == old(nextUserId) && nextBookingId == old(nextBookingId)
    {
      if "emergency_contact" !in userColumns {
        userColumns := userColumns + ["emergency_contact"];
      }
      if "institution" !in userColumns {
        userColumns := userColumns + ["institution"];
      }
    }

    /** `createUser`: inserts one row and returns its id, or throws on a constraint. */
    method CreateUser(req: NewUser) returns (r: Result<nat, DbError>)
      requires Valid()
      modifies this
      ensures Valid()
      ensures bookings == old(bookings) && nextBookingId == old(nextBookingId) && userColumns == old(userColumns)
      ensures r.Failure? <==> CreateUserError(old(users), req).Some?
      ensures r.Failure? ==> r.error == CreateUserError(old(users), req).value
                             && users == old(users) && nextUserId == old(nextUserId)
      ensures r.Success? ==> && r.value == old(nextUserId)
                             && (forall u :: u in old(users) ==> u.id != r.value)
                             && users == old(users) + [UserRow(r.value, req)]
                             && nextUserId == old(nextUserId) + 1
                             && GetUserByEmail(users, req.email) == Some(UserRow(r.value, req))
    {
      var err := CreateUserError(users, req);
      if err.Some? {
        return Failure(err.value);
      }
      var row := UserRow(nextUserId, req);
      LookupAfterAppend(users, row);
      AppendUserValid(users, nextUserId, row);
      users := users + [row];
      r := Success(nextUserId);
      nextUserId := nextUserId + 1;
    }

    /** `createBooking`: inserts one row and returns its id, or throws on a constraint.
        Student and counselor ids are not checked against `users`. */
    method CreateBooking(req: NewBooking) returns (r: Result<nat, DbError>)
      requires Valid()
      modifies this
      ensures Valid()
      ensures users == old(users) && nextUserId == old(nextUserId) && userColumns == old(userColumns)
      ensures r.Failure? <==> CreateBookingError(req).Some?
      ensures r.Failure? ==> r.error == CreateBookingError(req).value
                             && bookings == old(bookings) && nextBookingId == old(nextBookingId)
      ensures r.Success? ==> && r.value == old(nextBookingId)
                             && bookings == old(bookings) + [BookingRow(r.value, req)]
                             && nextBookingId == old(nextBookingId) + 1
    {
      var err := CreateBookingError(req);
      if err.Some? {
        return Failure(err.value);
      }
      bookings := bookings + [BookingRow(nextBookingId, req)];
      r := Success(nextBookingId);
      nextBookingId := nextBookingId + 1;
    }

    /** `updateBookingStatus`: any of the four statuses, or `null` (bound as NULL,
        which the CHECK accepts), replaces the status of the booking with that id,
        whatever it was; another value fails the CHECK when a row is touched.
        Returns the number of rows changed. */
    method UpdateBookingStatus(bookingId: int, status: Option<string>) returns (r: Result<nat, DbError>)
      requires Valid()
      modifies this
      ensures Valid()
      ensures users == old(users) && nextUserId == old(nextUserId) && nextBookingId == old(nextBookingId)
      ensures userColumns == old(userColumns)
      ensures r.Failure? <==>
                status.Some? && ParseStatus(status.value).None? && CountWithId(old(bookings), bookingId) > 0
      ensures r.Failure? ==> r == Failure(CheckFailed("status")) && bookings == old(bookings)
      ensures r.Success? ==> r.value == CountWithId(old(bookings), bookingId)
      ensures r.Success? && status.None? ==> bookings == SetStatus(old(bookings), bookingId, None)
      ensures r.Success? && status.Some? && ParseStatus(status.value).Some? ==>
                bookings == SetStatus(old(bookings), bookingId, ParseStatus(status.value))
      ensures r.Success? && status.Some? && ParseStatus(status.value).None? ==> bookings == old(bookings)
    {
      var changes := CountWithId(bookings, bookingId);
      if status.None? {
        bookings := SetStatus(bookings, bookingId, None);
        return Success(changes);
      }
      var parsed := ParseStatus(status.value);
      if parsed.None? {
        if changes > 0 {
          return Failure(CheckFailed("status"));
        }
        return Success(0);
      }
      bookings := SetStatus(bookings, bookingId, parsed);
      r := Success(changes);
    }

    /** `ensureAdminSeed`: adds the administrator unless a user with its email exists. */
    method EnsureAdminSeed(passwordHash: string)
      requires Valid()
      modifies this
      ensures Valid()
      ensures bookings == old(bookings) && nextBookingId == old(nextBookingId) && userColumns == old(userColumns)
      ensures GetUserByEmail(users, AdminEmail).Some?
      ensures old(GetUserByEmail(users, AdminEmail)).Some? ==> users == old(users) && nextUserId == old(nextUserId)
      ensures old(GetUserByEmail(users, AdminEmail)).None? ==>
                users == old(users) + [UserRow(old(nextUserId), AdminRequest(passwordHash))]
                && nextUserId == old(nextUserId) + 1
      ensures GetUserByEmail(users, AdminEmail).value.role == Admin
              || old(GetUserByEmail(users, AdminEmail)).Some?
    {
      var existing := GetUserByEmail(users, AdminEmail);
      if existing.Some? {
        return;
      }
      var r := CreateUser(AdminRequest(passwordHash));
      assert r.Success?;
    }
  }
}
