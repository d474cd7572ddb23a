/** The browser client's API module: `request` joins the configured base URL and
    a path, calls `fetch`, and classifies the answer; the exported wrappers name
    the paths and options of the server's endpoints. The environment variable is
    an input, and so is the serialised JSON body of each call. */
module Api {
  import opened Wrappers
  import opened Http
  import Text

  const DefaultBase := "http://localhost:4000"

  /** `REACT_APP_API_URL || "http://localhost:4000"`. */
  function BaseUrl(env: Option<string>): string {
    Text.OrDefault(env, DefaultBase)
  }

  /** `.replace(/\/$/, '')`: one trailing '/' removed, if there is one. */
  function StripTrailingSlash(s: string): (r: string)
    ensures Text.IsPrefix(r, s) && |s| - 1 <= |r| <= |s|
    ensures |r| < |s| <==> s != [] && s[|s| - 1] == '/'
  {
    if s != [] && s[|s| - 1] == '/' then s[..|s| - 1] else s
  }

  /** Only one slash goes: a base ending in '//' keeps one of them. */
  lemma OnlyOneSlashRemoved()
    ensures StripTrailingSlash("http://localhost:4000//") == "http://localhost:4000/"
  {
  }

  /** The URL `request` fetches: the path after the base, without the base's
      trailing '/'. With the base unset or empty, the default base is used. */
  function RequestUrl(env: Option<string>, path: string): (url: string)
    ensures var base := BaseUrl(env);
            var n := |url| - |path|;
            && 0 <= n <= |base| && |base| - 1 <= n && url[n..] == path && url[..n] == base[..n]
            && (n == |base| <==> base == [] || base[|base| - 1] != '/')
    ensures !Text.Truthy(env) ==> url == DefaultBase + path
  {
    var r := StripTrailingSlash(BaseUrl(env)) + path;
    assert r[|r| - |path|..] == path;
    r
  }

  /** `request`: the call, with the init object as written (so a caller's own
      headers replace the defaults; see `Http.FetchInit`), and the classification
      of its answer. */
  function Request(env: Option<string>, args: RequestArgs, res: HttpResponse, parsed: Option<Json>): (r: Exchange)
    ensures r.call.url == RequestUrl(env, args.path)
    ensures r.call.init == FetchInit(args.options)
    ensures args.options.headers.None? ==> r.call.init.headers == DefaultHeaders
    ensures r.call.init.credentials == args.options.credentials.GetOr("include")
    ensures r.outcome == Classify(res, parsed)
  {
    Exchange(Call(RequestUrl(env, args.path), FetchInit(args.options)), Classify(res, parsed))
  }

  /** A caller that adds its own header to a POST sends no content type at all, and
      so differs from the intended merge; a call without headers is unaffected. */
  lemma CallerHeadersReachFetch(env: Option<string>, path: string, res: HttpResponse, parsed: Option<Json>)
    ensures var o := RequestOptions(Some("POST"), Some("{}"), Some([("Authorization", "Bearer t")]), None);
            && Get(Request(env, RequestArgs(path, o), res, parsed).call.init.headers, "Content-Type").None?
            && Request(env, RequestArgs(path, o), res, parsed).call.init != MergedFetchInit(o)
    ensures forall body :: Request(env, RequestArgs(path, Post(body)), res, parsed).call.init == MergedFetchInit(Post(body))
  {
    var o := RequestOptions(Some("POST"), Some("{}"), Some([("Authorization", "Bearer t")]), None);
    CallerHeadersDropContentType();
    MergedKeepsContentType(o);
    forall body ensures Request(env, RequestArgs(path, Post(body)), res, parsed).call.init == MergedFetchInit(Post(body)) {
      InitsAgreeWithoutHeaders(Post(body));
    }
  }

  function Post(body: string): (o: RequestOptions)
    ensures o.headers.None? && o.credentials.None?
  {
    RequestOptions(Some("POST"), Some(body), None, None)
  }

  /** `registerUser`. */
  function RegisterUser(payload: string): (r: RequestArgs)
    ensures r.path == "/api/auth/register" && r.options == Post(payload)
  {
    RequestArgs("/api/auth/register", Post(payload))
  }

  /** `loginUser`. */
  function LoginUser(payload: string): (r: RequestArgs)
    ensures r.path == "/api/auth/login" && r.options == Post(payload)
  {
    RequestArgs("/api/auth/login", Post(payload))
  }

  const AuthPrefix := "/api/auth/"
  const CounselorsPrefix := AuthPrefix + "counselors/"
  const BookingsPrefix := AuthPrefix + "bookings/"
  const ByCounselorPrefix := BookingsPrefix + "counselor/"
  const CounselorNamePrefix := BookingsPrefix + "counselor-name/"
  const StatusSuffix := "/status"

  /** `getCounselorsByInstitution`: the institution is percent-encoded, so the path
      segment after the prefix never holds a '/', whatever the institution is,
      decodes back to the institution, and reads as the institution itself when it
      has only unreserved characters. */
  function CounselorsByInstitution(institution: string): (r: RequestArgs)
    ensures Text.IsPrefix(CounselorsPrefix, r.path) && '/' !in r.path[|CounselorsPrefix|..]
    ensures (forall i :: 0 <= i < |institution| ==> Unreserved(institution[i])) ==> r.path == CounselorsPrefix + institution
    ensures Decode(r.path[|CounselorsPrefix|..]) == Some(institution)
    ensures r.options == NoOptions
  {
    var e := EncodeURIComponent(institution);
    DecodeEncode(institution);
    SplitAfter(CounselorsPrefix, e);
    RequestArgs(CounselorsPrefix + e, NoOptions)
  }

  /** `createBooking`. */
  function CreateBooking(bookingData: string): (r: RequestArgs)
    ensures r.path == AuthPrefix + "bookings" && r.options == Post(bookingData)
  {
    RequestArgs(AuthPrefix + "bookings", Post(bookingData))
  }

  /** `getBookingsByCounselor`: the id is written into the path as it is, so a '/' in
      it splits the segment after the prefix. */
  function BookingsByCounselor(counselorId: string): (r: RequestArgs)
    ensures Text.IsPrefix(ByCounselorPrefix, r.path) && r.path[|ByCounselorPrefix|..] == counselorId
    ensures '/' in r.path[|ByCounselorPrefix|..] <==> '/' in counselorId
    ensures r.options == NoOptions
  {
    SplitAfter(ByCounselorPrefix, counselorId);
    RequestArgs(ByCounselorPrefix + counselorId, NoOptions)
  }

  /** `getBookingsByCounselorName`: the name is percent-encoded into one segment,
      from which the server decodes it back. */
  function BookingsByCounselorName(counselorName: string): (r: RequestArgs)
    ensures Text.IsPrefix(CounselorNamePrefix, r.path) && '/' !in r.path[|CounselorNamePrefix|..]
    ensures Decode(r.path[|CounselorNamePrefix|..]) == Some(counselorName)
    ensures r.options == NoOptions
  {
    var e := EncodeURIComponent(counselorName);
    DecodeEncode(counselorName);
    SplitAfter(CounselorNamePrefix, e);
    RequestArgs(CounselorNamePrefix + e, NoOptions)
  }

  /** `updateBookingStatus`: a PUT whose path holds the booking id as it is, between
      the bookings prefix and '/status'. */
  function UpdateBookingStatus(bookingId: string, statusBody: string): (r: RequestArgs)
    ensures Text.IsPrefix(BookingsPrefix, r.path)
    ensures r.path[|BookingsPrefix|..] == bookingId + StatusSuffix
    ensures r.options == RequestOptions(Some("PUT"), Some(statusBody), None, None)
  {
    SplitAfter(BookingsPrefix, bookingId + StatusSuffix);
    RequestArgs(BookingsPrefix + (bookingId + StatusSuffix), RequestOptions(Some("PUT"), Some(statusBody), None, None))
  }

  /** Only the encoded parameters are safe: an institution holding '/' still yields
      one segment, while a counselor id holding '/' yields two. */
  lemma EncodedVersusVerbatim()
    ensures '/' !in CounselorsByInstitution("A/B").path[|CounselorsPrefix|..]
    ensures '/' in BookingsByCounselor("1/2").path[|ByCounselorPrefix|..]
  {
    assert "1/2"[1] == '/';
  }

  lemma SplitAfter(prefix: string, tail: string)
    ensures Text.IsPrefix(prefix, prefix + tail) && (prefix + tail)[|prefix|..] == tail
  {
    assert (prefix + tail)[..|prefix|] == prefix;
  }
}
