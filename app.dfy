/**
 The application shell: the header gate over the settings register and the
 static route table.
 */
module App {
  import opened Wrappers
  import opened Js
  import opened ShowHeader

  /** The header is rendered only for a shown header and the role "Manager" or "Allowed", compared exactly. */
  predicate HeaderShown(s: Settings)
  {
    s.showHeader == true && (s.role == "Manager" || s.role == "Allowed")
  }

  /** Roles other than the two staff roles, including "Pending", "Banned", "manager" and "", never see the header. */
  lemma OnlyStaffRolesSeeHeader(s: Settings)
    ensures HeaderShown(s) ==> s.role in {"Manager", "Allowed"}
    ensures s.role in {"Pending", "Banned", "manager", ""} ==> !HeaderShown(s)
    ensures !s.showHeader ==> !HeaderShown(s)
  {
  }

  /** The settings a logout leaves always hide the header. */
  lemma DefaultSettingsHideHeader()
    ensures !HeaderShown(DefaultSettings)
  {
  }

  datatype Page =
    | Home | SignUp | LogIn | ForgotPasswordSendEmail | ForgotPasswordChangePassword
    | LoggedIn | Unauthorized | Alert
    | ViewEmployeeAccessLevels | EditEmployeeAccessLevel | ConfirmDeleteEmployee
    | ViewUserDetails | EditUserDetails | EditUserPassword
    | TableReservationOverview | ViewBookingsByDate | EditBooking | DeleteBooking
    | SearchBookingsByName | SearchBookingsByEmail | SearchBookingsById
    | CreateBooking | CreateBlockedTimeSlot | EditBlockedTimeSlot | DeleteBlockedTimeSlot
    | PruneAllBookings
    | FlemmyngMenu | CreateMenuItem | EditMenuItem | DeleteMenuItem

  /** One path segment of a route pattern: literal text or a `:name` parameter. */
  datatype Segment = Lit(text: string) | Param(name: string)

  /** The path pattern of each `<Route>` element; "/" is the one empty segment. */
  function RoutePattern(p: Page): seq<Segment>
  {
    match p
    case Home => [Lit("")]
    case SignUp => [Lit("sign-up")]
    case LogIn => [Lit("log-in")]
    case ForgotPasswordSendEmail => [Lit("forgot-password"), Lit("send-email")]
    case ForgotPasswordChangePassword => [Lit("forgot-password"), Lit("change-password"), Param("token")]
    case LoggedIn => [Lit("logged-in")]
    case Unauthorized => [Lit("unauthorized")]
    case Alert => [Lit("alert")]
    case ViewEmployeeAccessLevels => [Lit("manager"), Lit("employee-access-levels"), Lit("view-employee-access-levels")]
    case EditEmployeeAccessLevel => [Lit("manager"), Lit("employee-access-levels"), Lit("edit-employee-access-level"), Param("id")]
    case ConfirmDeleteEmployee => [Lit("manager"), Lit("employee-access-levels"), Lit("confirm-delete-employee"), Param("id")]
    case ViewUserDetails => [Lit("user-details"), Lit("view-user-details")]
    case EditUserDetails => [Lit("user-details"), Lit("edit-user-details"), Param("id")]
    case EditUserPassword => [Lit("user-details"), Lit("edit-user-password"), Param("id")]
    case TableReservationOverview => [Lit("table-reservation-overview")]
    case ViewBookingsByDate => [Lit("table-reservation-overview"), Lit("view-bookings-by-date")]
    case EditBooking => [Lit("table-reservation-overview"), Lit("edit-booking"), Param("id")]
    case DeleteBooking => [Lit("table-reservation-overview"), Lit("delete-booking"), Param("id")]
    case SearchBookingsByName => [Lit("table-reservation-overview"), Lit("search-bookings-by-name")]
    case SearchBookingsByEmail => [Lit("table-reservation-overview"), Lit("search-bookings-by-email")]
    case SearchBookingsById => [Lit("table-reservation-overview"), Lit("search-bookings-by-id")]
    case CreateBooking => [Lit("table-reservation-overview"), Lit("create-booking")]
    case CreateBlockedTimeSlot => [Lit("table-reservation-overview"), Lit("create-blocked-time-slot")]
    case EditBlockedTimeSlot => [Lit("table-reservation-overview"), Lit("edit-blocked-time-slot"), Param("id")]
    case DeleteBlockedTimeSlot => [Lit("table-reservation-overview"), Lit("delete-blocked-time-slot"), Param("id")]
    case PruneAllBookings => [Lit("table-reservation-overview"), Lit("prune-all-bookings")]
    case FlemmyngMenu => [Lit("flemmyng-menu-overview")]
    case CreateMenuItem => [Lit("flemmyng-menu-overview"), Lit("create"), Param("category")]
    case EditMenuItem => [Lit("flemmyng-menu-overview"), Lit("edit"), Param("category"), Param("id")]
    case DeleteMenuItem => [Lit("flemmyng-menu-overview"), Lit("delete"), Param("category"), Param("id")]
  }

  /** A pattern matches segments of the same count: literals exactly, parameters any non-empty text. */
  predicate Matches(pattern: seq<Segment>, segments: seq<string>)
  {
    |pattern| == |segments|
    && forall i :: 0 <= i < |pattern| ==>
      match pattern[i]
      case Lit(text) => segments[i] == text
      case Param(_) => segments[i] != ""
  }

  /** The path of a list of segments: each preceded by "/". */
  function PathOf(segments: seq<string>): (path: string)
    ensures |path| >= 1 && path[0] == '/'
  {
    "/" + Join(segments, "/")
  }

  /** The pages whose route matches the path made of `segments`. */
  function PagesFor(segments: seq<string>): set<Page>
  {
    set p: Page | Matches(RoutePattern(p), segments)
  }

  /** The parameter names a route declares. */
  function ParamNames(pattern: seq<Segment>): (names: set<string>)
    ensures forall n :: n in names <==> Param(n) in pattern
  {
    if pattern == [] then {}
    else (if pattern[0].Param? then {pattern[0].name} else {}) + ParamNames(pattern[1..])
  }

  /** The pages an absolute path leads to; a relative path is resolved by no route here. */
  function Resolve(path: string): set<Page>
  {
    if |path| >= 1 && path[0] == '/' then PagesFor(Split(path[1..], "/")) else {}
  }

  /** A path built from slash-free segments resolves through exactly those segments. */
  lemma ResolvePathOf(segments: seq<string>)
    requires |segments| >= 1
    requires forall k :: 0 <= k < |segments| ==> '/' !in segments[k]
    ensures Resolve(PathOf(segments)) == PagesFor(segments)
  {
    assert PathOf(segments)[1..] == Join(segments, "/");
    SplitJoin(segments, "/");
  }

  /** An absolute path with no further "/" is one segment. */
  lemma SingleSegmentPath(segment: string)
    requires '/' !in segment
    ensures Resolve("/" + segment) == PagesFor([segment])
  {
    assert ("/" + segment)[1..] == segment;
    IndexOfAbsent(segment, "/");
    SplitHead(segment, "/");
  }

  /** "/alert" leads to the alert page and nowhere else. */
  lemma AlertPathResolves(path: string)
    requires path == "/alert"
    ensures Resolve(path) == {Alert}
  {
    SingleSegmentPath(path[1..]);
    assert path == "/" + path[1..];
    OnlyAlertMatches([path[1..]]);
  }

  /** The single segment "alert" is matched by the alert route only. */
  lemma OnlyAlertMatches(segments: seq<string>)
    requires segments == ["alert"]
    ensures PagesFor(segments) == {Alert}
  {
    forall p: Page ensures Matches(RoutePattern(p), segments) <==> p == Alert {
      match p
      case Alert =>
        assert RoutePattern(p) == [Lit(segments[0])];
      case Home | SignUp | LogIn | LoggedIn | Unauthorized | TableReservationOverview | FlemmyngMenu =>
        // the other one-segment routes are literals of another length than "alert"
        assert |RoutePattern(p)| == 1 && |RoutePattern(p)[0].text| != |segments[0]|;
      case _ =>
        assert |RoutePattern(p)| != 1;
    }
  }

  /** No route is declared for "/blocked-times-overview". */
  lemma BlockedTimesOverviewIsUndeclared(path: string)
    requires path == "/blocked-times-overview"
    ensures Resolve(path) == {}
  {
    SingleSegmentPath(path[1..]);
    assert path == "/" + path[1..];
    NoPageFor(["blocked-times-overview"]);
  }

  /** No route pattern is the single literal segment "blocked-times-overview". */
  lemma NoPageFor(segments: seq<string>)
    requires segments == ["blocked-times-overview"]
    ensures PagesFor(segments) == {}
  {
    forall p: Page ensures !Matches(RoutePattern(p), segments) {
      match p
      case FlemmyngMenu =>
        // the one literal of the same length differs in its first character
        assert segments[0][0] != RoutePattern(p)[0].text[0];
      case Home | SignUp | LogIn | LoggedIn | Unauthorized | Alert | TableReservationOverview =>
        assert |RoutePattern(p)| == 1 && |RoutePattern(p)[0].text| != |segments[0]|;
      case _ =>
        assert |RoutePattern(p)| != 1;
    }
  }

  /** The menu edit and delete routes carry a category and an id; the create route only a category. */
  lemma MenuRouteParameters()
    ensures ParamNames(RoutePattern(EditMenuItem)) == {"category", "id"}
    ensures ParamNames(RoutePattern(DeleteMenuItem)) == {"category", "id"}
    ensures ParamNames(RoutePattern(CreateMenuItem)) == {"category"}
  {
    assert RoutePattern(EditMenuItem)[1..][1..][1..][1..] == [];
    assert RoutePattern(DeleteMenuItem)[1..][1..][1..][1..] == [];
    assert RoutePattern(CreateMenuItem)[1..][1..][1..] == [];
  }
}
