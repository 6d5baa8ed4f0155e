/**
 * The daily check-in on the dashboard (src/app/dashboard/page.tsx): the page
 * keeps the signed-in user's id and two flags, `checkInDone` and `loading`.
 * The button inserts a check-in only while none is recorded for the page, and
 * the start-up query may mark today as already done. `checkInDone` never goes
 * back to false, so a page session inserts at most one check-in.
 */
module Dashboard {
  import opened Text

  const ConfigAlert := "Configure o Supabase para usar esta funcionalidade."
  const ErrorAlert := "Erro ao registrar presença. Tente novamente."

  /** What the insert into `check_ins` did. */
  datatype InsertOutcome = InsertOk | InsertFailed | InsertThrew

  /** What the query for a row in today's window (T00:00:00 to T23:59:59) gave. */
  datatype TodayQuery = RowFound | NoRow | QueryFailed | QueryThrew

  /**
   * The page state; `inserts` counts the check-ins this page session has
   * inserted successfully.
   */
  datatype DashboardState = DashboardState(userId: Option<string>, checkInDone: bool, loading: bool,
                                           alerts: seq<string>, inserts: nat)

  /** At most one insert, and an insert is always reflected by `checkInDone`. */
  predicate Inv(s: DashboardState)
  {
    s.inserts <= 1 && (s.inserts == 1 ==> s.checkInDone)
  }

  /** Whether a click gets past the guards and issues the insert. */
  predicate InsertIssued(s: DashboardState, configured: bool)
  {
    Truthy(s.userId) && !s.checkInDone && configured
  }

  /** `handleCheckIn`. */
  function CheckIn(s: DashboardState, configured: bool, outcome: InsertOutcome): (r: DashboardState)
    // `!userId || checkInDone`: null or "" counts as no user
    ensures !Truthy(s.userId) || s.checkInDone ==> r == s
    ensures Truthy(s.userId) && !s.checkInDone && !configured ==> r == s.(alerts := s.alerts + [ConfigAlert])
    ensures r.userId == s.userId
    ensures s.checkInDone ==> r.checkInDone
    ensures InsertIssued(s, configured) ==> !r.loading
    ensures InsertIssued(s, configured) ==> (r.checkInDone <==> outcome.InsertOk?)
    // a failed or raised insert alerts the error; a successful one alerts nothing
    ensures InsertIssued(s, configured) ==>
              r.alerts == s.alerts + (if outcome.InsertOk? then [] else [ErrorAlert])
    ensures r.inserts == s.inserts + (if InsertIssued(s, configured) && outcome.InsertOk? then 1 else 0)
    ensures Inv(s) ==> Inv(r)
  {
    if !Truthy(s.userId) || s.checkInDone then s
    else if !configured then s.(alerts := s.alerts + [ConfigAlert])
    else
      match outcome
      case InsertOk => s.(checkInDone := true, loading := false, inserts := s.inserts + 1)
      case InsertFailed => s.(loading := false, alerts := s.alerts + [ErrorAlert])
      case InsertThrew => s.(loading := false, alerts := s.alerts + [ErrorAlert])
  }

  /** `checkTodayCheckIn`: only a row found without error marks today as done. */
  function CheckToday(s: DashboardState, configured: bool, query: TodayQuery): (r: DashboardState)
    ensures r.checkInDone <==> s.checkInDone || (configured && query.RowFound?)
    ensures r == s.(checkInDone := r.checkInDone)
    ensures Inv(s) ==> Inv(r)
  {
    if configured && query.RowFound? then s.(checkInDone := true) else s
  }

  /** What can happen on the page after it loads. */
  datatype Event =
    | UserLoaded(uid: string)                                 // `checkAuth` found a user
    | TodayChecked(configured: bool, query: TodayQuery)       // `checkTodayCheckIn` ran
    | CheckInClicked(configured: bool, outcome: InsertOutcome) // the button was pressed

  function Step(s: DashboardState, e: Event): DashboardState
  {
    match e
    case UserLoaded(uid) => s.(userId := Some(uid))
    case TodayChecked(configured, query) => CheckToday(s, configured, query)
    case CheckInClicked(configured, outcome) => CheckIn(s, configured, outcome)
  }

  /** The page state after a sequence of events. */
  function Run(s: DashboardState, events: seq<Event>): (r: DashboardState)
    ensures Inv(s) ==> Inv(r)
    ensures s.checkInDone ==> r.checkInDone
    ensures r.inserts >= s.inserts
    decreases |events|
  {
    if events == [] then s else Run(Step(s, events[0]), events[1..])
  }

  /** The state the page starts in. */
  const Initial := DashboardState(None, false, true, [], 0)

  /** Whatever happens in one page session, at most one check-in is inserted. */
  lemma AtMostOneInsertPerSession(events: seq<Event>)
    ensures Run(Initial, events).inserts <= 1
  {
  }

  /** Once today is known to be done, no further click inserts anything. */
  lemma DoneStaysDone(s: DashboardState, events: seq<Event>)
    requires s.checkInDone
    ensures Run(s, events).inserts == s.inserts
    decreases |events|
  {
    if events != [] {
      DoneStaysDone(Step(s, events[0]), events[1..]);
    }
  }

  class Page {
    var userId: Option<string>
    var checkInDone: bool
    var loading: bool
    var alerts: seq<string>
    ghost var inserts: nat

    ghost function State(): DashboardState
      reads this
    {
      DashboardState(userId, checkInDone, loading, alerts, inserts)
    }

    ghost predicate Valid()
      reads this
    {
      Inv(State())
    }

    constructor ()
      ensures Valid() && State() == Initial
    {
      userId, checkInDone, loading, alerts := None, false, true, [];
      inserts := 0;
    }

    /** `setUserId(user.id)` in `checkAuth`. */
    method UserLoaded(uid: string)
      requires Valid()
      modifies this
      ensures Valid() && State() == Step(old(State()), Event.UserLoaded(uid))
    {
      userId := Some(uid);
    }

    /** `checkTodayCheckIn`. */
    method CheckTodayCheckIn(configured: bool, query: TodayQuery)
      requires Valid()
      modifies this
      ensures Valid() && State() == CheckToday(old(State()), configured, query)
    {
      if !configured {
        return;
      }
      match query {
        case RowFound => checkInDone := true;
        case NoRow =>
        case QueryFailed =>
        case QueryThrew =>
      }
    }

    /** `handleCheckIn`; reports whether the insert was issued. */
    method HandleCheckIn(configured: bool, outcome: InsertOutcome) returns (inserted: bool)
      requires Valid()
      modifies this
      ensures Valid() && State() == CheckIn(old(State()), configured, outcome)
      ensures inserted == InsertIssued(old(State()), configured)
    {
      inserted := false;
      if !Truthy(userId) || checkInDone {
        return;
      }
      if !configured {
        alerts := alerts + [ConfigAlert];
        return;
      }
      loading := true;
      inserted := true;
      match outcome {
        case InsertOk =>
          checkInDone := true;
          inserts := inserts + 1;
        case InsertFailed =>
          alerts := alerts + [ErrorAlert];
        case InsertThrew =>
          alerts := alerts + [ErrorAlert];
      }
      loading := false;
    }
  }
}
