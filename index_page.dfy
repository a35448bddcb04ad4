/** The main page: its inner sentiment dashboard (the richest of the three
    nudge generators), and the session state that decides which screen is
    shown. The authentication service and the role table are outside the
    model: their answers arrive as the parameters of the steps below. */
module IndexPage {
  import opened Common
  import opened Sentiment

  /** The nudges of the sentiment band. A healthy week always yields exactly
      one; a moderate week adds passive negativity below 85% attendance; a
      low week adds burnout risk at two or more absences. */
  function BandNudges(d: WeekData): seq<Nudge>
  {
    if d.sentimentTenths >= 40 then
      if d.productivity >= 95 && d.attendance > 90 then [Nudge(Positive, GoodState, LowPriority)]
      else [Nudge(Attention, HappyButDistracted, MediumPriority)]
    else if d.sentimentTenths >= 30 then
      [Nudge(Attention, ModerateMorale, MediumPriority)]
      + if d.attendance < 85 then [Nudge(Attention, PassiveNegativity, MediumPriority)] else []
    else
      [Nudge(Urgent, LowMorale, HighPriority)]
      + if d.absences >= 2 then [Nudge(Urgent, BurnoutRisk, HighPriority)] else []
  }

  /** generateNudges for the selected week of the table. */
  function GenerateNudges(weeks: seq<WeekData>, week: int): (ns: seq<Nudge>)
    requires 1 <= week <= |weeks|
    ensures 1 <= |ns| <= 3
    ensures ns[|ns| - 1] == DropNudge <==> SuddenDropIn(weeks, week)
    ensures forall i :: 0 <= i < |ns| - 1 ==> ns[i] != DropNudge
  {
    BandNudges(weeks[week - 1]) + if SuddenDropIn(weeks, week) then [DropNudge] else []
  }

  /** The nudge list, band by band: which nudges come first and exactly when
      the second band nudge appears. */
  lemma NudgesByBand(weeks: seq<WeekData>, week: int)
    requires 1 <= week <= |weeks|
    ensures var d := weeks[week - 1]; var ns := GenerateNudges(weeks, week);
      var extra := if SuddenDropIn(weeks, week) then 1 else 0;
      && (GetStatus(d.sentimentTenths) == Healthy ==>
            && |ns| == 1 + extra
            && (ns[0].kind == Positive <==> d.productivity >= 95 && d.attendance > 90)
            && (ns[0].kind != Positive ==> ns[0] == Nudge(Attention, HappyButDistracted, MediumPriority)))
      && (GetStatus(d.sentimentTenths) == Moderate ==>
            && ns[0] == Nudge(Attention, ModerateMorale, MediumPriority)
            && (|ns| == 2 + extra <==> d.attendance < 85)
            && (|ns| == 1 + extra <==> d.attendance >= 85))
      && (GetStatus(d.sentimentTenths) == AtRisk ==>
            && ns[0] == Nudge(Urgent, LowMorale, HighPriority)
            && (|ns| == 2 + extra <==> d.absences >= 2)
            && (|ns| == 1 + extra <==> d.absences < 2))
  {
  }

  /** The shipped weeks: a positive nudge in week 1, one attention nudge in
      weeks 2 and 3 (week 3's 85% attendance is not below 85), and the low
      morale and burnout nudges in week 4. */
  lemma SeedNudges()
    ensures GenerateNudges(SeedWeeks, 1) == [Nudge(Positive, GoodState, LowPriority)]
    ensures GenerateNudges(SeedWeeks, 2) == [Nudge(Attention, ModerateMorale, MediumPriority)]
    ensures GenerateNudges(SeedWeeks, 3) == [Nudge(Attention, ModerateMorale, MediumPriority)]
    ensures GenerateNudges(SeedWeeks, 4) == [Nudge(Urgent, LowMorale, HighPriority), Nudge(Urgent, BurnoutRisk, HighPriority)]
  {
    NoSuddenDropInSeed(1);
    NoSuddenDropInSeed(2);
    NoSuddenDropInSeed(3);
    NoSuddenDropInSeed(4);
  }

  /** A signed-in user, known to the model only by an identifier. */
  type UserId = int

  /** The role column as the page reads it. The page casts whatever text the
      row holds, so a value other than the two known roles is kept as is. */
  datatype Role = NoRole | ScrumMaster | Adm | OtherRole(name: string)

  datatype Page = RegisterPage | LoginPage | DashboardPage

  /** The role of a role-table answer: no row gives no role. */
  function RoleOf(row: Option<string>): (r: Role)
    ensures r == NoRole <==> row.None?
    ensures r == ScrumMaster <==> row == Some("scrum_master")
    ensures r == Adm <==> row == Some("adm")
  {
    match row
    case None => NoRole
    case Some(name) =>
      if name == "scrum_master" then ScrumMaster
      else if name == "adm" then Adm
      else OtherRole(name)
  }

  /** What the page renders. */
  datatype Screen = Loading | RegistrationScreen | LoginScreen | ScrumMasterHome | AdmHome

  /** The main render's choice, in its order: loading until authentication
      is ready, then the register or login page when chosen, then the
      dashboard of a signed-in user's role, and the login page otherwise. */
  function ScreenOf(isAuthReady: bool, page: Page, user: Option<UserId>, role: Role): (s: Screen)
    ensures s == Loading <==> !isAuthReady
    ensures s == RegistrationScreen <==> isAuthReady && page == RegisterPage
    ensures s == ScrumMasterHome <==> isAuthReady && page == DashboardPage && user.Some? && role == ScrumMaster
    ensures s == AdmHome <==> isAuthReady && page == DashboardPage && user.Some? && role == Adm
    ensures s == LoginScreen <==>
              isAuthReady && (page == LoginPage ||
                              (page == DashboardPage && (user.None? || (role != ScrumMaster && role != Adm))))
  {
    if !isAuthReady then Loading
    else match page
      case RegisterPage => RegistrationScreen
      case LoginPage => LoginScreen
      case DashboardPage =>
        if user.Some? && role.ScrumMaster? then ScrumMasterHome
        else if user.Some? && role.Adm? then AdmHome
        else LoginScreen
  }

  /** No dashboard is ever shown without a signed-in user, whatever the page
      and role say; and every state shows some screen other than a dashboard
      once the user is gone. */
  lemma DashboardNeedsUser(isAuthReady: bool, page: Page, user: Option<UserId>, role: Role)
    ensures ScreenOf(isAuthReady, page, user, role) in {ScrumMasterHome, AdmHome} ==> user.Some?
    ensures user.None? && isAuthReady && page != RegisterPage ==> ScreenOf(isAuthReady, page, user, role) == LoginScreen
  {
  }

  /** The outcome of a sign-in attempt: a failure (bad credentials, no user,
      or no role row), or success with the text of the user's role row. */
  datatype LoginOutcome = LoginFailed | LoginSucceeded(roleName: string)

  /** The session state of the main page. */
  class Session {
    var user: Option<UserId>
    var role: Role
    var isAuthReady: bool
    var page: Page

    constructor ()
      ensures user == None && role == NoRole && !isAuthReady && page == LoginPage
      ensures CurrentScreen() == Loading
    {
      user := None;
      role := NoRole;
      isAuthReady := false;
      page := LoginPage;
    }

    function CurrentScreen(): Screen
      reads this
    {
      ScreenOf(isAuthReady, page, user, role)
    }

    /** The auth listener: record the session's user; with no session, drop
      the role and go to the login page (a role lookup for a present user is
      a later step, RoleLookupCompleted). Authentication is then ready. */
    method AuthStateChanged(session: Option<UserId>)
      modifies this
      ensures user == session && isAuthReady
      ensures session.None? ==> role == NoRole && page == LoginPage && CurrentScreen() == LoginScreen
      ensures session.Some? ==> role == old(role) && page == old(page)
    {
      user := session;
      if session.None? {
        role := NoRole;
        page := LoginPage;
      }
      isAuthReady := true;
    }

    /** The initial session check: record the restored user and mark
      authentication ready; role and page wait for the role lookup. */
    method SessionRestored(session: Option<UserId>)
      modifies this
      ensures user == session && isAuthReady
      ensures role == old(role) && page == old(page)
    {
      user := session;
      isAuthReady := true;
    }

    /** The role lookup of either path answers: set the role from the row
      and switch to the dashboard page. */
    method RoleLookupCompleted(row: Option<string>)
      modifies this
      ensures role == RoleOf(row) && page == DashboardPage
      ensures user == old(user) && isAuthReady == old(isAuthReady)
    {
      role := RoleOf(row);
      page := DashboardPage;
    }

    /** handleLogout: clear user and role and return to the login page. */
    method HandleLogout()
      modifies this
      ensures user == None && role == NoRole && page == LoginPage
      ensures isAuthReady == old(isAuthReady)
      ensures isAuthReady ==> CurrentScreen() == LoginScreen
    {
      user := None;
      role := NoRole;
      page := LoginPage;
    }

    /** handleLogin: a failure changes nothing; a success sets the role from
      the row and switches to the dashboard page. The user itself arrives
      through the auth listener. */
    method HandleLogin(outcome: LoginOutcome)
      modifies this
      ensures outcome.LoginFailed? ==> role == old(role) && page == old(page)
      ensures outcome.LoginSucceeded? ==> role == RoleOf(Some(outcome.roleName)) && page == DashboardPage
      ensures user == old(user) && isAuthReady == old(isAuthReady)
    {
      if outcome.LoginSucceeded? {
        role := RoleOf(Some(outcome.roleName));
        page := DashboardPage;
      }
    }

    /** handleRegister: a successful sign-up and role insert switches to the
      dashboard page; a failure changes nothing. */
    method HandleRegister(succeeded: bool)
      modifies this
      ensures page == (if succeeded then DashboardPage else old(page))
      ensures user == old(user) && role == old(role) && isAuthReady == old(isAuthReady)
    {
      if succeeded {
        page := DashboardPage;
      }
    }

    /** The links between the register and login pages. */
    method GoTo(target: Page)
      requires target != DashboardPage
      modifies this
      ensures page == target
      ensures user == old(user) && role == old(role) && isAuthReady == old(isAuthReady)
    {
      page := target;
    }
  }
}
