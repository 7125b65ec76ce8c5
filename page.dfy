/**
 * The application shell: the session's signed-in user, active view and
 * budget record, the login and logout transitions, and the choice of what
 * to render.
 */
module Page {
  import opened Wrappers
  import opened Budget
  import opened Login

  /** The views `renderActiveView` can show. */
  datatype View = DashboardView | ItineraryView | DepositsView | InsightsView | UpiAppsView | ContactView

  /** The view id the sidebar stores for each view. */
  function ViewId(v: View): string
  {
    match v
    case DashboardView => "dashboard"
    case ItineraryView => "itinerary"
    case DepositsView => "deposits"
    case InsightsView => "insights"
    case UpiAppsView => "upi-apps"
    case ContactView => "contact"
  }

  /** `renderActiveView`: the view with that id, and the dashboard for any other id. */
  function RenderActiveView(id: string): View
  {
    if id == "itinerary" then ItineraryView
    else if id == "deposits" then DepositsView
    else if id == "insights" then InsightsView
    else if id == "upi-apps" then UpiAppsView
    else if id == "contact" then ContactView
    else DashboardView
  }

  /** Every view is rendered from its own id, and an id that names no view renders the dashboard. */
  lemma RenderActiveViewMeaning(id: string)
    ensures forall v :: RenderActiveView(ViewId(v)) == v
    ensures ViewId(RenderActiveView(id)) == id || RenderActiveView(id) == DashboardView
    ensures (forall v :: ViewId(v) != id) ==> RenderActiveView(id) == DashboardView
  {
    forall v ensures RenderActiveView(ViewId(v)) == v {
      match v
      case DashboardView =>
        assert "dashboard" != "itinerary" && "dashboard" != "deposits" && "dashboard" != "insights";
        assert "dashboard" != "upi-apps" && "dashboard" != "contact";
      case ItineraryView =>
      case DepositsView =>
        assert "deposits" != "itinerary";
      case InsightsView =>
        assert "insights" != "itinerary" && "insights" != "deposits";
      case UpiAppsView =>
        assert "upi-apps" != "itinerary" && "upi-apps" != "deposits" && "upi-apps" != "insights";
      case ContactView =>
        assert "contact" != "itinerary" && "contact" != "deposits" && "contact" != "insights" && "contact" != "upi-apps";
    }
  }

  /** What the page shows: the login screen, or the application with one view. */
  datatype Screen = LoginGate | Shell(view: View)

  /** The login screen whenever nobody is signed in, whatever the active view. */
  function ScreenOf(user: Option<UserInfo>, activeView: string): (s: Screen)
    ensures s == LoginGate <==> user.None?
    ensures user.Some? ==> s == Shell(RenderActiveView(activeView))
  {
    if user.None? then LoginGate else Shell(RenderActiveView(activeView))
  }

  /** The state `Home` keeps. */
  class Session {
    var activeView: string
    var user: Option<UserInfo>
    var budgetData: BudgetData

    /** A fresh page: nobody signed in, the dashboard selected and the empty record. */
    constructor ()
      ensures activeView == "dashboard" && user == None && budgetData == EmptyBudget
      ensures Shown() == LoginGate
    {
      activeView := "dashboard";
      user := None;
      budgetData := EmptyBudget;
    }

    function Shown(): Screen
      reads this
    {
      ScreenOf(user, activeView)
    }

    /** `handleLogin`: signs the user in and leaves the record and the view as they were. */
    method HandleLogin(userData: UserInfo)
      modifies this
      ensures user == Some(userData)
      ensures budgetData == old(budgetData) && activeView == old(activeView)
      ensures Shown() == Shell(RenderActiveView(activeView))
    {
      user := Some(userData);
    }

    /** `handleLogout`: signs out, empties the record and selects the dashboard for the next session. */
    method HandleLogout()
      modifies this
      ensures user == None && budgetData == EmptyBudget && activeView == "dashboard"
      ensures Shown() == LoginGate
    {
      user := None;
      budgetData := EmptyBudget;
      activeView := "dashboard";
    }

    /** `setActiveView`, as the sidebar and the contact button call it. */
    method SetActiveView(id: string)
      modifies this
      ensures activeView == id && user == old(user) && budgetData == old(budgetData)
    {
      activeView := id;
    }

    /** `handleContactClick`: the header's contact button opens the contact view. */
    method HandleContactClick()
      modifies this
      ensures activeView == "contact" && user == old(user) && budgetData == old(budgetData)
      ensures user.Some? ==> Shown() == Shell(ContactView)
    {
      activeView := "contact";
    }

    /** `setBudgetData`, as the Itinerary and Deposits views call it. */
    method SetBudgetData(b: BudgetData)
      modifies this
      ensures budgetData == b && user == old(user) && activeView == old(activeView)
    {
      budgetData := b;
    }
  }

  /** Logging out and back in starts from the empty record on the dashboard, whatever the previous session held. */
  method LogoutThenLogin(s: Session, next: UserInfo)
    modifies s
    ensures s.user == Some(next) && s.budgetData == EmptyBudget
    ensures s.Shown() == Shell(DashboardView)
  {
    s.HandleLogout();
    s.HandleLogin(next);
  }
}
