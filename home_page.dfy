/** The root page (app/page.tsx): a demo session flag, the signed-in
    e-mail, the current view id and the data passed by the last
    navigation, and the switch that picks the screen to show. */
module HomePage {
  import opened Wrappers
  import Login

  /** The screens the two switches can show. */
  datatype Screen =
    | LoginScreen
    | Dashboard
    | Syndicats
    | Members(syndicatId: Option<string>)
    | Flagged
    | Payments
    | ActivityLogs
    | SubscriptionPlans
    | BailConfiguration
    | AccountSettings

  /** The `data` passed to `onNavigate`, as far as a screen reads it: the
      members screen reads its `syndicatId`. None is null or undefined. */
  datatype NavData = NavData(syndicatId: Option<string>)

  /** `renderView()`. */
  function RenderView(view: string, data: Option<NavData>): Screen {
    if view == "dashboard" then Dashboard
    else if view == "syndicats" then Syndicats
    else if view == "members" then Members(if data.Some? then data.value.syndicatId else None)
    else if view == "flagged-content" then Flagged
    else if view == "payments" then Payments
    else if view == "activity-logs" then ActivityLogs
    else if view == "subscription-plans" then SubscriptionPlans
    else if view == "settings" then BailConfiguration
    else Dashboard
  }

  /** The eight view ids the switch knows. */
  const KnownViews: set<string> :=
    {"dashboard", "syndicats", "members", "flagged-content", "payments", "activity-logs", "subscription-plans",
     "settings"}

  class Home {
    var isAuthenticated: bool
    var userEmail: string
    var currentView: string
    var viewData: Option<NavData>

    constructor ()
      ensures !isAuthenticated && userEmail == "" && currentView == "dashboard" && viewData.None?
    {
      isAuthenticated := false;
      userEmail := "";
      currentView := "dashboard";
      viewData := None;
    }

    /** What the page shows: the login form while unauthenticated, else the
        current view. */
    function Shown(): (s: Screen)
      reads this
      ensures s == LoginScreen <==> !isAuthenticated
    {
      if !isAuthenticated then LoginScreen else RenderView(currentView, viewData)
    }

    method HandleLogin(email: string)
      modifies this
      ensures isAuthenticated && userEmail == email
      ensures currentView == old(currentView) && viewData == old(viewData)
    {
      userEmail := email;
      isAuthenticated := true;
    }

    method HandleLogout()
      modifies this
      ensures !isAuthenticated && userEmail == "" && currentView == "dashboard" && viewData.None?
    {
      isAuthenticated := false;
      userEmail := "";
      currentView := "dashboard";
      viewData := None;
    }

    /** `handleNavigate(view, data)`: view and data change together. */
    method HandleNavigate(view: string, data: Option<NavData>)
      modifies this
      ensures currentView == view && viewData == data
      ensures isAuthenticated == old(isAuthenticated) && userEmail == old(userEmail)
    {
      currentView := view;
      viewData := data;
    }

    /** The layout's `onChangeView`, which is `setCurrentView` itself: the
        data of the last navigation stays. */
    method ChangeView(view: string)
      modifies this
      ensures currentView == view && viewData == old(viewData)
      ensures isAuthenticated == old(isAuthenticated) && userEmail == old(userEmail)
    {
      currentView := view;
    }

    /** The login form's timer fires and calls `handleLogin` with the e-mail
        its submit captured. */
    method CompleteLogin(form: Login.LoginForm)
      requires |form.pending| > 0
      modifies this, form
      ensures isAuthenticated && userEmail == old(form.pending[0]) && form.pending == old(form.pending[1..])
      ensures currentView == old(currentView) && viewData == old(viewData)
    {
      var email := form.TimerFires();
      HandleLogin(email);
    }
  }

  // ---------------------------------------------------------------- lemmas

  /** Each screen but the dashboard comes from exactly one view id; the
      dashboard comes from 'dashboard' and from every unknown id. In
      particular 'settings' shows the lease configuration, and no id shows
      the account settings or the login form. */
  lemma RenderViewInverse(view: string, data: Option<NavData>)
    ensures RenderView(view, data) == Dashboard <==> view == "dashboard" || view !in KnownViews
    ensures RenderView(view, data) == BailConfiguration <==> view == "settings"
    ensures RenderView(view, data).Members? <==> view == "members"
    ensures RenderView(view, data) == Syndicats <==> view == "syndicats"
    ensures RenderView(view, data) == Flagged <==> view == "flagged-content"
    ensures RenderView(view, data) == Payments <==> view == "payments"
    ensures RenderView(view, data) == ActivityLogs <==> view == "activity-logs"
    ensures RenderView(view, data) == SubscriptionPlans <==> view == "subscription-plans"
    ensures RenderView(view, data) != AccountSettings && RenderView(view, data) != LoginScreen
  {
  }

  /** The members screen receives the syndicat id of the last navigation's
      data and nothing when that data is absent. */
  lemma MembersGetsNavigationData(data: Option<NavData>)
    ensures RenderView("members", data) == Members(if data.Some? then data.value.syndicatId else None)
    ensures data.None? ==> RenderView("members", data) == Members(None)
  {
  }
}
