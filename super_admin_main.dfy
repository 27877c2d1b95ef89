/** The super-admin shell (components/superadmin/SuperAdminMain.tsx): one
    view id and its switch, in which the subscription-plans and
    activity-logs cases are commented out. */
module SuperAdminMain {
  import opened Wrappers
  import opened HomePage

  /** `renderView()`. */
  function RenderMain(view: string): Screen {
    if view == "dashboard" then Dashboard
    else if view == "syndicats" then Syndicats
    else if view == "flagged" then Flagged
    else if view == "payments" then Payments
    else if view == "bail" then BailConfiguration
    else if view == "settings" then AccountSettings
    else Dashboard
  }

  const MainViews: set<string> := {"dashboard", "syndicats", "flagged", "payments", "bail", "settings"}

  class MainShell {
    var currentView: string

    constructor ()
      ensures currentView == "dashboard"
    {
      currentView := "dashboard";
    }

    function Shown(): Screen
      reads this
    {
      RenderMain(currentView)
    }

    /** The layout's and the dashboard's `onChangeView`. */
    method ChangeView(view: string)
      modifies this
      ensures currentView == view && Shown() == RenderMain(view)
    {
      currentView := view;
    }
  }

  // ---------------------------------------------------------------- lemmas

  /** 'plans' and 'logs' fall to the default and show the dashboard, as does
      every other unknown id; the plans and logs screens are never shown. */
  lemma DisabledViewsShowDashboard(view: string)
    ensures RenderMain("plans") == Dashboard && RenderMain("logs") == Dashboard
    ensures RenderMain(view) == Dashboard <==> view == "dashboard" || view !in MainViews
    ensures RenderMain(view) != SubscriptionPlans && RenderMain(view) != ActivityLogs
    ensures RenderMain(view) != LoginScreen && !RenderMain(view).Members?
  {
  }

  /** 'bail' shows the lease configuration and 'settings' the account
      settings, and no other id shows either. Here 'settings' differs from
      the root page, where it shows the lease configuration. */
  lemma SettingsAndBail(view: string)
    ensures RenderMain(view) == BailConfiguration <==> view == "bail"
    ensures RenderMain(view) == AccountSettings <==> view == "settings"
    ensures RenderView("settings", None) == BailConfiguration && RenderMain("settings") == AccountSettings
  {
  }
}
