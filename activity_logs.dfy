/** The activity log screen (components/ActivityLogs.tsx): the search and the
    action and entity filters over the log entries, the option lists of the
    two filters, the distinct-user figure, and the label, colour and icon of
    an entry. */
module ActivityLogs {
  import opened Wrappers
  import opened Text
  import opened Seqs

  /** A log entry (lib/types/superadmin.ts) with the user and entity names
      the screen joins to it; `details` is not modelled. */
  datatype ActivityLog = ActivityLog(id: string, userId: string, userName: string, action: string,
                                     entityType: string, entityId: string, entityName: string,
                                     timestamp: string, ipAddress: Option<string>, userAgent: Option<string>)

  const Periods: set<string> := {"all", "today", "week", "month"}

  // ---------------------------------------------------------------- the list

  predicate MatchesSearch(log: ActivityLog, search: string) {
    ContainsIgnoringCase(log.userName, search) || ContainsIgnoringCase(log.entityName, search)
    || ContainsIgnoringCase(log.action, search)
  }

  predicate MatchesFilters(log: ActivityLog, search: string, action: string, entity: string) {
    MatchesSearch(log, search) && (action == "all" || log.action == action)
    && (entity == "all" || log.entityType == entity)
  }

  function Matching(search: string, action: string, entity: string): ActivityLog -> bool {
    log => MatchesFilters(log, search, action, entity)
  }

  /** `filteredLogs`; the period is not an argument, as it is not read. */
  function FilterLogs(logs: seq<ActivityLog>, search: string, action: string, entity: string): seq<ActivityLog> {
    Filter(logs, Matching(search, action, entity))
  }

  /** An entry is listed iff it is one of the entries, its user name, entity
      name or action contains the search ignoring case, and each of the two
      filters is 'all' or its value; the list keeps the entries' order. */
  lemma FilterLogsContract(logs: seq<ActivityLog>, search: string, action: string, entity: string, log: ActivityLog)
    ensures log in FilterLogs(logs, search, action, entity) <==>
            log in logs
            && (ContainsIgnoringCase(log.userName, search) || ContainsIgnoringCase(log.entityName, search)
                || ContainsIgnoringCase(log.action, search))
            && (action == "all" || log.action == action) && (entity == "all" || log.entityType == entity)
    ensures IsSubseq(FilterLogs(logs, search, action, entity), logs)
  {
    FilterMembers(logs, Matching(search, action, entity), log);
    FilterIsSubseq(logs, Matching(search, action, entity));
  }

  /** With both filters at 'all' and an empty search every entry is listed. */
  lemma EmptySearchKeepsAll(logs: seq<ActivityLog>)
    ensures FilterLogs(logs, "", "all", "all") == logs
  {
    forall i | 0 <= i < |logs| ensures MatchesSearch(logs[i], "") {
      ContainsIgnoringCaseEmpty(logs[i].userName);
    }
    FilterAll(logs, Matching("", "all", "all"));
  }

  // ---------------------------------------------------------------- option lists

  function Actions(logs: seq<ActivityLog>): (r: seq<string>)
    ensures |r| == |logs| && forall i :: 0 <= i < |logs| ==> r[i] == logs[i].action
  {
    seq(|logs|, i requires 0 <= i < |logs| => logs[i].action)
  }

  function EntityTypes(logs: seq<ActivityLog>): (r: seq<string>)
    ensures |r| == |logs| && forall i :: 0 <= i < |logs| ==> r[i] == logs[i].entityType
  {
    seq(|logs|, i requires 0 <= i < |logs| => logs[i].entityType)
  }

  function UserIds(logs: seq<ActivityLog>): (r: seq<string>)
    ensures |r| == |logs| && forall i :: 0 <= i < |logs| ==> r[i] == logs[i].userId
  {
    seq(|logs|, i requires 0 <= i < |logs| => logs[i].userId)
  }

  /** `actionTypes`. */
  function ActionTypes(logs: seq<ActivityLog>): seq<string> {
    Distinct(Actions(logs))
  }

  /** `entityTypes`. */
  function EntityTypeOptions(logs: seq<ActivityLog>): seq<string> {
    Distinct(EntityTypes(logs))
  }

  /** The 'Utilisateurs Actifs' figure. */
  function ActiveUsers(logs: seq<ActivityLog>): nat {
    |Distinct(UserIds(logs))|
  }

  /** The action options are the entries' actions, each once, in the order
      in which they first appear; likewise the entity options. */
  lemma OptionListsContract(logs: seq<ActivityLog>)
    ensures forall a :: a in ActionTypes(logs) <==> exists i :: 0 <= i < |logs| && logs[i].action == a
    ensures forall i, j :: 0 <= i < j < |ActionTypes(logs)| ==> ActionTypes(logs)[i] != ActionTypes(logs)[j]
    ensures forall i, j :: 0 <= i < j < |ActionTypes(logs)| ==>
              FirstIndex(Actions(logs), ActionTypes(logs)[i]) < FirstIndex(Actions(logs), ActionTypes(logs)[j])
    ensures forall e :: e in EntityTypeOptions(logs) <==> exists i :: 0 <= i < |logs| && logs[i].entityType == e
    ensures forall i, j :: 0 <= i < j < |EntityTypeOptions(logs)| ==>
              EntityTypeOptions(logs)[i] != EntityTypeOptions(logs)[j]
    ensures forall i, j :: 0 <= i < j < |EntityTypeOptions(logs)| ==>
              FirstIndex(EntityTypes(logs), EntityTypeOptions(logs)[i])
              < FirstIndex(EntityTypes(logs), EntityTypeOptions(logs)[j])
  {
    DistinctContract(Actions(logs));
    DistinctContract(EntityTypes(logs));
    forall a ensures a in Actions(logs) <==> exists i :: 0 <= i < |logs| && logs[i].action == a {
      if a in Actions(logs) {
        var i :| 0 <= i < |Actions(logs)| && Actions(logs)[i] == a;
        assert logs[i].action == a;
      }
    }
    forall e ensures e in EntityTypes(logs) <==> exists i :: 0 <= i < |logs| && logs[i].entityType == e {
      if e in EntityTypes(logs) {
        var i :| 0 <= i < |EntityTypes(logs)| && EntityTypes(logs)[i] == e;
        assert logs[i].entityType == e;
      }
    }
  }

  /** Picking an action option with the other filter at 'all' and an empty
      search lists at least one entry, one of that action. */
  lemma ActionOptionSelectsSomething(logs: seq<ActivityLog>, a: string)
    requires a in ActionTypes(logs)
    ensures exists log :: log in FilterLogs(logs, "", a, "all") && log.action == a
  {
    OptionListsContract(logs);
    var i :| 0 <= i < |logs| && logs[i].action == a;
    ContainsIgnoringCaseEmpty(logs[i].userName);
    FilterLogsContract(logs, "", a, "all", logs[i]);
  }

  /** The active-user figure counts the distinct user ids: no more than the
      entries, at least one when there is an entry. */
  lemma ActiveUsersContract(logs: seq<ActivityLog>)
    ensures ActiveUsers(logs) <= |logs|
    ensures |logs| > 0 ==> ActiveUsers(logs) > 0
    ensures forall u :: u in Distinct(UserIds(logs)) <==> exists i :: 0 <= i < |logs| && logs[i].userId == u
  {
    DistinctLength(UserIds(logs));
    DistinctContract(UserIds(logs));
    if |logs| > 0 {
      assert UserIds(logs)[0] in UserIds(logs);
    }
    forall u ensures u in UserIds(logs) <==> exists i :: 0 <= i < |logs| && logs[i].userId == u {
      if u in UserIds(logs) {
        var i :| 0 <= i < |UserIds(logs)| && UserIds(logs)[i] == u;
        assert logs[i].userId == u;
      }
    }
  }

  // ---------------------------------------------------------------- label, colour, icon

  /** The label table of `getActionLabel`. */
  const ActionLabels: map<string, string> := map[
    "APPROVE_SYNDICAT" := "Syndicat approuvé",
    "DISAPPROVE_SYNDICAT" := "Syndicat désapprouvé",
    "DEACTIVATE_MEMBER" := "Membre désactivé",
    "ACTIVATE_MEMBER" := "Membre activé",
    "APPROVE_MEMBER" := "Membre approuvé",
    "DELETE_PUBLICATION" := "Publication supprimée",
    "DELETE_EVENT" := "Événement supprimé",
    "CREATE_PLAN" := "Plan créé",
    "UPDATE_PLAN" := "Plan modifié",
    "DELETE_PLAN" := "Plan supprimé"
  ]

  /** `labels[action] || action`. */
  function GetActionLabel(action: string): string {
    if action in ActionLabels && ActionLabels[action] != "" then ActionLabels[action] else action
  }

  /** The ten mapped actions get their label, which differs from the action;
      every other action is shown as it is. */
  lemma ActionLabelContract(action: string)
    ensures ActionLabels.Keys == {"APPROVE_SYNDICAT", "DISAPPROVE_SYNDICAT", "DEACTIVATE_MEMBER", "ACTIVATE_MEMBER",
                                  "APPROVE_MEMBER", "DELETE_PUBLICATION", "DELETE_EVENT", "CREATE_PLAN",
                                  "UPDATE_PLAN", "DELETE_PLAN"}
    ensures action in ActionLabels ==> GetActionLabel(action) == ActionLabels[action]
    ensures GetActionLabel(action) == action <==> action !in ActionLabels
  {
  }

  /** `getActionColor(action)`: the tests in their order. */
  function GetActionColor(action: string): string {
    if Contains(action, "APPROVE") then "success"
    else if Contains(action, "DELETE") || Contains(action, "DEACTIVATE") || Contains(action, "DISAPPROVE") then "error"
    else if Contains(action, "CREATE") then "info"
    else if Contains(action, "UPDATE") || Contains(action, "ACTIVATE") then "warning"
    else "default"
  }

  /** 'success' is exactly the actions containing 'APPROVE', so the test for
      'DISAPPROVE' never decides anything. */
  lemma ActionColorSuccess(action: string)
    ensures GetActionColor(action) == "success" <==> Contains(action, "APPROVE")
    ensures Contains(action, "DISAPPROVE") ==> GetActionColor(action) == "success"
  {
    DisapproveHasApprove(action);
  }

  lemma DisapproveHasApprove(action: string)
    ensures Contains(action, "DISAPPROVE") ==> Contains(action, "APPROVE")
  {
    if Contains(action, "DISAPPROVE") {
      assert "DISAPPROVE" == "DIS" + "APPROVE";
      ContainsParts(action, "DIS", "APPROVE");
    }
  }

  /** 'error' is exactly the actions without 'APPROVE' that contain 'DELETE'
      or 'DEACTIVATE': a deactivation is an error although it contains
      'ACTIVATE', because that test comes later. */
  lemma ActionColorError(action: string)
    ensures GetActionColor(action) == "error" <==>
            !Contains(action, "APPROVE") && (Contains(action, "DELETE") || Contains(action, "DEACTIVATE"))
  {
    DisapproveHasApprove(action);
  }

  /** 'info' is exactly the actions containing 'CREATE' and none of the words
      tested before it. */
  lemma ActionColorInfo(action: string)
    ensures GetActionColor(action) == "info" <==>
            !Contains(action, "APPROVE") && !Contains(action, "DELETE") && !Contains(action, "DEACTIVATE")
            && Contains(action, "CREATE")
  {
    DisapproveHasApprove(action);
  }

  /** 'warning' is exactly the actions containing 'UPDATE' or 'ACTIVATE' and
      none of the words tested before; everything else is 'default'. */
  lemma ActionColorWarning(action: string)
    ensures GetActionColor(action) == "warning" <==>
            !Contains(action, "APPROVE") && !Contains(action, "DELETE") && !Contains(action, "DEACTIVATE")
            && !Contains(action, "CREATE") && (Contains(action, "UPDATE") || Contains(action, "ACTIVATE"))
    ensures GetActionColor(action) == "default" <==>
            !Contains(action, "APPROVE") && !Contains(action, "DELETE") && !Contains(action, "DEACTIVATE")
            && !Contains(action, "CREATE") && !Contains(action, "UPDATE") && !Contains(action, "ACTIVATE")
  {
    DisapproveHasApprove(action);
  }

  /** `getEntityIcon(entityType)`. */
  function GetEntityIcon(entityType: string): string {
    if entityType == "SYNDICAT" then "🏢"
    else if entityType == "MEMBER" then "👤"
    else if entityType == "PUBLICATION" then "📝"
    else if entityType == "EVENT" then "📅"
    else if entityType == "SUBSCRIPTION_PLAN" then "💳"
    else "📋"
  }

  /** Every entity type gets an icon: the five known types their own, every
      other type the clipboard. */
  lemma EntityIconTotal(entityType: string)
    ensures GetEntityIcon(entityType) == "📋" <==>
            entityType !in {"SYNDICAT", "MEMBER", "PUBLICATION", "EVENT", "SUBSCRIPTION_PLAN"}
  {
  }

  // ---------------------------------------------------------------- the screen

  class ActivityLogsPage {
    const logs: seq<ActivityLog>
    var searchTerm: string
    var filterAction: string
    var filterEntity: string
    var filterPeriod: string
    var selectedLog: Option<ActivityLog>
    var showDetailModal: bool

    /** Each filter holds 'all' or one of its options. */
    predicate Valid()
      reads this
    {
      (filterAction == "all" || filterAction in ActionTypes(logs))
      && (filterEntity == "all" || filterEntity in EntityTypeOptions(logs))
      && filterPeriod in Periods
    }

    constructor (ls: seq<ActivityLog>)
      ensures Valid() && logs == ls
      ensures searchTerm == "" && filterAction == "all" && filterEntity == "all" && filterPeriod == "all"
      ensures selectedLog.None? && !showDetailModal
    {
      logs := ls;
      searchTerm := "";
      filterAction := "all";
      filterEntity := "all";
      filterPeriod := "all";
      selectedLog := None;
      showDetailModal := false;
    }

    /** The list on screen. */
    function Listed(): seq<ActivityLog>
      reads this
    {
      FilterLogs(logs, searchTerm, filterAction, filterEntity)
    }

    method SetSearch(search: string)
      modifies this
      ensures searchTerm == search && Listed() == FilterLogs(logs, search, filterAction, filterEntity)
      ensures filterAction == old(filterAction) && filterEntity == old(filterEntity) && filterPeriod == old(filterPeriod)
      ensures selectedLog == old(selectedLog) && showDetailModal == old(showDetailModal)
    {
      searchTerm := search;
    }

    /** The action select. */
    method SetFilterAction(action: string)
      requires Valid() && (action == "all" || action in ActionTypes(logs))
      modifies this
      ensures Valid() && filterAction == action
      ensures searchTerm == old(searchTerm) && filterEntity == old(filterEntity) && filterPeriod == old(filterPeriod)
      ensures selectedLog == old(selectedLog) && showDetailModal == old(showDetailModal)
    {
      filterAction := action;
    }

    /** The entity select. */
    method SetFilterEntity(entity: string)
      requires Valid() && (entity == "all" || entity in EntityTypeOptions(logs))
      modifies this
      ensures Valid() && filterEntity == entity
      ensures searchTerm == old(searchTerm) && filterAction == old(filterAction) && filterPeriod == old(filterPeriod)
      ensures selectedLog == old(selectedLog) && showDetailModal == old(showDetailModal)
    {
      filterEntity := entity;
    }

    /** The period buttons: the list on screen does not change. */
    method SetFilterPeriod(period: string)
      requires Valid() && period in Periods
      modifies this
      ensures Valid() && filterPeriod == period && Listed() == old(Listed())
      ensures searchTerm == old(searchTerm) && filterAction == old(filterAction) && filterEntity == old(filterEntity)
      ensures selectedLog == old(selectedLog) && showDetailModal == old(showDetailModal)
    {
      filterPeriod := period;
    }

    /** `handleViewDetail(log)`. */
    method HandleViewDetail(log: ActivityLog)
      modifies this
      ensures selectedLog == Some(log) && showDetailModal
      ensures searchTerm == old(searchTerm) && filterAction == old(filterAction)
      ensures filterEntity == old(filterEntity) && filterPeriod == old(filterPeriod)
    {
      selectedLog := Some(log);
      showDetailModal := true;
    }

    /** The detail modal's close button; the selection stays. */
    method CloseDetail()
      modifies this
      ensures !showDetailModal && selectedLog == old(selectedLog)
      ensures searchTerm == old(searchTerm) && filterAction == old(filterAction)
      ensures filterEntity == old(filterEntity) && filterPeriod == old(filterPeriod)
    {
      showDetailModal := false;
    }
  }
}
