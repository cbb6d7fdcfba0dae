/** The server's small request rules: which insight fields are asked for,
    how an ad account id is normalised, the default conversion event, the
    dashboard create and update bodies, and the dashboard access decisions. */
module ServerRules {
  import opened Wrappers
  import opened JsValues
  import opened Text
  import Metrics
  import Rows

  /** The insight fields every level asks for, in request order. */
  const BaseFields: seq<string> := ["date_start", "spend", "impressions", "reach", "cpm",
    "cost_per_unique_outbound_click", "unique_outbound_clicks_ctr", "actions", "cost_per_action_type"]

  /** The fields asked for at ad level (no date; the ad and its parents' names). */
  const AdBaseFields: seq<string> := ["ad_id", "ad_name", "adset_name", "campaign_name", "spend",
    "impressions", "reach", "cpm", "cost_per_unique_outbound_click", "unique_outbound_clicks_ctr",
    "actions", "cost_per_action_type"]

  /** `getFields(type)` as a list: the base fields, plus `action_values` for an
      e-commerce dashboard. */
  function FieldList(dashType: string): seq<string> {
    if dashType == "ecom" then BaseFields + ["action_values"] else BaseFields
  }

  /** `getFields(type)`: the comma-separated field list. */
  function GetFields(dashType: string): string {
    Join(FieldList(dashType), ',')
  }

  datatype Level = Account | Campaign | AdSet | Ad

  /** The fields requested by each insights route. */
  function InsightFields(level: Level, dashType: string): seq<string> {
    match level
    case Account => FieldList(dashType)
    case Campaign => ["campaign_id", "campaign_name"] + FieldList(dashType)
    case AdSet => ["adset_id", "adset_name", "campaign_id", "campaign_name"] + FieldList(dashType)
    case Ad => AdBaseFields + if dashType == "ecom" then ["action_values"] else []
  }

  /** The metric fields the row normaliser reads. */
  const MetricFields: seq<string> := ["spend", "impressions", "reach", "cpm",
    "cost_per_unique_outbound_click", "unique_outbound_clicks_ctr", "actions", "cost_per_action_type"]

  lemma NotActionValues()
    ensures forall i :: 0 <= i < |BaseFields| ==> BaseFields[i] != "action_values"
    ensures forall i :: 0 <= i < |AdBaseFields| ==> AdBaseFields[i] != "action_values"
  {
  }

  lemma BaseFieldsNoComma()
    ensures forall i :: 0 <= i < |BaseFields| ==> ',' !in BaseFields[i]
  {
  }

  lemma AdFieldsNoComma()
    ensures forall i :: 0 <= i < |AdBaseFields| ==> ',' !in AdBaseFields[i]
  {
  }

  lemma IdFieldsPlain()
    ensures forall i :: 0 <= i < 4 ==>
      var ids := ["adset_id", "adset_name", "campaign_id", "campaign_name"];
      ',' !in ids[i] && "action_values" != ids[i]
  {
  }

  lemma ActionValuesIffEcom(level: Level, dashType: string)
    ensures "action_values" in InsightFields(level, dashType) <==> dashType == "ecom"
  {
    NotActionValues();
    IdFieldsPlain();
    var ids := ["adset_id", "adset_name", "campaign_id", "campaign_name"];
    assert ["campaign_id", "campaign_name"] == ids[2..];
  }

  lemma FieldsSplitBack(level: Level, dashType: string)
    ensures Split(Join(InsightFields(level, dashType), ','), ',') == InsightFields(level, dashType)
  {
    var fs := InsightFields(level, dashType);
    BaseFieldsNoComma();
    AdFieldsNoComma();
    IdFieldsPlain();
    var ids := ["adset_id", "adset_name", "campaign_id", "campaign_name"];
    assert ["campaign_id", "campaign_name"] == ids[2..];
    assert ',' !in "action_values";
    forall i | 0 <= i < |fs|
      ensures ',' !in fs[i]
    {
    }
    SplitJoin(fs, ',');
  }

  lemma MetricsRequested(level: Level, dashType: string)
    ensures forall i :: 0 <= i < |MetricFields| ==> MetricFields[i] in InsightFields(level, dashType)
  {
    var fs := InsightFields(level, dashType);
    forall i | 0 <= i < |MetricFields|
      ensures MetricFields[i] in fs
    {
      if level == Ad {
        assert MetricFields[i] == AdBaseFields[i + 4];
      } else {
        assert MetricFields[i] == BaseFields[i + 1];
      }
    }
  }

  /** Every route asks for `action_values` exactly when the dashboard is
      e-commerce, no field name holds a comma (so the joined list splits back
      into the same fields), and every route asks for every metric the row
      normaliser reads. */
  lemma InsightFieldsRules(level: Level, dashType: string)
    ensures var fs := InsightFields(level, dashType);
      && ("action_values" in fs <==> dashType == "ecom")
      && Split(Join(fs, ','), ',') == fs
      && forall i :: 0 <= i < |MetricFields| ==> MetricFields[i] in fs
  {
    ActionValuesIffEcom(level, dashType);
    FieldsSplitBack(level, dashType);
    MetricsRequested(level, dashType);
  }

  /** An ad account id with the `act_` prefix added when it lacks it. */
  function NormalizeActId(actId: string): (r: string)
    ensures StartsWith(r, "act_")
    ensures StartsWith(actId, "act_") ==> r == actId
    ensures !StartsWith(actId, "act_") ==> r == "act_" + actId
  {
    if StartsWith(actId, "act_") then actId else "act_" + actId
  }

  /** Normalising twice is normalising once. */
  lemma NormalizeIdempotent(actId: string)
    ensures NormalizeActId(NormalizeActId(actId)) == NormalizeActId(actId)
  {
  }

  /** The conversion event a new dashboard gets when none is given. */
  function DefaultConversionEvent(dashType: string): (e: string)
    ensures dashType == "app" ==> e == "app_install"
    ensures dashType == "lead" ==> e == "lead"
    ensures dashType != "app" && dashType != "lead" ==> e == "purchase"
  {
    if dashType == "app" then "app_install" else if dashType == "lead" then "lead" else "purchase"
  }

  /** The event a dashboard created without one gets is one the client counts
      as a conversion for the type it loads the dashboard as, unless the body
      gave an empty type: that type is stored as given, with event "purchase",
      and the client then reads the dashboard as an app dashboard, whose
      install types do not include "purchase". */
  lemma DefaultEventIsCounted(body: DashboardBody)
    requires NewDashboardRow(body).Success? && !Truthy(body.conversionEvent)
    ensures var d := NewDashboardRow(body).value;
      var counted := Rows.ConversionTypes(Metrics.VerticalOf(Metrics.ClientType(d.dashType)), d.conversionEvent);
      && (d.dashType != "" ==> d.conversionEvent in counted)
      && (d.dashType == "" ==> d.conversionEvent == "purchase" && d.conversionEvent !in counted)
  {
    var d := NewDashboardRow(body).value;
    if d.dashType == "" {
      assert Metrics.ClientType(d.dashType) == "app";
    }
  }

  /** A create or update request body; None is a field that is absent. */
  datatype DashboardBody = DashboardBody(
    name: Option<string>, actId: Option<string>, dashType: Option<string>, conversionEvent: Option<string>)

  /** The row inserted for a new dashboard. */
  datatype NewDashboard = NewDashboard(name: string, actId: string, dashType: string, conversionEvent: string)

  /** A failed request: HTTP status and message. */
  datatype HttpError = HttpError(status: int, message: string)

  /** A database error: its code and message. */
  datatype DbError = DbError(code: string, message: string)

  /** The row POST /api/admin/dashboards inserts, or the 400 for a missing
      name or account id. An absent type means "app". */
  function NewDashboardRow(body: DashboardBody): (r: Result<NewDashboard, HttpError>)
    ensures r.Failure? <==> !Truthy(body.name) || !Truthy(body.actId)
    ensures r.Failure? ==> r.error == HttpError(400, "Name and act_id required")
    ensures r.Success? ==>
      var dashType := if body.dashType.Some? then body.dashType.value else "app";
      && r.value.name == body.name.value
      && r.value.actId == NormalizeActId(body.actId.value)
      && r.value.dashType == dashType
      && r.value.conversionEvent ==
           (if Truthy(body.conversionEvent) then body.conversionEvent.value else DefaultConversionEvent(dashType))
  {
    if !Truthy(body.name) || !Truthy(body.actId) then Failure(HttpError(400, "Name and act_id required"))
    else
      var dashType := if body.dashType.Some? then body.dashType.value else "app";
      Success(NewDashboard(body.name.value, NormalizeActId(body.actId.value), dashType,
                           TextOrEmpty(Or(body.conversionEvent, Some(DefaultConversionEvent(dashType))))))
  }

  /** POST /api/admin/dashboards: validate, then insert through `insert`; a
      duplicate key (code 23505) is a 400, any other database error a 500. */
  function CreateDashboard(body: DashboardBody, insert: NewDashboard -> Result<NewDashboard, DbError>)
    : (r: Result<NewDashboard, HttpError>)
    ensures NewDashboardRow(body).Failure? ==> r == Failure(NewDashboardRow(body).error)
    ensures NewDashboardRow(body).Success? && insert(NewDashboardRow(body).value).Success? ==>
      r == Success(insert(NewDashboardRow(body).value).value)
    ensures NewDashboardRow(body).Success? && insert(NewDashboardRow(body).value).Failure? ==>
      var e := insert(NewDashboardRow(body).value).error;
      r == Failure(if e.code == "23505" then HttpError(400, "Act ID already exists") else HttpError(500, e.message))
  {
    match NewDashboardRow(body)
    case Failure(e) => Failure(e)
    case Success(row) =>
      match insert(row)
      case Success(saved) => Success(saved)
      case Failure(e) =>
        if e.code == "23505" then Failure(HttpError(400, "Act ID already exists"))
        else Failure(HttpError(500, e.message))
  }

  /** The columns a PATCH may set. */
  const UpdatableColumns: set<string> := {"name", "act_id", "type", "conversion_event"}

  /** The PATCH /api/admin/dashboards/:id `updates` object: one entry per
      truthy field of the body, `act_id` normalised. */
  method BuildUpdates(body: DashboardBody) returns (updates: map<string, string>)
    ensures updates.Keys <= UpdatableColumns
    ensures "name" in updates <==> Truthy(body.name)
    ensures "act_id" in updates <==> Truthy(body.actId)
    ensures "type" in updates <==> Truthy(body.dashType)
    ensures "conversion_event" in updates <==> Truthy(body.conversionEvent)
    ensures "name" in updates ==> updates["name"] == body.name.value
    ensures "act_id" in updates ==> updates["act_id"] == NormalizeActId(body.actId.value)
    ensures "type" in updates ==> updates["type"] == body.dashType.value
    ensures "conversion_event" in updates ==> updates["conversion_event"] == body.conversionEvent.value
    ensures updates == UpdatesOf(body)
  {
    updates := map[];
    if Truthy(body.name) {
      updates := updates["name" := body.name.value];
    }
    if Truthy(body.actId) {
      updates := updates["act_id" := NormalizeActId(body.actId.value)];
    }
    if Truthy(body.dashType) {
      updates := updates["type" := body.dashType.value];
    }
    if Truthy(body.conversionEvent) {
      updates := updates["conversion_event" := body.conversionEvent.value];
    }
  }

  /** A stored dashboard's configurable columns. */
  datatype Dashboard = Dashboard(name: string, actId: string, dashType: string, conversionEvent: string)

  /** The row after the database applies `updates`. */
  function ApplyUpdates(d: Dashboard, updates: map<string, string>): Dashboard {
    Dashboard(
      if "name" in updates then updates["name"] else d.name,
      if "act_id" in updates then updates["act_id"] else d.actId,
      if "type" in updates then updates["type"] else d.dashType,
      if "conversion_event" in updates then updates["conversion_event"] else d.conversionEvent)
  }

  /** The `updates` object of a PATCH body: the truthy fields, `act_id`
      normalised. */
  function UpdatesOf(body: DashboardBody): map<string, string> {
    var withName := if Truthy(body.name) then map["name" := body.name.value] else map[];
    var withActId := if Truthy(body.actId) then withName["act_id" := NormalizeActId(body.actId.value)] else withName;
    var withType := if Truthy(body.dashType) then withActId["type" := body.dashType.value] else withActId;
    if Truthy(body.conversionEvent) then withType["conversion_event" := body.conversionEvent.value] else withType
  }

  /** A PATCH changes exactly the columns whose body field is truthy, a stored
      account id keeps its `act_` prefix, and a body with no truthy field
      leaves the row as it was. */
  lemma UpdatesKeepPrefix(d: Dashboard, body: DashboardBody)
    requires StartsWith(d.actId, "act_")
    ensures var e := ApplyUpdates(d, UpdatesOf(body));
      && StartsWith(e.actId, "act_")
      && e.name == (if Truthy(body.name) then body.name.value else d.name)
      && e.actId == (if Truthy(body.actId) then NormalizeActId(body.actId.value) else d.actId)
      && e.dashType == (if Truthy(body.dashType) then body.dashType.value else d.dashType)
      && e.conversionEvent == (if Truthy(body.conversionEvent) then body.conversionEvent.value else d.conversionEvent)
    ensures !Truthy(body.name) && !Truthy(body.actId) && !Truthy(body.dashType) && !Truthy(body.conversionEvent) ==>
      ApplyUpdates(d, UpdatesOf(body)) == d
  {
  }

  /** The authenticated user. */
  datatype User = User(id: int, role: string)

  /** One dashboard_access row. */
  datatype AccessRow = AccessRow(dashboardId: int, userId: int, role: string)

  /** The number of access rows for a dashboard and a user, of any role when
      `role` is None. */
  function CountRows(rows: seq<AccessRow>, dashId: int, userId: int, role: Option<string>): nat {
    if rows == [] then 0
    else
      var r := rows[0];
      (if r.dashboardId == dashId && r.userId == userId && (role.None? || r.role == role.value) then 1 else 0)
      + CountRows(rows[1..], dashId, userId, role)
  }

  /** `checkDashboardAccess`: admins always; others when the lookup finds a
      single access row (the query's `.single()` yields nothing for zero rows
      and for several). */
  predicate CheckDashboardAccess(user: User, rows: seq<AccessRow>, dashId: int) {
    user.role == "admin" || CountRows(rows, dashId, user.id, None) == 1
  }

  /** Granting or revoking access: admins always; others when they hold a
      single manager row for the dashboard. */
  predicate CanManageAccess(user: User, rows: seq<AccessRow>, dashId: int) {
    user.role == "admin" || CountRows(rows, dashId, user.id, Some("manager")) == 1
  }

  /** No two rows for the same dashboard and user (the upsert's conflict key). */
  predicate UniqueKeys(rows: seq<AccessRow>) {
    forall i, j :: 0 <= i < j < |rows| ==>
      !(rows[i].dashboardId == rows[j].dashboardId && rows[i].userId == rows[j].userId)
  }

  predicate HasRow(rows: seq<AccessRow>, dashId: int, userId: int, role: Option<string>) {
    exists i :: 0 <= i < |rows| && rows[i].dashboardId == dashId && rows[i].userId == userId
      && (role.None? || rows[i].role == role.value)
  }

  /** With unique keys there is at most one matching row, and there is one
      exactly when such a row exists. */
  lemma {:induction false} CountRowsUnique(rows: seq<AccessRow>, dashId: int, userId: int, role: Option<string>)
    requires UniqueKeys(rows)
    ensures CountRows(rows, dashId, userId, role) <= 1
    ensures CountRows(rows, dashId, userId, role) == 1 <==> HasRow(rows, dashId, userId, role)
  {
    if rows != [] {
      assert UniqueKeys(rows[1..]) by {
        forall i, j | 0 <= i < j < |rows[1..]|
          ensures !(rows[1..][i].dashboardId == rows[1..][j].dashboardId && rows[1..][i].userId == rows[1..][j].userId)
        {
          assert rows[1..][i] == rows[i + 1] && rows[1..][j] == rows[j + 1];
        }
      }
      CountRowsUnique(rows[1..], dashId, userId, role);
      var r := rows[0];
      if r.dashboardId == dashId && r.userId == userId {
        forall k | 0 <= k < |rows[1..]|
          ensures !(rows[1..][k].dashboardId == dashId && rows[1..][k].userId == userId)
        {
          assert rows[1..][k] == rows[k + 1];
        }
        CountRowsUnique(rows[1..], dashId, userId, None);
        CountRowsSub(rows[1..], dashId, userId, role);
      }
      assert HasRow(rows, dashId, userId, role) <==>
        (r.dashboardId == dashId && r.userId == userId && (role.None? || r.role == role.value))
        || HasRow(rows[1..], dashId, userId, role) by {
        if HasRow(rows, dashId, userId, role) {
          var k :| 0 <= k < |rows| && rows[k].dashboardId == dashId && rows[k].userId == userId
            && (role.None? || rows[k].role == role.value);
          if k > 0 { assert rows[1..][k - 1] == rows[k]; }
        }
        if HasRow(rows[1..], dashId, userId, role) {
          var k :| 0 <= k < |rows[1..]| && rows[1..][k].dashboardId == dashId && rows[1..][k].userId == userId
            && (role.None? || rows[1..][k].role == role.value);
          assert rows[k + 1] == rows[1..][k];
        }
      }
    }
  }

  /** Rows of one role are among the rows of any role. */
  lemma {:induction false} CountRowsSub(rows: seq<AccessRow>, dashId: int, userId: int, role: Option<string>)
    ensures CountRows(rows, dashId, userId, role) <= CountRows(rows, dashId, userId, None)
  {
    if rows != [] {
      CountRowsSub(rows[1..], dashId, userId, role);
    }
  }

  /** With unique keys: a non-admin sees a dashboard exactly when an access
      row exists for them, may manage its access exactly when that row has
      the manager role, and anyone who may manage it may also see it. */
  lemma AccessRules(user: User, rows: seq<AccessRow>, dashId: int)
    requires UniqueKeys(rows)
    ensures user.role != "admin" ==> (CheckDashboardAccess(user, rows, dashId) <==> HasRow(rows, dashId, user.id, None))
    ensures user.role != "admin" ==>
      (CanManageAccess(user, rows, dashId) <==> HasRow(rows, dashId, user.id, Some("manager")))
    ensures CanManageAccess(user, rows, dashId) ==> CheckDashboardAccess(user, rows, dashId)
  {
    CountRowsUnique(rows, dashId, user.id, None);
    CountRowsUnique(rows, dashId, user.id, Some("manager"));
    if HasRow(rows, dashId, user.id, Some("manager")) {
      var k :| 0 <= k < |rows| && rows[k].dashboardId == dashId && rows[k].userId == user.id && rows[k].role == "manager";
      assert HasRow(rows, dashId, user.id, None);
    }
  }

  /** Two rows for the same key hide the dashboard from its user: the
      single-row lookup finds none. */
  lemma DuplicateRowsDenyAccess(dashId: int, userId: int)
    ensures !CheckDashboardAccess(User(userId, "viewer"),
      [AccessRow(dashId, userId, "viewer"), AccessRow(dashId, userId, "manager")], dashId)
  {
    var rows := [AccessRow(dashId, userId, "viewer"), AccessRow(dashId, userId, "manager")];
    assert rows[1..] == [rows[1]] && [rows[1]][1..] == [];
    assert CountRows([rows[1]], dashId, userId, None) == 1;
    assert CountRows(rows, dashId, userId, None) == 2;
    assert "viewer" != "admin";
  }

  /** The table after granting `role` to `userId` on `dashId` (upsert on the
      dashboard and user). */
  function Upsert(rows: seq<AccessRow>, dashId: int, userId: int, role: string): (r: seq<AccessRow>)
    ensures |r| <= |rows| + 1
  {
    if rows == [] then [AccessRow(dashId, userId, role)]
    else if rows[0].dashboardId == dashId && rows[0].userId == userId then [AccessRow(dashId, userId, role)] + rows[1..]
    else [rows[0]] + Upsert(rows[1..], dashId, userId, role)
  }

  /** The table after revoking `userId`'s access to `dashId`. */
  function Remove(rows: seq<AccessRow>, dashId: int, userId: int): (r: seq<AccessRow>)
    ensures |r| <= |rows|
  {
    if rows == [] then []
    else if rows[0].dashboardId == dashId && rows[0].userId == userId then Remove(rows[1..], dashId, userId)
    else [rows[0]] + Remove(rows[1..], dashId, userId)
  }

  /** POST /api/dashboards/:id/access: only an admin or a manager of the
      dashboard may grant; the role defaults to "viewer". */
  function GrantAccess(actor: User, rows: seq<AccessRow>, dashId: int, userId: int, role: Option<string>)
    : (r: Result<seq<AccessRow>, HttpError>)
    ensures r.Failure? <==> !CanManageAccess(actor, rows, dashId)
    ensures r.Failure? ==> r.error == HttpError(403, "No permission")
    ensures r.Success? ==> r.value == Upsert(rows, dashId, userId, if role.Some? then role.value else "viewer")
  {
    if !CanManageAccess(actor, rows, dashId) then Failure(HttpError(403, "No permission"))
    else Success(Upsert(rows, dashId, userId, if role.Some? then role.value else "viewer"))
  }

  /** DELETE /api/dashboards/:id/access/:userId: the same permission rule. */
  function RevokeAccess(actor: User, rows: seq<AccessRow>, dashId: int, userId: int)
    : (r: Result<seq<AccessRow>, HttpError>)
    ensures r.Failure? <==> !CanManageAccess(actor, rows, dashId)
    ensures r.Failure? ==> r.error == HttpError(403, "No permission")
    ensures r.Success? ==> r.value == Remove(rows, dashId, userId)
  {
    if !CanManageAccess(actor, rows, dashId) then Failure(HttpError(403, "No permission"))
    else Success(Remove(rows, dashId, userId))
  }

  /** After a grant the user holds exactly the granted role on the dashboard
      and the keys stay unique; after a revoke a non-admin has no access. */
  lemma {:induction false} UpsertGrants(rows: seq<AccessRow>, dashId: int, userId: int, role: string)
    requires UniqueKeys(rows)
    ensures UniqueKeys(Upsert(rows, dashId, userId, role))
    ensures CountRows(Upsert(rows, dashId, userId, role), dashId, userId, None) == 1
    ensures CountRows(Upsert(rows, dashId, userId, role), dashId, userId, Some(role)) == 1
  {
    var u := Upsert(rows, dashId, userId, role);
    if rows != [] && !(rows[0].dashboardId == dashId && rows[0].userId == userId) {
      UniqueTail(rows);
      UpsertGrants(rows[1..], dashId, userId, role);
      var rest := Upsert(rows[1..], dashId, userId, role);
      UpsertKeys(rows[1..], dashId, userId, role);
      assert u == [rows[0]] + rest;
      forall y | y in rest
        ensures !(y.dashboardId == rows[0].dashboardId && y.userId == rows[0].userId)
      {
        if !(y.dashboardId == dashId && y.userId == userId) {
          var k :| 0 <= k < |rows[1..]| && rows[1..][k] == y;
          assert rows[k + 1] == y;
        }
      }
      UniqueCons(rows[0], rest);
    } else if rows != [] {
      assert CountRows(rows[1..], dashId, userId, None) == 0 by {
        NoOtherRow(rows, dashId, userId);
      }
      CountRowsSub(rows[1..], dashId, userId, Some(role));
      assert u[1..] == rows[1..];
    }
  }

  /** The rows after the first of a table with unique keys have unique keys. */
  lemma UniqueTail(rows: seq<AccessRow>)
    requires UniqueKeys(rows) && rows != []
    ensures UniqueKeys(rows[1..])
  {
    forall i, j | 0 <= i < j < |rows[1..]|
      ensures !(rows[1..][i].dashboardId == rows[1..][j].dashboardId && rows[1..][i].userId == rows[1..][j].userId)
    {
      assert rows[1..][i] == rows[i + 1] && rows[1..][j] == rows[j + 1];
    }
  }

  /** A row whose key is new, put in front of a table with unique keys, keeps them unique. */
  lemma UniqueCons(x: AccessRow, rest: seq<AccessRow>)
    requires UniqueKeys(rest)
    requires forall y :: y in rest ==> !(y.dashboardId == x.dashboardId && y.userId == x.userId)
    ensures UniqueKeys([x] + rest)
  {
    var u := [x] + rest;
    forall i, j | 0 <= i < j < |u|
      ensures !(u[i].dashboardId == u[j].dashboardId && u[i].userId == u[j].userId)
    {
      assert u[j] == rest[j - 1];
      if i > 0 {
        assert u[i] == rest[i - 1];
      }
    }
  }

  /** Every row of an upsert is the granted row or a row that was there. */
  lemma {:induction false} UpsertKeys(rows: seq<AccessRow>, dashId: int, userId: int, role: string)
    ensures forall x :: x in Upsert(rows, dashId, userId, role) ==>
      (x.dashboardId == dashId && x.userId == userId) || x in rows
  {
    if rows != [] && !(rows[0].dashboardId == dashId && rows[0].userId == userId) {
      UpsertKeys(rows[1..], dashId, userId, role);
    }
  }

  /** An upsert keeps every row of another dashboard or user. */
  lemma {:induction false} UpsertKeepsOthers(rows: seq<AccessRow>, dashId: int, userId: int, role: string)
    ensures forall x :: x in rows && !(x.dashboardId == dashId && x.userId == userId) ==>
      x in Upsert(rows, dashId, userId, role)
  {
    if rows != [] {
      UpsertKeepsOthers(rows[1..], dashId, userId, role);
      assert forall x :: x in rows ==> x == rows[0] || x in rows[1..];
    }
  }

  /** With unique keys, the first row's key appears nowhere after it. */
  lemma NoOtherRow(rows: seq<AccessRow>, dashId: int, userId: int)
    requires UniqueKeys(rows) && rows != []
    requires rows[0].dashboardId == dashId && rows[0].userId == userId
    ensures CountRows(rows[1..], dashId, userId, None) == 0
  {
    CountZero(rows[1..], dashId, userId);
    forall k | 0 <= k < |rows[1..]|
      ensures !(rows[1..][k].dashboardId == dashId && rows[1..][k].userId == userId)
    {
      assert rows[1..][k] == rows[k + 1];
    }
  }

  lemma {:induction false} CountZero(rows: seq<AccessRow>, dashId: int, userId: int)
    ensures (forall k :: 0 <= k < |rows| ==> !(rows[k].dashboardId == dashId && rows[k].userId == userId))
      ==> CountRows(rows, dashId, userId, None) == 0
  {
    if rows != [] {
      CountZero(rows[1..], dashId, userId);
      if forall k :: 0 <= k < |rows| ==> !(rows[k].dashboardId == dashId && rows[k].userId == userId) {
        assert forall k :: 0 <= k < |rows[1..]| ==> rows[1..][k] == rows[k + 1];
      }
    }
  }

  /** A revoke keeps exactly the rows of other dashboards or users. */
  lemma {:induction false} RemoveKeepsOthers(rows: seq<AccessRow>, dashId: int, userId: int)
    ensures forall x :: x in Remove(rows, dashId, userId) <==>
      x in rows && !(x.dashboardId == dashId && x.userId == userId)
  {
    if rows != [] {
      RemoveKeepsOthers(rows[1..], dashId, userId);
      assert forall x :: x in rows <==> x == rows[0] || x in rows[1..];
    }
  }

  /** After a revoke the user has no row for the dashboard. */
  lemma {:induction false} RemoveRevokes(rows: seq<AccessRow>, dashId: int, userId: int)
    ensures CountRows(Remove(rows, dashId, userId), dashId, userId, None) == 0
  {
    if rows != [] {
      RemoveRevokes(rows[1..], dashId, userId);
    }
  }
}
