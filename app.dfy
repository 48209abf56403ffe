/**
 * The monitor dashboard (App.tsx): a locally persisted list of monitors keyed by `id`,
 * a set of ids with a request in flight, and the save, delete and toggle handlers that
 * issue a request to the monitor's backend and then patch the list.
 */
module App {
  import opened Wrappers
  import opened Types
  import opened Http
  import JsText
  import MonitorCard

  /** The JSON body of a request: the whole monitor, or `{ id }`. */
  datatype AppBody = WholeMonitor(monitor: MonitorConfig) | IdOnly(id: string)

  /** One `POST` issued by the dashboard (every request it makes is a `POST`). */
  datatype AppRequest = AppRequest(url: string, body: AppBody) {
    /** The id of the monitor the request is about. */
    function TargetId(): string {
      match body
      case WholeMonitor(m) => m.id
      case IdOnly(id) => id
    }
  }

  const NetworkHint: string := "网络请求失败 (Failed to fetch)。\n\n请检查以下几点：\n1. 确保您的 Python 后端服务正在运行。\n2. 确认您在表单中填写的 \"后端服务地址\" (例如 http://127.0.0.1:8080) 是否正确无误。\n3. 检查浏览器开发者控制台 (F12) 获取更多信息。"
  const UnparsableMessage: string := "请求失败，请检查后端服务日志"
  const HttpErrorPrefix: string := "HTTP error! status: "
  const SaveFailedPrefix: string := "保存失败: "
  const ToggleFailedPrefix: string := "操作失败: "
  const StopWarningPrefix: string := "后端停止请求可能失败 (这在后端服务已关闭时是正常的): "

  /** `${monitor.backendUrl}`: the stored URL, or "undefined" when the property is absent. */
  function UrlBase(backendUrl: Option<string>): string {
    match backendUrl
    case Some(u) => u
    case None => "undefined"
  }

  /** A request URL starts with the stored address, or with "undefined" when there is none. */
  lemma UrlBaseInterpolates(backendUrl: Option<string>)
    ensures backendUrl.Some? ==> UrlBase(backendUrl) == backendUrl.value
    ensures backendUrl.None? ==> UrlBase(backendUrl) == "undefined"
  {
  }

  /** `POST ${backendUrl}/monitor/start` with the whole monitor as the body. */
  function StartRequest(m: MonitorConfig): (req: AppRequest)
    ensures req.TargetId() == m.id
    ensures req.url == UrlBase(m.backendUrl) + "/monitor/start"
    ensures req.body == WholeMonitor(m)
  {
    AppRequest(UrlBase(m.backendUrl) + "/monitor/start", WholeMonitor(m))
  }

  /** `POST ${backendUrl}/monitor/stop` with `{ id }` as the body. */
  function StopRequest(backendUrl: Option<string>, id: string): (req: AppRequest)
    ensures req.TargetId() == id
    ensures req.url == UrlBase(backendUrl) + "/monitor/stop"
    ensures req.body == IdOnly(id)
  {
    AppRequest(UrlBase(backendUrl) + "/monitor/stop", IdOnly(id))
  }

  /**
   * The message `apiRequest` throws for a response that is not ok: the body's `message`
   * when truthy, else the status-code text; an unparsable body stands for
   * `{ message: '请求失败，请检查后端服务日志' }`. The body's `detail` is never consulted.
   */
  function AppErrorMessage(status: nat, body: ErrorBody): (r: string)
    ensures r != ""
    ensures body.Unparsable? ==> r == UnparsableMessage
    ensures body.JsonBody? && Truthy(body.message) ==> r == body.message.value
    ensures body.JsonBody? && !Truthy(body.message) ==> r == HttpErrorPrefix + JsText.NatToString(status)
  {
    match body
    case Unparsable => UnparsableMessage
    case JsonBody(_, message) =>
      if Truthy(message) then message.value else HttpErrorPrefix + JsText.NatToString(status)
  }

  /** How `apiRequest` settles for a given fetch outcome. */
  function ApiRequestResult(outcome: Outcome<()>): (r: Result<()>)
    ensures r.Ok? <==> outcome.Completed? && outcome.ok
    ensures outcome.Thrown? ==> r == Err(outcome.error)
    ensures outcome.Completed? && !outcome.ok ==>
      r == Err(Error(PlainError, AppErrorMessage(outcome.status, outcome.errorBody)))
  {
    match outcome
    case Thrown(e) => Err(e)
    case Completed(ok, status, _, body, _) =>
      if ok then Ok(()) else Err(Error(PlainError, AppErrorMessage(status, body)))
  }

  /** The dashboard's `getFriendlyErrorMessage`, whose network hint points at the form's backend URL. */
  function GetFriendlyErrorMessage(e: JsError): (r: string)
    ensures e.Error? && e.name == TypeError && JsText.Includes(e.message, FailedToFetch) ==> r == NetworkHint
    ensures e.Error? && !(e.name == TypeError && JsText.Includes(e.message, FailedToFetch)) ==> r == e.message
    ensures e.NonError? ==> r == UnknownError
  {
    FriendlyMessage(e, NetworkHint)
  }

  /** `ms.findIndex(m => m.id === id)`: the first index holding `id`, or -1. */
  function FindIndex(ms: seq<MonitorConfig>, id: string): (i: int)
    ensures -1 <= i < |ms|
    ensures i == -1 <==> !HasId(ms, id)
    ensures 0 <= i ==> ms[i].id == id && forall k :: 0 <= k < i ==> ms[k].id != id
  {
    if ms == [] then -1
    else if ms[0].id == id then 0
    else
      var j := FindIndex(ms[1..], id);
      assert HasId(ms[1..], id) ==> HasId(ms, id) by {
        if HasId(ms[1..], id) {
          var k :| 0 <= k < |ms[1..]| && ms[1..][k].id == id;
          assert ms[k + 1].id == id;
        }
      }
      assert HasId(ms, id) ==> HasId(ms[1..], id) by {
        if HasId(ms, id) {
          var k :| 0 <= k < |ms| && ms[k].id == id;
          assert k != 0;
          assert ms[1..][k - 1].id == id;
        }
      }
      if j == -1 then -1 else j + 1
  }

  /** `ms.find(m => m.id === id)`: the first monitor with that id, if any. */
  function FindById(ms: seq<MonitorConfig>, id: string): (r: Option<MonitorConfig>)
    ensures r.Some? <==> HasId(ms, id)
    ensures r.Some? ==> r.value.id == id && r.value in ms
    ensures r.Some? ==> r.value == ms[FindIndex(ms, id)]
  {
    var i := FindIndex(ms, id);
    if i == -1 then None else Some(ms[i])
  }

  /** The update `handleSaveMonitor` applies on success: replace the entry with the same id in place, or append. */
  function Upsert(ms: seq<MonitorConfig>, m: MonitorConfig): (r: seq<MonitorConfig>)
    ensures HasId(ms, m.id) ==> |r| == |ms|
    ensures !HasId(ms, m.id) ==> r == ms + [m]
    ensures m in r
  {
    var i := FindIndex(ms, m.id);
    if i > -1 then
      assert ms[i := m][i] == m;
      ms[i := m]
    else
      assert (ms + [m])[|ms|] == m;
      ms + [m]
  }

  /** The update `handleDeleteMonitor` applies: `ms.filter(m => m.id !== id)`. */
  function RemoveId(ms: seq<MonitorConfig>, id: string): (r: seq<MonitorConfig>)
    ensures |r| <= |ms|
    ensures forall x :: x in r <==> x in ms && x.id != id
  {
    if ms == [] then []
    else (if ms[0].id == id then [] else [ms[0]]) + RemoveId(ms[1..], id)
  }

  /** One entry of the toggle update. */
  function FlipIfId(m: MonitorConfig, id: string): MonitorConfig {
    if m.id == id then m.(isEnabled := !m.isEnabled) else m
  }

  /** The update `handleToggleMonitor` applies on success: `ms.map(m => m.id === id ? { ...m, isEnabled: !m.isEnabled } : m)`. */
  function FlipEnabled(ms: seq<MonitorConfig>, id: string): (r: seq<MonitorConfig>)
    ensures |r| == |ms|
    ensures forall k :: 0 <= k < |ms| ==> r[k].id == ms[k].id
    ensures forall k :: 0 <= k < |ms| && ms[k].id == id ==>
      r[k] == ms[k].(isEnabled := !ms[k].isEnabled)
    ensures forall k :: 0 <= k < |ms| && ms[k].id != id ==> r[k] == ms[k]
  {
    if ms == [] then [] else [FlipIfId(ms[0], id)] + FlipEnabled(ms[1..], id)
  }

  /**
   * The request `handleSaveMonitor` chooses: start with the whole monitor when it is
   * enabled, stop `{ id }` when it is disabled and already listed, none otherwise.
   */
  function SaveRequest(ms: seq<MonitorConfig>, m: MonitorConfig): (r: Option<AppRequest>)
    ensures r.None? <==> !m.isEnabled && !HasId(ms, m.id)
    ensures r.Some? ==> r.value.TargetId() == m.id
    ensures r.Some? ==> (r.value.body.WholeMonitor? <==> m.isEnabled)
    ensures r.Some? && r.value.body.WholeMonitor? ==> r.value.body.monitor == m
    ensures r.Some? ==> r.value.url == UrlBase(m.backendUrl) + (if m.isEnabled then "/monitor/start" else "/monitor/stop")
  {
    if m.isEnabled then Some(StartRequest(m))
    else if HasId(ms, m.id) then Some(StopRequest(m.backendUrl, m.id))
    else None
  }

  /** Whether the save succeeds: it does when no request is needed. */
  function SaveResult(ms: seq<MonitorConfig>, m: MonitorConfig, outcome: Outcome<()>): (r: Result<()>)
    ensures r.Ok? <==> SaveRequest(ms, m).None? || ApiRequestResult(outcome).Ok?
    ensures SaveRequest(ms, m).Some? ==> r == ApiRequestResult(outcome)
  {
    match SaveRequest(ms, m)
    case None => Ok(())
    case Some(_) => ApiRequestResult(outcome)
  }

  /** The request `handleToggleMonitor` chooses for the listed monitor `m`. */
  function ToggleRequest(m: MonitorConfig, id: string): AppRequest
    requires m.id == id
  {
    if !m.isEnabled then StartRequest(m) else StopRequest(m.backendUrl, id)
  }

  /** The list after a toggle settles: flipped on success, untouched on failure. */
  function AfterToggle(ms: seq<MonitorConfig>, id: string, r: Result<()>): seq<MonitorConfig> {
    if r.Ok? then FlipEnabled(ms, id) else ms
  }

  /** What `handleToggleMonitor` alerts after its request settles: nothing on success. */
  function ToggleAlerts(r: Result<()>): seq<string> {
    match r
    case Ok(_) => []
    case Err(e) => [ToggleFailedPrefix + GetFriendlyErrorMessage(e)]
  }

  /** What `handleDeleteMonitor` logs with `console.warn` after its stop request settles. */
  function DeleteWarnings(r: Result<()>): seq<string> {
    match r
    case Ok(_) => []
    case Err(e) => [StopWarningPrefix + MessageOrUnknown(e)]
  }

  /** The main area of the dashboard: the empty-state notice, or one card per monitor. */
  datatype DashboardView = EmptyState | CardGrid(cards: seq<MonitorCard.Card>)

  /** One card per monitor, in list order, each syncing exactly when its id is in flight. */
  function Cards(ms: seq<MonitorConfig>, syncing: set<string>): (cards: seq<MonitorCard.Card>)
    ensures |cards| == |ms|
    ensures forall i :: 0 <= i < |ms| ==> cards[i] == MonitorCard.CardFor(ms[i], ms[i].id in syncing)
  {
    if ms == [] then [] else [MonitorCard.CardFor(ms[0], ms[0].id in syncing)] + Cards(ms[1..], syncing)
  }

  function Dashboard(ms: seq<MonitorConfig>, syncing: set<string>): (v: DashboardView)
    ensures v.EmptyState? <==> |ms| == 0
    ensures v.CardGrid? ==> v.cards == Cards(ms, syncing)
  {
    if |ms| == 0 then EmptyState else CardGrid(Cards(ms, syncing))
  }

  /** A monitor whose request is in flight shows a frozen card; all others stay operable. */
  lemma InFlightCardsFrozen(ms: seq<MonitorConfig>, syncing: set<string>, i: nat)
    requires i < |ms|
    ensures Cards(ms, syncing)[i].controls.toggleDisabled <==> ms[i].id in syncing
    ensures ms[i].id in syncing ==> Cards(ms, syncing)[i].statusText == MonitorCard.SyncingText
  {
  }

  /** The dashboard's state. `requests`, `alerts` and `warnings` record what the handlers sent and showed. */
  class Console {
    var monitors: seq<MonitorConfig>
    var syncing: set<string>
    var modalOpen: bool
    var editing: Option<MonitorConfig>
    var manualOpen: bool
    var requests: seq<AppRequest>
    var alerts: seq<string>
    var warnings: seq<string>

    /** The first render: the list read back from local storage, nothing in flight, no dialog open. */
    constructor (stored: seq<MonitorConfig>)
      ensures monitors == stored && syncing == {}
      ensures !modalOpen && editing == None && !manualOpen
      ensures requests == [] && alerts == [] && warnings == []
    {
      monitors := stored;
      syncing := {};
      modalOpen := false;
      editing := None;
      manualOpen := false;
      requests := [];
      alerts := [];
      warnings := [];
    }

    /** What the dashboard renders for the current state. */
    function View(): (v: DashboardView)
      reads this
      ensures v.EmptyState? <==> monitors == []
      ensures v.CardGrid? ==> v.cards == Cards(monitors, syncing)
    {
      Dashboard(monitors, syncing)
    }

    method OpenModal(monitor: Option<MonitorConfig>)
      modifies this`modalOpen, this`editing
      ensures modalOpen && editing == monitor
    {
      editing := monitor;
      modalOpen := true;
    }

    method CloseModal()
      modifies this`modalOpen, this`editing
      ensures !modalOpen && editing == None
    {
      modalOpen := false;
      editing := None;
    }

    method OpenManual()
      modifies this`manualOpen
      ensures manualOpen
    {
      manualOpen := true;
    }

    method CloseManual()
      modifies this`manualOpen
      ensures !manualOpen
    {
      manualOpen := false;
    }

    /**
     * Issue one request and wait for it to settle. The precondition is the discipline
     * of the handlers: a monitor's id is in the syncing set for as long as a request
     * about it is in flight.
     */
    method Post(req: AppRequest, outcome: Outcome<()>) returns (r: Result<()>)
      requires req.TargetId() in syncing
      modifies this`requests
      ensures requests == old(requests) + [req]
      ensures r == ApiRequestResult(outcome)
    {
      requests := requests + [req];
      r := ApiRequestResult(outcome);
    }

    /** `handleSaveMonitor`. */
    method SaveMonitor(monitor: MonitorConfig, outcome: Outcome<()>)
      modifies this`monitors, this`syncing, this`requests, this`alerts, this`modalOpen, this`editing
      ensures requests == old(requests) + SaveRequest(old(monitors), monitor).ToSeq()
      ensures syncing == old(syncing) - {monitor.id}
      ensures SaveResult(old(monitors), monitor, outcome).Ok? ==>
        && monitors == Upsert(old(monitors), monitor)
        && !modalOpen && editing == None
        && alerts == old(alerts)
      ensures SaveResult(old(monitors), monitor, outcome).Err? ==>
        && monitors == old(monitors)
        && modalOpen == old(modalOpen) && editing == old(editing)
        && alerts == old(alerts) + [SaveFailedPrefix + GetFriendlyErrorMessage(SaveResult(old(monitors), monitor, outcome).error)]
      ensures UniqueIds(old(monitors)) ==> UniqueIds(monitors)
    {
      var isEditing := HasId(monitors, monitor.id);
      syncing := syncing + {monitor.id};
      var r: Result<()> := Ok(());
      if monitor.isEnabled {
        r := Post(StartRequest(monitor), outcome);
      } else if isEditing {
        r := Post(StopRequest(monitor.backendUrl, monitor.id), outcome);
      }
      if r.Ok? {
        if UniqueIds(monitors) {
          UpsertPreservesUniqueIds(monitors, monitor);
        }
        monitors := Upsert(monitors, monitor);
        CloseModal();
      } else {
        alerts := alerts + [SaveFailedPrefix + GetFriendlyErrorMessage(r.error)];
      }
      syncing := syncing - {monitor.id};
    }

    /** `handleDeleteMonitor`. */
    method DeleteMonitor(id: string, outcome: Outcome<()>)
      modifies this`monitors, this`syncing, this`requests, this`warnings
      ensures FindById(old(monitors), id).None? ==> unchanged(this)
      ensures FindById(old(monitors), id).Some? ==>
        && monitors == RemoveId(old(monitors), id)
        && syncing == old(syncing) - {id}
        && requests == old(requests) + [StopRequest(FindById(old(monitors), id).value.backendUrl, id)]
        && warnings == old(warnings) + DeleteWarnings(ApiRequestResult(outcome))
      ensures !HasId(monitors, id)
      ensures UniqueIds(old(monitors)) ==> UniqueIds(monitors)
    {
      var found := FindById(monitors, id);
      if found.None? {
        return;
      }
      var monitor := found.value;
      syncing := syncing + {id};
      var r := Post(StopRequest(monitor.backendUrl, id), outcome);
      // The entry is removed whether or not the stop request succeeded.
      if UniqueIds(monitors) {
        RemoveIdPreservesUniqueIds(monitors, id);
      }
      monitors := RemoveId(monitors, id);
      warnings := warnings + DeleteWarnings(r);
      syncing := syncing - {id};
    }

    /** `handleToggleMonitor`. */
    method ToggleMonitor(id: string, outcome: Outcome<()>)
      modifies this`monitors, this`syncing, this`requests, this`alerts
      ensures FindById(old(monitors), id).None? ==> unchanged(this)
      ensures FindById(old(monitors), id).Some? ==>
        && syncing == old(syncing) - {id}
        && requests == old(requests) + [ToggleRequest(FindById(old(monitors), id).value, id)]
        && monitors == AfterToggle(old(monitors), id, ApiRequestResult(outcome))
        && alerts == old(alerts) + ToggleAlerts(ApiRequestResult(outcome))
      ensures UniqueIds(old(monitors)) ==> UniqueIds(monitors)
    {
      var found := FindById(monitors, id);
      if found.None? {
        return;
      }
      var monitor := found.value;
      syncing := syncing + {id};
      // Start when enabling, stop `{ id }` when disabling.
      var r := Post(ToggleRequest(monitor, id), outcome);
      AfterTogglePreservesUniqueIds(monitors, id, r);
      monitors := AfterToggle(monitors, id, r);
      alerts := alerts + ToggleAlerts(r);
      syncing := syncing - {id};
    }
  }

  /** After a toggle settles the list has the same entries, the toggled one flipped on success only. */
  lemma AfterToggleSettles(ms: seq<MonitorConfig>, id: string, r: Result<()>)
    ensures |AfterToggle(ms, id, r)| == |ms|
    ensures r.Err? ==> AfterToggle(ms, id, r) == ms
    ensures r.Ok? ==> forall k :: 0 <= k < |ms| ==>
      AfterToggle(ms, id, r)[k] == (if ms[k].id == id then ms[k].(isEnabled := !ms[k].isEnabled) else ms[k])
  {
  }

  /** A settled toggle keeps the ids unique. */
  lemma AfterTogglePreservesUniqueIds(ms: seq<MonitorConfig>, id: string, r: Result<()>)
    ensures UniqueIds(ms) ==> UniqueIds(AfterToggle(ms, id, r))
  {
    if UniqueIds(ms) && r.Ok? {
      FlipEnabledPreservesUniqueIds(ms, id);
    }
  }

  /** What a settled toggle alerts: nothing on success, else the prefix and the friendly message. */
  lemma ToggleAlertsSettle(r: Result<()>)
    ensures ToggleAlerts(r) == [] <==> r.Ok?
    ensures r.Err? ==> ToggleAlerts(r) == [ToggleFailedPrefix + GetFriendlyErrorMessage(r.error)]
  {
  }

  /** What a settled delete logs: nothing on success, else the fixed warning and the thrown message. */
  lemma DeleteWarningsSettle(r: Result<()>)
    ensures DeleteWarnings(r) == [] <==> r.Ok?
    ensures r.Err? ==> DeleteWarnings(r) == [StopWarningPrefix + MessageOrUnknown(r.error)]
  {
  }

  /** A toggle is about the listed monitor and starts it exactly when it is currently disabled. */
  lemma ToggleRequestChoice(m: MonitorConfig, id: string)
    requires m.id == id
    ensures ToggleRequest(m, id).TargetId() == id
    ensures ToggleRequest(m, id).body.WholeMonitor? <==> !m.isEnabled
    ensures ToggleRequest(m, id).body.WholeMonitor? ==> ToggleRequest(m, id).body.monitor == m
    ensures ToggleRequest(m, id).url == UrlBase(m.backendUrl) + (if !m.isEnabled then "/monitor/start" else "/monitor/stop")
  {
  }

  /** A save of a listed id replaces the first entry with that id, at its index, and nothing else. */
  lemma UpsertReplacesAt(ms: seq<MonitorConfig>, m: MonitorConfig, i: int)
    requires 0 <= i < |ms| && ms[i].id == m.id
    requires forall k :: 0 <= k < i ==> ms[k].id != m.id
    ensures Upsert(ms, m) == ms[i := m]
  {
  }

  /** A save keeps the ids unique: the saved monitor takes the place of the one with its id. */
  lemma UpsertPreservesUniqueIds(ms: seq<MonitorConfig>, m: MonitorConfig)
    requires UniqueIds(ms)
    ensures UniqueIds(Upsert(ms, m))
  {
  }

  /** Removing an id that is not listed changes nothing. */
  lemma {:induction false} RemoveIdAbsent(ms: seq<MonitorConfig>, id: string)
    requires !HasId(ms, id)
    ensures RemoveId(ms, id) == ms
  {
    if ms != [] {
      assert ms[0].id != id;
      RemoveIdAbsent(ms[1..], id);
      assert ms == [ms[0]] + ms[1..];
    }
  }

  /** Removal works piecewise, so the entries that stay keep their relative order. */
  lemma {:induction false} RemoveIdConcat(a: seq<MonitorConfig>, b: seq<MonitorConfig>, id: string)
    ensures RemoveId(a + b, id) == RemoveId(a, id) + RemoveId(b, id)
  {
    if a == [] {
      assert a + b == b;
    } else {
      assert (a + b)[1..] == a[1..] + b;
      RemoveIdConcat(a[1..], b, id);
    }
  }

  /** The tail of a list with unique ids has unique ids and does not hold the head's id. */
  lemma TailUniqueIds(ms: seq<MonitorConfig>)
    requires UniqueIds(ms) && ms != []
    ensures UniqueIds(ms[1..])
    ensures !HasId(ms[1..], ms[0].id)
  {
  }

  /** With unique ids, deleting a listed id cuts out exactly that one entry. */
  lemma {:induction false} RemoveIdAt(ms: seq<MonitorConfig>, i: int)
    requires UniqueIds(ms) && 0 <= i < |ms|
    ensures RemoveId(ms, ms[i].id) == ms[..i] + ms[i + 1..]
  {
    TailUniqueIds(ms);
    var id, tail := ms[i].id, ms[1..];
    if i == 0 {
      RemoveIdAbsent(tail, id);
      assert RemoveId(ms, id) == RemoveId(tail, id);
    } else {
      assert tail[i - 1] == ms[i];
      RemoveIdAt(tail, i - 1);
      assert RemoveId(ms, id) == [ms[0]] + RemoveId(tail, id);
      ConsSplit(ms, i);
    }
  }

  /** Cutting entry `i > 0` out of a list keeps the head in front of the cut tail. */
  lemma ConsSplit(ms: seq<MonitorConfig>, i: int)
    requires 0 < i < |ms|
    ensures [ms[0]] + (ms[1..][..i - 1] + ms[1..][i..]) == ms[..i] + ms[i + 1..]
  {
    assert ms[..i] == [ms[0]] + ms[1..][..i - 1];
    assert ms[i + 1..] == ms[1..][i..];
  }

  /** Putting a monitor in front of a list keeps the ids unique when its id is new. */
  lemma ConsPreservesUniqueIds(m: MonitorConfig, rest: seq<MonitorConfig>)
    requires UniqueIds(rest)
    requires forall x :: x in rest ==> x.id != m.id
    ensures UniqueIds([m] + rest)
  {
  }

  /** Removal keeps the ids unique. */
  lemma {:induction false} RemoveIdPreservesUniqueIds(ms: seq<MonitorConfig>, id: string)
    requires UniqueIds(ms)
    ensures UniqueIds(RemoveId(ms, id))
  {
    if ms != [] {
      var tail := ms[1..];
      TailUniqueIds(ms);
      RemoveIdPreservesUniqueIds(tail, id);
      var rest := RemoveId(tail, id);
      if ms[0].id != id {
        forall x | x in rest ensures x.id != ms[0].id {
          var k :| 0 <= k < |tail| && tail[k] == x;
          assert ms[k + 1] == x;
        }
        ConsPreservesUniqueIds(ms[0], rest);
      }
    }
  }

  /** Toggling the same id twice restores the list. */
  lemma FlipEnabledInvolution(ms: seq<MonitorConfig>, id: string)
    ensures FlipEnabled(FlipEnabled(ms, id), id) == ms
  {
  }

  /** Toggling keeps the ids unique: ids never change under a toggle. */
  lemma FlipEnabledPreservesUniqueIds(ms: seq<MonitorConfig>, id: string)
    requires UniqueIds(ms)
    ensures UniqueIds(FlipEnabled(ms, id))
  {
  }
}
