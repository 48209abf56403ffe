/**
 * The readiness banner (components/ServerStatusBanner.tsx): it asks the backend's
 * `/config/check` whenever the address changes or the user asks again, keeps
 * (status, loading, error), reports the status to its parent, and shows one of four
 * banners.
 */
module ServerStatusBanner {
  import opened Wrappers
  import opened Types
  import opened Http
  import JsText

  const NoUrlMessage: string := "后端服务地址未配置，请先配置后端服务地址。"
  const ConnectFailedPrefix: string := "无法连接到后端服务: "
  const NotConfiguredLine: string := "❌ 未配置"
  const ValidMark: string := "✅ "

  /** The four banners, in the order the render tests for them. */
  datatype Banner =
    | Checking
    | ConnectionFailed(error: string)
    | Incomplete(report: Option<ServerConfigStatus>)
    | Ready(status: ServerConfigStatus)

  /** The `status` and `error` a finished check leaves behind. */
  datatype Settlement = Settlement(status: Option<ServerConfigStatus>, error: Option<string>)

  /** The render's cascade: loading, then a truthy error, then `!status?.all_ready`, else ready. */
  function SelectBanner(loading: bool, error: Option<string>, status: Option<ServerConfigStatus>): (b: Banner)
    ensures loading <==> b.Checking?
    ensures b.ConnectionFailed? <==> !loading && Truthy(error)
    ensures b.ConnectionFailed? ==> b.error == error.value
    ensures b.Ready? <==> !loading && !Truthy(error) && status.Some? && status.value.allReady
    ensures b.Ready? ==> status == Some(b.status)
    ensures b.Incomplete? ==> b.report == status
  {
    if loading then Checking
    else if Truthy(error) then ConnectionFailed(error.value)
    else if !(status.Some? && status.value.allReady) then Incomplete(status)
    else Ready(status.value)
  }

  /** The two lines of the incomplete banner: a check mark and the message, or "not configured". */
  function IncompleteLines(status: Option<ServerConfigStatus>): (lines: (string, string))
    ensures status.Some? && status.value.telegramConfigValid ==> lines.0 == ValidMark + status.value.telegramMessage
    ensures !(status.Some? && status.value.telegramConfigValid) ==> lines.0 == NotConfiguredLine
    ensures status.Some? && status.value.botConfigValid ==> lines.1 == ValidMark + status.value.botMessage
    ensures !(status.Some? && status.value.botConfigValid) ==> lines.1 == NotConfiguredLine
  {
    var telegram := if status.Some? && status.value.telegramConfigValid then ValidMark + status.value.telegramMessage else NotConfiguredLine;
    var bot := if status.Some? && status.value.botConfigValid then ValidMark + status.value.botMessage else NotConfiguredLine;
    (telegram, bot)
  }

  /** How the fetch inside the check settles: a response that is not ok is thrown as `HTTP <code>: <text>`. */
  function FetchResult(outcome: Outcome<ServerConfigStatus>): (r: Result<ServerConfigStatus>)
    ensures r.Ok? <==> outcome.Completed? && outcome.ok
    ensures r.Ok? ==> r.value == outcome.payload
    ensures outcome.Thrown? ==> r == Err(outcome.error)
    ensures outcome.Completed? && !outcome.ok ==>
      r == Err(Error(PlainError, "HTTP " + JsText.NatToString(outcome.status) + ": " + outcome.statusText))
  {
    match outcome
    case Thrown(e) => Err(e)
    case Completed(ok, status, statusText, _, payload) =>
      if ok then Ok(payload)
      else Err(Error(PlainError, "HTTP " + JsText.NatToString(status) + ": " + statusText))
  }

  /** The state a check leaves: no address, a failed fetch, or the reported status. */
  function CheckSettlement(backendUrl: string, outcome: Outcome<ServerConfigStatus>): (s: Settlement)
    ensures s.status.Some? <==> backendUrl != "" && outcome.Completed? && outcome.ok
    ensures s.status.Some? ==> s.status.value == outcome.payload && s.error == None
    ensures s.status.None? ==> Truthy(s.error)
    ensures backendUrl == "" ==> s.error == Some(NoUrlMessage)
    ensures backendUrl != "" && s.status.None? ==> s.error == Some(ConnectFailedPrefix + MessageOrUnknown(FetchResult(outcome).error))
  {
    if backendUrl == "" then Settlement(None, Some(NoUrlMessage))
    else
      match FetchResult(outcome)
      case Ok(data) => Settlement(Some(data), None)
      case Err(e) => Settlement(None, Some(ConnectFailedPrefix + MessageOrUnknown(e)))
  }

  /** After a check exactly one of `status` and a truthy `error` is set. */
  predicate Settled(error: Option<string>, status: Option<ServerConfigStatus>) {
    (Truthy(error) && status.None?) || (error.None? && status.Some?)
  }

  class StatusBanner {
    var backendUrl: string
    var status: Option<ServerConfigStatus>
    var loading: bool
    var error: Option<string>
    /** The arguments of every `onStatusChange` call so far. */
    var notifications: seq<Option<ServerConfigStatus>>
    /** The address of every fetch issued so far. */
    var fetched: seq<string>

    /** The first render, before the effect has run. */
    constructor (backendUrl: string)
      ensures this.backendUrl == backendUrl
      ensures status == None && loading && error == None
      ensures notifications == [] && fetched == []
    {
      this.backendUrl := backendUrl;
      status := None;
      loading := true;
      error := None;
      notifications := [];
      fetched := [];
    }

    /** `checkServerStatus`, run by the effect and by the retry buttons. */
    method CheckServerStatus(outcome: Outcome<ServerConfigStatus>)
      modifies this`status, this`loading, this`error, this`notifications, this`fetched
      ensures !loading
      ensures status == CheckSettlement(backendUrl, outcome).status
      ensures error == CheckSettlement(backendUrl, outcome).error
      ensures notifications == old(notifications) + [status]
      ensures fetched == old(fetched) + (if backendUrl == "" then [] else [backendUrl + "/config/check"])
      ensures Settled(error, status)
    {
      if backendUrl == "" {
        error := Some(NoUrlMessage);
        status := None;
        notifications := notifications + [None];
        loading := false;
        return;
      }
      loading := true;
      error := None;
      fetched := fetched + [backendUrl + "/config/check"];
      match FetchResult(outcome) {
        case Ok(statusData) =>
          status := Some(statusData);
          notifications := notifications + [Some(statusData)];
        case Err(e) =>
          error := Some(ConnectFailedPrefix + MessageOrUnknown(e));
          status := None;
          notifications := notifications + [None];
      }
      loading := false;
    }

    /** A new `backendUrl` prop: the effect re-runs the check only when the address differs. */
    method SetBackendUrl(newUrl: string, outcome: Outcome<ServerConfigStatus>)
      modifies this
      ensures newUrl == old(backendUrl) ==> unchanged(this)
      ensures newUrl != old(backendUrl) ==>
        && backendUrl == newUrl && !loading
        && status == CheckSettlement(newUrl, outcome).status
        && error == CheckSettlement(newUrl, outcome).error
        && notifications == old(notifications) + [status]
        && fetched == old(fetched) + (if newUrl == "" then [] else [newUrl + "/config/check"])
    {
      if newUrl != backendUrl {
        backendUrl := newUrl;
        CheckServerStatus(outcome);
      }
    }

    /** The banner on screen. */
    function Render(): (b: Banner)
      reads this
      ensures !loading && Settled(error, status) ==> !(b.Incomplete? && b.report.None?)
    {
      SelectBanner(loading, error, status)
    }
  }

  /**
   * A finished check decides the banner: connection failure unless an address is set
   * and the fetch succeeds; otherwise ready exactly when the backend reports `all_ready`,
   * and incomplete, with the report to show, when it does not.
   */
  lemma CheckDecidesBanner(backendUrl: string, outcome: Outcome<ServerConfigStatus>)
    ensures var s := CheckSettlement(backendUrl, outcome);
      var b := SelectBanner(false, s.error, s.status);
      && (b.ConnectionFailed? <==> !(backendUrl != "" && outcome.Completed? && outcome.ok))
      && (b.Ready? <==> backendUrl != "" && outcome.Completed? && outcome.ok && outcome.payload.allReady)
      && (b.Incomplete? ==> b.report == Some(outcome.payload) && !outcome.payload.allReady)
  {
  }
}
