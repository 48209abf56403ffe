/**
 * The backend client (services/api.ts): a mutable base address, one checked request
 * routine, the six operations built on it, and the user-facing error text.
 */
module ApiService {
  import opened Wrappers
  import opened Types
  import opened Http
  import JsText
  import App

  datatype HttpMethod = GET | POST

  /** A JSON request body: the four fields a start needs, or `{ id }`. */
  datatype ApiBody =
    | StartBody(id: string, channel: string, keywords: seq<string>, useRegex: bool)
    | IdBody(id: string)

  /** What `fetch` is called with. */
  datatype ApiRequest = ApiRequest(url: string, verb: HttpMethod, body: Option<ApiBody>)

  const NotConfiguredMessage: string := "后端服务地址未配置"
  const UnparsableDetail: string := "请求失败，请检查后端服务日志"
  const HttpErrorPrefix: string := "HTTP error! status: "
  const NetworkHint: string := "网络请求失败 (Failed to fetch)。\n\n请检查以下几点：\n1. 确保您的 Python 后端服务正在运行。\n2. 确认后端服务地址配置正确。\n3. 检查浏览器开发者控制台 (F12) 获取更多信息。"

  /**
   * The message `request` throws for a response that is not ok: `detail`, else
   * `message`, else the status-code text; an unparsable body stands for
   * `{ detail: '请求失败，请检查后端服务日志' }`.
   */
  function ErrorMessage(status: nat, body: ErrorBody): (r: string)
    ensures r != ""
    ensures body.Unparsable? ==> r == UnparsableDetail
    ensures body.JsonBody? && Truthy(body.detail) ==> r == body.detail.value
    ensures body.JsonBody? && !Truthy(body.detail) && Truthy(body.message) ==> r == body.message.value
    ensures body.JsonBody? && !Truthy(body.detail) && !Truthy(body.message) ==>
      r == HttpErrorPrefix + JsText.NatToString(status)
  {
    match body
    case Unparsable => UnparsableDetail
    case JsonBody(detail, message) =>
      if Truthy(detail) then detail.value
      else if Truthy(message) then message.value
      else HttpErrorPrefix + JsText.NatToString(status)
  }

  /** How `request` settles once the fetch has been issued. */
  function ResponseResult<T>(outcome: Outcome<T>): (r: Result<T>)
    ensures r.Ok? <==> outcome.Completed? && outcome.ok
    ensures r.Ok? ==> r.value == outcome.payload
    ensures outcome.Thrown? ==> r == Err(outcome.error)
    ensures outcome.Completed? && !outcome.ok ==>
      r == Err(Error(PlainError, ErrorMessage(outcome.status, outcome.errorBody)))
  {
    match outcome
    case Thrown(e) => Err(e)
    case Completed(ok, status, _, body, payload) =>
      if ok then Ok(payload) else Err(Error(PlainError, ErrorMessage(status, body)))
  }

  /** The fetch `request` issues from `baseUrl`: none while no address is set. */
  function Sent(baseUrl: string, endpoint: string, verb: HttpMethod, body: Option<ApiBody>): (r: Option<ApiRequest>)
    ensures r.None? <==> baseUrl == ""
    ensures r.Some? ==> |r.value.url| == |baseUrl| + |endpoint|
    ensures r.Some? ==> r.value.url[..|baseUrl|] == baseUrl && r.value.url[|baseUrl|..] == endpoint
    ensures r.Some? ==> r.value.verb == verb && r.value.body == body
  {
    if baseUrl == "" then None
    else
      var url := baseUrl + endpoint;
      assert url[..|baseUrl|] == baseUrl && url[|baseUrl|..] == endpoint;
      Some(ApiRequest(url, verb, body))
  }

  /** How `request` settles from `baseUrl`: rejected before any fetch while no address is set. */
  function Returned<T>(baseUrl: string, outcome: Outcome<T>): (r: Result<T>)
    ensures baseUrl == "" ==> r == Err(Error(PlainError, NotConfiguredMessage))
    ensures baseUrl != "" ==> r == ResponseResult(outcome)
  {
    if baseUrl == "" then Err(Error(PlainError, NotConfiguredMessage)) else ResponseResult(outcome)
  }

  /** `getFriendlyErrorMessage`. */
  function GetFriendlyErrorMessage(e: JsError): (r: string)
    ensures e.Error? && e.name == TypeError && JsText.Includes(e.message, FailedToFetch) ==> r == NetworkHint
    ensures e.Error? && !(e.name == TypeError && JsText.Includes(e.message, FailedToFetch)) ==> r == e.message
    ensures e.NonError? ==> r == UnknownError
  {
    FriendlyMessage(e, NetworkHint)
  }

  /** `ApiService`. Each operation returns the fetch it issued (if any) and how it settled. */
  class Client {
    var baseUrl: string

    constructor ()
      ensures baseUrl == ""
    {
      baseUrl := "";
    }

    /** `setBaseUrl`. */
    method SetBaseUrl(url: string)
      modifies this
      ensures baseUrl == url
    {
      baseUrl := url;
    }

    /** `request`: refuse without an address, else fetch `baseUrl + endpoint` and map the response. */
    method Request<T>(endpoint: string, verb: HttpMethod, body: Option<ApiBody>, outcome: Outcome<T>)
      returns (sent: Option<ApiRequest>, r: Result<T>)
      ensures baseUrl == "" ==> sent == None && r == Err(Error(PlainError, NotConfiguredMessage))
      ensures baseUrl != "" ==> sent == Some(ApiRequest(baseUrl + endpoint, verb, body))
      ensures baseUrl != "" ==> r == ResponseResult(outcome)
    {
      if baseUrl == "" {
        return None, Err(Error(PlainError, NotConfiguredMessage));
      }
      var url := baseUrl + endpoint;
      sent := Some(ApiRequest(url, verb, body));
      r := ResponseResult(outcome);
    }

    /** `checkServerConfig`. */
    method CheckServerConfig(outcome: Outcome<ServerConfigStatus>)
      returns (sent: Option<ApiRequest>, r: Result<ServerConfigStatus>)
      ensures sent == Sent(baseUrl, "/config/check", GET, None)
      ensures r == Returned(baseUrl, outcome)
    {
      sent, r := Request("/config/check", GET, None, outcome);
    }

    /** `getStatus`; the payload's shape is not declared by types.ts and stays abstract. */
    method GetStatus<T>(outcome: Outcome<T>) returns (sent: Option<ApiRequest>, r: Result<T>)
      ensures sent == Sent(baseUrl, "/status", GET, None)
      ensures r == Returned(baseUrl, outcome)
    {
      sent, r := Request("/status", GET, None, outcome);
    }

    /** `startMonitor`, sent the four fields the backend needs. */
    method StartMonitor<T>(monitor: MonitorConfig, outcome: Outcome<T>) returns (sent: Option<ApiRequest>, r: Result<T>)
      ensures sent == Sent(baseUrl, "/monitor/start", POST,
                           Some(StartBody(monitor.id, monitor.channel, monitor.keywords, monitor.useRegex)))
      ensures r == Returned(baseUrl, outcome)
    {
      var body := StartBody(monitor.id, monitor.channel, monitor.keywords, monitor.useRegex);
      sent, r := Request("/monitor/start", POST, Some(body), outcome);
    }

    /** `stopMonitor`. */
    method StopMonitor<T>(id: string, outcome: Outcome<T>) returns (sent: Option<ApiRequest>, r: Result<T>)
      ensures sent == Sent(baseUrl, "/monitor/stop", POST, Some(IdBody(id)))
      ensures r == Returned(baseUrl, outcome)
    {
      sent, r := Request("/monitor/stop", POST, Some(IdBody(id)), outcome);
    }

    /** `resumeMonitor`. */
    method ResumeMonitor<T>(id: string, outcome: Outcome<T>) returns (sent: Option<ApiRequest>, r: Result<T>)
      ensures sent == Sent(baseUrl, "/monitor/resume", POST, Some(IdBody(id)))
      ensures r == Returned(baseUrl, outcome)
    {
      sent, r := Request("/monitor/resume", POST, Some(IdBody(id)), outcome);
    }

    /** `deleteMonitor`. */
    method DeleteMonitor<T>(id: string, outcome: Outcome<T>) returns (sent: Option<ApiRequest>, r: Result<T>)
      ensures sent == Sent(baseUrl, "/monitor/delete", POST, Some(IdBody(id)))
      ensures r == Returned(baseUrl, outcome)
    {
      sent, r := Request("/monitor/delete", POST, Some(IdBody(id)), outcome);
    }
  }

  /**
   * The client and the dashboard's own request helper pick the same message unless the
   * body carries a truthy `detail`, which only the client reads.
   */
  lemma ErrorMessageMatchesDashboard(status: nat, body: ErrorBody)
    requires body.Unparsable? || !Truthy(body.detail)
    ensures ErrorMessage(status, body) == App.AppErrorMessage(status, body)
  {
  }

  /** With no address set, no operation reaches the network and every one fails the same way. */
  lemma UnconfiguredNeverFetches<T>(endpoint: string, verb: HttpMethod, body: Option<ApiBody>, outcome: Outcome<T>)
    ensures Sent("", endpoint, verb, body) == None
    ensures Returned("", outcome) == Err(Error(PlainError, NotConfiguredMessage))
  {
  }
}
