/**
 * The backend-address dialog (components/BackendUrlModal.tsx): it tests an address
 * against `/config/check`, cleans and saves it, and refuses to close on first use
 * until an address exists.
 */
module BackendUrlModal {
  import opened Wrappers
  import opened Http
  import JsText

  /** The banner under the input: green on success, red otherwise. */
  datatype CheckResult = CheckResult(success: bool, message: string)

  const EnterFirstMessage: string := "请先输入后端服务地址"
  const ConnectedMessage: string := "连接成功！后端服务运行正常。"
  const ConnectFailedPrefix: string := "连接失败："
  const EmptyUrlMessage: string := "后端服务地址不能为空"
  const RequiredMessage: string := "首次使用必须配置后端服务地址"

  /** `s.endsWith('/') ? s.slice(0, -1) : s`. */
  function StripTrailingSlash(s: string): (r: string)
    ensures s == r || s == r + "/"
    ensures |s| > 0 && s[|s| - 1] == '/' <==> s == r + "/"
  {
    if |s| > 0 && s[|s| - 1] == '/' then s[..|s| - 1] else s
  }

  /** The address `handleSave` hands to `onSave`: trimmed, then at most one trailing slash dropped. */
  function CleanUrl(url: string): (r: string)
    ensures JsText.Trim(url) == r || JsText.Trim(url) == r + "/"
    ensures r != [] ==> !JsText.IsWhitespace(r[0])
    ensures JsText.Trim(url) == r + "/" <==> (JsText.Trim(url) != "" && JsText.Trim(url)[|JsText.Trim(url)| - 1] == '/')
  {
    StripTrailingSlash(JsText.Trim(url))
  }

  /** The address `handleCheckConnection` fetches: one trailing slash dropped, no trimming. */
  function TestUrl(url: string): (r: string)
    ensures r == url + "config/check" || r == url + "/config/check"
    ensures r == url + "/config/check" <==> !(url != "" && url[|url| - 1] == '/')
  {
    StripTrailingSlash(url) + "/config/check"
  }

  /** The banner a test connection ends with. */
  function ConnectionResult(outcome: Outcome<()>): (r: CheckResult)
    ensures r.success <==> outcome.Completed? && outcome.ok
    ensures outcome.Completed? && !outcome.ok ==>
      r.message == ConnectFailedPrefix + "HTTP " + JsText.NatToString(outcome.status)
    ensures outcome.Thrown? ==> r.message == ConnectFailedPrefix + MessageOrUnknown(outcome.error)
  {
    match outcome
    case Completed(ok, status, _, _, _) =>
      if ok then CheckResult(true, ConnectedMessage)
      else CheckResult(false, ConnectFailedPrefix + "HTTP " + JsText.NatToString(status))
    case Thrown(e) =>
      CheckResult(false, ConnectFailedPrefix + MessageOrUnknown(e))
  }

  class Dialog {
    const currentUrl: string
    const isRequired: bool
    var url: string
    var isChecking: bool
    var checkResult: Option<CheckResult>

    constructor (currentUrl: string, isRequired: bool)
      ensures this.currentUrl == currentUrl && this.isRequired == isRequired
      ensures url == currentUrl && !isChecking && checkResult == None
    {
      this.currentUrl := currentUrl;
      this.isRequired := isRequired;
      url := currentUrl;
      isChecking := false;
      checkResult := None;
    }

    /** The input's `onChange`. */
    method SetUrl(text: string)
      modifies this`url
      ensures url == text
    {
      url := text;
    }

    /** `handleCheckConnection`; `target` is the address fetched, if any. */
    method HandleCheckConnection(outcome: Outcome<()>) returns (target: Option<string>)
      modifies this`isChecking, this`checkResult
      ensures JsText.IsBlank(url) ==>
        && target == None
        && checkResult == Some(CheckResult(false, EnterFirstMessage))
        && isChecking == old(isChecking)
      ensures !JsText.IsBlank(url) ==>
        && target == Some(TestUrl(url))
        && checkResult == Some(ConnectionResult(outcome))
        && !isChecking
    {
      if JsText.Trim(url) == "" {
        checkResult := Some(CheckResult(false, EnterFirstMessage));
        return None;
      }
      isChecking := true;
      checkResult := None;
      var testUrl := StripTrailingSlash(url);
      target := Some(testUrl + "/config/check");
      checkResult := Some(ConnectionResult(outcome));
      isChecking := false;
    }

    /** `handleSave`; `saved` is the address passed to `onSave`, if it is called. */
    method HandleSave() returns (saved: Option<string>)
      modifies this`checkResult
      ensures JsText.IsBlank(url) ==> saved == None && checkResult == Some(CheckResult(false, EmptyUrlMessage))
      ensures !JsText.IsBlank(url) ==> saved == Some(CleanUrl(url)) && checkResult == old(checkResult)
    {
      if JsText.Trim(url) == "" {
        checkResult := Some(CheckResult(false, EmptyUrlMessage));
        return None;
      }
      var trimmed := JsText.Trim(url);
      var cleanUrl := if |trimmed| > 0 && trimmed[|trimmed| - 1] == '/' then trimmed[..|trimmed| - 1] else trimmed;
      saved := Some(cleanUrl);
    }

    /** `handleClose`; `closes` says whether `onClose` is called. */
    method HandleClose() returns (closes: bool)
      modifies this`checkResult
      ensures closes <==> !(isRequired && currentUrl == "")
      ensures !closes ==> checkResult == Some(CheckResult(false, RequiredMessage))
      ensures closes ==> checkResult == old(checkResult)
    {
      if isRequired && currentUrl == "" {
        checkResult := Some(CheckResult(false, RequiredMessage));
        return false;
      }
      closes := true;
    }
  }

  /**
   * A non-blank input can still clean to the empty address: exactly when it trims to a
   * lone slash.
   */
  lemma CleanUrlEmpty(url: string)
    ensures CleanUrl(url) == "" <==> JsText.IsBlank(url) || JsText.Trim(url) == "/"
  {
  }

  /** Only one trailing slash goes: "a//" is saved as "a/". */
  lemma CleanUrlKeepsSecondSlash(url: string, base: string)
    requires JsText.Trim(url) == base + "//"
    ensures CleanUrl(url) == base + "/"
  {
  }

  /** An address already trimmed and without a trailing slash is saved as typed. */
  lemma CleanUrlKeepsCleanAddress(url: string)
    requires url != [] && !JsText.IsWhitespace(url[0]) && !JsText.IsWhitespace(url[|url| - 1])
    requires url[|url| - 1] != '/'
    ensures CleanUrl(url) == url
  {
  }
}
