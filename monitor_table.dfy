/**
 * The monitor table (components/MonitorTable.tsx): one row per monitor with its avatar,
 * display name, backend status, keywords, enable switch and controls.
 */
module MonitorTable {
  import opened Wrappers
  import opened Types
  import opened Display
  import ChannelAvatar

  /**
   * A monitor with the backend's status word and the channel's title ("" when the
   * backend reported none).
   */
  datatype MonitorWithStatus = MonitorWithStatus(config: MonitorConfig, status: string, channelTitle: string)

  const SyncingText: string := "同步中..."
  const UnknownStatusText: string := "未知状态"
  const NoKeywordsText: string := "未指定关键词"
  /** At most this many keyword chips are shown in a row. */
  const RowKeywordLimit: nat := 3

  /** The four status words the backend reports. */
  predicate IsKnownStatus(status: string) {
    status == "running" || status == "stopped" || status == "starting" || status == "error"
  }

  /** `getStatusText`. */
  function StatusText(status: string, isSyncing: bool): (r: string)
    ensures isSyncing ==> r == SyncingText
    ensures !isSyncing && !IsKnownStatus(status) ==> r == UnknownStatusText
    ensures !isSyncing && status == "running" ==> r == "监控中"
    ensures !isSyncing && status == "stopped" ==> r == "已停止"
    ensures !isSyncing && status == "starting" ==> r == "启动中"
    ensures !isSyncing && status == "error" ==> r == "错误状态"
  {
    if isSyncing then SyncingText
    else if status == "running" then "监控中"
    else if status == "stopped" then "已停止"
    else if status == "starting" then "启动中"
    else if status == "error" then "错误状态"
    else UnknownStatusText
  }

  /** `getStatusColor`. */
  function StatusColor(status: string, isSyncing: bool): (r: string)
    ensures isSyncing ==> r == "bg-yellow-500"
    ensures !isSyncing && !IsKnownStatus(status) ==> r == "bg-gray-400"
    ensures !isSyncing && status == "running" ==> r == "bg-green-500"
    ensures !isSyncing && status == "stopped" ==> r == "bg-gray-500"
    ensures !isSyncing && status == "starting" ==> r == "bg-blue-500"
    ensures !isSyncing && status == "error" ==> r == "bg-red-500"
  {
    if isSyncing then "bg-yellow-500"
    else if status == "running" then "bg-green-500"
    else if status == "stopped" then "bg-gray-500"
    else if status == "starting" then "bg-blue-500"
    else if status == "error" then "bg-red-500"
    else "bg-gray-400"
  }

  /** `formatKeywords`: a placeholder, or up to three chips, the RegEx badge and `+n`. */
  datatype KeywordCell = Placeholder | Chips(chips: Truncated, regexBadge: bool)

  function FormatKeywords(keywords: seq<string>, useRegex: bool): (c: KeywordCell)
    ensures c.Placeholder? <==> |keywords| == 0
    ensures c.Chips? ==> c.chips == Truncate(keywords, RowKeywordLimit) && c.regexBadge == useRegex
  {
    if |keywords| == 0 then Placeholder else Chips(Truncate(keywords, RowKeywordLimit), useRegex)
  }

  /** What one row shows (the avatar's colour aside, see `ChannelAvatar.Render`). */
  datatype Row = Row(
    key: string,
    initial: Option<char>,
    name: string,
    channelHint: Option<string>,
    statusText: string,
    statusColor: string,
    keywords: KeywordCell,
    checked: bool,
    controls: Controls)

  /** The row for one monitor; the `频道ID` hint appears only beside a title. */
  function RowFor(m: MonitorWithStatus, syncing: set<string>): (r: Row)
    ensures r.key == m.config.id
    ensures r.initial == ChannelAvatar.GetInitial(m.channelTitle, m.config.channel)
    ensures r.name == ChannelAvatar.DisplayText(m.channelTitle, m.config.channel)
    ensures r.channelHint.Some? <==> m.channelTitle != ""
    ensures r.channelHint.Some? ==> r.channelHint.value == m.config.channel
    ensures r.statusText == StatusText(m.status, m.config.id in syncing)
    ensures r.statusColor == StatusColor(m.status, m.config.id in syncing)
    ensures r.keywords == FormatKeywords(m.config.keywords, m.config.useRegex)
    ensures r.checked == m.config.isEnabled
    ensures r.controls == ControlsFor(m.config.id in syncing)
  {
    var isSyncing := m.config.id in syncing;
    Row(m.config.id,
      ChannelAvatar.GetInitial(m.channelTitle, m.config.channel),
      ChannelAvatar.DisplayText(m.channelTitle, m.config.channel),
      if m.channelTitle != "" then Some(m.config.channel) else None,
      StatusText(m.status, isSyncing),
      StatusColor(m.status, isSyncing),
      FormatKeywords(m.config.keywords, m.config.useRegex),
      m.config.isEnabled,
      ControlsFor(isSyncing))
  }

  /** `monitors.map(...)`: one row per monitor, in order. */
  function Rows(ms: seq<MonitorWithStatus>, syncing: set<string>): (rows: seq<Row>)
    ensures |rows| == |ms|
    ensures forall i :: 0 <= i < |ms| ==> rows[i] == RowFor(ms[i], syncing)
  {
    if ms == [] then [] else [RowFor(ms[0], syncing)] + Rows(ms[1..], syncing)
  }

  /** Row keys are the monitor ids, so they are unique when the ids are. */
  lemma RowKeysUnique(ms: seq<MonitorWithStatus>, syncing: set<string>)
    requires forall i, j :: 0 <= i < j < |ms| ==> ms[i].config.id != ms[j].config.id
    ensures var rows := Rows(ms, syncing); forall i, j :: 0 <= i < j < |rows| ==> rows[i].key != rows[j].key
  {
  }

  /** Exactly the rows of syncing monitors have their controls disabled. */
  lemma DisabledRowsAreSyncing(ms: seq<MonitorWithStatus>, syncing: set<string>, i: nat)
    requires i < |ms|
    ensures Rows(ms, syncing)[i].controls.toggleDisabled <==> ms[i].config.id in syncing
    ensures Rows(ms, syncing)[i].controls.editDisabled <==> ms[i].config.id in syncing
    ensures Rows(ms, syncing)[i].controls.deleteDisabled <==> ms[i].config.id in syncing
  {
  }

  /** Text and colour name the same state: six texts, six colours, matched one to one. */
  lemma TextAndColourAgree(s1: string, b1: bool, s2: string, b2: bool)
    ensures StatusText(s1, b1) == StatusText(s2, b2) <==> StatusColor(s1, b1) == StatusColor(s2, b2)
  {
  }
}
