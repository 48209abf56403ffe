/** One monitor's card on the dashboard (components/MonitorCard.tsx). */
module MonitorCard {
  import opened Wrappers
  import opened Types
  import opened Display

  const SyncingText: string := "同步中..."
  const RunningText: string := "监控中"
  const PausedText: string := "已暂停"
  const NoKeywordsText: string := "未指定关键词。"
  const MoreSuffix: string := " 更多"
  /** At most this many keyword chips are shown on a card. */
  const CardKeywordLimit: nat := 5

  /** `getStatusText`: syncing overrides the enabled flag. */
  function StatusText(isEnabled: bool, isSyncing: bool): (r: string)
    ensures isSyncing ==> r == SyncingText
    ensures !isSyncing && isEnabled ==> r == RunningText
    ensures !isSyncing && !isEnabled ==> r == PausedText
  {
    if isSyncing then SyncingText else if isEnabled then RunningText else PausedText
  }

  /** `getStatusColor`: the dot beside the status text. */
  function StatusColor(isEnabled: bool, isSyncing: bool): (r: string)
    ensures isSyncing ==> r == "bg-yellow-500"
    ensures !isSyncing && isEnabled ==> r == "bg-green-500"
    ensures !isSyncing && !isEnabled ==> r == "bg-gray-500"
  {
    if isSyncing then "bg-yellow-500" else if isEnabled then "bg-green-500" else "bg-gray-500"
  }

  /** The keyword area below the heading: a placeholder, or chips with an optional `+n 更多`. */
  datatype KeywordList = NoKeywords | Listed(chips: Truncated)

  /** The keyword section of a card; the RegEx badge sits in its heading. */
  datatype KeywordSection = KeywordSection(regexBadge: bool, list: KeywordList)

  function Keywords(keywords: seq<string>, useRegex: bool): (k: KeywordSection)
    ensures k.regexBadge == useRegex
    ensures k.list.NoKeywords? <==> |keywords| == 0
    ensures k.list.Listed? ==> k.list.chips == Truncate(keywords, CardKeywordLimit)
  {
    KeywordSection(useRegex, if |keywords| > 0 then Listed(Truncate(keywords, CardKeywordLimit)) else NoKeywords)
  }

  /** What one card shows. */
  datatype Card = Card(
    heading: string,
    statusText: string,
    statusColor: string,
    checked: bool,
    keywords: KeywordSection,
    controls: Controls)

  /** A card for `monitor`, headed by the channel handle. */
  function CardFor(monitor: MonitorConfig, isSyncing: bool): (c: Card)
    ensures c.heading == monitor.channel
    ensures c.checked == monitor.isEnabled
    ensures c.statusText == StatusText(monitor.isEnabled, isSyncing)
    ensures c.statusColor == StatusColor(monitor.isEnabled, isSyncing)
    ensures c.keywords == Keywords(monitor.keywords, monitor.useRegex)
    ensures c.controls == ControlsFor(isSyncing)
  {
    Card(monitor.channel,
      StatusText(monitor.isEnabled, isSyncing),
      StatusColor(monitor.isEnabled, isSyncing),
      monitor.isEnabled,
      Keywords(monitor.keywords, monitor.useRegex),
      ControlsFor(isSyncing))
  }

  /** Text and colour carry the same information: three texts, three colours, matched one to one. */
  lemma TextAndColourAgree(e1: bool, s1: bool, e2: bool, s2: bool)
    ensures StatusText(e1, s1) == StatusText(e2, s2) <==> StatusColor(e1, s1) == StatusColor(e2, s2)
  {
    assert RunningText != PausedText && SyncingText != RunningText && SyncingText != PausedText;
  }

  /** While a request is in flight every control of the card is disabled and the status says so. */
  lemma SyncingCardIsFrozen(monitor: MonitorConfig)
    ensures CardFor(monitor, true).statusText == SyncingText
    ensures !CardFor(monitor, false).controls.toggleDisabled
    ensures var c := CardFor(monitor, true).controls; c.toggleDisabled && c.editDisabled && c.deleteDisabled
  {
  }
}
