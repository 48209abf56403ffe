/** The records the console passes around (types.ts), with the fields its components read. */
module Types {
  import opened Wrappers

  /**
   * One monitor definition. `backendUrl` is read by App.tsx although types.ts does not
   * declare it: `None` stands for the absent property, which a template string renders
   * as "undefined".
   */
  datatype MonitorConfig = MonitorConfig(
    id: string,
    channel: string,
    keywords: seq<string>,
    useRegex: bool,
    isEnabled: bool,
    backendUrl: Option<string>)

  /** The readiness report of the backend's `/config/check`. */
  datatype ServerConfigStatus = ServerConfigStatus(
    telegramConfigValid: bool,
    botConfigValid: bool,
    allReady: bool,
    telegramMessage: string,
    botMessage: string)

  /** No two monitors of the list share an id: `id` is the key of the list. */
  predicate UniqueIds(ms: seq<MonitorConfig>) {
    forall i, j :: 0 <= i < j < |ms| ==> ms[i].id != ms[j].id
  }

  /** `ms.some(m => m.id === id)`. */
  predicate HasId(ms: seq<MonitorConfig>, id: string) {
    exists i :: 0 <= i < |ms| && ms[i].id == id
  }
}
