# Monitor console, modelled in Dafny

This project models the browser console of a remote channel-monitoring service. The console
keeps a list of monitor definitions. Each definition has an id, a channel handle, keyword
filters, a regex flag and an enabled flag. The console sends start and stop commands to a
backend and shows the backend's readiness. The model covers:

- **the dashboard** (`App.tsx`) as the class `App.Console`. It holds the persisted monitor
  list, the set of ids with a request in flight, the two dialog flags, and logs of the
  requests sent, the alerts shown and the warnings written. Its save, delete and toggle
  handlers take the network's answer as a parameter. The `Post` helper requires the
  request's id to be in the syncing set, so every handler is proved to mark the id as
  syncing for as long as its request is in flight.
- **the backend client** (`services/api.ts`) as `ApiService.Client`. It holds the mutable
  base URL. For each endpoint it records the request it would send, or none when no address
  is set, and the result the call settles to.
- **the keyword editor** (`KeywordInput.tsx`), **the monitor form** (`MonitorFormModal.tsx`),
  **the backend address dialog** (`BackendUrlModal.tsx`) and **the readiness banner**
  (`ServerStatusBanner.tsx`). Each is a class over the component's state fields, and its
  pure parts (adding a keyword, cleaning an address, choosing a banner) are functions.
- **the monitor table and card** (`MonitorTable.tsx`, `MonitorCard.tsx`) as pure view
  functions. This covers status texts and colours, keyword truncation, the RegEx badge and
  disabled controls.
- **the channel avatar** (`ChannelAvatar.tsx`). The initial is a function. The background
  colour is the source's hash loop, proved against a hash function with explicit 32-bit
  wrap-around.

Network answers are an `Http.Outcome`. It is either a completed response (ok flag, status
code, status text, parsed error body and payload) or a thrown JavaScript error value.
JavaScript string behaviour the code relies on is written out in `JsText`:

- `trim` over the ECMAScript white-space and line-terminator set;
- `includes`;
- ASCII upper-casing;
- decimal rendering of status codes.

Where the code disagrees with the in-app user manual (components/UserManualModal.tsx:88 promises a resume action, and line 93 a second confirmation before delete) or with the manual's readiness gate (components/UserManualModal.tsx:64-65 asks for a ready server configuration before a monitor is created), the model follows the code:

- **Save** does not consult the readiness check. It sends start for an enabled monitor and
  stop for a disabled monitor that is already listed. It then patches the local list in
  place.
- **Toggle** never sends `resume`. It sends start when enabling and stop when disabling,
  then flips the flag locally.
- **Delete** has no confirmation step. It removes the entry even when the stop request
  fails, and logs a warning instead.
- **The dashboard requests** go to `${monitor.backendUrl}/monitor/...`. The monitor type
  does not declare `backendUrl` and the form never sets it. For a monitor created through
  the form, the URL therefore starts with `undefined`, which `App.UrlBase` models.

## Model

| member | source | states |
|---|---|---|
| JsText.Trim | components/KeywordInput.tsx:13-15 | the trimmed text starts and ends with a non-white-space character and is empty exactly when the input is blank |
| JsText.TrimRemovesOuterBlanks | components/KeywordInput.tsx:13-15 | the input is a blank prefix, then the trimmed text, then a blank suffix; with the non-white ends this fixes what `trim` returns |
| JsText.TrimKeepsInner | components/BackendUrlModal.tsx:59 | a text with no white space at either end is left unchanged by trimming |
| JsText.IncludesAt | App.tsx:44 | `includes` holds exactly when the pattern occurs at some index |
| JsText.AsciiUpper | components/ChannelAvatar.tsx:21 | each lower-case ASCII letter maps to the capital 32 code points below it, and every other character is unchanged |
| JsText.NatToString | App.tsx:38 | a status code renders as a non-empty run of decimal digits with no leading zero |
| JsText.NatToStringRoundTrip | App.tsx:38 | reading the rendered digits back gives the code |
| JsText.NatToStringInjective | components/BackendUrlModal.tsx:41 | different status codes render differently |
| Http.FriendlyMessage | App.tsx:43-51 | a TypeError mentioning "Failed to fetch" gives the network hint, every other Error (a TypeError without that text included) gives its own message, and a non-Error gives `未知错误` |
| Http.MessageOrUnknown | App.tsx:98 | an Error gives its message and anything else gives `未知错误` |
| App.UrlBaseInterpolates | App.tsx:59 | `${monitor.backendUrl}` is the stored address, or `undefined` when the property is absent |
| App.StartRequest | App.tsx:59 | a start request goes to `<backendUrl>/monitor/start`, carries the whole monitor and targets its id |
| App.StopRequest | App.tsx:62 | a stop request goes to `<backendUrl>/monitor/stop`, carries `{ id }` and targets that id |
| App.AppErrorMessage | App.tsx:36-38 | the thrown message is the body's truthy `message`, else `HTTP error! status: <code>`; an unparsable body gives the fixed fallback, and `detail` is ignored |
| App.ApiRequestResult | App.tsx:30-41 | the call succeeds exactly on an ok response; a thrown error propagates; a non-ok response throws `AppErrorMessage` |
| App.GetFriendlyErrorMessage | App.tsx:43-51 | the dashboard's friendly message, with the hint that names the form's address field |
| App.FindIndex | App.tsx:66 | the first index holding the id, or -1 exactly when no entry has it |
| App.FindById | App.tsx:88 | Some exactly when the id is listed, and then the entry at `FindIndex`, the first index holding the id |
| App.Upsert | App.tsx:65-73 | the list length is kept when the id is listed; otherwise the monitor is appended at the end |
| App.UpsertReplacesAt | App.tsx:66-70 | saving a listed id replaces the first entry with that id, at its index, and leaves every other entry in place |
| App.UpsertPreservesUniqueIds | App.tsx:65-73 | saving keeps the ids unique |
| App.RemoveId | App.tsx:95 | exactly the entries with a different id remain |
| App.RemoveIdAbsent | App.tsx:88-89 | removing an unlisted id changes nothing |
| App.RemoveIdConcat | App.tsx:95 | removal distributes over concatenation, so the remaining entries keep their order |
| App.RemoveIdAt | App.tsx:95 | with unique ids, deleting the id at index i cuts out exactly entry i |
| App.RemoveIdPreservesUniqueIds | App.tsx:95-99 | deleting keeps the ids unique |
| App.FlipEnabled | App.tsx:123-127 | only entries with the id have `isEnabled` flipped; ids, length and every other entry are unchanged |
| App.FlipEnabledInvolution | App.tsx:123-127 | toggling the same id twice restores the list |
| App.FlipEnabledPreservesUniqueIds | App.tsx:123-127 | toggling keeps the ids unique |
| App.SaveRequest | App.tsx:54-63 | no request exactly when the monitor is disabled and not listed; otherwise the request targets its id, goes to `/monitor/start` with the whole monitor when it is enabled and to `/monitor/stop` with `{ id }` when it is not |
| App.SaveResult | App.tsx:54-84 | a save succeeds exactly when no request is needed or the request succeeds, and settles as that request otherwise |
| App.ToggleRequestChoice | App.tsx:114-121 | `ToggleRequest` targets the id and goes to `/monitor/start` with the whole monitor exactly when it is currently disabled, else to `/monitor/stop` |
| App.AfterTogglePreservesUniqueIds | App.tsx:123-133 | a settled toggle keeps the ids unique, whether it succeeded or failed |
| App.AfterToggleSettles | App.tsx:123-133 | after a toggle settles the list keeps its length; on success exactly the entries with the id have `isEnabled` flipped, and on failure the list is unchanged |
| App.ToggleAlertsSettle | App.tsx:128-131 | `ToggleAlerts` is empty exactly on success; a failure alerts `操作失败: ` plus the friendly message |
| App.DeleteWarningsSettle | App.tsx:92-99 | `DeleteWarnings` is empty exactly on success; a failed stop logs the fixed warning plus the thrown message, or `未知错误` |
| App.Cards | App.tsx:162-171 | one card per monitor in list order, each syncing exactly when its id is in flight |
| App.Dashboard | App.tsx:155-172 | the empty-state notice exactly when the list is empty, else the card grid |
| App.InFlightCardsFrozen | App.tsx:162-171 | a card's toggle is disabled exactly when its id is in flight, and it then reads `同步中...` |
| App.Console.constructor | App.tsx:11-15 | the stored list, nothing syncing, both dialogs closed |
| App.Console.View | App.tsx:155-172 | the dashboard rendered for the current list and syncing set |
| App.Console.OpenModal | App.tsx:17-20 | the form opens on the given monitor, or on a new one |
| App.Console.CloseModal | App.tsx:22-25 | the form closes and forgets the monitor |
| App.Console.OpenManual | App.tsx:27 | the manual opens |
| App.Console.CloseManual | App.tsx:28 | the manual closes |
| App.Console.Post | App.tsx:30-41 | appends the request to the log and settles as `ApiRequestResult`; callable only while the request's id is syncing |
| App.Console.SaveMonitor | App.tsx:53-85 | sends `SaveRequest`. On success the list becomes `Upsert` and the form closes. On failure the list and form are unchanged and `保存失败: ` plus the friendly message is alerted. The id leaves the syncing set and unique ids stay unique |
| App.Console.DeleteMonitor | App.tsx:87-107 | an unlisted id changes nothing. Otherwise it sends stop `{ id }`, removes the entry on every outcome, logs a warning on failure, takes the id out of the syncing set and keeps ids unique |
| App.Console.ToggleMonitor | App.tsx:109-138 | an unlisted id changes nothing. Otherwise it sends `ToggleRequest`. On success only that entry flips; on failure the list is unchanged and `操作失败: ` is alerted. The id leaves the syncing set |
| ApiService.ErrorMessage | services/api.ts:31-35 | `detail`, else `message`, else `HTTP error! status: <code>`; an unparsable body gives the fixed detail |
| ApiService.ResponseResult | services/api.ts:31-38 | an ok response gives its payload, a thrown error propagates, and a non-ok response throws `ErrorMessage` |
| ApiService.Sent | services/api.ts:19-29 | nothing is sent exactly when the base URL is empty; otherwise the URL is the base URL followed by the endpoint, unaltered, with the given verb and body |
| ApiService.Returned | services/api.ts:19-38 | an empty base URL fails with `后端服务地址未配置` whatever the network would answer; otherwise `ResponseResult` |
| ApiService.GetFriendlyErrorMessage | services/api.ts:90-98 | the network hint for a fetch TypeError, the message of any other Error, `未知错误` otherwise |
| ApiService.Client.constructor | services/api.ts:7 | the base URL starts empty |
| ApiService.Client.SetBaseUrl | services/api.ts:12-14 | replaces the base URL and nothing else |
| ApiService.Client.Request | services/api.ts:19-39 | returns `Sent` and `Returned` for the current base URL |
| ApiService.Client.CheckServerConfig | services/api.ts:44-46 | GET `/config/check` with no body |
| ApiService.Client.GetStatus | services/api.ts:51-53 | GET `/status` with no body |
| ApiService.Client.StartMonitor | services/api.ts:58-60 | POST `/monitor/start` with id, channel, keywords and useRegex |
| ApiService.Client.StopMonitor | services/api.ts:65-67 | POST `/monitor/stop` with `{ id }` |
| ApiService.Client.ResumeMonitor | services/api.ts:72-74 | POST `/monitor/resume` with `{ id }` |
| ApiService.Client.DeleteMonitor | services/api.ts:79-81 | POST `/monitor/delete` with `{ id }` |
| ApiService.ErrorMessageMatchesDashboard | services/api.ts:35 | without a truthy `detail`, the client's error message is the dashboard's |
| ApiService.UnconfiguredNeverFetches | services/api.ts:20-22 | with no base URL nothing is sent and the call fails with the configuration message |
| KeywordInput.AddKeyword | components/KeywordInput.tsx:13-18 | a keyword is added exactly when the input is not blank and its trimmed text is not listed; it is appended at the end |
| KeywordInput.RemoveKeyword | components/KeywordInput.tsx:23-24 | exactly the elements different from the argument remain |
| KeywordInput.Editor.constructor | components/KeywordInput.tsx:10 | the input starts empty |
| KeywordInput.Editor.SetInput | components/KeywordInput.tsx:45 | the input holds the typed text |
| KeywordInput.Editor.HandleKeyDown | components/KeywordInput.tsx:12-21 | Enter with non-blank input is handled: `AddKeyword` is reported and the input cleared, even for a duplicate. Any other key or blank input changes nothing |
| KeywordInput.Editor.RemoveChip | components/KeywordInput.tsx:23-25 | reports `RemoveKeyword`; the removed keyword is gone |
| KeywordInput.AddPreservesNoDuplicates | components/KeywordInput.tsx:16-17 | adding keeps the list free of duplicates |
| KeywordInput.AddedKeywordIsTrimmed | components/KeywordInput.tsx:15 | the added keyword has no white space at either end |
| KeywordInput.RemovePreservesNoDuplicates | components/KeywordInput.tsx:24 | removing keeps the list free of duplicates |
| KeywordInput.RemoveKeywordConcat | components/KeywordInput.tsx:24 | removal distributes over concatenation, so the rest keep their order |
| KeywordInput.RemoveAbsent | components/KeywordInput.tsx:24 | removing an unlisted keyword changes nothing |
| KeywordInput.RemoveUndoesAdd | components/KeywordInput.tsx:16-24 | removing the keyword just added restores the list |
| MonitorFormModal.InitialForm | components/MonitorFormModal.tsx:14-33 | editing keeps every field of the monitor; a new monitor has the fresh id, an empty channel, no keywords, enabled, no regex |
| MonitorFormModal.SetTextField | components/MonitorFormModal.tsx:35-38 | only the field the input names changes |
| MonitorFormModal.ChannelEditKeepsOtherFields | components/MonitorFormModal.tsx:94 | editing the channel input leaves id, keywords, flags and address unchanged |
| MonitorFormModal.Form.constructor | components/MonitorFormModal.tsx:14-33 | the form starts at `InitialForm` |
| MonitorFormModal.Form.HandleChange | components/MonitorFormModal.tsx:35-38 | called by the `channel` input, it replaces the channel and leaves every other field |
| MonitorFormModal.Form.HandleKeywordsChange | components/MonitorFormModal.tsx:40-42 | only `keywords` is replaced |
| MonitorFormModal.Form.SetUseRegex | components/MonitorFormModal.tsx:108 | only `useRegex` is replaced |
| MonitorFormModal.Form.HandleSubmit | components/MonitorFormModal.tsx:44-47 | the current form is saved unchanged |
| BackendUrlModal.StripTrailingSlash | components/BackendUrlModal.tsx:59 | removes exactly one trailing `/` when there is one |
| BackendUrlModal.CleanUrl | components/BackendUrlModal.tsx:59 | the trimmed address, less one `/` exactly when the trimmed address ends with one |
| BackendUrlModal.CleanUrlEmpty | components/BackendUrlModal.tsx:53-60 | the cleaned address is empty exactly when the input is blank or trims to `/` |
| BackendUrlModal.CleanUrlKeepsSecondSlash | components/BackendUrlModal.tsx:59 | `a//` cleans to `a/` |
| BackendUrlModal.CleanUrlKeepsCleanAddress | components/BackendUrlModal.tsx:59 | an address with no outer white space and no trailing `/` is saved as typed |
| BackendUrlModal.TestUrl | components/BackendUrlModal.tsx:32-33 | the untrimmed address followed by `/config/check`, with one `/` dropped exactly when the address ends with one |
| BackendUrlModal.ConnectionResult | components/BackendUrlModal.tsx:38-47 | success exactly on an ok response; `连接失败：HTTP <code>` for a non-ok one; `连接失败：` plus the error text for a thrown one |
| BackendUrlModal.Dialog.constructor | components/BackendUrlModal.tsx:12-20 | the field shows the current address, no check is running and no result is shown |
| BackendUrlModal.Dialog.SetUrl | components/BackendUrlModal.tsx:107 | the field holds the typed text |
| BackendUrlModal.Dialog.HandleCheckConnection | components/BackendUrlModal.tsx:22-51 | blank input reports the error and fetches nothing; otherwise it fetches `TestUrl`, shows `ConnectionResult` and ends the check |
| BackendUrlModal.Dialog.HandleSave | components/BackendUrlModal.tsx:53-61 | blank input shows `后端服务地址不能为空` and saves nothing; otherwise `CleanUrl` is saved |
| BackendUrlModal.Dialog.HandleClose | components/BackendUrlModal.tsx:63-70 | closes unless the address is required and none is set, in which case the error is shown |
| ServerStatusBanner.SelectBanner | components/ServerStatusBanner.tsx:50-130 | checking while loading, then the connection failure for a truthy error, then incomplete unless `all_ready`, else ready |
| ServerStatusBanner.IncompleteLines | components/ServerStatusBanner.tsx:92-93 | each line is a check mark and the message when valid, `❌ 未配置` otherwise |
| ServerStatusBanner.FetchResult | components/ServerStatusBanner.tsx:28-33 | an ok response gives the payload; a non-ok one throws `HTTP <code>: <text>` |
| ServerStatusBanner.CheckSettlement | components/ServerStatusBanner.tsx:15-44 | a status is kept exactly when an address is set and the fetch succeeds, and the error is then cleared; without an address the error is the configuration notice, and a failed fetch gives `无法连接到后端服务: ` plus the thrown message |
| ServerStatusBanner.StatusBanner.constructor | components/ServerStatusBanner.tsx:11-13 | no status, loading, no error |
| ServerStatusBanner.StatusBanner.CheckServerStatus | components/ServerStatusBanner.tsx:15-44 | status and error become `CheckSettlement`, loading ends, the parent is told the status, and a fetch is issued only when an address is set |
| ServerStatusBanner.StatusBanner.SetBackendUrl | components/ServerStatusBanner.tsx:46-48 | the same address changes nothing; a new one re-runs the check |
| ServerStatusBanner.StatusBanner.Render | components/ServerStatusBanner.tsx:50-130 | after a check the incomplete banner always has a report to show |
| ServerStatusBanner.CheckDecidesBanner | components/ServerStatusBanner.tsx:15-130 | after a check the banner is a connection failure unless the fetch succeeds, and ready exactly when the backend reports `all_ready` |
| Display.Truncate | components/MonitorTable.tsx:70-71 | the first min(n, limit) keywords in order, and a positive count of the rest exactly when n exceeds the limit |
| Display.ControlsFor | components/MonitorCard.tsx:49-102 | toggle, edit and delete are disabled exactly while syncing |
| MonitorCard.StatusText | components/MonitorCard.tsx:15-18 | `同步中...` while syncing, else `监控中` or `已暂停` by the enabled flag |
| MonitorCard.StatusColor | components/MonitorCard.tsx:20-23 | yellow while syncing, else green or gray by the enabled flag |
| MonitorCard.TextAndColourAgree | components/MonitorCard.tsx:15-23 | two states have the same text exactly when they have the same colour |
| MonitorCard.Keywords | components/MonitorCard.tsx:58-82 | the RegEx badge follows `useRegex` alone; the placeholder shows exactly when there are no keywords, else five chips and `+n 更多` |
| MonitorCard.CardFor | components/MonitorCard.tsx:25-110 | the card shows the channel, the status text and colour, the switch state, the keywords and the controls |
| MonitorCard.SyncingCardIsFrozen | components/MonitorCard.tsx:15-102 | a syncing card reads `同步中...` and disables all three controls; an idle card's toggle is enabled |
| MonitorTable.StatusText | components/MonitorTable.tsx:29-44 | `同步中...` while syncing; else each of running, stopped, starting and error has its label, and any other status gives `未知状态` |
| MonitorTable.StatusColor | components/MonitorTable.tsx:46-61 | yellow while syncing; else green, gray-500, blue or red, and gray-400 for any other status |
| MonitorTable.TextAndColourAgree | components/MonitorTable.tsx:29-61 | two states have the same text exactly when they have the same colour |
| MonitorTable.FormatKeywords | components/MonitorTable.tsx:65-95 | the placeholder, with no badge, exactly when there are no keywords; otherwise three chips, `+n` and the RegEx badge exactly when `useRegex` |
| MonitorTable.RowFor | components/MonitorTable.tsx:123-224 | the row shows the avatar's initial, the title or handle, the handle hint only beside a title, the status, the keywords, the switch and the controls disabled exactly while syncing |
| MonitorTable.Rows | components/MonitorTable.tsx:123-226 | one row per monitor, in order |
| MonitorTable.RowKeysUnique | components/MonitorTable.tsx:127 | with unique ids the row keys are unique |
| MonitorTable.DisabledRowsAreSyncing | components/MonitorTable.tsx:184-216 | a row's toggle, edit and delete are disabled exactly when its id is syncing |
| ChannelAvatar.DisplayText | components/ChannelAvatar.tsx:43 | the title when there is one, else the handle |
| ChannelAvatar.UpperFirst | components/ChannelAvatar.tsx:21 | the upper-cased first character, none for an empty text |
| ChannelAvatar.DropMarker | components/ChannelAvatar.tsx:31 | one leading `@` or `#` is removed |
| ChannelAvatar.TitleInitial | components/ChannelAvatar.tsx:19-26 | the upper-cased first character of the trimmed title, offered exactly when it is a CJK character or an ASCII letter |
| ChannelAvatar.ChannelInitial | components/ChannelAvatar.tsx:29-35 | the upper-cased first character of the handle less its `@`/`#` marker and outer white space, offered exactly when it is an ASCII letter |
| ChannelAvatar.GetInitial | components/ChannelAvatar.tsx:18-39 | an initial is an upper-case ASCII letter or a CJK character; the title's initial wins; without one, the handle's initial when there is a handle, else none |
| ChannelAvatar.HandleMarkerDropped | components/ChannelAvatar.tsx:29-35 | `@news` with no title gives `N` |
| ChannelAvatar.ToInt32 | components/ChannelAvatar.tsx:46 | a 32-bit signed value congruent to the input modulo 2^32 |
| ChannelAvatar.ShiftLeft5 | components/ChannelAvatar.tsx:46 | `h << 5` is the 32-bit signed value congruent to 32·h modulo 2^32 |
| ChannelAvatar.ColourIndex | components/ChannelAvatar.tsx:63 | the colour index is below the palette size |
| ChannelAvatar.GetBackgroundColor | components/ChannelAvatar.tsx:42-64 | the loop computes the hash of the display text, and the colour is the palette entry at its absolute value modulo 10 |
| ChannelAvatar.HashMagnitude | components/ChannelAvatar.tsx:44-47 | the hash's magnitude is at most the text's length times 2^31 + 0x110000, since each character adds at most that much to it; so for texts under 2^21 characters it stays below 2^53 |
| ChannelAvatar.EmptyTextIsIndigo | components/ChannelAvatar.tsx:43-51 | an empty text hashes to 0 and gets `bg-indigo-500` |
| ChannelAvatar.ColourIgnoresChannelWhenTitled | components/ChannelAvatar.tsx:43 | with a title, the colour does not depend on the handle |
| ChannelAvatar.Render | components/ChannelAvatar.tsx:86-110 | a coloured initial exactly when one qualifies, else the default icon, both titled with the display text |

## Left out

- Network, JSON parsing, `alert` and `console.warn`: each fetch is an `Outcome` parameter. Parsing is folded into the outcome's payload and error body, and alerts and warnings are appended to logs.
- `crypto.randomUUID()`: the fresh id of a new monitor is a parameter of `MonitorFormModal.InitialForm`.
- `useLocalStorage` is not part of this model: the persisted list is the plain field `App.Console.monitors`.
- Asynchronous interleaving: each handler runs as one atomic step. Two clicks on the same id racing each other are not modelled; the code does not guard against them either.
- `JsText.AsciiUpper`: `toUpperCase` is modelled on ASCII only. Characters such as `ß`, whose upper case is several characters or an ASCII letter, are not captured.
- Strings are sequences of code points, not UTF-16 code units. `charAt` and `charCodeAt` on characters outside the Basic Multilingual Plane differ from the model.
- `ChannelAvatar.GetBackgroundColor`: the hash is exact integer arithmetic. It agrees with the double arithmetic of the source while every step stays below 2^53, which `HashMagnitude` guarantees for texts shorter than about 2^21 characters.
- `MonitorFormModal.InitialForm`: a stored monitor is spread over the blank defaults (components/MonitorFormModal.tsx:15-30), so a stored record that lacks a field gets the default for it. `MonitorConfig` is a total record, so a record with a missing field is not representable, and the model copies the edited monitor whole. For the same reason `useRegex || false` is the identity on a boolean here, and a missing or non-boolean `useRegex` is not representable.
- `MonitorFormModal.SetTextField`: only the record's string properties (`channel`, `id`, `backendUrl`) are modelled. For `keywords`, `useRegex` or `isEnabled` the source would overwrite that field with a string, and any other name would add a property; the model returns the form unchanged for all of these. `Form.HandleChange` is called only with `channel`, the name of the form's one text input, and requires it.
- `ApiService.ErrorMessage`: the `detail` and `message` fields of an error body are modelled as strings. In the source (services/api.ts:35) a field of another JSON type that is truthy becomes the message through JavaScript's ToString: a list of objects, as in a validation error body, gives "[object Object]", and an empty list `[]` gives "". The non-empty message the model promises holds only for string-valued fields.
- `App.AppErrorMessage`: the same string-valued assumption holds for the `message` field read at App.tsx:38. A truthy non-string value there becomes its ToString, which can be "", so the non-empty message holds only for string-valued fields.
- Error bodies that parse as JSON but are not objects (numbers, arrays) are not distinguished from an object without `detail` or `message`.
- An error body that parses as JSON `null` is read as an object without `detail` or `message`. In the source, reading `errorData.detail` (services/api.ts:35) or `errorData.message` (App.tsx:38) on `null` throws a `TypeError`, whose engine-specific message is what the user sees; the model gives the status-code message instead.
- `ApiService.Client.StartMonitor`: extra properties of the argument object, which the source would serialise as well, are not modelled; the body holds the four declared fields.
- Markup, CSS, sizes, animations, and the static components (user manual, workflow diagram, header, icons) are not modelled.
- `ServerStatusBanner.StatusBanner.CheckServerStatus`: the optional `onStatusChange` callback is recorded in `notifications` whether or not a parent supplied one.
- `ServerStatusBanner.StatusBanner.SetBackendUrl`: an absent `backendUrl` is represented as "". The effect at components/ServerStatusBanner.tsx:46-48 compares by identity, so a change from `undefined` to "" runs the check again and notifies `null` again; the model treats that change as no change.
- The retry buttons of the banner call `CheckServerStatus` again; a retry is that same method.
