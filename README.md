# Yape payment notifications to Google Sheets, in Dafny

This project models the non-UI core of a React Native app that listens for
notifications from the Yape payment app, extracts the amount of each transfer,
appends the transaction to a ledger kept in AsyncStorage, and forwards it as a
row to a Google spreadsheet.

- `yape_parser.dfy` (module `YapeParser`): the pure part of
  `NotificationService`. It holds the package filter, the record built from a
  payload, and the amount extractor. The pattern `S\/\s*(\d+(\.\d{2})?)` with
  the `i` flag is defined declaratively. `IsMatch` says what a match is.
  `IsReported` picks the match that `String.prototype.match` returns: the
  leftmost one, and at that position the longest one, which is what the greedy
  quantifiers pick. The scanner `ExtractAmount` is proved to return that
  match's group, or `"0"` when there is no match. A lemma proves that at most
  one match is reported.
- `yape_examples.dfy` (module `YapeExamples`): the amounts the extractor gives
  for sample messages.
- `stored_data.dfy` (module `StoredData`): the values kept in AsyncStorage and
  their keys. Each value is stored as the JSON it parses to, or as `Malformed`.
- `async_storage.dfy` (module `AsyncStorage`): the key-value store. It is a
  class over a `map`. An input says whether each call is rejected.
- `google_sheets.dfy` (module `GoogleSheets`): `GoogleSheetsService` as a
  class. Its mutable `config` stays complete once set. Outbound requests are
  recorded in a ghost log `sent`. The static instance is modelled by
  `SheetsSingleton`.
- `notification_service.dfy` (module `Notifications`): `NotificationService`
  as a class over the shared store and the Sheets service. It covers the
  ledger operations, the handler, the configuration entry point and the
  static instance.

Inputs stand in for the things the model cannot see:

- the clock (`new Date().toISOString()` is the `now` parameter);
- the platform (`Platform.OS`: `Web` or `Native`);
- whether AsyncStorage rejects a read or a write (`StorageFaults`, or a
  `fails` flag);
- the result of Google Sign-In, as the access token or None;
- the result of `fetch`, as a `Response` or None.

Three facts about the TypeScript services shape the contracts:

- `SheetConfig.clientId` is declared optional (services/GoogleSheetsService.ts:8),
  but `initialize` throws when it is empty (services/GoogleSheetsService.ts:26),
  so a stored configuration always has all three fields.
- On the web build, `appendRow` pushes the row at the end of the pending queue
  (services/GoogleSheetsService.ts:88).
- `appendRow` rethrows its errors (services/GoogleSheetsService.ts:117-119), but
  `sendToGoogleSheets` catches them (services/NotificationService.ts:91-93), so
  a failed append never reaches `handleNotification`.

## Model

| member | source | states |
|---|---|---|
| `YapeParser.ExtractAmount` | services/NotificationService.ts:57-60 | With no match of `S/`, optional white space and a digit anywhere in the text, the amount is "0". Otherwise it is the group of the reported match: leftmost, then longest. A reported match exists whenever any match does. The result always has the shape `\d+(\.\d{2})?` |
| `YapeParser.ReportedIsUnique` | services/NotificationService.ts:58 | At most one match is the reported one, so the declarative pattern fixes the amount |
| `YapeParser.GroupIsDetermined` | services/NotificationService.ts:58 | Two matches that start at the same `S/` also start their numeric group at the same place. `\s*` cannot stop early, because white space is never a digit |
| `YapeParser.MatchAt` | services/NotificationService.ts:58 | Trying one position gives a match when there is one there, and it is the longest there. If it gives nothing, no match starts at that position |
| `YapeParser.FindMatch` | services/NotificationService.ts:58 | Scanning from a position finds the leftmost match at or after it, and the longest at that start. If it finds nothing, every match starts earlier |
| `YapeParser.SkipNonMarkers` | services/NotificationService.ts:58 | Positions that hold neither `S` nor `s` cannot start a match, so the scan passes over them |
| `YapeParser.YapeFilterIsExact` | services/NotificationService.ts:44-46 | A payload is a Yape one exactly when its package name is `com.yape.android`, compared case-sensitively and in full: no prefix, extension or other casing is accepted. Title and text play no part |
| `YapeParser.ParseYapeNotification` | services/NotificationService.ts:48-55 | The sender is the title verbatim and the message is the text verbatim. The date is the clock value passed in, whatever the payload holds. The amount is the extracted one |
| `YapeParser.AmountComesFromMessage` | services/NotificationService.ts:57-60 | A record's amount is "0" or a substring of its message |
| `YapeExamples.ExampleTransfer` | services/NotificationService.ts:58-59 | "Te envió S/ 25.00" gives "25.00" |
| `YapeExamples.ExampleCents` | services/NotificationService.ts:58-59 | "S/ 12.50" gives "12.50" |
| `YapeExamples.ExampleOneDecimal` | services/NotificationService.ts:58-59 | "S/ 12.5" gives "12": one decimal is not part of the group |
| `YapeExamples.ExampleLowerCase` | services/NotificationService.ts:58-59 | "s/7" gives "7": the marker is case-insensitive and needs no space |
| `YapeExamples.ExampleThousands` | services/NotificationService.ts:58-59 | "S/ 1,250.00" gives "1": a thousands separator ends the amount |
| `YapeExamples.ExampleNoAmount` | services/NotificationService.ts:59 | A message without the marker gives "0" |
| `Notifications.NotificationService.HandleNotification` | services/NotificationService.ts:36-46 | A payload whose package is not `com.yape.android` changes no storage entry and sends no request. A Yape payload is parsed with the given clock, saved, and forwarded as `[date, amount, sender, message]`. The ledger ends as the save left it, whatever the sheet side does |
| `Notifications.NotificationService.SaveNotification` | services/NotificationService.ts:62-70 | The stored ledger becomes the old ledger followed by the record. A missing or malformed ledger counts as empty. A rejected read also counts as empty. A rejected write leaves the store unchanged |
| `Notifications.NotificationService.GetStoredNotifications` | services/NotificationService.ts:72-80 | Returns the stored records; a missing key, a malformed value or a rejected read gives `[]` |
| `Notifications.NotificationService.GetAllNotifications` | services/NotificationService.ts:125-127 | Returns what `getStoredNotifications` returns |
| `Notifications.NotificationService.ClearNotifications` | services/NotificationService.ts:129-135 | Removes the ledger key and nothing else, after which the ledger reads as `[]`. A rejected removal changes nothing |
| `Notifications.NotificationService.SendToGoogleSheets` | services/NotificationService.ts:82-94 | Calls `appendRow` with exactly `[date, amount, sender, message]` and discards its error. The ledger is unchanged |
| `Notifications.NotificationService.InitializeGoogleSheets` | services/NotificationService.ts:106-122 | Validation failures change nothing. Otherwise the configuration is set and persisted, and the result is exact: a rejected first write gives the storage error; a native build passes on the sign-in error or the empty-token error of `initialize`; a rejected second write gives the storage error; anything else gives `true` |
| `Notifications.NotificationsSingleton.GetInstance` | services/NotificationService.ts:17-28 | Every call after the first returns the same service. The first call creates it over the Sheets singleton, reusing the Sheets service, and its configuration, when one already exists. When none exists yet, the Sheets service it creates is new, unconfigured and has sent nothing |
| `Notifications.SaveAppends` | services/NotificationService.ts:62-66 | After a save with no rejected call, the last record of the ledger is the new one. Everything before it is the old ledger |
| `Notifications.SaveAfterFailedReadOverwrites` | services/NotificationService.ts:64-66 | A rejected ledger read followed by a successful write leaves a ledger of one record |
| `Notifications.ForwardKeepsLedger` | services/NotificationService.ts:39-40 | Forwarding a row leaves the ledger as it was, whatever the platform, the stored queue or the storage faults |
| `Notifications.ClearIsIdempotent` | services/NotificationService.ts:129-135 | Clearing twice leaves the store as clearing once. After a clear, the ledger reads as empty |
| `GoogleSheets.SheetsService.constructor` | services/GoogleSheetsService.ts:13-15 | A new service has no configuration and has sent nothing |
| `GoogleSheets.SheetsService.Initialize` | services/GoogleSheetsService.ts:24-69 | An empty field gives the "fields required" error and leaves the config and the store unchanged. Otherwise the config is set to the three inputs and persisted under `google_sheets_config` before any sign-in. A later failure keeps it set. The web build succeeds without signing in. A native build fails when sign-in rejects or the token is empty |
| `GoogleSheets.SheetsService.AppendRow` | services/GoogleSheetsService.ts:71-121 | With no config it fails as not initialized, and changes and sends nothing. On the web build, the queue becomes the old queue followed by the row. An absent queue counts as `[]`. No request is sent. On a native build, one append request carries the row. The result is `true` on an OK response and the HTTP status otherwise |
| `GoogleSheets.SheetsService.GetSheetData` | services/GoogleSheetsService.ts:123-149 | With no config it fails as not initialized. On an OK response it returns the response's `values`, or `[]` when they are missing. Otherwise it returns the HTTP status as an error |
| `GoogleSheets.SheetsSingleton.GetInstance` | services/GoogleSheetsService.ts:17-22 | Every call after the first returns the same service. The first call creates it unconfigured |
| `GoogleSheets.AppendKeepsOtherKeys` | services/GoogleSheetsService.ts:86-89 | Queueing a row writes only the `pending_sheet_data` key |
| `GoogleSheets.QueuedRowIsLast` | services/GoogleSheetsService.ts:86-89 | After queueing, the stored queue reads back as the old queue followed by the row |

## Left out

- The Android side (the notification listener service and the React bridge module) is not part of this model. Neither is `setupNotificationListener`, the `NativeEventEmitter` registration that calls `handleNotification`.
- Concurrency: every call runs to completion before the next. The lost update between two overlapping read-push-write cycles on the ledger is not modelled.
- JSON text: stored values are modelled by what they parse to. Neither the text nor its key order is modelled.
- Logging (`console.log`, `console.error`) is left out. So are `getGoogleSheetsConfig` and `isNotificationServiceEnabled`, which only read a stored value or a platform setting.
- Google Sign-In (`configure`, `getCurrentUser`, `signIn`, `getTokens`) is modelled only by the token it yields. The request URLs and headers are reduced to the fields of `Request`.
- `GoogleSheets.SheetsService.AppendRow`: an HTTP error does not carry the response body. A rejection of `response.json()` is not a separate outcome.
- `GoogleSheets.SheetsService.AppendRow`: a stored queue that parses to another JSON shape is treated as malformed. In the TypeScript service, any array would be pushed onto.
- `Notifications.NotificationService.SaveNotification`: a ledger value that parses to something other than a list of records is read as an empty ledger. In the TypeScript service, `push` on a non-array would throw, and the old value would stay.
- `Notifications.NotificationService.GetStoredNotifications`: a ledger value that parses to something other than a list of records gives `[]`. The TypeScript service returns whatever `JSON.parse` produced (services/NotificationService.ts:75).
- `GoogleSheets.SheetsService.GetSheetData`: `response.json()` rejecting on an OK response (services/GoogleSheetsService.ts:143), an error that is rethrown, is not a separate outcome; an OK response always carries its parsed `values`.
- A payload's `text` and `title` are strings. A missing `text` would make `match` throw in the TypeScript service.
- `\s` is JavaScript's fixed set of white-space and line-terminator characters. No other Unicode property is modelled.
