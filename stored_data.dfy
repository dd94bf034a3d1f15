/**
  What the app keeps in AsyncStorage, under which key, as the JSON each
  value parses to. Text that `JSON.parse` rejects is `Malformed`. A value
  stored as the empty string is read by both readers exactly as a missing
  key (`stored ? ... : []` and `getItem(...) || '[]'`), so it is not a
  kind of its own.
*/
module StoredData {
  import opened YapeParser

  /** One spreadsheet row: `[date, amount, sender, message]` when it comes from a notification. */
  type Row = seq<string>

  /** `SheetConfig`: clientId is optional in the interface, but `initialize` always sets it. */
  datatype SheetConfig = SheetConfig(spreadsheetId: string, sheetName: string, clientId: string)

  datatype Entry =
    | Malformed                               // text JSON.parse throws on
    | Records(records: seq<Notification>)     // the transaction ledger
    | Rows(rows: seq<Row>)                    // the queue of rows not sent from the web build
    | Settings(config: SheetConfig)           // the spreadsheet configuration

  const LedgerKey: string := "yape_notifications"
  const ConfigKey: string := "google_sheets_config"
  const PendingKey: string := "pending_sheet_data"

  lemma KeysAreDistinct()
    ensures LedgerKey != ConfigKey && LedgerKey != PendingKey && ConfigKey != PendingKey
  {
  }
}
