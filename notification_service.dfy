/**
  NotificationService: filter a payload, parse it, append the record to the
  ledger kept in AsyncStorage under `yape_notifications`, then forward it as
  a row to the Google Sheets service. Storage failures and remote failures
  are caught and logged by the TypeScript service; here they leave the state as the
  contracts say and nothing is returned for them.
*/
module Notifications {
  import opened Wrappers
  import opened YapeParser
  import opened StoredData
  import opened AsyncStorage
  import opened GoogleSheets

  /** Everything the outside world decides during one `handleNotification`. */
  datatype Env = Env(
    now: string,                   // new Date().toISOString()
    platform: Platform,
    ledgerFaults: StorageFaults,   // the ledger's read and write
    pendingFaults: StorageFaults,  // the pending queue's read and write (web build)
    remote: Remote)                // sign-in token and HTTP response (native build)

  /** The ledger as a successful read sees it: a missing or malformed entry is the empty ledger. */
  function LedgerOf(entries: map<string, Entry>): seq<Notification> {
    match Lookup(entries, LedgerKey)
    case Some(Records(records)) => records
    case _ => []
  }

  /** The store after `saveNotification(n)`: the ledger read, `n` pushed, the ledger written back. */
  ghost function StoreAfterSave(entries: map<string, Entry>, n: Notification, faults: StorageFaults): map<string, Entry> {
    if faults.writeFails then entries
    else entries[LedgerKey := Records((if faults.readFails then [] else LedgerOf(entries)) + [n])]
  }

  /** The row `sendToGoogleSheets` builds. */
  function RowOf(n: Notification): Row {
    [n.date, n.amount, n.sender, n.message]
  }

  /** Saving appends: the ledger read back is the old one followed by the new record. */
  lemma SaveAppends(entries: map<string, Entry>, n: Notification, faults: StorageFaults)
    requires !faults.readFails && !faults.writeFails
    ensures LedgerOf(StoreAfterSave(entries, n, faults)) == LedgerOf(entries) + [n]
    ensures var ledger := LedgerOf(StoreAfterSave(entries, n, faults));
      ledger[|ledger| - 1] == n && ledger[..|ledger| - 1] == LedgerOf(entries)
  {
  }

  /** A rejected read replaces the whole ledger by the one new record. */
  lemma SaveAfterFailedReadOverwrites(entries: map<string, Entry>, n: Notification, faults: StorageFaults)
    requires faults.readFails && !faults.writeFails
    ensures LedgerOf(StoreAfterSave(entries, n, faults)) == [n]
  {
  }

  /** Forwarding to the sheet never touches the ledger, whatever the remote side does. */
  lemma ForwardKeepsLedger(entries: map<string, Entry>, config: Option<SheetConfig>, platform: Platform,
                            faults: StorageFaults, values: Row)
    ensures LedgerOf(StoreAfterAppend(entries, config, platform, faults, values)) == LedgerOf(entries)
  {
    KeysAreDistinct();
    AppendKeepsOtherKeys(entries, config, platform, faults, values, LedgerKey);
  }

  /** Clearing twice leaves the store as clearing once does. */
  lemma ClearIsIdempotent(entries: map<string, Entry>)
    ensures (entries - {LedgerKey}) - {LedgerKey} == entries - {LedgerKey}
    ensures LedgerOf(entries - {LedgerKey}) == []
  {
  }

  class NotificationService {
    const store: Storage
    const sheets: SheetsService

    /** The service and its sink share one AsyncStorage. */
    ghost predicate Valid()
      reads this, sheets
    {
      sheets.store == store && sheets.Valid()
    }

    constructor (sheets: SheetsService)
      requires sheets.Valid()
      ensures this.sheets == sheets && store == sheets.store && Valid()
    {
      this.sheets := sheets;
      store := sheets.store;
    }

    /** `getStoredNotifications`: a rejected read is caught and yields the empty ledger. */
    method GetStoredNotifications(readFails: bool) returns (records: seq<Notification>)
      ensures records == if readFails then [] else LedgerOf(store.entries)
    {
      var ok, stored := store.GetItem(LedgerKey, readFails);
      if !ok {
        return [];
      }
      match stored {
        case Some(Records(rs)) =>
          records := rs;
        case _ =>
          records := [];
      }
    }

    /** `getAllNotifications`. */
    method GetAllNotifications(readFails: bool) returns (records: seq<Notification>)
      ensures records == if readFails then [] else LedgerOf(store.entries)
    {
      records := GetStoredNotifications(readFails);
    }

    /** `saveNotification(n)`: read, push, write back; a rejected write is caught. */
    method SaveNotification(n: Notification, faults: StorageFaults)
      modifies store
      ensures store.entries == StoreAfterSave(old(store.entries), n, faults)
      ensures LedgerOf(store.entries) ==
                if faults.writeFails then old(LedgerOf(store.entries))
                else (if faults.readFails then [] else old(LedgerOf(store.entries))) + [n]
    {
      var records := GetStoredNotifications(faults.readFails);
      records := records + [n];
      var _ := store.SetItem(LedgerKey, Records(records), faults.writeFails);
    }

    /** `clearNotifications`: removes the ledger's key; a rejected removal is caught. */
    method ClearNotifications(fails: bool)
      modifies store
      ensures store.entries == if fails then old(store.entries) else old(store.entries) - {LedgerKey}
      ensures !fails ==> LedgerOf(store.entries) == []
    {
      var _ := store.RemoveItem(LedgerKey, fails);
    }

    /** `sendToGoogleSheets(n)`: `appendRow([date, amount, sender, message])`, any error caught. */
    method SendToGoogleSheets(n: Notification, platform: Platform, faults: StorageFaults, remote: Remote)
      requires Valid()
      modifies store, sheets
      ensures Valid() && sheets.config == old(sheets.config)
      ensures store.entries == StoreAfterAppend(old(store.entries), old(sheets.config), platform, faults, RowOf(n))
      ensures sheets.sent == old(sheets.sent) + RequestsOfAppend(old(sheets.config), platform, remote, RowOf(n))
      ensures LedgerOf(store.entries) == old(LedgerOf(store.entries))
    {
      var _ := sheets.AppendRow(RowOf(n), platform, faults, remote);
      ForwardKeepsLedger(old(store.entries), old(sheets.config), platform, faults, RowOf(n));
    }

    /**
      `handleNotification`: a payload from another package changes nothing;
      a Yape payload is parsed, saved, then forwarded. The ledger ends up
      as the save left it, whatever happens on the remote side.
    */
    method HandleNotification(p: Payload, env: Env)
      requires Valid()
      modifies store, sheets
      ensures Valid() && sheets.config == old(sheets.config)
      ensures !IsYapeNotification(p) ==> store.entries == old(store.entries) && sheets.sent == old(sheets.sent)
      ensures IsYapeNotification(p) ==>
                var n := ParseYapeNotification(p, env.now);
                && store.entries == StoreAfterAppend(StoreAfterSave(old(store.entries), n, env.ledgerFaults),
                                                     old(sheets.config), env.platform, env.pendingFaults, RowOf(n))
                && sheets.sent == old(sheets.sent) + RequestsOfAppend(old(sheets.config), env.platform, env.remote, RowOf(n))
                && LedgerOf(store.entries) ==
                     if env.ledgerFaults.writeFails then old(LedgerOf(store.entries))
                     else (if env.ledgerFaults.readFails then [] else old(LedgerOf(store.entries))) + [n]
    {
      if IsYapeNotification(p) {
        var n := ParseYapeNotification(p, env.now);
        SaveNotification(n, env.ledgerFaults);
        SendToGoogleSheets(n, env.platform, env.pendingFaults, env.remote);
      }
    }

    /**
      `initializeGoogleSheets`: `initialize`, then, when it returns true, the
      configuration is written to AsyncStorage a second time; an error from
      either is rethrown. `initWriteFails` and `saveWriteFails` say whether
      AsyncStorage rejects the first and the second write.
    */
    method InitializeGoogleSheets(clientId: string, spreadsheetId: string, sheetName: string, platform: Platform,
                                  initWriteFails: bool, accessToken: Option<string>, saveWriteFails: bool)
      returns (r: Result<bool, SheetError>)
      requires Valid()
      modifies store, sheets
      ensures Valid() && sheets.sent == old(sheets.sent)
      ensures clientId == "" || spreadsheetId == "" || sheetName == "" ==>
                r == Failure(MissingFields) && sheets.config == old(sheets.config) && store.entries == old(store.entries)
      ensures clientId != "" && spreadsheetId != "" && sheetName != "" ==>
                && sheets.config == Some(SheetConfig(spreadsheetId, sheetName, clientId))
                && (r.Success? ==> !initWriteFails && !saveWriteFails)
                && (!initWriteFails ==> store.entries == old(store.entries)[ConfigKey := Settings(sheets.config.value)])
                && (initWriteFails ==> r == Failure(StorageFailed) && store.entries == old(store.entries))
                && r == (if initWriteFails then Failure(StorageFailed)
                         else if platform == Native && accessToken.None? then Failure(SignInFailed)
                         else if platform == Native && accessToken == Some("") then Failure(NoAccessToken)
                         else if saveWriteFails then Failure(StorageFailed)
                         else Success(true))
      ensures r.Success? ==> r.value
    {
      r := sheets.Initialize(clientId, spreadsheetId, sheetName, platform, initWriteFails, accessToken);
      if r.Success? && r.value {
        var wrote := store.SetItem(ConfigKey, Settings(SheetConfig(spreadsheetId, sheetName, clientId)), saveWriteFails);
        if !wrote {
          r := Failure(StorageFailed);
        }
      }
    }
  }

  /** The static field `NotificationService.instance`; the service it creates shares the Sheets singleton. */
  class NotificationsSingleton {
    const sheetsSingleton: SheetsSingleton
    var instance: NotificationService?

    ghost predicate Valid()
      reads this, instance, sheetsSingleton, sheetsSingleton.instance
    {
      && sheetsSingleton.Valid()
      && (instance != null ==> instance.sheets == sheetsSingleton.instance && instance.store == sheetsSingleton.store)
    }

    constructor (sheetsSingleton: SheetsSingleton)
      requires sheetsSingleton.Valid()
      ensures this.sheetsSingleton == sheetsSingleton && instance == null && Valid()
    {
      this.sheetsSingleton := sheetsSingleton;
      instance := null;
    }

    /** `getInstance`: created once, with `GoogleSheetsService.getInstance()` as its sink. */
    method GetInstance() returns (s: NotificationService)
      requires Valid()
      modifies this, sheetsSingleton
      ensures Valid() && instance == s && s.Valid()
      ensures old(instance) != null ==> s == old(instance) && sheetsSingleton.instance == old(sheetsSingleton.instance)
      ensures old(instance) == null ==> fresh(s) && s.sheets == sheetsSingleton.instance
      ensures old(sheetsSingleton.instance) != null ==> sheetsSingleton.instance == old(sheetsSingleton.instance)
      ensures old(sheetsSingleton.instance) == null ==>
                fresh(sheetsSingleton.instance) && sheetsSingleton.instance.config == None && sheetsSingleton.instance.sent == []
    {
      if instance == null {
        var sheets := sheetsSingleton.GetInstance();
        instance := new NotificationService(sheets);
      }
      s := instance;
    }
  }
}
