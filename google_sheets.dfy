/**
  GoogleSheetsService: the sink that forwards rows to a spreadsheet.

  The service is either unconfigured or holds a configuration whose three
  fields are non-empty (Valid). Google Sign-In and `fetch` are not modelled:
  what they return is an input (Remote, the token given to `initialize`).
  The requests the service sends are recorded in the ghost log `sent`, so
  that the contracts can say which request goes out, and when none does.
*/
module GoogleSheets {
  import opened Wrappers
  import opened StoredData
  import opened AsyncStorage

  /** `Platform.OS`: the web build, or a native one (Android, iOS). */
  datatype Platform = Web | Native

  /** A `fetch` response: `ok`, `status`, and the `values` field of its JSON body. */
  datatype Response = Response(ok: bool, status: int, values: Option<seq<Row>>)

  /**
    What the outside world answers to one call: the access token
    `GoogleSignin.getTokens` resolves to (None when it rejects) and the
    response `fetch` resolves to (None when it rejects).
  */
  datatype Remote = Remote(accessToken: Option<string>, response: Option<Response>)

  /** Whether AsyncStorage rejects the read and the write made by one call. */
  datatype StorageFaults = StorageFaults(readFails: bool, writeFails: bool)

  /** The errors the service throws. */
  datatype SheetError =
    | MissingFields           // 'Todos los campos son requeridos'
    | NotInitialized          // 'Google Sheets service not initialized'
    | StorageFailed           // AsyncStorage rejected a read or a write
    | MalformedPending        // JSON.parse threw on the stored pending queue
    | SignInFailed            // Google Sign-In rejected
    | NoAccessToken           // 'No se pudo obtener el token de acceso'
    | NetworkFailed           // fetch rejected
    | HttpError(status: int)  // 'Error HTTP: <status>'

  /** A request to the Sheets API. */
  datatype Request =
    | AppendRequest(spreadsheetId: string, sheetName: string, accessToken: string, row: Row)
    | ReadRequest(spreadsheetId: string, sheetName: string, accessToken: string)

  /** The configuration `initialize` accepts: no field is empty. */
  predicate IsComplete(c: SheetConfig) {
    c.spreadsheetId != "" && c.sheetName != "" && c.clientId != ""
  }

  /** The pending queue as `appendRow` reads it: a missing key is the empty queue. */
  function PendingOf(entries: map<string, Entry>): Result<seq<Row>, SheetError> {
    match Lookup(entries, PendingKey)
    case None => Success([])
    case Some(Rows(rows)) => Success(rows)
    case Some(_) => Failure(MalformedPending)
  }

  /** The store after `appendRow(values)`: only the web build touches it, by queueing the row. */
  ghost function StoreAfterAppend(entries: map<string, Entry>, config: Option<SheetConfig>, platform: Platform,
                                  faults: StorageFaults, values: Row): map<string, Entry>
  {
    if config.Some? && platform == Web && !faults.readFails && PendingOf(entries).Success? && !faults.writeFails
    then entries[PendingKey := Rows(PendingOf(entries).value + [values])]
    else entries
  }

  /** The requests `appendRow(values)` sends: one, from a configured native build that got a token. */
  ghost function RequestsOfAppend(config: Option<SheetConfig>, platform: Platform, remote: Remote, values: Row): seq<Request>
  {
    if config.Some? && platform == Native && remote.accessToken.Some?
    then [AppendRequest(config.value.spreadsheetId, config.value.sheetName, remote.accessToken.value, values)]
    else []
  }

  /** Queueing a row on the web build leaves every other key, the ledger's among them, alone. */
  lemma AppendKeepsOtherKeys(entries: map<string, Entry>, config: Option<SheetConfig>, platform: Platform,
                              faults: StorageFaults, values: Row, key: string)
    requires key != PendingKey
    ensures Lookup(StoreAfterAppend(entries, config, platform, faults, values), key) == Lookup(entries, key)
  {
  }

  /** A queued row is appended at the end: the queue read back is the old one plus the row. */
  lemma QueuedRowIsLast(entries: map<string, Entry>, config: SheetConfig, faults: StorageFaults, values: Row)
    requires !faults.readFails && !faults.writeFails && PendingOf(entries).Success?
    ensures var after := PendingOf(StoreAfterAppend(entries, Some(config), Web, faults, values));
      after.Success? && after.value == PendingOf(entries).value + [values]
  {
  }

  class SheetsService {
    const store: Storage
    var config: Option<SheetConfig>
    ghost var sent: seq<Request>

    /** A configuration, once set, is complete. */
    ghost predicate Valid()
      reads this
    {
      config.Some? ==> IsComplete(config.value)
    }

    constructor (store: Storage)
      ensures this.store == store && config == None && sent == [] && Valid()
    {
      this.store := store;
      config := None;
      sent := [];
    }

    /**
      `initialize`. `writeFails` says whether AsyncStorage rejects the write of
      the configuration; `accessToken` is what the native sign-in sequence
      (`getCurrentUser`, `signIn` when signed out, `getTokens`) yields, None
      when one of its calls rejects.
    */
    method Initialize(clientId: string, spreadsheetId: string, sheetName: string, platform: Platform,
                      writeFails: bool, accessToken: Option<string>) returns (r: Result<bool, SheetError>)
      requires Valid()
      modifies this, store
      ensures Valid() && sent == old(sent)
      ensures clientId == "" || spreadsheetId == "" || sheetName == "" ==>
                r == Failure(MissingFields) && config == old(config) && store.entries == old(store.entries)
      ensures clientId != "" && spreadsheetId != "" && sheetName != "" ==>
                && config == Some(SheetConfig(spreadsheetId, sheetName, clientId))
                && store.entries == (if writeFails then old(store.entries)
                                     else old(store.entries)[ConfigKey := Settings(config.value)])
                && r == (if writeFails then Failure(StorageFailed)
                         else if platform == Web then Success(true)
                         else match accessToken
                              case None => Failure(SignInFailed)
                              case Some(token) => if token == "" then Failure(NoAccessToken) else Success(true))
    {
      if clientId == "" || spreadsheetId == "" || sheetName == "" {
        return Failure(MissingFields);
      }
      config := Some(SheetConfig(spreadsheetId, sheetName, clientId));
      var wrote := store.SetItem(ConfigKey, Settings(config.value), writeFails);
      if !wrote {
        return Failure(StorageFailed);
      }
      if platform == Web {
        return Success(true);
      }
      match accessToken {
        case None =>
          return Failure(SignInFailed);
        case Some(token) =>
          if token == "" {
            return Failure(NoAccessToken);
          }
      }
      return Success(true);
    }

    /**
      `appendRow(values)`. On the web build the row joins the pending queue
      in AsyncStorage; on a native build it is POSTed to the sheet.
    */
    method AppendRow(values: Row, platform: Platform, faults: StorageFaults, remote: Remote)
      returns (r: Result<bool, SheetError>)
      requires Valid()
      modifies this, store
      ensures Valid() && config == old(config)
      ensures store.entries == StoreAfterAppend(old(store.entries), old(config), platform, faults, values)
      ensures sent == old(sent) + RequestsOfAppend(old(config), platform, remote, values)
      ensures old(config).None? ==> r == Failure(NotInitialized)
      ensures old(config).Some? && platform == Web ==>
                r == (if faults.readFails then Failure(StorageFailed)
                      else match PendingOf(old(store.entries))
                           case Failure(e) => Failure(e)
                           case Success(_) => if faults.writeFails then Failure(StorageFailed) else Success(true))
      ensures old(config).Some? && platform == Native ==>
                r == (match remote.accessToken
                      case None => Failure(SignInFailed)
                      case Some(_) =>
                        match remote.response
                        case None => Failure(NetworkFailed)
                        case Some(response) => if response.ok then Success(true) else Failure(HttpError(response.status)))
    {
      if config.None? {
        return Failure(NotInitialized);
      }
      if platform == Web {
        var readOk, stored := store.GetItem(PendingKey, faults.readFails);
        if !readOk {
          return Failure(StorageFailed);
        }
        var pending: seq<Row>;
        match stored {
          case None =>
            pending := [];
          case Some(Rows(rows)) =>
            pending := rows;
          case Some(_) =>
            return Failure(MalformedPending);
        }
        pending := pending + [values];
        var wrote := store.SetItem(PendingKey, Rows(pending), faults.writeFails);
        if !wrote {
          return Failure(StorageFailed);
        }
        return Success(true);
      }
      match remote.accessToken
      case None =>
        return Failure(SignInFailed);
      case Some(token) =>
        sent := sent + [AppendRequest(config.value.spreadsheetId, config.value.sheetName, token, values)];
        match remote.response
        case None =>
          return Failure(NetworkFailed);
        case Some(response) =>
          if !response.ok {
            return Failure(HttpError(response.status));
          }
          return Success(true);
    }

    /** `getSheetData`: the sheet's rows, `[]` when the response carries no `values`. */
    method GetSheetData(remote: Remote) returns (r: Result<seq<Row>, SheetError>)
      requires Valid()
      modifies this
      ensures Valid() && config == old(config)
      ensures sent == old(sent) + (if old(config).Some? && remote.accessToken.Some?
                                   then [ReadRequest(config.value.spreadsheetId, config.value.sheetName, remote.accessToken.value)]
                                   else [])
      ensures old(config).None? ==> r == Failure(NotInitialized)
      ensures old(config).Some? ==>
                r == (match remote.accessToken
                      case None => Failure(SignInFailed)
                      case Some(_) =>
                        match remote.response
                        case None => Failure(NetworkFailed)
                        case Some(response) =>
                          if response.ok then Success(response.values.GetOr([])) else Failure(HttpError(response.status)))
    {
      if config.None? {
        return Failure(NotInitialized);
      }
      match remote.accessToken
      case None =>
        return Failure(SignInFailed);
      case Some(token) =>
        sent := sent + [ReadRequest(config.value.spreadsheetId, config.value.sheetName, token)];
        match remote.response
        case None =>
          return Failure(NetworkFailed);
        case Some(response) =>
          if !response.ok {
            return Failure(HttpError(response.status));
          }
          return Success(response.values.GetOr([]));
    }
  }

  /** The static field `GoogleSheetsService.instance`, assigned by the first `getInstance`. */
  class SheetsSingleton {
    const store: Storage
    var instance: SheetsService?

    ghost predicate Valid()
      reads this, instance
    {
      instance != null ==> instance.store == store && instance.Valid()
    }

    constructor (store: Storage)
      ensures this.store == store && instance == null && Valid()
    {
      this.store := store;
      instance := null;
    }

    /** `getInstance`: the first call creates the service, every later call returns that same one. */
    method GetInstance() returns (s: SheetsService)
      requires Valid()
      modifies this
      ensures Valid() && instance == s
      ensures old(instance) != null ==> s == old(instance)
      ensures old(instance) == null ==> fresh(s) && s.config == None && s.sent == []
    {
      if instance == null {
        instance := new SheetsService(store);
      }
      s := instance;
    }
  }
}
