/** The consumption endpoints (server/controllers/energyController.js): the checks in
    front of `addConsumption`, the row loop of the CSV import, the query and
    pagination of `getConsumption`, the CSV export and the delete guard. The
    database reads arrive as parameters. */
module EnergyController {
  import opened Common
  import opened Http
  import opened ErrorHandler

  // ---------------------------------------------------------------- addConsumption

  /** The device document as `addConsumption` finds it; `owner` may be unset on old documents. */
  datatype StoredDevice = StoredDevice(owner: Option<string>)

  /** The consumption record `addConsumption` creates, and the owner it writes to the
      device first when the device had none. The handler also passes `user`, but the
      EnergyConsumption schema has no such path, so the record does not keep it. */
  datatype NewConsumption = NewConsumption(device: string, value: real, unit: string,
                                           timestamp: int, assignedOwner: Option<string>)

  function InvalidIdMessage(deviceId: string): string { "Invalid device ID format: " + deviceId }
  function NoDeviceMessage(deviceId: string): string { "No device found with id " + deviceId }
  const NoPermissionMessage := "You don't have permission to add data to this device"

  /** The units the schema's `unit` enumeration admits, and its default. */
  const Units: seq<string> := ["kWh", "Wh", "MWh", "J", "kJ", "MJ"]
  const DefaultUnit := "kWh"

  /** The messages of the schema's validators for a new record, in the schema's path
      order: `value` is required, and a given `unit` must be one of the units. */
  function ValidationMessages(value: Option<real>, unit: Option<string>): (ms: seq<string>)
    ensures ms == [] <==> value.Some? && (unit.None? || unit.value in Units)
    ensures |ms| <= 2
  {
    (if value.None? then ["Path `value` is required."] else [])
    + (if unit.Some? && unit.value !in Units then ["`" + unit.value + "` is not a valid enum value for path `unit`."] else [])
  }

  /** The `ValidationError` that `EnergyConsumption.create` rejects with. */
  function ValidationFailure(messages: seq<string>): ThrownError
  {
    ThrownError("ValidationError", None, "", Some("EnergyConsumption validation failed"), None, messages)
  }

  /** `addConsumption` with the ownership test on the device's owner: 400 for a
      malformed id, 404 for an unknown device, 403 for a device someone else owns; an
      unowned device is assigned to the caller. Then `EnergyConsumption.create` runs:
      a record that fails the schema's validators is answered 400 with their messages,
      and `storeError` is any other error the database raises, answered as the error
      middleware answers it. */
  function AddConsumption(deviceId: string, callerId: string, value: Option<real>, unit: Option<string>,
                          timestamp: Option<int>, now: int, device: Option<StoredDevice>,
                          storeError: Option<ThrownError>): (r: Result<NewConsumption, ErrorResponse>)
    ensures !IsObjectId(deviceId) ==> r == Err(ErrorResponse(InvalidIdMessage(deviceId), BadRequest))
    ensures IsObjectId(deviceId) && device.None? ==> r == Err(ErrorResponse(NoDeviceMessage(deviceId), NotFound))
    ensures IsObjectId(deviceId) && device.Some? && device.value.owner.Some? && device.value.owner.value != callerId ==>
      r == Err(ErrorResponse(NoPermissionMessage, Forbidden))
    ensures IsObjectId(deviceId) && device.Some? && (device.value.owner.None? || device.value.owner.value == callerId) ==>
      (r.Ok? <==> ValidationMessages(value, unit) == [] && storeError.None?)
      && (ValidationMessages(value, unit) != [] ==>
            r == Err(ErrorResponse(Join(ValidationMessages(value, unit), ","), BadRequest)))
      && (ValidationMessages(value, unit) == [] && storeError.Some? ==> r == Err(Answered(storeError.value)))
    ensures r.Ok? ==> r.value.device == deviceId && r.value.value == value.value
                      && r.value.unit == Override(unit, DefaultUnit) && r.value.unit in Units
                      && r.value.timestamp == IntOr(timestamp, now)
                      && (r.value.assignedOwner == Some(callerId) <==> device.value.owner.None?)
                      && (r.value.assignedOwner.None? <==> device.value.owner == Some(callerId))
  {
    if !IsObjectId(deviceId) then Err(ErrorResponse(InvalidIdMessage(deviceId), BadRequest))
    else if device.None? then Err(ErrorResponse(NoDeviceMessage(deviceId), NotFound))
    else if device.value.owner.Some? && device.value.owner.value != callerId then
      Err(ErrorResponse(NoPermissionMessage, Forbidden))
    else
      var newOwner := if device.value.owner.None? then Some(callerId) else None;
      var messages := ValidationMessages(value, unit);
      if messages != [] then
        var e := Answered(ValidationFailure(messages));
        assert e.statusCode == BadRequest;
        Err(e)
      else if storeError.Some? then Err(Answered(storeError.value))
      else Ok(NewConsumption(deviceId, value.value, Override(unit, DefaultUnit), IntOr(timestamp, now), newOwner))
  }

  /** `addConsumption` as written: it reads `device.user`, a path the Device schema
      does not define, so the owner it sees is always absent (and the owner it then
      assigns is dropped when the device is saved). */
  function AddConsumptionAsWritten(deviceId: string, callerId: string, value: Option<real>, unit: Option<string>,
                                   timestamp: Option<int>, now: int, device: Option<StoredDevice>,
                                   storeError: Option<ThrownError>): Result<NewConsumption, ErrorResponse>
  {
    var seenUser: Option<string> := None;
    AddConsumption(deviceId, callerId, value, unit, timestamp, now,
                   if device.Some? then Some(StoredDevice(seenUser)) else None, storeError)
  }

  /** As written, any caller can add data to a device another user owns. */
  lemma AsWrittenNeverForbids(deviceId: string, callerId: string, other: string, value: real, unit: Option<string>,
                              timestamp: Option<int>, now: int)
    requires IsObjectId(deviceId) && other != callerId
    requires unit.None? || unit.value in Units
    ensures var device := Some(StoredDevice(Some(other)));
      AddConsumptionAsWritten(deviceId, callerId, Some(value), unit, timestamp, now, device, None).Ok?
      && AddConsumption(deviceId, callerId, Some(value), unit, timestamp, now, device, None)
         == Err(ErrorResponse(NoPermissionMessage, Forbidden))
  {
  }

  // ---------------------------------------------------------------- CSV import

  /** One parsed CSV row; a column the file lacks is `None`. */
  datatype CsvRow = CsvRow(deviceId: Option<string>, value: Option<string>, unit: Option<string>,
                           timestamp: Option<string>)

  datatype Share = Share(user: Option<string>)

  /** What `Device.findById` yields for a row: a device, nothing, or a thrown error
      (a malformed id raises a cast error). */
  datatype Lookup = Found(owner: string, sharedWith: seq<Share>) | Missing | LookupThrew(message: string)

  /** `sharedWith.some(sw => sw.user.toString() === userId)`: it stops at the first
      match and throws on an entry without a user before one. */
  function SharedWith(shares: seq<Share>, userId: string): (r: Result<bool, string>)
    ensures r == Ok(true) ==> exists k :: 0 <= k < |shares| && shares[k].user == Some(userId)
    ensures r == Ok(false) ==> forall k :: 0 <= k < |shares| ==> shares[k].user.Some? && shares[k].user.value != userId
    ensures r.Err? ==> r.error == UndefinedToString && exists k :: 0 <= k < |shares| && shares[k].user.None?
    ensures (forall k :: 0 <= k < |shares| ==> shares[k].user.Some?) ==>
      (r == Ok(true) <==> exists k :: 0 <= k < |shares| && shares[k].user == Some(userId))
  {
    if shares == [] then Ok(false)
    else if shares[0].user.None? then Err(UndefinedToString)
    else if shares[0].user.value == userId then Ok(true)
    else SharedWith(shares[1..], userId)
  }

  function RowPrefix(index: nat): string
  {
    "Row " + NatToString(index + 1) + ": "
  }

  const MissingFields := "Missing required fields"

  function PermissionDenied(deviceId: string): string
  {
    "You don't have permission to add data to device " + deviceId
  }

  predicate HasRequiredFields(row: CsvRow)
  {
    TruthyStr(row.deviceId) && TruthyStr(row.value) && TruthyStr(row.unit)
  }

  /** The error the import records for the row at `index`, or `None` when the row's
      record was created. `create` is the outcome of `EnergyConsumption.create`. */
  function RowError(index: nat, row: CsvRow, userId: string, lookup: string -> Lookup,
                    create: CsvRow -> Option<string>): (e: Option<string>)
    ensures !HasRequiredFields(row) ==> e == Some(RowPrefix(index) + MissingFields)
    ensures HasRequiredFields(row) && lookup(row.deviceId.value) == Missing ==>
      e == Some(RowPrefix(index) + "Device not found with ID: " + row.deviceId.value)
    ensures e.None? ==> HasRequiredFields(row) && create(row).None?
                        && lookup(row.deviceId.value).Found?
                        && (lookup(row.deviceId.value).owner == userId
                            || SharedWith(lookup(row.deviceId.value).sharedWith, userId) == Ok(true))
    ensures HasRequiredFields(row) && lookup(row.deviceId.value).LookupThrew? ==>
      e == Some(RowPrefix(index) + lookup(row.deviceId.value).message)
    ensures HasRequiredFields(row) && lookup(row.deviceId.value).Found? ==>
      var device := lookup(row.deviceId.value);
      var shared := SharedWith(device.sharedWith, userId);
      && (device.owner != userId && shared.Err? ==> e == Some(RowPrefix(index) + shared.error))
      && (device.owner != userId && shared == Ok(false) ==>
            e == Some(RowPrefix(index) + PermissionDenied(row.deviceId.value)))
      && (device.owner == userId || shared == Ok(true) ==>
            e == (if create(row).Some? then Some(RowPrefix(index) + create(row).value) else None))
    ensures e.Some? ==> StartsWith(e.value, RowPrefix(index))
  {
    if !HasRequiredFields(row) then Some(RowPrefix(index) + MissingFields)
    else
      var id := row.deviceId.value;
      match lookup(id)
      case Missing => Some(RowPrefix(index) + "Device not found with ID: " + id)
      case LookupThrew(m) => Some(RowPrefix(index) + m)
      case Found(owner, shares) =>
        var allowed := if owner == userId then Ok(true) else SharedWith(shares, userId);
        if allowed.Err? then Some(RowPrefix(index) + allowed.error)
        else if !allowed.value then
          Some(RowPrefix(index) + PermissionDenied(id))
        else if create(row).Some? then Some(RowPrefix(index) + create(row).value)
        else None
  }

  /** The errors recorded for the first `n` rows, in row order. */
  function ImportErrors(rows: seq<CsvRow>, n: nat, userId: string, lookup: string -> Lookup,
                        create: CsvRow -> Option<string>): (errs: seq<string>)
    requires n <= |rows|
    ensures |errs| <= n
  {
    if n == 0 then []
    else
      var e := RowError(n - 1, rows[n - 1], userId, lookup, create);
      ImportErrors(rows, n - 1, userId, lookup, create) + (if e.Some? then [e.value] else [])
  }

  /** The number of records created for the first `n` rows. */
  function CreatedCount(rows: seq<CsvRow>, n: nat, userId: string, lookup: string -> Lookup,
                        create: CsvRow -> Option<string>): nat
    requires n <= |rows|
  {
    if n == 0 then 0
    else
      CreatedCount(rows, n - 1, userId, lookup, create)
      + (if RowError(n - 1, rows[n - 1], userId, lookup, create).None? then 1 else 0)
  }

  /** Every row either adds one error or creates one record. */
  lemma {:induction false} ErrorsPlusCreated(rows: seq<CsvRow>, n: nat, userId: string, lookup: string -> Lookup,
                                             create: CsvRow -> Option<string>)
    requires n <= |rows|
    ensures |ImportErrors(rows, n, userId, lookup, create)| + CreatedCount(rows, n, userId, lookup, create) == n
  {
    if n > 0 {
      ErrorsPlusCreated(rows, n - 1, userId, lookup, create);
    }
  }

  /** When no row carries the required fields, nothing is imported and every row is
      reported as missing fields, numbered from 1. */
  lemma {:induction false} AllIncompleteRows(rows: seq<CsvRow>, n: nat, userId: string, lookup: string -> Lookup,
                                             create: CsvRow -> Option<string>)
    requires n <= |rows|
    requires forall k :: 0 <= k < |rows| ==> !HasRequiredFields(rows[k])
    ensures var errs := ImportErrors(rows, n, userId, lookup, create);
      |errs| == n && forall k :: 0 <= k < n ==> errs[k] == RowPrefix(k) + MissingFields
  {
    if n > 0 {
      AllIncompleteRows(rows, n - 1, userId, lookup, create);
    }
  }

  /** The row loop of `importConsumptionCSV`. */
  method ImportRows(rows: seq<CsvRow>, userId: string, lookup: string -> Lookup, create: CsvRow -> Option<string>)
    returns (imported: int, errors: seq<string>)
    ensures errors == ImportErrors(rows, |rows|, userId, lookup, create)
    ensures imported == |rows| - |errors|
    ensures imported == CreatedCount(rows, |rows|, userId, lookup, create)
  {
    errors := [];
    var i := 0;
    while i < |rows|
      invariant 0 <= i <= |rows|
      invariant errors == ImportErrors(rows, i, userId, lookup, create)
    {
      var e := RowError(i, rows[i], userId, lookup, create);
      if e.Some? {
        errors := errors + [e.value];
      }
      i := i + 1;
    }
    imported := |rows| - |errors|;
    ErrorsPlusCreated(rows, |rows|, userId, lookup, create);
  }

  /** The response body of a finished import; `errors` is left out when empty. */
  datatype ImportReport = ImportReport(imported: int, errors: Option<seq<string>>)

  /** `importConsumptionCSV`: `parsed` is `None` when reading the uploaded file fails,
      and `unlinkFails` when removing the uploaded file throws. `fileLeft` says whether
      the upload is still on disk afterwards. */
  method ImportConsumptionCsv(fileUploaded: bool, fileExists: bool, parsed: Option<seq<CsvRow>>, userId: string,
                              lookup: string -> Lookup, create: CsvRow -> Option<string>, unlinkFails: bool)
    returns (r: Result<ImportReport, ErrorResponse>, fileLeft: bool)
    ensures !fileUploaded ==> r == Err(ErrorResponse("Please upload a CSV file", BadRequest))
    ensures fileUploaded && !fileExists ==> r == Err(ErrorResponse("Uploaded file not found", NotFound))
    ensures fileUploaded && fileExists && parsed.None? ==> r == Err(ErrorResponse("Error processing CSV file", ServerError))
    ensures fileUploaded && fileExists && parsed.Some? ==>
      var errs := ImportErrors(parsed.value, |parsed.value|, userId, lookup, create);
      r.Ok? && r.value.imported == CreatedCount(parsed.value, |parsed.value|, userId, lookup, create)
      && r.value.imported == |parsed.value| - |errs|
      && r.value.errors == (if errs == [] then None else Some(errs))
    ensures fileLeft <==> fileUploaded && fileExists && unlinkFails
  {
    if !fileUploaded {
      return Err(ErrorResponse("Please upload a CSV file", BadRequest)), false;
    }
    if !fileExists {
      return Err(ErrorResponse("Uploaded file not found", NotFound)), false;
    }
    if parsed.None? {
      r := Err(ErrorResponse("Error processing CSV file", ServerError));
    } else {
      var imported, errors := ImportRows(parsed.value, userId, lookup, create);
      r := Ok(ImportReport(imported, if errors == [] then None else Some(errors)));
    }
    // The `finally` block: an existing upload is removed; a failed removal is only logged.
    fileLeft := unlinkFails;
  }

  // ---------------------------------------------------------------- getConsumption

  const DefaultPage := 1
  const DefaultLimit := 25

  datatype PageLink = PageLink(page: int, limit: int)

  datatype Pagination = Pagination(page: int, limit: int, startIndex: int,
                                   next: Option<PageLink>, prev: Option<PageLink>)

  /** The paging arithmetic of `getConsumption` over `total` matching records. */
  function Paginate(pageQuery: Option<int>, limitQuery: Option<int>, total: nat): (p: Pagination)
    ensures p.page == IntOr(pageQuery, DefaultPage) && p.limit == IntOr(limitQuery, DefaultLimit)
    ensures p.startIndex == (p.page - 1) * p.limit
    ensures p.next.Some? <==> p.page * p.limit < total
    ensures p.next.Some? ==> p.next.value == PageLink(p.page + 1, p.limit)
    ensures p.prev.Some? <==> p.startIndex > 0
    ensures p.prev.Some? ==> p.prev.value == PageLink(p.page - 1, p.limit)
  {
    var page := IntOr(pageQuery, DefaultPage);
    var limit := IntOr(limitQuery, DefaultLimit);
    var startIndex := (page - 1) * limit;
    Pagination(page, limit, startIndex,
               if page * limit < total then Some(PageLink(page + 1, limit)) else None,
               if startIndex > 0 then Some(PageLink(page - 1, limit)) else None)
  }

  /** The error MongoDB raises for a negative `skip`; the error middleware answers it with 500. */
  function NegativeSkip(startIndex: int): ThrownError
    requires startIndex < 0
  {
    ThrownError("MongoServerError", Some(51024), "",
                Some("BSON field 'skip' value must be >= 0, actual value '-" + NatToString(-startIndex) + "'"),
                None, [])
  }

  /** The paging of `getConsumption` as the client sees it: the query's `skip(startIndex)`
      is refused for a negative start index (a negative page, or a negative limit past
      page 1), and the links are sent otherwise. */
  function PageReply(pageQuery: Option<int>, limitQuery: Option<int>, total: nat): (r: Result<Pagination, ErrorResponse>)
    ensures var p := Paginate(pageQuery, limitQuery, total);
      (r.Ok? <==> p.startIndex >= 0)
      && (r.Ok? ==> r.value == p)
      && (r.Err? ==> r.error == ErrorResponse("BSON field 'skip' value must be >= 0, actual value '-"
                                              + NatToString(-p.startIndex) + "'", ServerError))
  {
    var p := Paginate(pageQuery, limitQuery, total);
    if p.startIndex < 0 then Err(Answered(NegativeSkip(p.startIndex))) else Ok(p)
  }

  /** Pages from 1 on with a positive limit are always answered. */
  lemma PositivePagesAnswered(pageQuery: Option<int>, limitQuery: Option<int>, total: nat)
    requires IntOr(pageQuery, DefaultPage) >= 1 && IntOr(limitQuery, DefaultLimit) > 0
    ensures PageReply(pageQuery, limitQuery, total).Ok?
  {
    var p := Paginate(pageQuery, limitQuery, total);
    assert p.startIndex == (p.page - 1) * p.limit;
    assert p.page - 1 >= 0 && p.limit > 0;
  }

  /** With a positive page size, the defaults give the first page of 25 and no
      previous link; a previous link exists exactly after the first page, and a
      missing next link means every record lies on this page or before it. */
  lemma PaginationLinks(pageQuery: Option<int>, limitQuery: Option<int>, total: nat)
    requires IntOr(limitQuery, DefaultLimit) > 0
    ensures var p := Paginate(pageQuery, limitQuery, total);
      (pageQuery.None? ==> p.page == 1 && p.startIndex == 0 && p.prev.None?)
      && (limitQuery.None? ==> p.limit == 25)
      && (p.prev.Some? <==> p.page > 1)
      && (p.next.None? ==> total <= p.startIndex + p.limit)
  {
    var p := Paginate(pageQuery, limitQuery, total);
    if p.page > 1 {
      assert (p.page - 1) * p.limit >= p.limit;
    } else {
      assert (p.page - 1) * p.limit <= 0;
    }
  }

  /** The `queryObj` of `getConsumption`. */
  datatype ConsumptionQuery = ConsumptionQuery(device: Option<string>, from: Option<int>, to: Option<int>,
                                               user: Option<string>)

  /** Builds the query; `endOfDay` moves the end date to 23:59:59.999 local time. */
  function BuildQuery(deviceId: Option<string>, startDate: Option<int>, endDate: Option<int>,
                      caller: Caller, endOfDay: int -> int): (q: ConsumptionQuery)
    ensures q.device == (if TruthyStr(deviceId) then deviceId else None)
    ensures q.from == startDate && q.to == (if endDate.Some? then Some(endOfDay(endDate.value)) else None)
    ensures q.user.None? <==> IsAdmin(caller)
    ensures q.user.Some? ==> q.user.value == caller.id
  {
    ConsumptionQuery(if TruthyStr(deviceId) then deviceId else None,
                     startDate,
                     if endDate.Some? then Some(endOfDay(endDate.value)) else None,
                     if IsAdmin(caller) then None else Some(caller.id))
  }

  /** A consumption record as the EnergyConsumption schema stores it: the schema has no
      `user` path, so the `user` that `addConsumption` and the import pass to `create`
      is dropped and a stored record names no owner. */
  datatype StoredRecord = StoredRecord(device: string, timestamp: int)

  /** The device and date conditions of a query. */
  predicate InRange(q: ConsumptionQuery, device: string, timestamp: int)
  {
    (q.device.None? || device == q.device.value)
    && (q.from.None? || q.from.value <= timestamp)
    && (q.to.None? || timestamp <= q.to.value)
  }

  /** Whether a stored record passes the query as written. With Mongoose's `strictQuery`
      on, the condition on the unknown `user` path is stripped from the filter; with it
      off the condition stays, and no stored record has that path. */
  predicate MatchesAsWritten(q: ConsumptionQuery, strictQuery: bool, r: StoredRecord)
  {
    InRange(q, r.device, r.timestamp) && (q.user.None? || strictQuery)
  }

  /** As written, a caller who is not an admin sees exactly the records an admin sees
      (everyone's) when `strictQuery` is on, and no record at all when it is off. */
  lemma AsWrittenListingNotPrivate(deviceId: Option<string>, startDate: Option<int>, endDate: Option<int>,
                                   caller: Caller, admin: Caller, endOfDay: int -> int, r: StoredRecord)
    requires !IsAdmin(caller) && IsAdmin(admin)
    ensures MatchesAsWritten(BuildQuery(deviceId, startDate, endDate, caller, endOfDay), true, r)
            == MatchesAsWritten(BuildQuery(deviceId, startDate, endDate, admin, endOfDay), true, r)
    ensures !MatchesAsWritten(BuildQuery(deviceId, startDate, endDate, caller, endOfDay), false, r)
  {
  }

  /** A consumption record under a schema that keeps the owner the handlers pass as
      `user`, which is what the listing's filter is written for. */
  datatype ConsumptionRow = ConsumptionRow(device: string, user: string, timestamp: int)

  predicate Matches(q: ConsumptionQuery, r: ConsumptionRow)
  {
    InRange(q, r.device, r.timestamp) && (q.user.None? || r.user == q.user.value)
  }

  /** With the owner stored, a caller who is not an admin only ever sees their own
      records, and an admin sees every record in the device and date range. */
  lemma ListingIsPrivate(deviceId: Option<string>, startDate: Option<int>, endDate: Option<int>,
                         caller: Caller, endOfDay: int -> int, r: ConsumptionRow)
    ensures var q := BuildQuery(deviceId, startDate, endDate, caller, endOfDay);
      (!IsAdmin(caller) && Matches(q, r) ==> r.user == caller.id)
      && (IsAdmin(caller) ==> (Matches(q, r) <==> InRange(q, r.device, r.timestamp)))
      && (r.user == caller.id ==> (Matches(q, r) <==> InRange(q, r.device, r.timestamp)))
  {
  }

  // ---------------------------------------------------------------- exportConsumption

  /** The schema's nested `cost` path. Its `currency` has a default, so a stored
      record's cost object always has at least that entry. */
  datatype Cost = Cost(amount: Option<real>, currency: string, rate: Option<real>)

  /** A record as the export prints it: the text of its timestamp and device, its value,
      its unit and its cost object. */
  datatype ExportRecord = ExportRecord(timestamp: string, device: string, value: real, unit: string, cost: Cost)

  const HeaderFields: seq<string> := ["Timestamp", "Device ID", "Value", "Unit", "Cost"]
  const HeaderLine := Join(HeaderFields, ",")
  const CsvHeader := HeaderLine + "\n"

  /** None of the header's column names contains a comma or a line break. */
  lemma HeaderText()
    ensures forall j :: 0 <= j < |HeaderFields| ==> PlainField(HeaderFields[j])
  {
  }

  /** The five fields of a record's line; `num` renders a number. The fifth is
      `consumption.cost || ''`: the nested cost object is always truthy, so the empty
      alternative is never taken and the field is the object's text, `costText`. */
  function CsvFields(r: ExportRecord, num: real -> string, costText: Cost -> string): (fs: seq<string>)
    ensures |fs| == 5 && fs[2] == num(r.value) && fs[4] == costText(r.cost)
  {
    [r.timestamp, r.device, num(r.value), r.unit, costText(r.cost)]
  }

  /** The entries Node's `util.inspect` shows for a cost object, in the schema's order. */
  function CostEntries(c: Cost, num: real -> string): (es: seq<string>)
    ensures |es| >= 1
    ensures c.amount.Some? ==> |es| >= 2
  {
    (if c.amount.Some? then ["amount: " + num(c.amount.value)] else [])
    + ["currency: '" + c.currency + "'"]
    + (if c.rate.Some? then ["rate: " + num(c.rate.value)] else [])
  }

  /** How Mongoose turns a nested path into text: `util.inspect` of its value. */
  function InspectCost(c: Cost, num: real -> string): string
  {
    "{ " + Join(CostEntries(c, num), ", ") + " }"
  }

  /** The cost field as the export prints it. */
  function AsObject(num: real -> string): Cost -> string
  {
    (c: Cost) => InspectCost(c, num)
  }

  /** The cost field as the export means to print it: the amount, or empty when it is
      missing or zero. */
  function AmountText(num: real -> string): Cost -> string
  {
    (c: Cost) => if TruthyNum(c.amount) then num(c.amount.value) else ""
  }

  /** A record's line without its line break: the fields joined by commas. */
  function LineText(r: ExportRecord, num: real -> string, costText: Cost -> string): string
  {
    Join(CsvFields(r, num, costText), ",")
  }

  /** The text of each record's line, in order. */
  function LineTexts(rs: seq<ExportRecord>, num: real -> string, costText: Cost -> string): (ts: seq<string>)
    ensures |ts| == |rs|
    ensures forall k :: 0 <= k < |rs| ==> ts[k] == LineText(rs[k], num, costText)
  {
    if rs == [] then [] else LineTexts(rs[..|rs| - 1], num, costText) + [LineText(rs[|rs| - 1], num, costText)]
  }

  /** Lines, each followed by a line break. */
  function Unlines(ts: seq<string>): string
  {
    if ts == [] then "" else Unlines(ts[..|ts| - 1]) + ts[|ts| - 1] + "\n"
  }

  /** The lines of the records, in order. */
  function CsvBody(rs: seq<ExportRecord>, num: real -> string, costText: Cost -> string): string
  {
    Unlines(LineTexts(rs, num, costText))
  }

  /** `exportConsumption`: the header, then one line per record. */
  method ExportCsv(rs: seq<ExportRecord>, num: real -> string, costText: Cost -> string) returns (csv: string)
    ensures csv == CsvHeader + CsvBody(rs, num, costText)
  {
    var body := "";
    var i := 0;
    while i < |rs|
      invariant 0 <= i <= |rs|
      invariant body == CsvBody(rs[..i], num, costText)
    {
      CsvBodyStep(rs, i, num, costText);
      body := body + LineText(rs[i], num, costText) + "\n";
      i := i + 1;
    }
    assert rs[..|rs|] == rs;
    csv := CsvHeader + body;
  }

  lemma CsvBodyStep(rs: seq<ExportRecord>, i: nat, num: real -> string, costText: Cost -> string)
    requires i < |rs|
    ensures CsvBody(rs[..i + 1], num, costText) == CsvBody(rs[..i], num, costText) + LineText(rs[i], num, costText) + "\n"
  {
    assert rs[..i + 1][..i] == rs[..i];
    var ts := LineTexts(rs[..i + 1], num, costText);
    assert ts[..|ts| - 1] == LineTexts(rs[..i], num, costText);
  }

  predicate PlainField(f: string)
  {
    ',' !in f && '\n' !in f
  }

  /** Joining a header line and some lines with line breaks, plus a final break, gives
      the header line, a break and the lines each followed by a break. */
  lemma {:induction false} UnlinesJoin(h: string, ts: seq<string>)
    ensures Join([h] + ts, "\n") + "\n" == h + "\n" + Unlines(ts)
  {
    if ts == [] {
      assert [h] + ts == [h];
    } else {
      var init := ts[..|ts| - 1];
      UnlinesJoin(h, init);
      assert [h] + ts == ([h] + init) + [ts[|ts| - 1]];
      JoinSnoc([h] + init, ts[|ts| - 1], "\n");
    }
  }

  /** Split on line breaks, a header line and lines free of breaks come back, followed
      by the empty string after the final break. */
  lemma SplitUnlines(h: string, ts: seq<string>)
    requires '\n' !in h && forall k :: 0 <= k < |ts| ==> '\n' !in ts[k]
    ensures Split(h + "\n" + Unlines(ts), '\n') == [h] + ts + [""]
  {
    var parts := [h] + ts + [""];
    var joined := Join([h] + ts, "\n");
    UnlinesJoin(h, ts);
    assert joined + "\n" == h + "\n" + Unlines(ts);
    JoinSnoc([h] + ts, "", "\n");
    assert Join(parts, "\n") == joined + "\n" + "";
    assert Join(parts, "\n") == h + "\n" + Unlines(ts);
    forall k | 0 <= k < |parts| ensures '\n' !in parts[k] {
      if 0 < k <= |ts| { assert parts[k] == ts[k - 1]; }
    }
    SplitJoin(parts, '\n');
    assert Split(Join(parts, "\n"), '\n') == parts;
  }

  lemma ExportAsJoin(rs: seq<ExportRecord>, num: real -> string, costText: Cost -> string)
    ensures Join([HeaderLine] + LineTexts(rs, num, costText), "\n") + "\n" == CsvHeader + CsvBody(rs, num, costText)
  {
    UnlinesJoin(HeaderLine, LineTexts(rs, num, costText));
  }

  /** Reading the export back: split on line breaks it gives the header, one line per
      record and a final empty string, and each line splits on commas into exactly the
      record's five fields, provided no field contains a comma or a line break. */
  lemma ExportRoundTrip(rs: seq<ExportRecord>, num: real -> string, costText: Cost -> string)
    requires forall k, j :: 0 <= k < |rs| && 0 <= j < 5 ==> PlainField(CsvFields(rs[k], num, costText)[j])
    ensures var lines := Split(CsvHeader + CsvBody(rs, num, costText), '\n');
      |lines| == |rs| + 2 && lines[|rs| + 1] == ""
      && Split(lines[0], ',') == HeaderFields
      && forall k :: 0 <= k < |rs| ==> Split(lines[k + 1], ',') == CsvFields(rs[k], num, costText)
  {
    HeaderText();
    RoundTripWith(HeaderFields, rs, num, costText);
  }

  /** The round trip for any header made of plain fields. */
  lemma RoundTripWith(fields: seq<string>, rs: seq<ExportRecord>, num: real -> string, costText: Cost -> string)
    requires |fields| >= 1 && forall j :: 0 <= j < |fields| ==> PlainField(fields[j])
    requires forall k, j :: 0 <= k < |rs| && 0 <= j < 5 ==> PlainField(CsvFields(rs[k], num, costText)[j])
    ensures var lines := Split(Join(fields, ",") + "\n" + CsvBody(rs, num, costText), '\n');
      |lines| == |rs| + 2 && lines[|rs| + 1] == ""
      && Split(lines[0], ',') == fields
      && forall k :: 0 <= k < |rs| ==> Split(lines[k + 1], ',') == CsvFields(rs[k], num, costText)
  {
    var h := Join(fields, ",");
    var texts := LineTexts(rs, num, costText);
    JoinFree(fields, ",", '\n');
    TextsHaveNoBreak(rs, num, costText);
    SplitUnlines(h, texts);
    var lines := Split(h + "\n" + CsvBody(rs, num, costText), '\n');
    Framed(lines, h, texts);
    SplitJoin(fields, ',');
    RecordLines(rs, num, costText);
  }

  /** The positions of a header, lines and a trailer laid end to end. */
  lemma Framed(lines: seq<string>, h: string, texts: seq<string>)
    requires lines == [h] + texts + [""]
    ensures |lines| == |texts| + 2 && lines[0] == h && lines[|texts| + 1] == ""
    ensures forall k :: 0 <= k < |texts| ==> lines[k + 1] == texts[k]
  {
  }

  /** No record line contains a line break when no field does. */
  lemma TextsHaveNoBreak(rs: seq<ExportRecord>, num: real -> string, costText: Cost -> string)
    requires forall k, j :: 0 <= k < |rs| && 0 <= j < 5 ==> PlainField(CsvFields(rs[k], num, costText)[j])
    ensures forall k :: 0 <= k < |rs| ==> '\n' !in LineTexts(rs, num, costText)[k]
  {
    forall k | 0 <= k < |rs|
      ensures '\n' !in LineTexts(rs, num, costText)[k]
    {
      JoinFree(CsvFields(rs[k], num, costText), ",", '\n');
    }
  }

  /** Each record line splits on commas into the record's fields. */
  lemma RecordLines(rs: seq<ExportRecord>, num: real -> string, costText: Cost -> string)
    requires forall k, j :: 0 <= k < |rs| && 0 <= j < 5 ==> PlainField(CsvFields(rs[k], num, costText)[j])
    ensures forall k :: 0 <= k < |rs| ==> Split(LineTexts(rs, num, costText)[k], ',') == CsvFields(rs[k], num, costText)
  {
    forall k | 0 <= k < |rs|
      ensures Split(LineTexts(rs, num, costText)[k], ',') == CsvFields(rs[k], num, costText)
    {
      SplitJoin(CsvFields(rs[k], num, costText), ',');
    }
  }

  /** As written, a record whose cost has an amount prints a cost field with a comma in
      it, so its line no longer splits back into the record's five fields. */
  lemma AsWrittenCostBreaksLine(r: ExportRecord, num: real -> string)
    requires r.cost.amount.Some?
    ensures ',' in CsvFields(r, num, AsObject(num))[4]
    ensures Split(LineText(r, num, AsObject(num)), ',') != CsvFields(r, num, AsObject(num))
  {
    var es := CostEntries(r.cost, num);
    var inner := Join(es, ", ");
    assert inner == es[0] + ", " + Join(es[1..], ", ");
    assert inner[|es[0]|] == ',';
    var field := InspectCost(r.cost, num);
    assert field == "{ " + inner + " }";
    assert field[2 + |es[0]|] == ',';
    var fs := CsvFields(r, num, AsObject(num));
    assert fs[4] == field;
    SplitNoSeparator(LineText(r, num, AsObject(num)), ',');
  }

  /** With the cost printed as its amount, the export reads back as the records' fields
      whenever the timestamps, devices, units and rendered numbers are free of commas and
      line breaks. */
  lemma AmountRoundTrip(rs: seq<ExportRecord>, num: real -> string)
    requires forall x :: PlainField(num(x))
    requires forall k :: 0 <= k < |rs| ==> PlainField(rs[k].timestamp) && PlainField(rs[k].device) && PlainField(rs[k].unit)
    ensures var lines := Split(CsvHeader + CsvBody(rs, num, AmountText(num)), '\n');
      |lines| == |rs| + 2 && lines[|rs| + 1] == ""
      && Split(lines[0], ',') == HeaderFields
      && forall k :: 0 <= k < |rs| ==> Split(lines[k + 1], ',') == CsvFields(rs[k], num, AmountText(num))
  {
    forall k, j | 0 <= k < |rs| && 0 <= j < 5
      ensures PlainField(CsvFields(rs[k], num, AmountText(num))[j])
    {
      assert PlainField(num(rs[k].value));
      var c := rs[k].cost;
      if TruthyNum(c.amount) {
        assert PlainField(num(c.amount.value));
      }
    }
    ExportRoundTrip(rs, num, AmountText(num));
  }

  // ---------------------------------------------------------------- deleteConsumption

  function RecordNotFound(id: string): ErrorResponse
  {
    ErrorResponse("Consumption record not found with id of " + id, NotFound)
  }

  /** `deleteConsumption` with the owner test on a stored owner: 404 for an unknown
      record, 401 unless the caller owns it or is an admin; `recordUser` is the stored
      record's owner, `None` when no record has the id. */
  function DeleteConsumption(id: string, recordUser: Option<string>, caller: Caller): (r: Result<(), ErrorResponse>)
    ensures r.Ok? <==> recordUser.Some? && (recordUser.value == caller.id || IsAdmin(caller))
    ensures recordUser.None? ==> r == Err(RecordNotFound(id))
    ensures recordUser.Some? && r.Err? ==>
      r.error == ErrorResponse("Not authorized to delete this consumption record", Unauthorized)
  {
    if recordUser.None? then Err(RecordNotFound(id))
    else if recordUser.value != caller.id && !IsAdmin(caller) then
      Err(ErrorResponse("Not authorized to delete this consumption record", Unauthorized))
    else Ok(())
  }

  /** `deleteConsumption` as written: for a record that exists it calls
      `consumption.user.toString()` before testing the role, and stored records have no
      `user`, so the call throws a `TypeError` that the async wrapper hands to the
      error middleware, which answers 500 with the error's message. */
  function DeleteConsumptionAsWritten(id: string, found: bool, caller: Caller): Result<(), ErrorResponse>
  {
    if !found then Err(RecordNotFound(id))
    else Err(Answered(ThrownError("TypeError", None, "", Some(UndefinedToString), None, [])))
  }

  /** As written, no record can be deleted: even its owner and an admin get a 500. */
  lemma AsWrittenDeleteAlwaysFails(id: string, owner: string, caller: Caller)
    requires caller.id == owner || IsAdmin(caller)
    ensures DeleteConsumption(id, Some(owner), caller) == Ok(())
    ensures DeleteConsumptionAsWritten(id, true, caller) == Err(ErrorResponse(UndefinedToString, ServerError))
  {
  }
}
