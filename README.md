# ecoTrackAI decision logic in Dafny

This project models the decision logic of ecoTrackAI, an energy-monitoring
application, and proves properties of it. The application has three parts:

- An Express/Mongoose server that stores devices, consumption readings, companies
  and eco-tips.
- A small Python analysis service that forecasts consumption and flags outliers.
- A React client with admin device tables, notifications and account forms.

The model covers the rules that sit around the database and library calls:

- **Analysis service:** forecast timestamps and input ordering, and the
  collection of anomaly timestamps.
- **Mongoose model methods:**
  - Company member lists.
  - Device scores, abnormality and status buckets.
  - Consumption pre-save defaults, savings, grouping and threshold anomalies.
  - Eco-tip seasons and counters.
- **Server controllers and middleware:**
  - Consumption entry, CSV import, paging, export and delete.
  - The efficiency score.
  - Batched anomaly processing.
  - The error-to-status mapping, the auth guards and the upload file name.
- **Client pages:**
  - Device filtering, paging and the five-button page window.
  - Notification read state.
  - The registration and profile validators.

Each core file is its own module:

- `AiShim`, `CompanyModel`, `DeviceModel`, `ConsumptionModel`, `EcoTipModel`.
- `EnergyController`, `AiService`, `AiController`.
- `ErrorHandler`, `Auth`, `Upload`.
- `DeviceManagement`, `DeviceList`, `Notifications`, `Register`, `Profile`.

The shared vocabulary lives in four modules:

- `Common`: optional values and results, JavaScript truthiness, white space,
  `split`/`join`/`slice`/`filter`.
- `Http`: error responses and the caller.
- `Paging`: the page arithmetic of the admin device pages.
- `FormRules`: the field rules that the registration and profile pages share.

Conventions:

- Documents whose hooks update fields in place are classes with `modifies`
  methods: `Company`, `Device`, `Consumption` and `EcoTip`.
- The CSV import, the CSV export, the batch loop and the form validators are
  methods with loops or step-by-step updates.
- Everything else is functions and lemmas.
- Library calls become parameters of the functions that use them: ARIMA,
  IsolationForest, `jwt.verify`, Mongo lookups, `Date.now`, `Math.random`,
  local-time date decomposition and number formatting.
- Timestamps are integers: seconds in the Python service, milliseconds elsewhere.
- Money and energy values are `real`.
- JavaScript `undefined` is `None`.

## Model

| member | source | states |
|---|---|---|
| `AiShim.ParseAll` | server/ai/main.py:68-69 | parsing succeeds iff every timestamp parses, and then the i-th observation carries the i-th timestamp and value; a failure carries the error of the first timestamp that does not parse |
| `AiShim.InsertKeepsElements` | server/ai/main.py:70 | inserting one observation adds exactly that element (multiset) |
| `AiShim.InsertKeepsOrder` | server/ai/main.py:70 | insertion into a time-sorted series keeps it sorted |
| `AiShim.SortByTime` | server/ai/main.py:70 | `sort_index` yields a time-sorted permutation of the input |
| `AiShim.MaxTimeIsMaximum` | server/ai/main.py:79 | the latest time bounds every observation and is attained |
| `AiShim.SortedLastIsLatest` | server/ai/main.py:70-79 | the base date `df.index[-1]` after sorting is the maximum input timestamp |
| `AiShim.FutureDates` | server/ai/main.py:80-85 | 'D' and 'H' always succeed; other frequencies take the calendar range minus its first point |
| `AiShim.FixedStepDates` | server/ai/main.py:80-83 | for 'D'/'H' exactly `periods` dates, the i-th is base + (i+1) days/hours, strictly increasing after the base |
| `AiShim.Predict` | server/ai/main.py:64-100 | every failure is a 500 whose detail is the failing step's text: the KeyError for a request without points, the parse error, the fit error or the date error; success needs parsing and the fit to succeed and returns the fit's summary |
| `AiShim.DefaultRequestForecastsAWeek` | server/ai/main.py:34-37 | a request that gives neither `periods` nor `freq` is answered with seven daily predictions after the latest input |
| `AiShim.PredictFixedStep` | server/ai/main.py:76-91 | with a forecast of `periods` values the response pairs the i-th value with base + (i+1) steps, exactly `periods` entries |
| `AiShim.OutlierPositions` | server/ai/main.py:59-60 | the listed positions are labelled -1 and strictly increasing |
| `AiShim.OutlierPositionsComplete` | server/ai/main.py:60 | no position labelled -1 is missed |
| `AiShim.Pick` | server/ai/main.py:60 | the k-th picked timestamp is the one at the k-th position |
| `AiShim.FlaggedAreOutliers` | server/ai/main.py:49-62 | the comprehension yields exactly the timestamps at the outlier positions, in input order |
| `AiShim.DetectAnomaliesEndpoint` | server/ai/main.py:102-112 | the detector is fitted with the request's contamination (0.1 when left out); the response's `anomaly_timestamps` are the detection's result and `total_anomalies` is their length; every failure is a 500 carrying its message with no partial result, and an empty `data` list always fails with IsolationForest's one-dimensional-array error |
| `AiShim.ContaminationOf` | server/ai/main.py:39-41 | the request's contamination when given, 0.1 otherwise |
| `AiShim.AnomalyResponseExact` | server/ai/main.py:102-110 | for a non-empty request with one label per point, the response lists exactly the timestamps labelled -1, in request order, and counts them |
| `CompanyModel.FindMember` | server/models/Company.js:251-252 | the first index holding the user, or none when no entry holds it |
| `CompanyModel.AddExistingUpdatesInPlace` | server/models/Company.js:251-261 | adding an existing user keeps the length and updates only that entry |
| `CompanyModel.AddNewAppends` | server/models/Company.js:262-271 | adding a new user appends one active member and keeps the rest |
| `CompanyModel.AddMemberGrantsRole` | server/models/Company.js:250-274 | after either branch the user's first entry has the given role and is active |
| `CompanyModel.RemoveMemberExact` | server/models/Company.js:277-280 | removal equals keeping the other users' entries, in their order and with their repetitions; the length drops by the user's entries |
| `CompanyModel.RemoveAbsentIsIdentity` | server/models/Company.js:277-280 | removing an absent user changes nothing |
| `CompanyModel.WithoutMemberLength` | server/models/Company.js:277-280 | removal never lengthens the list, and shortens it when the user has an entry |
| `CompanyModel.RemoveChangesIffPresent` | server/models/Company.js:277-280 | the filtered list equals the old one iff the user has no entry |
| `CompanyModel.FindActive` | server/models/Company.js:284-286 | finds an active entry for the user, or none exists |
| `CompanyModel.HasRole` | server/models/Company.js:283-292 | true iff the user has an active entry and, for the first one, '*' or its role is among the roles |
| `CompanyModel.PrimaryLocation` | server/models/Company.js:295-297 | the first primary location, else the first location, else null |
| `CompanyModel.FirstPrimary` | server/models/Company.js:296 | the index of the first primary location, or none is primary |
| `CompanyModel.KeepTruthy` | server/models/Company.js:304-310 | every kept part is non-empty; nothing is kept exactly when no part is truthy |
| `CompanyModel.KeepTruthyIsFilter` | server/models/Company.js:304-310 | the kept parts are the truthy entries, one for each and in the same order |
| `CompanyModel.AddressString` | server/models/Company.js:300-313 | no address gives ''; otherwise the truthy parts in the order street, city, state, postal code, country, joined by ', '; empty exactly when no part is set |
| `CompanyModel.AddressOf` | server/models/Company.js:301 | the primary (else first) location's address when there are locations, the contact's address otherwise |
| `CompanyModel.JoinNonEmpty` | server/models/Company.js:312 | joining non-empty parts is empty only for no parts |
| `CompanyModel.Company.PreSave` | server/models/Company.js:241-247 | on a new document or modified members, `totalUsers` becomes the active count and the stats date is now |
| `CompanyModel.Company.AddMember` | server/models/Company.js:250-273 | members become the add-or-update of the user with the role (default 'member', options' role first) either way; the save succeeds iff that role is one of owner, admin, manager, member, viewer, and only then are the stats recomputed; otherwise it rejects with the enumeration message |
| `CompanyModel.Company.RemoveMember` | server/models/Company.js:241-280 | members lose every entry of the user; the list changes iff the user had an entry, and only then does the pre-save hook recount the active members and stamp the time, otherwise the stats keep their stored values |
| `DeviceModel.EfficiencyScore` | server/models/Device.js:263-272 | null exactly without a rating; A+++ scores 100, G 15, all within 15..100 |
| `DeviceModel.ScoresStrictlyDecrease` | server/models/Device.js:266-269 | a better rating always scores strictly higher |
| `DeviceModel.EstimatedAnnualCost` | server/models/Device.js:275-278 | null exactly when consumption or rate is missing or zero, else their product |
| `DeviceModel.IsConsumptionAbnormal` | server/models/Device.js:281-286 | false without baseline or threshold, else true iff the reading exceeds baseline*(1+threshold/100) |
| `DeviceModel.AbnormalMonotone` | server/models/Device.js:281-286 | a larger reading is abnormal whenever a smaller one is; the baseline itself is normal |
| `DeviceModel.LocationString` | server/models/Device.js:289-297 | address, then room, then building, then latitude-first coordinates, then 'Location not specified'; never empty |
| `DeviceModel.AgeBucket` | server/models/Device.js:254-260 | online under 5 minutes, recent under 60, offline from 60 on |
| `DeviceModel.StatusAt` | server/models/Device.js:254-260 | 'unknown' exactly without `lastSeen`, else the age bucket |
| `DeviceModel.StatusOnlyAges` | server/models/Device.js:254-260 | without a new sighting the status only moves from online towards offline |
| `DeviceModel.Device.PreSave` | server/models/Device.js:300-320 | coming online stamps `lastSeen` with now and sets 'online'; a touched `lastSeen` re-buckets the stored status |
| `ConsumptionModel.TimeFieldsOf` | server/models/Consumption.js:229-239 | month is the zero-based month plus one, hour of day is the hour, weekend iff day 0 or 6 |
| `ConsumptionModel.TimeFieldsRanges` | server/models/Consumption.js:229-239 | the month lies in 1..12 and weekend means not Monday to Friday |
| `ConsumptionModel.AsWrittenIgnoresReview` | server/models/Consumption.js:280-282 | as written, the review never matters: a detection reviewed as false positive still counts |
| `ConsumptionModel.AnomalyDetectedExact` | server/models/Consumption.js:280-282 | the corrected check differs from the written one exactly on detections reviewed as false positives |
| `ConsumptionModel.Consumption.PreSave` | server/models/Consumption.js:226-254 | time fields are recomputed when the timestamp changes; cost is value*rate only when the rate is set and the amount is not; a detected anomaly gets a pending review |
| `ConsumptionModel.EffectiveRate` | server/models/Consumption.js:290-292 | the argument rate, else the stored cost rate, else 0 |
| `ConsumptionModel.CalculateSavings` | server/models/Consumption.js:290-309 | no saving (amount and percentage 0) when value ≤ baseline; otherwise the amount is (value−baseline)*rate and the energy saved is value−baseline |
| `ConsumptionModel.SavingsSigns` | server/models/Consumption.js:290-309 | with a positive baseline and non-negative rates the amount and energy saved are never negative |
| `ConsumptionModel.GroupingFor` | server/models/Consumption.js:338-375 | hour, week, month and year select their grouping; anything else groups by day |
| `ConsumptionModel.GroupKey` | server/models/Consumption.js:338-375 | the `$group` key of each grouping: year, month, day and hour for hours (four parts), year, month and day for days, ISO week-year and week for weeks, year and month for months, the year alone for years |
| `ConsumptionModel.GroupKeysRefine` | server/models/Consumption.js:338-375 | day, month and year keys are prefixes of the next finer key, so readings grouped together at a finer granularity stay together at a coarser one |
| `ConsumptionModel.TimeFilter` | server/models/Consumption.js:321-332 | no time filter exactly when neither bound is given |
| `ConsumptionModel.TimeFilterExact` | server/models/Consumption.js:321-332 | a reading passes iff it lies within each bound that is given |
| `ConsumptionModel.DetectAnomalies` | server/models/Consumption.js:411-453 | nothing below 10 records; otherwise exactly the unflagged records above avg+stdDev*threshold, in order |
| `ConsumptionModel.DetectionKeepsOrder` | server/models/Consumption.js:447-453 | detection distributes over concatenation and keeps one record iff it is unflagged and above the threshold |
| `ConsumptionModel.UpdateFor` | server/models/Consumption.js:455-470 | each update records the expected value, deviation and confidence, with a positive score above the cut-off |
| `ConsumptionModel.AnomalyUpdates` | server/models/Consumption.js:439-477 | one update per detected record, in order |
| `ConsumptionModel.UpdatesFor` | server/models/Consumption.js:455-470 | the k-th update is the update of the k-th detected record |
| `ConsumptionModel.UpdateScoresPositive` | server/models/Consumption.js:439-470 | with spread in the data every update's score is positive |
| `EcoTipModel.SeasonOf` | server/models/EcoTip.js:205-211 | months 11, 0, 1 are winter, 2–4 spring, 5–7 summer, 8–10 autumn |
| `EcoTipModel.SeasonsFollowEachOther` | server/models/EcoTip.js:208-211 | three months on, the season is always the next one |
| `EcoTipModel.UserTypeOf` | server/models/EcoTip.js:200 | the profile's user type, else 'residential' |
| `EcoTipModel.PersonalizedMatch` | server/models/EcoTip.js:195-224 | a tip matches iff it is active and one alternative holds: 'all' or the user type among its user types, 'all' or the month's season among its seasons, or, with a location, the location or 'global' among its regions |
| `EcoTipModel.SeasonDoesNotNarrow` | server/models/EcoTip.js:196-213 | a tip for all user types is offered in every month, even one listed only for winter |
| `EcoTipModel.InteractionUpdate` | server/models/EcoTip.js:228-247 | an update exactly for view, complete, save and share; only a view sets `lastViewed` (to now) |
| `EcoTipModel.ApplyUpdate` | server/models/EcoTip.js:254 | the named counter rises by one, the others stay, `lastViewed` changes only when set |
| `EcoTipModel.ExactlyOneCounter` | server/models/EcoTip.js:231-244 | a known interaction raises the counters' total by exactly one |
| `EcoTipModel.EcoTip.PreSave` | server/models/EcoTip.js:166-176 | empty user types and seasons become ['all'], non-empty ones are kept |
| `EcoTipModel.EcoTip.LogInteraction` | server/models/EcoTip.js:228-255 | a known interaction applies its update; an unknown one returns null and changes nothing |
| `EnergyController.AddConsumption` | server/controllers/energyController.js:13-97 | 400 for a malformed id, 404 without a device, 403 when another user owns it; then the schema's validation failures are a 400 with the joined messages and any other create error is answered as the error middleware answers it; a stored record has the device, the value, the unit or 'kWh', the timestamp unless missing or 0, and no user |
| `EnergyController.ValidationMessages` | server/models/EnergyConsumption.js:15-23 | no message iff a value is given and the unit is absent or one of kWh, Wh, MWh, J, kJ, MJ |
| `EnergyController.AsWrittenNeverForbids` | server/controllers/energyController.js:53-61 | as written, a device owned by someone else is accepted instead of refused |
| `EnergyController.SharedWith` | server/controllers/energyController.js:155 | true only when some share names the user; a share without a user throws |
| `EnergyController.RowError` | server/controllers/energyController.js:130-171 | a row missing deviceId, value or unit is 'Missing required fields'; otherwise an unknown device, a failed lookup, a throwing share and another user's unshared device each give their own text, and a row for the caller's own or shared device is accepted iff `create` succeeds; every error is prefixed with its row number |
| `EnergyController.ErrorsPlusCreated` | server/controllers/energyController.js:130-177 | errors plus created records equals the rows processed |
| `EnergyController.AllIncompleteRows` | server/controllers/energyController.js:135-138 | rows all missing fields yield one error each and nothing imported |
| `EnergyController.ImportRows` | server/controllers/energyController.js:130-177 | the loop collects exactly the row errors; `imported` is rows minus errors |
| `EnergyController.ImportConsumptionCsv` | server/controllers/energyController.js:102-191 | 400 without a file, 404 if it vanished, 500 if parsing fails, otherwise the loop's report; an uploaded file that exists is removed on every path unless the removal itself fails |
| `Common.IntOr` | server/controllers/energyController.js:247-248 | `x || fallback` on an integer: the given non-zero number, else the fallback (the clock reading for `timestamp || Date.now()`, the default page or limit after `parseInt`) |
| `EnergyController.Paginate` | server/controllers/energyController.js:247-276 | page defaults to 1, limit to 25, start is (page−1)*limit; next iff page*limit < total, prev iff start > 0 |
| `EnergyController.PaginationLinks` | server/controllers/energyController.js:262-276 | the next link points one page on and the previous one page back |
| `EnergyController.PageReply` | server/controllers/energyController.js:247-276 | the links are sent iff the start index is not negative; a negative page, or a negative limit past page 1, makes MongoDB refuse the skip, answered 500 with its message |
| `EnergyController.PositivePagesAnswered` | server/controllers/energyController.js:247-255 | a page from 1 on with a positive limit is always answered with its links |
| `EnergyController.BuildQuery` | server/controllers/energyController.js:200-225 | the device when given, the date bounds with an end date extended to the end of its day, and a `user` condition for every non-admin |
| `EnergyController.AsWrittenListingNotPrivate` | server/controllers/energyController.js:222-225 | as written, the schema has no `user` path: with `strictQuery` a non-admin matches exactly what an admin matches, without it nothing |
| `EnergyController.ListingIsPrivate` | server/controllers/energyController.js:200-225 | with the owner stored, a non-admin matches only own records, every own record in range, and an admin every record in range |
| `EnergyController.HeaderText` | server/controllers/energyController.js:357 | the header fields contain neither comma nor newline |
| `EnergyController.CsvFields` | server/controllers/energyController.js:359-360 | five fields: timestamp, device, the value as a number, the unit, and the cost as its rendering |
| `EnergyController.ExportCsv` | server/controllers/energyController.js:351-367 | the export is the header followed by one line per record, for any rendering of the cost |
| `EnergyController.ExportAsJoin` | server/controllers/energyController.js:357-361 | the export equals the header and the record lines joined by newlines, plus a final newline |
| `EnergyController.ExportRoundTrip` | server/controllers/energyController.js:357-361 | for a cost rendering without commas or line breaks, splitting the export by lines and commas gives back the header and each record's five fields |
| `EnergyController.AsWrittenCostBreaksLine` | server/controllers/energyController.js:360 | as written, a cost with an amount is printed as the inspected object, which contains a comma, so its line no longer splits into the record's five fields |
| `EnergyController.AmountRoundTrip` | server/controllers/energyController.js:357-361 | printing the cost as its amount (or nothing), the export reads back as each record's fields whenever the text fields are plain |
| `EnergyController.DeleteConsumption` | server/controllers/energyController.js:372-391 | with the owner stored: 404 without a record, 401 unless owner or admin, success otherwise |
| `EnergyController.AsWrittenDeleteAlwaysFails` | server/controllers/energyController.js:381-386 | as written, deleting any existing record is a 500, even for its owner or an admin; a missing one is a 404 |
| `AiService.Wrap` | server/services/aiService.js:56-57 | the wrapped error carries the prefix and the original status, or 500 |
| `AiService.TrainModel` | server/services/aiService.js:17-59 | fewer than 100 records fail with 400; otherwise the training outcome, errors wrapped with the prefix |
| `AiService.DetectAnomalies` | server/services/aiService.js:106-158 | no recent data gives []; otherwise the detector's result or a prefixed error |
| `AiService.Penalty` | server/services/aiService.js:258-259 | the variability penalty is at most 20 and non-negative for positive averages; at zero average it is NaN without spread and −Infinity when max < min |
| `AiService.ScoreFor` | server/services/aiService.js:258-263 | a defined score lies within 60..100 |
| `AiService.CalculateEfficiency` | server/services/aiService.js:220-275 | 404 without a device, score 0 with the insufficient-data message without data, otherwise the clamped score |
| `AiService.ScoreRange` | server/services/aiService.js:258-263 | with positive average the score is within 60..80, and 80 without variation |
| `AiService.ScoreMonotone` | server/services/aiService.js:258-263 | more variation never raises the score |
| `AiController.DeviceAccess` | server/controllers/aiController.js:10-27 | a malformed id is the error middleware's 404 'Resource not found with id of …'; 404 for an unknown device; success iff the caller owns it or is an admin, else 401 |
| `AiController.AsWrittenRefusesEveryone` | server/controllers/aiController.js:20-27 | as written, even the owner and an admin get a 500 |
| `AiController.EntryFor` | server/controllers/aiController.js:169-188 | a success entry with the anomaly count, or an error entry with the message |
| `AiController.ProcessBatch` | server/controllers/aiController.js:168-189 | one entry per device of the batch, in order |
| `AiController.ProcessBatchAppend` | server/controllers/aiController.js:191-195 | processing two consecutive slices equals processing their concatenation |
| `AiController.BatchProcessAnomalies` | server/controllers/aiController.js:158-202 | non-admins get 403; otherwise batches of at most five that cover the devices in order, one entry per device in device order |
| `ErrorHandler.Recognised` | server/middleware/error.js:12-45 | Multer 400, token expiry 401, JWT 401, validation 400 with the joined messages, duplicate key 400, cast 404; a later rule overrides an earlier one |
| `ErrorHandler.Answer` | server/middleware/error.js:4-52 | never success; a recognised error keeps its status, otherwise 500 exactly when the error's status is missing, 0 or 500 |
| `ErrorHandler.HandleError` | server/middleware/error.js:4-52 | the response is the error's answer: never success, a recognised error's status and message, otherwise the error's status or 500 and its message or 'Server Error' |
| `ErrorHandler.RecognisedAreClientErrors` | server/middleware/error.js:12-45 | every recognised error is answered with 400, 401 or 404 |
| `Auth.ExtractToken` | server/middleware/auth.js:10-16 | the second space-separated part of a header starting with 'Bearer', else the cookie |
| `Auth.BearerRoundTrip` | server/middleware/auth.js:10-12 | `Bearer <t>` yields exactly `t` for a token without spaces, whatever the cookie |
| `Auth.Protect` | server/middleware/auth.js:6-44 | every refusal is 401; passes iff a token verifies to an existing, non-deleted user, who becomes the caller |
| `Auth.DeletedNeverPasses` | server/middleware/auth.js:36-38 | a deactivated account never passes, whatever its token (a stored `deleted` is assumed; see Findings) |
| `Auth.Authorize` | server/middleware/auth.js:47-58 | passes iff the role is listed, else 403 naming the role |
| `Auth.EnsureOwnership` | server/middleware/auth.js:62-85 | 404 for a missing resource; passes iff owner or admin, else 401; a failed lookup or a document without `user` leaves the promise rejected with no response, which stops the server |
| `Auth.EnsureVerified` | server/middleware/auth.js:88-95 | passes iff verified, else 403 (a stored `isVerified` is assumed; see Findings) |
| `Auth.AsWrittenVerifiedRefusesEveryone` | server/middleware/auth.js:36-95 | as written, the user schema has no `isVerified` or `deleted` path: every existing user whose token verifies passes `protect`, and `ensureVerified` refuses each of them with 403 |
| `Auth.VerifiedUserPasses` | server/middleware/auth.js:6-95 | with `isVerified` and `deleted` stored, a verified, active account with a valid token passes both guards as its own caller |
| `Upload.SafeFilename` | server/config/multer.js:18 | same length; letters lower-cased, digits and dots kept, everything else '_'; only [a-z0-9._] remain |
| `Upload.SafeFilenameIdempotent` | server/config/multer.js:18 | sanitising twice is sanitising once |
| `Upload.ExtName` | server/config/multer.js:20 | the extension is empty or starts with its only dot and lies inside the last path segment |
| `Upload.ExtNameOfSafe` | server/config/multer.js:18-20 | for a plain file name, the extension of the sanitised name is the sanitised extension |
| `Upload.UniqueSuffix` | server/config/multer.js:19 | the suffix is the clock reading and the rounded random draw, separated by the only '-' |
| `Upload.StoredName` | server/config/multer.js:19-20 | 'import-' + unique suffix + the safe name's extension, using only [a-z0-9._-] |
| `Upload.FileFilter` | server/config/multer.js:25-35 | accepted iff both the lower-cased extension and the MIME type contain 'csv', else 'Only .csv files are allowed!' |
| `Upload.AcceptedKeepsCsvExtension` | server/config/multer.js:18-34 | an accepted upload is stored with an extension that still contains 'csv' |
| `Paging.TotalPages` | client/src/pages/admin/devices/DeviceManagement.js:72 | the least number of pages that holds all items |
| `Paging.PageWindow` | client/src/pages/admin/devices/DeviceManagement.js:327-338 | min(5, totalPages) consecutive page numbers, all within [1, totalPages], including the current page when it is a real page |
| `Paging.WindowCentred` | client/src/pages/admin/devices/DeviceManagement.js:336-337 | away from both ends the current page is the middle button |
| `Paging.LastPageOnce` | client/src/pages/admin/devices/DeviceManagement.js:327-364 | the last page has exactly one button: inside the window, or as the jump after the '...' |
| `Paging.PrevPage` | client/src/pages/admin/devices/DeviceManagement.js:320 | Previous never goes below page 1 |
| `Paging.NextPage` | client/src/pages/admin/devices/DeviceManagement.js:367 | Next never goes past the last page |
| `Paging.PrevNextClamp` | client/src/pages/admin/devices/DeviceManagement.js:320-367 | from a real page both buttons stay on real pages and undo each other away from the ends |
| `DeviceManagement.FilteredDevices` | client/src/pages/admin/devices/DeviceManagement.js:55-66 | kept iff name, type or location contains the term ignoring case and the status matches or the filter is 'all' |
| `DeviceManagement.FilteredKeepsOrder` | client/src/pages/admin/devices/DeviceManagement.js:55-66 | filtering distributes over concatenation and keeps one device iff it matches, so order and repetitions are kept |
| `DeviceManagement.EmptySearchKeepsAll` | client/src/pages/admin/devices/DeviceManagement.js:55-66 | an empty search with 'all' keeps every device |
| `DeviceManagement.CurrentDevices` | client/src/pages/admin/devices/DeviceManagement.js:69-71 | the page is the slice [(p−1)*10, p*10) of the filtered list, at most ten devices |
| `DeviceManagement.PagesCoverFiltered` | client/src/pages/admin/devices/DeviceManagement.js:69-72 | pages 1..totalPages laid end to end are exactly the filtered list |
| `DeviceManagement.ToggleDeviceStatus` | client/src/pages/admin/devices/DeviceManagement.js:78-84 | only matching devices change, online to offline and anything else to online |
| `DeviceManagement.ToggleTwice` | client/src/pages/admin/devices/DeviceManagement.js:78-84 | toggling twice restores devices that were online or offline |
| `DeviceManagement.DeleteDevice` | client/src/pages/admin/devices/DeviceManagement.js:87-90 | once confirmed, exactly the devices with the id are gone; without confirmation nothing changes |
| `DeviceManagement.DeleteTwice` | client/src/pages/admin/devices/DeviceManagement.js:87-90 | deleting twice is deleting once, and deleting from a concatenation deletes from each part |
| `DeviceList.Params` | client/src/pages/admin/devices/DeviceList.js:22-26 | the request carries the page, limit 10, and the search only when non-empty |
| `DeviceList.Fetched` | client/src/pages/admin/devices/DeviceList.js:29 | the page count is ceil(total/10) |
| `DeviceList.HandleSearch` | client/src/pages/admin/devices/DeviceList.js:38-42 | a search returns to page 1 with the same term |
| `DeviceList.SearchRequests` | client/src/pages/admin/devices/DeviceList.js:15-42 | a search first requests the old page with the new term and, only when the page was not 1, then page 1 |
| `DeviceList.Window` | client/src/pages/admin/devices/DeviceList.js:192-202 | the same five-button window, within [1, totalPages], shown only with more than one page |
| `DeviceList.Prev` | client/src/pages/admin/devices/DeviceList.js:149 | Previous never goes below page 1 |
| `DeviceList.Next` | client/src/pages/admin/devices/DeviceList.js:156 | Next never goes past the last page |
| `DeviceList.ShownTotalRoundsUp` | client/src/pages/admin/devices/DeviceList.js:170 | the displayed total is never below the real one, is less than a page above it, and equals it iff the total is a multiple of ten |
| `DeviceList.PagerStaysInRange` | client/src/pages/admin/devices/DeviceList.js:145-228 | from a real page, Previous, Next and search all land on real pages |
| `Notifications.Loaded` | client/src/pages/notifications/Notifications.js:108-109 | the initial counter equals the number of unread notifications |
| `Notifications.MarkRead` | client/src/pages/notifications/Notifications.js:119-121 | only notifications with the id become read; nothing else changes |
| `Notifications.MarkAsReadAsWritten` | client/src/pages/notifications/Notifications.js:118-123 | as written, the counter drops by one, never below zero, whatever was clicked |
| `Notifications.AsWrittenCounterDrifts` | client/src/pages/notifications/Notifications.js:118-123 | as written, the action of a read notification leaves the counter at 0 while one is unread |
| `Notifications.CountAfterMark` | client/src/pages/notifications/Notifications.js:119-121 | marking removes exactly the unread notifications with the id from the unread count |
| `Notifications.MarkAsRead` | client/src/pages/notifications/Notifications.js:118-123 | the corrected handler keeps the counter equal to the number of unread notifications |
| `Notifications.AgreeOnUnread` | client/src/pages/notifications/Notifications.js:118-123 | on an unread notification with a unique id the written and corrected handlers agree |
| `Notifications.MarkAllAsRead` | client/src/pages/notifications/Notifications.js:126-132 | every notification becomes read and the counter is 0, which is accurate |
| `Notifications.FilteredNotifications` | client/src/pages/notifications/Notifications.js:135-139 | 'all' keeps everything, 'unread' exactly the unread ones, otherwise exactly those of that type |
| `Notifications.FilteredKeepsOrder` | client/src/pages/notifications/Notifications.js:135-139 | filtering distributes over concatenation and keeps one notification iff it matches, so order is kept |
| `Notifications.NotificationTypeOf` | client/src/pages/notifications/Notifications.js:142-144 | a known type styles as itself, any other as info |
| `FormRules.EmailPatternShape` | client/src/pages/auth/Register.js:52 | a matching address has at least five characters, an '@', and is not blank |
| `FormRules.EmailOfParts` | client/src/pages/auth/Register.js:52 | `local@host.tld` with non-empty, space-free parts always matches |
| `FormRules.NameError` | client/src/pages/auth/Register.js:44-48 | 'Name is required' iff blank after trimming, 'at least 2 characters' iff shorter, none otherwise |
| `FormRules.EmailError` | client/src/pages/auth/Register.js:50-54 | 'Email is required' iff blank, 'Email is invalid' iff the pattern fails, none iff it matches |
| `FormRules.PasswordError` | client/src/pages/auth/Register.js:56-60 | required iff empty, too short iff under six characters, none iff at least six |
| `FormRules.ConfirmError` | client/src/pages/auth/Register.js:62-66 | required iff empty, mismatch iff it differs, none iff it repeats the password |
| `FormRules.ClearError` | client/src/pages/auth/Register.js:33-38 | the edited field's error becomes empty, every other entry is kept |
| `Register.ValidateForm` | client/src/pages/auth/Register.js:41-70 | records exactly each field's failing rule under its key; valid iff nothing was recorded |
| `Register.RegisterValidMeans` | client/src/pages/auth/Register.js:41-70 | valid iff the name is non-blank with two characters, the email matches, the password has six and the confirmation repeats it |
| `Register.HandleChange` | client/src/pages/auth/Register.js:25-39 | only the edited field changes and only its error is cleared |
| `Profile.LoadUser` | client/src/pages/profile/Profile.js:20-28 | without a user the form is unchanged; otherwise name and email come from the user or are empty, and password fields are kept |
| `Profile.ValidateProfileForm` | client/src/pages/profile/Profile.js:46-63 | the registration name and email rules; valid iff no error was recorded |
| `Profile.ValidatePasswordForm` | client/src/pages/profile/Profile.js:65-86 | current password required, new one at least six, confirmation matching; valid iff no error was recorded |
| `Profile.PasswordValidMeans` | client/src/pages/profile/Profile.js:65-86 | valid iff a current password is given and the new one has six characters and is confirmed |
| `Profile.PasswordUpdated` | client/src/pages/profile/Profile.js:129-136 | the three password fields are emptied, name and email stay |
| `Profile.ResetKeepsProfile` | client/src/pages/profile/Profile.js:129-136 | after the reset the profile form is as valid as before and the password form must be refilled |
| `Profile.HandleChange` | client/src/pages/profile/Profile.js:30-44 | only the edited field changes and only its error is cleared |

## Left out

- Auth.Protect and Auth.EnsureVerified: read the stored user's `deleted` and `isVerified` as given;
  server/models/User.js declares neither path, which the Findings table records.

- Statistical fitting: ARIMA and IsolationForest become abstract outcomes.
- Other frequencies: the pandas calendar for frequencies other than 'D' and 'H'
  is a parameter.
- Parsing and time: `pd.to_datetime`, local-time date decomposition, `Date.now`
  and `Math.random` are parameters.
- Upload.AcceptedKeepsCsvExtension: stated for file names without '/'; a
  client-supplied name with a path is not covered.
- Floating point: `float()` conversions, `toFixed` and `Number` formatting are
  not modelled.
- Sort stability: `sort_index` ties are inserted after equal times. The order of
  equal timestamps is not claimed to match pandas.
- Database machinery: Mongo queries, aggregations (the `$group` pipelines become
  abstract statistics), `bulkWrite`, populate, indexes and hook dispatch. The
  `isModified` flags are parameters.
- Service plumbing: axios calls and the HTTP plumbing around the service; email,
  logging, Socket.io, rate limiting and XSS filtering.
- `Consumption.convertToUnit` always throws, because it references an undefined
  table. It is not modelled.
- Stream CSV parsing: server/routes/consumption.js and the parser; the import
  takes already-parsed rows.
- `ObjectId.isValid`, and Mongoose's ObjectId cast in `findById`, also accept
  any 12-character string. `IsObjectId` models only the 24-hex form.
- DeviceModel.Device.PreSave: it writes 'recent', which the schema's
  `connectionStatus` enumeration does not list. Mongoose validation of that value
  is not modelled.
- `getPersonalizedTips`: the sort by priority and views and the `limit` are not
  modelled; only the filter is.
- `logInteraction`: the `userId` argument has no effect in the source.
- JavaScript `length` counts UTF-16 code units and `/[^a-z0-9.]/gi` replaces
  each half of a surrogate pair. The model works on whole characters, so a
  non-BMP character counts, and is replaced, once.
- Lower-casing: `toLowerCase` is modelled on ASCII letters only.
- DeviceList's First and Last buttons (client/src/pages/admin/devices/DeviceList.js:176,228)
  set the page to 1 and to the page count; they are not modelled separately.
- `getNotificationType` with a type named like an `Object.prototype` member
  (e.g. `constructor`) is not modelled.
- `strictQuery`: Mongoose's query option is a parameter of the as-written
  listing, since it depends on the Mongoose version and the connection settings.
- Mounting: `energyController` is not mounted in server/server.js; the
  `/api/v1/consumption` routes are served by server/routes/consumption.js. The
  controller is modelled on its own.
- `MemberOptions`: `addMember`'s options are modelled without `user` and
  `permissions`; an `options.user` that rewrites the entry's user is not modelled.
- EnergyController.AddConsumptionAsWritten: the owner it assigns to an unowned
  device is not saved, and a create failure after that assignment is not
  recorded separately.
- Cast errors: a non-numeric `value` or a non-date `timestamp` fails Mongoose's
  cast rather than the required and enumeration validators; only the latter are
  modelled. Validator messages follow Mongoose's default wording.
- EnergyController.BuildQuery: a `deviceId` that is not a valid ObjectId makes
  the constructor throw, which the error middleware answers with 500; the query
  takes the id as given.
- Export filter: the export at server/controllers/energyController.js:352-354 uses
  the listing's filter, so `ListingIsPrivate` and `AsWrittenListingNotPrivate`
  also describe which records are exported.
- React rendering, charts, themes, route guards, mock data and the other client
  pages that repeat these patterns are not modelled.

## Findings

| source | as written | input that shows it | evidently intended | confidence | as-written member | corrected member |
|---|---|---|---|---|---|---|
| server/models/Consumption.js:280-282 | `isAnomalyDetected` excludes review status 'false_negative', which the status enumeration does not contain | detected = true, review status 'false_positive': still reported as an anomaly | a detection reviewed as a false positive is not an anomaly | high, not executed | `ConsumptionModel.AsWrittenIgnoresReview` | `ConsumptionModel.AnomalyDetectedExact` |
| server/controllers/aiController.js:20-27 | the per-device handlers call `device.user.toString()`, but Device documents have no `user` path | the device's own owner requests a prediction: `TypeError`, answered 500 | compare the device's owner with the caller | high, not executed | `AiController.AsWrittenRefusesEveryone` | `AiController.DeviceAccess` |
| server/controllers/energyController.js:53-61 | `addConsumption` checks `anyDevice.user`, which Device documents do not have, so the 403 branch is unreachable | a device owned by user B, request from user A: the record is created | refuse with 403 when another user owns the device | high, not executed | `EnergyController.AsWrittenNeverForbids` | `EnergyController.AddConsumption` |
| client/src/pages/notifications/Notifications.js:118-123,251 | `markAsRead` decrements the counter even for a read notification, and the action button calls it for read ones | one unread warning and a read info with an action; click the info's action: "0 unread" while the warning is unread | decrement only for notifications that were unread | high, not executed | `Notifications.AsWrittenCounterDrifts` | `Notifications.MarkAsRead` |
| server/controllers/energyController.js:381-386 | `deleteConsumption` compares `consumption.user.toString()`, but records are stored without a `user` path | the owner deletes an existing record: `TypeError`, answered 500 | only the owner or an admin deletes; others get 401 | high, not executed | `EnergyController.AsWrittenDeleteAlwaysFails` | `EnergyController.DeleteConsumption` |
| server/controllers/energyController.js:222-225 | the listing filters on `user`, a path the schema does not declare, so strict queries drop the condition | a non-admin lists consumption with `strictQuery` on: every user's records in range | a non-admin sees only their own records | high, not executed | `EnergyController.AsWrittenListingNotPrivate` | `EnergyController.ListingIsPrivate` |
| server/middleware/auth.js:36-38,88-95 | `protect` reads `req.user.deleted` and `ensureVerified` reads `req.user.isVerified`, but server/models/User.js declares neither path | any verified token of an existing user on a route guarded by `ensureVerified`: 403 "Please verify your email address to continue" | a user schema with `isVerified` and `deleted`, so verified accounts pass and deactivated ones are refused | high, not executed | `Auth.AsWrittenVerifiedRefusesEveryone` | `Auth.VerifiedUserPasses` |
| server/controllers/energyController.js:360 | the cost column prints the nested `cost` object, whose text contains commas | a record with `cost.amount` 2.5: the line splits into more than five fields | a single comma-free cost field such as the amount | medium, not executed | `EnergyController.AsWrittenCostBreaksLine` | `EnergyController.AmountRoundTrip` |
