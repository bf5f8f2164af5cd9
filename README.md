# HSSM-3 backend: a Dafny model of its decision logic

HSSM-3 is a Node/Express/Mongoose backend for a local-services app. Users
post service requests, providers publish service listings, and a separate
"HSSM" part logs incidents, assets, tasks, meter readings and reports. This
project models the parts that make decisions and proves what they promise:

- the role-scoped dashboard query (`getDashboard`) and its pagination;
- the service-request handlers and their listings;
- the service-listing handlers with the owner-or-admin rule;
- the HSSM create and list handlers, including the upserted meter-reading
  accumulator;
- the Mongoose schemas these handlers rely on, as predicates on datatypes.

Layout, one Dafny module per source file:

| file | module | models |
|---|---|---|
| common.dfy | `Common` | option values, ids, times, request-body fields, JavaScript truthiness, the `trim` setter, unfiltered `find()` |
| user_model.dfy | `UserModel` | `src/models/User.js` |
| request_model.dfy | `RequestModel` | `src/models/Request.js` |
| service_model.dfy | `ServiceModel` | `src/models/Service.js` |
| hssm_model.dfy | `HssmModel` | `src/models/Hssm.js` (schemas only) |
| dashboard.dfy | `Dashboard` | `src/controllers/dashboardControllers.js` |
| dashboard_properties.dfy | `DashboardProperties` | what `getDashboard` promises, as lemmas |
| request_store.dfy | `RequestControllers` | `src/controllers/requestControllers.js` |
| service_store.dfy | `ServiceController` | `src/controllers/serviceController.js` and the mounted create route |
| hssm_store.dfy | `HssmController` | `src/controllers/HssmController.js` |

How the model is built:

- **Dashboard.** The controller builds its `query` and `sortOptions`
  dictionaries step by step. `Dashboard.GetDashboard` does the same with a
  method. It is proved equal to a pure composition:
  - `Compose` maps the caller and the query string to an error code or a
    plan;
  - `Execute` runs the plan over a `seq<Request>`: filter, then a stable
    insertion sort, then skip and limit, then the count of the same filter.

  The joined `service` is an abstract function from a request to an
  optional service, because the controller filters on `service.provider`
  and `service.name`.
- **Store handlers.** Each state-changing handler is specified twice:
  - a pure function from the collection before the call to an outcome
    (status code and collection after), whose contract states every error
    path and exactly what the success path changes;
  - a method of a class holding the collection as a `map<Id, _>` field,
    which performs the handler step by step and `ensures` its code and new
    state equal that function of the old state, and that the schema
    invariant `Valid()` is kept.
- **Host primitives.** `new Date(s)` (`parseDate`), Mongoose's Date cast
  of a schema path (`castDate`), `parseInt`, JavaScript's `Number(s)`
  (`toNumber`) and case-insensitive `$regex` matching are left
  uninterpreted. They are total functions that are fields of
  `Common.Host`, so a failed cast is `None`. Mongoose's Number cast is
  `Common.CastNumber`: it differs from `Number(s)` in turning `''` into
  null, so an empty price fails `required`.
- **Inputs from the environment.** Fresh ObjectIds, the current time,
  the uploaded file, and whether a push notification goes through are
  method parameters.

What the source does, as the model states it:

- **Responses as wired.**
  - `createRequest` saves the request and then calls the notification
    binding. That binding is the exported module object, not the function
    in it, so the call throws: the caller gets 500 although the request is
    stored.
  - `submitReview` saves the review and then calls
    `getServiceProviderToken`, which is defined nowhere: again 500 after
    the write.
  - `createAsset` and `createTask` name `serviceRecords` and
    `taskDescription`, which are declared nowhere. Both always answer 500
    and save nothing.
- **Dates and numbers as the source handles them.**
  - A dashboard date range whose start is after its end is not rejected;
    it matches nothing. This is what `dashboardControllers.js:32-45`
    does; a 400 for this case would need a check the code does not have.
  - `createMeterReading` rejects a reading of `0` (a falsy number) but
    accepts the string `"0"`, which Mongoose then casts to 0.
  - A service price of `''` fails `required`, because Mongoose casts it
    to null, although `Number('')` is 0.
  - A review rating that is not a number passes the range guard, because
    both comparisons with NaN are false. It then fails the cast on save,
    which gives 500.
- **Discrepancies in the wiring and the schema.**
  - The dashboard filters on `service.provider` and `service.name`, but
    the Request schema has no `service` path, only the `serviceType`
    string. The model keeps the controller's predicate over an abstract
    join.
  - `createRequest` computes a `contact` (the phone, otherwise the
    email), but the Request schema has no `contact` path, so strict mode
    drops it. For a valid user the contact would always be the phone.
  - The upload middleware stores files on disk
    (`src/middlewares/multerSetup.js:4`), so an uploaded file has a path
    but no `buffer`. `createService` and `updateService` read
    `req.file.buffer.toString('base64')`, which throws for every upload:
    both answer 500 and change nothing whenever a file is sent
    (`ServiceController.UploadAlwaysFails`). Without a file they work.
  - `createService` enforces the provider-or-admin rule, but it is not
    routed. The mounted `POST /services` handler
    (`src/routes/serviceRoutes.js:17-35`) has no role check and stores the
    upload's path as the image, which does not throw.
    `ServiceController.CreateMounted` models that handler.
  - The review route is mounted as `/reviews` without an `:id`
    (`src/routes/requestRoutes.js:19`). Through that route the id is
    always undefined, and the handler answers 404 to every well-formed
    review. The model treats the id as a parameter.
  - Every error that the service handlers pass to `next` carries no
    status, so the error middleware (`src/server.js:87`) answers 500.

## Model

| member | source | states |
|---|---|---|
| Common.NumberOf | src/controllers/requestControllers.js:164-166 | the number the comparisons `rating < 1` and `rating > 5` see: a JSON number as it is, a string through `Number` |
| Common.CastNumber | src/models/Service.js:19-23 | definition of Mongoose's Number cast: `''` becomes null and fails `required`, any other value casts as `Number` does; `CastAgreesOnTruthy` relates it to the comparisons |
| Common.CastAgreesOnTruthy | src/controllers/HssmController.js:101-108 | for a truthy field the cast and the comparisons see the same number; only `''` separates them |
| Common.IsSpace | src/models/Service.js:13 | the characters `trim` removes: ECMAScript white space, every Zs space separator included, and the line terminators |
| Common.Trim | src/models/Service.js:10-14 | the `trim: true` setter, `s.trim()`; what it keeps and drops is stated by the Trim lemmas below |
| Common.TrimIsSlice | src/models/Service.js:10-14 | the `trim` setter keeps one contiguous slice of the input and removes only white space before and after it |
| Common.TrimDropsSpaces | src/models/Service.js:10-14 | everything the `trim` setter drops, before and after the kept slice, is white space |
| Common.TrimmedEnds | src/models/User.js:7-11 | a trimmed name has no white space at either end |
| Common.TrimIdempotent | src/models/Service.js:10-14 | trimming a trimmed name changes nothing, so stored names are fixed points of the setter |
| Common.SingleSpaceTrims | src/models/Service.js:13 | a single white-space character, of any kind, trims to the empty string |
| Common.Documents | src/controllers/serviceController.js:80-90 | an unfiltered `find()` returns as many entries as the collection holds, and an (id, document) pair is returned exactly when it is stored |
| UserModel.RoleFrom | src/models/User.js:33-38 | a missing role becomes `individual`; a given role is accepted exactly when it is one of the four enum names, and it maps to the role of that name |
| UserModel.MatchesEmailPattern | src/models/User.js:17-22 | the email validator's regular expression: a local part of word characters joined by single dots or dashes, one `@`, and a domain that ends in a dot and two or three word characters |
| UserModel.EmailHasOneAt | src/models/User.js:17-22 | a string matching the email pattern at `@` position i has no other `@` |
| UserModel.LowerIdempotent | src/models/User.js:16 | lower-casing an already lower-cased email changes nothing |
| UserModel.ValidUser | src/models/User.js:5-45 | what the schema accepts in a stored user: a trimmed non-empty name, a lower-case email that matches the pattern, a phone, a password of at least 8 characters |
| UserModel.ValidUsers | src/models/User.js:48-49 | every stored user is valid, and no two share an email or a phone |
| UserModel.NewUser | src/models/User.js:5-45 | a new user is accepted exactly when the trimmed name is non-empty, the lower-cased email matches the pattern, the phone is given, the password has at least 8 characters and the role is in the enum; the stored user holds those values, the role `RoleFrom` gives and the device token |
| UserModel.InsertUser | src/models/User.js:48-49 | saving a user succeeds exactly when its id, email and phone are all unclaimed; the collection then stays valid and gains exactly that user |
| UserModel.InsertKeepsUsersValid | src/models/User.js:48-49 | adding an unclaimed valid user keeps the unique email and phone indexes satisfied |
| UserModel.ToJson | src/models/User.js:52-56 | definition of `toJSON`: every field of the user but the password; `ToJsonForgetsOnlyPassword` states what it forgets |
| UserModel.ToJsonForgetsOnlyPassword | src/models/User.js:52-56 | two users have the same `toJSON` output exactly when they differ at most in their password |
| RequestModel.ParseStatus | src/models/Request.js:32-36 | a status string is accepted exactly when it names one of pending, accepted and completed, and it maps to that status |
| RequestModel.ValidRequest | src/models/Request.js:3-52 | a stored request has non-empty serviceType, description and location, and a rating, when present, within [1, 5] |
| RequestModel.NewRequest | src/models/Request.js:3-52 | a request is saved exactly when serviceType, description and location are non-empty and date and time cast; the saved request is valid, carries the given values, and starts `pending`, created now, with no completion time, rating or review |
| ServiceModel.NewService | src/models/Service.js:3-31 | a service is created exactly when the trimmed name is non-empty, the description fits in 500 characters and the price is given and within [0, 35000]; the stored name is trimmed and a missing image becomes `''` |
| ServiceModel.UpdatedService | src/models/Service.js:10-28 | an update with validators passes exactly when the new values satisfy the same bounds; the provider is kept and the four given fields are overwritten |
| ServiceModel.ValidService | src/models/Service.js:3-31 | a stored service has a trimmed non-empty name, a description of at most 500 characters and a price in [0, 35000] |
| ServiceModel.PriceOf | src/models/Service.js:19-23 | definition: an absent price is missing, a given one goes through Mongoose's Number cast; used by `NewService` and `Create` |
| ServiceModel.BlankNameRefused | src/models/Service.js:10-14 | a name made only of the ideographic space trims to `''` and the service is refused |
| HssmModel.ParsePriority | src/models/Hssm.js:10 | the priority enum accepts exactly Low, Medium and High |
| HssmModel.CategoryFrom | src/models/Hssm.js:18 | a missing category becomes `Fixed Assets`; a given one is accepted exactly when it is `Fixed Assets` or `Consumables` |
| HssmModel.NewIncident | src/models/Hssm.js:6-13 | an incident is saved exactly when department and title are non-empty, the priority is in its enum and the date casts; the stored incident carries those values |
| HssmModel.NewAsset | src/models/Hssm.js:15-22 | an asset would be saved exactly when name and location are non-empty, a serial number of any type is given and the category is in its enum; the category defaults to `Fixed Assets` |
| HssmModel.NewTask | src/models/Hssm.js:24-31 | a task would be saved exactly when task and assignee are non-empty, the due date casts and the priority is in its enum |
| HssmModel.NewReport | src/models/Hssm.js:43-45 | a report is saved exactly when its file is given and non-empty |
| HssmModel.ValidIncident | src/models/Hssm.js:6-13 | a stored incident has a department and a title |
| HssmModel.ValidAsset | src/models/Hssm.js:15-22 | a stored asset has a name and a location |
| HssmModel.ValidTask | src/models/Hssm.js:24-31 | a stored task has a task and an assignee |
| HssmModel.ValidReading | src/models/Hssm.js:36-38 | a stored reading has a location |
| HssmModel.ValidMeterReadings | src/models/Hssm.js:33-41 | every reading of the document is valid |
| HssmModel.ValidReport | src/models/Hssm.js:44 | a stored report has a non-empty file |
| Dashboard.ScopeOf | src/controllers/dashboardControllers.js:17-23 | only service providers and individuals get a base predicate |
| Dashboard.IntOr | src/controllers/dashboardControllers.js:62-63 | `parseInt(x) or fallback` is never 0 when the fallback is not 0 |
| Dashboard.DateCheckOf | src/controllers/dashboardControllers.js:32-39 | no range unless both dates are given; 400 exactly when both are given and one does not parse; otherwise the inclusive range of the two parsed dates |
| Dashboard.SortCheckOf | src/controllers/dashboardControllers.js:49-58 | unsorted exactly without `sortBy`; 400 exactly for a `sortBy` other than `date` and `status`; descending exactly for `sortOrder=desc` |
| Dashboard.Compose | src/controllers/dashboardControllers.js:6-64 | no caller gives 401 and a role without a scope gives 403, before anything else; a plan exactly when the caller has a scope and neither the dates nor the sort field are bad, 400 when one of them is; a plan carries the caller's role and scope, a non-zero limit and skip = (page - 1) * limit |
| Dashboard.Matches | src/controllers/dashboardControllers.js:17-45 | the filter as a predicate: the role's scope, the exact status, the case-insensitive service-name pattern and the inclusive creation range, each only when given |
| Dashboard.Select | src/controllers/dashboardControllers.js:67 | the filter keeps every matching record as often as the collection holds it, and no other record |
| Dashboard.SelectedMatch | src/controllers/dashboardControllers.js:67 | every selected record matches the query and comes from the collection |
| Dashboard.SelectMonotone | src/controllers/dashboardControllers.js:26-31 | a query whose every match also matches a second query selects no more records than the second, so dropping the status or service-name conjunct never shrinks the selection |
| Dashboard.SelectNothing | src/controllers/dashboardControllers.js:41-44 | a date range that can hold no creation time selects nothing |
| Dashboard.StatusRankIsNameOrder | src/controllers/dashboardControllers.js:55 | ordering statuses by rank is the string order of their names, the order the database sorts them in |
| Dashboard.Insert | src/controllers/dashboardControllers.js:69 | inserting into a sorted sequence keeps it sorted and adds exactly that record |
| Dashboard.Sort | src/controllers/dashboardControllers.js:69 | the sort returns a sorted permutation of its input |
| Dashboard.Order | src/controllers/dashboardControllers.js:48-59 | `.sort(sortOptions)` permutes the records, and sorts them when a sort field is given |
| Dashboard.Window | src/controllers/dashboardControllers.js:70-71 | skip and limit return at most as many records as the absolute value of the limit, the records from position `skip` on, and none when skip is past the end |
| Dashboard.WindowSorted | src/controllers/dashboardControllers.js:69-71 | a window of sorted records is sorted |
| Dashboard.CeilDivIsCeiling | src/controllers/dashboardControllers.js:78 | for a positive limit `Math.ceil(total / limit)` is the least page count that holds all records |
| Dashboard.CeilDiv | src/controllers/dashboardControllers.js:78 | `Math.ceil(total / limit)` for a limit of either sign; its meaning is `CeilDivIsCeiling` |
| Dashboard.Execute | src/controllers/dashboardControllers.js:67-80 | a page exactly when the skip is not negative, 500 otherwise; the page carries the plan's role and page number |
| Dashboard.DashboardOf | src/controllers/dashboardControllers.js:4-86 | the response: the composed error, or the plan executed; `PageExactlyWhen` says which |
| Dashboard.GetDashboard | src/controllers/dashboardControllers.js:4-86 | the step-by-step handler gives exactly the composed response, and 401 exactly when there is no caller |
| DashboardProperties.NoCallerUnauthorized | src/controllers/dashboardControllers.js:6-8 | without an authenticated user the answer is 401, whatever the parameters |
| DashboardProperties.OtherRolesForbidden | src/controllers/dashboardControllers.js:17-23 | every other role, admin included, gets 403 |
| DashboardProperties.PageExactlyWhen | src/controllers/dashboardControllers.js:4-86 | a page exactly for an authenticated provider or individual whose dates parse when both are given, whose sort field is valid and whose page and limit give a skip that is not negative; every other answer is 400, 401, 403 or 500 |
| DashboardProperties.PageShape | src/controllers/dashboardControllers.js:62-80 | proof helper: a page is the window of the ordered matches, with the match count and the page count of the same query |
| DashboardProperties.PlannedPage | src/controllers/dashboardControllers.js:62-80 | proof helper: a page comes from a plan with a non-negative skip, and is that plan run against the collection |
| DashboardProperties.WindowMember | src/controllers/dashboardControllers.js:70-71 | proof helper: `skip` and `limit` return only records of the sequence they cut |
| DashboardProperties.OrderMember | src/controllers/dashboardControllers.js:69 | proof helper: `.sort(...)` returns only records it was given |
| DashboardProperties.ExecuteCounts | src/controllers/dashboardControllers.js:67-78 | a plan with a non-negative skip answers a page whose total is the number of matches, at least the page size, with `Math.ceil(total / limit)` pages |
| DashboardProperties.ExecutedRecordsMatch | src/controllers/dashboardControllers.js:67-71 | every record of an executed page matches the plan's query and is in the collection |
| DashboardProperties.PageRecordsMatch | src/controllers/dashboardControllers.js:67-71 | every returned record matches the composed query and is in the collection |
| DashboardProperties.RoleScoping | src/controllers/dashboardControllers.js:17-20 | an individual sees only requests they own, and a provider sees only requests whose joined service they provide |
| DashboardProperties.FiltersApply | src/controllers/dashboardControllers.js:26-45 | every returned record has the requested status, matches the service-name pattern and, with both dates, lies in the inclusive range |
| DashboardProperties.StatusNarrows | src/controllers/dashboardControllers.js:26-28 | adding `status` never increases the total |
| DashboardProperties.ServiceTypeNarrows | src/controllers/dashboardControllers.js:29-31 | adding `serviceType` never increases the total |
| DashboardProperties.ComposeWithoutStatus | src/controllers/dashboardControllers.js:26-28 | dropping `status` from a query string that composes leaves the same plan with no status filter |
| DashboardProperties.ComposeWithoutServiceType | src/controllers/dashboardControllers.js:29-31 | dropping `serviceType` from a query string that composes leaves the same plan with no service-name filter |
| DashboardProperties.OneDateIgnored | src/controllers/dashboardControllers.js:32 | one date without the other leaves the response as with neither |
| DashboardProperties.BadDateRejected | src/controllers/dashboardControllers.js:37-39 | an unparsable date with both given gives 400 |
| DashboardProperties.InvertedRangeMatchesNothing | src/controllers/dashboardControllers.js:32-45 | a start after the end is not rejected: with an acceptable caller, sort and pagination the answer is a page, and it is empty with both totals zero |
| DashboardProperties.BadSortRejected | src/controllers/dashboardControllers.js:54-58 | a `sortBy` other than date or status gives 400 |
| DashboardProperties.SortOrderNeedsSortBy | src/controllers/dashboardControllers.js:49-51 | without `sortBy` nothing is sorted and `sortOrder` has no effect |
| DashboardProperties.PageIsSorted | src/controllers/dashboardControllers.js:49-55 | with a valid `sortBy` the page is ordered on that field, descending exactly when `sortOrder` is `desc` |
| DashboardProperties.PageSizeBounded | src/controllers/dashboardControllers.js:62-71 | the current page is the page asked for, and a page holds at most as many records as the absolute value of the limit, so at most `limit` for a positive limit |
| DashboardProperties.PaginationDefaults | src/controllers/dashboardControllers.js:62-63 | an absent, non-numeric or zero value gives the default |
| DashboardProperties.PaginationTakesValue | src/controllers/dashboardControllers.js:62-63 | a value that parses to a non-zero integer is used as it is |
| DashboardProperties.NegativeSkipFails | src/controllers/dashboardControllers.js:64-71 | a page below 1 with a positive limit makes the skip negative, which the database refuses: 500 |
| DashboardProperties.Totals | src/controllers/dashboardControllers.js:73-78 | the total counts every match of the same query, is at least the page size, and the page count is `Math.ceil(total / limit)` for the limit of the query string |
| DashboardProperties.TotalPagesCover | src/controllers/dashboardControllers.js:62-78 | for a positive limit `totalPages` pages of `limit` records hold every match, and one page fewer would not |
| DashboardProperties.CompletedScenario | src/controllers/dashboardControllers.js:17-80 | an individual with a pending and a completed request, beside someone else's, who asks for `status=completed` gets exactly the completed one, total 1, page 1 of 1 |
| RequestControllers.Contact | src/controllers/requestControllers.js:18-19 | the phone when it is not empty, otherwise the email; empty exactly when both are |
| RequestControllers.ContactOfValidUserIsPhone | src/controllers/requestControllers.js:19 | for a user the schema accepts, the contact is the phone |
| RequestControllers.AttachmentsOf | src/controllers/requestControllers.js:11-30 | the body's attachment array, or an empty one |
| RequestControllers.Drafted | src/controllers/requestControllers.js:22-31 | the document is built exactly when both dates cast; it holds the caller, the body's strings, the cast dates and the attachments, status pending, the current time, and no rating, review or completion time |
| RequestControllers.Create | src/controllers/requestControllers.js:9-52 | 400 exactly for an incomplete body; the collection changes exactly when the body is complete, the id is new and both dates cast, and then it gains exactly the drafted request: the body's values and attachments, pending, no rating, review or completion time; 201 exactly when stored and notified |
| RequestControllers.WiredCreateNever201 | src/controllers/requestControllers.js:33-51 | as wired, no call is answered 201, and a stored request is answered 500 |
| RequestControllers.StatusUpdate | src/controllers/requestControllers.js:73-95 | unknown id gives 404 and a non-owner 403, and the owner's status outside the enum fails the save with 500, each with nothing changed; 200 exactly for the owner and a status in the enum, and then only that request's status changes, to the named value |
| RequestControllers.ImageUrl | src/controllers/requestControllers.js:116 | the URL is the protocol, then `://`, the host, `/uploads/`, then the file path |
| RequestControllers.ImageAdded | src/controllers/requestControllers.js:100-131 | the same 404 and 403 rules, 400 without a file; on 200 the attachments grow by exactly the upload's URL at the end, earlier entries and every other field kept |
| RequestControllers.RatingRejected | src/controllers/requestControllers.js:164-166 | the range guard refuses a numeric rating below 1 or above 5, and lets a rating that is not a number through |
| RequestControllers.Reviewed | src/controllers/requestControllers.js:155-202 | 400 for a falsy review or rating or a numeric rating outside [1, 5], then 404 for an unknown id; otherwise the code is 500, and when the rating casts the request's review, rating, status `completed` and completion time are set; the schema invariant is kept |
| RequestControllers.ReviewReplyIsAlways500OnSuccess | src/controllers/requestControllers.js:181-184 | a stored review is answered 500 and the request is completed |
| RequestControllers.ReviewScenario | src/controllers/requestControllers.js:164-181 | a rating of 6 gives 400 with nothing changed; a rating of 3 completes the request with that rating, the review and the completion time |
| RequestControllers.UserRequests | src/controllers/requestControllers.js:59-61 | the listing holds exactly the caller's requests, each with its selected fields |
| RequestControllers.View | src/controllers/requestControllers.js:59-61 | the fields `.select(...)` keeps, with the id and the owner |
| RequestControllers.ServiceIds | src/controllers/requestControllers.js:138-139 | exactly the ids of the caller's services |
| RequestControllers.ProviderRequests | src/controllers/requestControllers.js:138-143 | the listing holds exactly the requests whose `serviceType` is the id of one of the caller's services |
| RequestControllers.ListedForOwnerOnly | src/controllers/requestControllers.js:59 | a stored request is listed for its owner and for nobody else |
| RequestControllers.CreatedIsListed | src/controllers/requestControllers.js:22-33 | a request that is stored appears in its creator's listing, `pending`, with the body's service type, and every other user's listing is unchanged |
| RequestControllers.ListingIgnoresOthers | src/controllers/requestControllers.js:59 | storing a request of one user leaves every other user's listing as it was |
| RequestControllers.StatusUpdateKeepsListings | src/controllers/requestControllers.js:87-88 | a status update keeps every listing's membership and every other listed request |
| RequestControllers.RequestStore.CreateRequest | src/controllers/requestControllers.js:9-52 | the handler's code and new collection are those of `Create`, and the schema invariant holds |
| RequestControllers.RequestStore.UpdateRequestStatus | src/controllers/requestControllers.js:73-95 | the handler's code and new collection are those of `StatusUpdate` |
| RequestControllers.RequestStore.AddImageToRequest | src/controllers/requestControllers.js:100-131 | the handler's code and new collection are those of `ImageAdded` |
| RequestControllers.RequestStore.SubmitReview | src/controllers/requestControllers.js:155-202 | the handler's code and new collection are those of `Reviewed` |
| ServiceController.EncodedImage | src/controllers/serviceController.js:29-33 | definition: `''` without an upload; with one, the disk-stored file has no `buffer` and the encoding throws; `UploadAlwaysFails` states the consequence |
| ServiceController.Insert | src/controllers/serviceController.js:35-41 | definition of the save: a validated service is stored under a new id with 201; a refused document or a taken id is 500 with nothing stored; `Create` states the resulting record |
| ServiceController.Create | src/controllers/serviceController.js:21-51 | a caller who is neither provider nor admin gets 500 with nothing created, and so does any upload; otherwise 201 exactly when the id is new and the schema accepts the body, and then exactly the validated service is added, with the caller as provider and `''` as image |
| ServiceController.CreateMounted | src/routes/serviceRoutes.js:17-35 | the mounted create route stores a service for any caller whose body the schema accepts, with the upload's path as image |
| ServiceController.MountedRouteIgnoresRole | src/routes/serviceRoutes.js:17-35 | through the mounted route any role succeeds exactly when a provider would, while `createService` refuses that role |
| ServiceController.Delete | src/controllers/serviceController.js:54-77 | 200 exactly when the id is known and the caller is its provider or an admin, and then exactly that service is removed and the rest kept; otherwise 500 with nothing changed |
| ServiceController.ImageAfterUpdate | src/controllers/serviceController.js:109-113 | definition: the old image without an upload; with one, the encoding of the missing buffer throws; `UploadAlwaysFails` states the consequence |
| ServiceController.Update | src/controllers/serviceController.js:93-134 | the same not-found and owner-or-admin rules as delete, then 500 with nothing changed for any upload; otherwise 200 exactly when the validators accept the new values, and then only that service changes: new trimmed name, description and cast price, the same provider and image |
| ServiceController.UploadAlwaysFails | src/controllers/serviceController.js:29-33 | through the controller handlers an upload always ends in 500 with nothing created or changed |
| ServiceController.StrangersChangeNothing | src/controllers/serviceController.js:54-107 | a caller who is neither the provider nor an admin changes nothing through delete or update |
| ServiceController.AdminUpdatesAnyService | src/controllers/serviceController.js:105-124 | an admin's update with valid values of any service is 200 without an upload and 500 with one, and keeps the provider |
| ServiceController.ServiceStore.CreateService | src/controllers/serviceController.js:21-51 | the handler's code and new collection are those of `Create`, so an upload fails with nothing stored |
| ServiceController.ServiceStore.DeleteService | src/controllers/serviceController.js:54-77 | the handler's code and new collection are those of `Delete` |
| ServiceController.ServiceStore.UpdateService | src/controllers/serviceController.js:93-134 | the handler's code and new collection are those of `Update`, so an upload fails with nothing changed |
| HssmController.DateOf | src/models/Hssm.js:11 | definition: a required Date path refuses an empty or missing value and casts any other with Mongoose's Date cast; used by `IncidentCreated` |
| HssmController.Insert | src/controllers/HssmController.js:9-20 | definition of the save: a validated document is stored under a new id with 201; a refused one or a taken id is 500 with nothing stored; `IncidentCreated` and `ReportCreated` state the resulting records |
| HssmController.FileName | src/controllers/HssmController.js:7 | definition: the uploaded file's name, or null without an upload; used by `IncidentCreated` and `ReportCreated` |
| HssmController.IncidentCreated | src/controllers/HssmController.js:4-22 | 201 exactly when the id is new and department, title, priority and the cast date pass the schema; the stored incident is exactly the validated one: the body's department and title, the parsed priority, the cast date, the upload's file name and no description; 500 with nothing stored otherwise |
| HssmController.IncidentStatusIgnored | src/controllers/HssmController.js:6-15 | the `status` in the body has no effect |
| HssmController.Pushed | src/controllers/HssmController.js:106-110 | with a document, the reading is appended to the first document's list and the rest kept; without one, a single document holding just the reading is created |
| HssmController.MeterReadingCreated | src/controllers/HssmController.js:96-117 | 400 exactly when location, reading or date is falsy; 201 exactly when they are truthy and the reading and date cast, and then the reading is pushed; otherwise nothing changes |
| HssmController.ZeroReadingRejected | src/controllers/HssmController.js:101-103 | a numeric reading of 0 gives 400 with nothing changed |
| HssmController.StringZeroReadingStored | src/controllers/HssmController.js:101-110 | the string "0" passes the guard and a reading of 0 is stored |
| HssmController.PushKeepsEarlierReadings | src/controllers/HssmController.js:108 | earlier readings are kept, in order, and the new reading comes last |
| HssmController.PushKeepsSingleton | src/controllers/HssmController.js:106-110 | the upsert keeps at most one document and keeps every reading valid |
| HssmController.ReportCreated | src/controllers/HssmController.js:129-142 | 201 exactly when the id is new and a file was uploaded, and then the report names that file; otherwise 500 with nothing changed |
| HssmController.CreatedIncidentIsListed | src/controllers/HssmController.js:24-31 | a stored incident appears in the unfiltered listing, which grows by one and keeps every earlier entry |
| HssmController.HssmStore.CreateIncident | src/controllers/HssmController.js:4-22 | the handler's code and new incidents are those of `IncidentCreated`; no other collection changes |
| HssmController.HssmStore.CreateAsset | src/controllers/HssmController.js:34-53 | always 500, and nothing changes |
| HssmController.HssmStore.CreateTask | src/controllers/HssmController.js:65-84 | always 500, and nothing changes |
| HssmController.HssmStore.CreateMeterReading | src/controllers/HssmController.js:96-117 | the handler's code and new readings are those of `MeterReadingCreated`, with at most one document kept |
| HssmController.HssmStore.CreateReport | src/controllers/HssmController.js:129-142 | the handler's code and new reports are those of `ReportCreated` |

The `getAll*` handlers of `src/controllers/HssmController.js` (lines 24-31,
55-62, 86-93, 119-126, 144-151) and `getServices` are all `Common.Documents`
over their collection. The meter-reading listing is the sequence of
documents itself.

## Left out

- Express, multer, authentication and routing code. The caller is a
  parameter: `None` for the dashboard's "no user" case, a `User` elsewhere.
- Response bodies other than the status code and the dashboard envelope.
  JSON serialisation and `populate` of `user` are not modelled.
- Sending push notifications (Firebase). Only whether the call throws is
  modelled, as `RequestControllers.NotifyOutcome`.
- Console logging and the error messages in responses.
- Concurrency, and the non-atomic pair of `find` and `countDocuments`.
  The model reads one snapshot.
- Parsing dates and integers, Mongoose's Date cast, `Number(s)` and
  matching regexes. These are uninterpreted functions of `Common.Host`,
  so the model does not say which strings they accept: in particular it
  does not capture how Mongoose's Date cast differs from `new Date` (a
  numeric string outside the year range is read as milliseconds). An
  invalid `$regex` pattern, which makes the query throw, is not
  modelled.
- Mongoose behaviour that depends on its version is not modelled:
  - `strictQuery` dropping the `service.*` filter paths;
  - `strictPopulate` refusing the `service` populate path;
  - `document.remove()` no longer existing in recent versions.

  The model follows the controller's code as written: the filter applies
  and `remove` deletes.
- ObjectId cast errors on malformed ids. Ids are plain strings, and an
  unknown id is the not-found case.
- Timestamps (`createdAt`/`updatedAt` with `timestamps: true`) and
  sub-document `_id`s.
- Body values of other JSON types. Only `price`, `rating`, `reading` and
  `serialNumber` are `Common.Field`s, which hold either a string or a
  number. Every other body value is an optional string, and
  `attachments` an optional sequence of strings. Arrays, objects and
  booleans in any other place are not modelled.
- The order of records with equal sort keys, and of an unsorted `find`.
  MongoDB promises neither, so pages sorted on `status` may overlap or
  skip records between requests. The model fixes both to collection
  order (`Dashboard.Select`, `Dashboard.Sort`, `Dashboard.Order`); no
  property proved here depends on that choice.
- Strings are Dafny strings: case mapping is ASCII only, and lengths count
  characters, not UTF-16 code units.
- Integer width of the dashboard's `page`, `limit` and `skip`. In the
  source they are JavaScript doubles: products past 2^53 round, and the
  database refuses a skip past 2^63. The model computes them as
  unbounded integers.
- `RequestControllers.RequestStore.UpdateRequestStatus`: the new status is
  taken as a given string. A request body without `status`, which would
  unset the field, is not modelled.
- `ServiceController.ServiceStore.UpdateService`: name, description and
  price are taken as given values. Absent body fields in an update are not
  modelled.
- `RequestControllers.RequestStore.AddImageToRequest`: the validation on
  save is not modelled, because the stored record is already valid and
  appending an attachment cannot invalidate it.
- The express-validator `check(...)` chains on the update route. Nothing
  reads their result, so they do not change the outcome.
- `fileFilter` in the service controller. It is defined but never used.
- `src/controllers/authController.js` (hashing, tokens, mail) is not part
  of this model beyond the User schema it relies on.
