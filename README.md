# Task manager: validation, listing, errors and the task UI logic, in Dafny

This project models the core of a small task-manager application. On the
backend, it models four pieces:

- the request schemas for listing and creating tasks (joi);
- the middleware that runs those schemas and reports a 400 `VALIDATION_ERROR`;
- the `listTasks` service, which covers the filter, the sort, the page window and the page count, with soft-deleted tasks never visible;
- the Task document schema, the `ApiError` class, and the error middleware that normalises store errors and builds the JSON error response.

On the frontend, it models the logic of five pieces:

- the pagination bar: the buttons, the "Showing from–to of total" range and the windowed page list;
- the new-task dialog: the title check, the form and the submission;
- the in-memory task table: patch, delete, add, and inline title editing;
- the filter panel: the chips, the dates, clear-all and the emitted filters;
- the parameter pruning done before each HTTP call.

Pure code is modelled as datatypes, functions and lemmas. Code that changes
state step by step is modelled imperatively:

- the React components' state becomes a `class` with `modifies` clauses;
- the error middleware's reassignments, the validation loop, `listTasks`' filter building and the page-list loop are methods;
- each method is proved equal to a specification function, and the properties are proved about those functions.

Inputs the source receives from outside are parameters of the model:

- the store's regular-expression test (`Matcher`);
- the captured stack trace;
- the deployment mode;
- the browser's random id;
- the store-assigned id and creation time.

## Model

| member | source | states |
|---|---|---|
| ApiErrors.NewApiError | backend/utils/ApiError.js:11-30 | status, message and trace are kept; `isOperational` is true unless the options say false; details, code and cause are taken from the options unchanged |
| ApiErrors.BadRequest | backend/utils/ApiError.js:32-34 | status 400, message defaults to "Bad Request", otherwise the general constructor |
| ApiErrors.NotFound | backend/utils/ApiError.js:36-38 | status 404, message defaults to "Not Found" |
| ApiErrors.InternalError | backend/utils/ApiError.js:40-42 | status 500, message defaults to "Internal Server Error" |
| ApiErrors.FactoriesWithoutOptions | backend/utils/ApiError.js:14-42 | without options every factory's error is operational and has no code, details or cause |
| ErrorMiddleware.SubErrorDetails | backend/middlewares/error.middleware.js:13-17 | one detail per store sub-error, in order, carrying its path, message and kind as `type` |
| ErrorMiddleware.Normalize | backend/middlewares/error.middleware.js:4-25 | a 400 operational error exactly for an ObjectId cast failure (INVALID_ID, one detail "Invalid ObjectId: value") or a store validation failure with sub-errors (MODEL_VALIDATION_ERROR, its details exactly the sub-errors' path, message and kind in order), cast failure first; nothing otherwise |
| ErrorMiddleware.Normalized | backend/middlewares/error.middleware.js:29-33 | an ApiError is left alone; another error is replaced by its normalisation when there is one |
| ErrorMiddleware.Respond | backend/middlewares/error.middleware.js:27-60 | the status, message, code, details, stack and error block of every response; a non-ApiError's message is its own (after normalisation) or "Internal Server Error" when empty; any non-ApiError, normalised or not, has no code and no details and is non-operational; a normalised one is answered 500; diagnostics exactly outside production |
| ErrorMiddleware.HandleError | backend/middlewares/error.middleware.js:27-60 | the handler's reassignments produce exactly `Respond` |
| ErrorMiddleware.CastErrorAnsweredAs500 | backend/middlewares/error.middleware.js:29-35 | as written, an ObjectId cast failure is answered 500 with message "Invalid id format" and neither code nor details |
| ErrorMiddleware.StoreValidationAnsweredAs500 | backend/middlewares/error.middleware.js:29-35 | as written, a store validation failure is answered 500 with "Model validation failed" and neither code nor details |
| ErrorMiddleware.RespondIntended | backend/middlewares/error.middleware.js:27-60 | the handler with the ApiError test taken after normalisation; never a success, diagnostics exactly outside production |
| ErrorMiddleware.IntendedCastErrorIs400 | backend/middlewares/error.middleware.js:5-11 | corrected: a cast failure gets 400, INVALID_ID and its single detail |
| ErrorMiddleware.IntendedStoreValidationIs400 | backend/middlewares/error.middleware.js:12-23 | corrected: a store validation failure gets 400, MODEL_VALIDATION_ERROR and one detail per sub-error |
| ErrorMiddleware.IntendedAgreesElsewhere | backend/middlewares/error.middleware.js:27-60 | the correction agrees with the handler as written on every error the normaliser leaves alone |
| ErrorMiddleware.RejectedDocumentNormalises | backend/middlewares/error.middleware.js:12-23 | a document rejected by the Task schema normalises to one detail per failed field, path, message and kind intact |
| TaskModel.ParseStatus | backend/models/Task.js:13-17 | a name parses exactly when it is one of todo, doing, done, and parses to the status with that name |
| TaskModel.ParsePriority | backend/models/Task.js:18-22 | a name parses exactly when it is one of low, medium, high, and parses to the priority with that name |
| TaskModel.StatusRoundTrip | backend/models/Task.js:13-17 | every status name is in the enumeration and parses back to the status |
| TaskModel.PriorityRoundTrip | backend/models/Task.js:18-22 | every priority name is in the enumeration and parses back to the priority |
| TaskModel.TitleErrors | backend/models/Task.js:4-8 | at most one error; none exactly when the title is present with at least 3 characters, untrimmed |
| TaskModel.EnumErrors | backend/models/Task.js:13-22 | at most one error; none exactly when the value is absent or in the enumeration |
| TaskModel.CreateDocument | backend/models/Task.js:3-34 | a document is stored exactly when no field check fails, otherwise every failure is reported; a stored one is valid and live, keeps the given fields, status defaults to todo and priority to medium |
| TaskModel.TitleNotTrimmed | backend/models/Task.js:4-8 | the store counts raw characters: "  a  " passes, "ab" fails |
| TaskModel.DocumentRejectedIff | backend/models/Task.js:3-22 | a document is rejected exactly when its title is missing or shorter than 3, or its status or priority is outside the enumeration |
| TasksValidator.NumberViolations | backend/validators/tasks.validator.js:4-16 | no violation exactly for a safe integer number within the bounds; a number beyond ±(2^53 − 1) gets exactly `number.unsafe`; every violation sits at the field's path |
| TasksValidator.TrimmedStringViolations | backend/validators/tasks.validator.js:17-21 | no violation exactly for a string whose trimmed form is non-empty and at least the minimum long; every violation sits at the field's path |
| TasksValidator.StringViolations | backend/validators/tasks.validator.js:45-47 | no violation exactly for a non-empty string; every violation sits at the field's path |
| TasksValidator.EnumViolations | backend/validators/tasks.validator.js:22-29 | no violation exactly for a listed name; otherwise `any.only` comes first; every violation sits at the field's path |
| TasksValidator.DateViolations | backend/validators/tasks.validator.js:30-32 | no violation exactly for a converted date; every violation sits at the field's path |
| TasksValidator.OptionalNumber | backend/validators/tasks.validator.js:4-16 | an absent number passes; a present one passes exactly when it is a safe integer within the bounds; every violation sits at the field's path |
| TasksValidator.OptionalSearch | backend/validators/tasks.validator.js:17-21 | `q` passes exactly when absent or a string that is not blank |
| TasksValidator.OptionalString | backend/validators/tasks.validator.js:45-47 | the description passes exactly when absent or a non-empty string |
| TasksValidator.OptionalEnum | backend/validators/tasks.validator.js:22-29 | passes exactly when absent or a listed name |
| TasksValidator.OptionalDate | backend/validators/tasks.validator.js:30-32 | passes exactly when absent or a date |
| TasksValidator.ToViolations | backend/validators/tasks.validator.js:33-36 | `to` passes exactly when absent, or a date not before a valid `from`; every violation sits at `to` |
| TasksValidator.UnknownViolations | backend/validators/tasks.validator.js:37 | no violation exactly when every key is known; each unknown key is reported as `object.unknown` at its own path, and no violation sits at a known key |
| TasksValidator.ListQueryViolations | backend/validators/tasks.validator.js:3-37 | no violation exactly when the query meets every field rule and has no unknown key |
| TasksValidator.ListQueryReportsEveryField | backend/middlewares/validate.middleware.js:4-5 | with `abortEarly: false`, each of the seven list-query fields is reported at its own path exactly when its own rules fail, whatever the other fields hold |
| TasksValidator.ListQueryReportsNumbers | backend/validators/tasks.validator.js:4-21 | `page`, `limit` and `q` are each reported at their own path exactly when their rules fail |
| TasksValidator.ListQueryReportsChoices | backend/validators/tasks.validator.js:22-36 | `status`, `priority`, `from` and `to` are each reported at their own path exactly when their rules fail |
| TasksValidator.ValidateListQuery | backend/validators/tasks.validator.js:3-37 | success exactly for an accepted query, otherwise a non-empty violation list; page ≥ 1 defaulting to 1, limit within 1..100 defaulting to 20, `q` trimmed and non-empty, status and priority parsed by name, `from` and `to` present exactly when supplied and equal to the supplied dates, and `from` ≤ `to` |
| TasksValidator.TitleViolations | backend/validators/tasks.validator.js:40-44 | no violation exactly for a present string whose trimmed length is at least 3; every violation sits at `title` |
| TasksValidator.CreateBodyViolations | backend/validators/tasks.validator.js:39-61 | no violation exactly when the body meets every field rule and has no unknown key |
| TasksValidator.CreateBodyReportsEveryField | backend/middlewares/validate.middleware.js:4-5 | with `abortEarly: false`, each of the five create-body fields is reported at its own path exactly when its own rules fail, whatever the other fields hold |
| TasksValidator.ValidateCreateBody | backend/validators/tasks.validator.js:39-61 | success exactly for an accepted body, otherwise a non-empty violation list; the title is stored trimmed with at least 3 characters, status defaults to todo and priority to medium, and `description` and `dueDate` are present exactly when supplied and equal to the supplied values |
| TasksValidator.Validate | backend/validators/tasks.validator.js:3-61 | either schema: success exactly when accepted, otherwise a non-empty list; the value's kind matches the schema; the value is that schema's normalised record and the failure is that schema's full violation list |
| TasksValidator.UnknownKeyReported | backend/validators/tasks.validator.js:37-61 | any unknown key fails either schema and is reported at its own path, whatever the other fields hold |
| TasksValidator.ToBeforeFromReported | backend/validators/tasks.validator.js:33-36 | a `to` date before `from` is rejected with `date.min` |
| TasksValidator.TitleTooShort | backend/validators/tasks.validator.js:40-44 | a title that trims to 1 or 2 characters gives exactly one violation, `string.min` at `title` |
| TasksValidator.TitleOnlyAccepted | backend/validators/tasks.validator.js:39-61 | a title-only body whose trimmed title has 3 or more characters passes every rule and normalises to the trimmed title with the defaults |
| TasksValidator.TitleLongEnough | backend/validators/tasks.validator.js:39-61 | such a body validates to the trimmed title, no description, todo, medium, no due date |
| TasksValidator.EmptyQueryDefaults | backend/validators/tasks.validator.js:3-37 | the empty query validates to page 1, limit 20, no filters |
| ValidateMiddleware.DetailPath | backend/middlewares/validate.middleware.js:20 | a one-key array path is that key; a missing path is "" |
| ValidateMiddleware.DetailsOf | backend/middlewares/validate.middleware.js:18-22 | one detail per violation, in order, with its message, joined path and rule kind |
| ValidateMiddleware.ValidationFailed | backend/middlewares/validate.middleware.js:16-24 | 400, "Validation failed", VALIDATION_ERROR, operational, the violations as cause, one detail per violation |
| ValidateMiddleware.FirstFailing | backend/middlewares/validate.middleware.js:10-26 | none exactly when every part passes; otherwise the first failing part |
| ValidateMiddleware.Outcome | backend/middlewares/validate.middleware.js:10-27 | `next` gets no error exactly when every part passes |
| ValidateMiddleware.FirstFailingFound | backend/middlewares/validate.middleware.js:10-26 | the first failing part is unique: whichever part fails first is the one found |
| ValidateMiddleware.FailingOutcome | backend/middlewares/validate.middleware.js:15-25 | the error passed on carries exactly the first failing part's violations |
| ValidateMiddleware.ValidateRequest | backend/middlewares/validate.middleware.js:3-28 | the loop over the parts produces exactly `Outcome` |
| ValidateMiddleware.LaterPartsIgnored | backend/middlewares/validate.middleware.js:10-25 | parts after the first failure do not affect the outcome |
| ValidateMiddleware.FailureReportsEveryViolation | backend/middlewares/validate.middleware.js:18-22 | every violation of the failing part appears as a detail with message, path and type intact |
| Text.Trim | backend/validators/tasks.validator.js:18 | the result is no longer than the input and has no whitespace at either end; it is empty exactly when the input is all whitespace; it is a slice `s[i..j]` of the input with only whitespace before `i` and after `j` |
| Text.TrimIdempotent | frontend/src/components/NewTaskDialog.jsx:47 | trimming twice is trimming once |
| Text.Join | backend/middlewares/validate.middleware.js:20 | a single segment joins to itself, no segments to "" |
| Text.DecimalString | frontend/src/components/TasksList.jsx:276 | non-empty decimal digits with no leading zero |
| Text.DecimalRoundTrip | frontend/src/components/TasksList.jsx:276 | reading the decimal rendering back gives the number |
| TasksService.BuildFilter | backend/services/tasks.service.js:18-33 | the filter always holds `deletedAt: null`, and a task matches it exactly when the task is listed under the arguments with the search on `text` |
| TasksService.Select | backend/services/tasks.service.js:34 | `find`: exactly the store's documents that match the filter |
| TasksService.SelectListed | backend/services/tasks.service.js:34-41 | exactly the store's listed documents, in store order |
| TasksService.SelectAgrees | backend/services/tasks.service.js:34-41 | a filter matching exactly the listed tasks selects the same sequence |
| TasksService.NothingListed | backend/services/tasks.service.js:30-33 | when no document qualifies the selection is empty |
| TasksService.SelectListedAppend | backend/services/tasks.service.js:34-41 | selection distributes over concatenation of stores |
| TasksService.PrecedesTotal | backend/services/tasks.service.js:35 | any two tasks are ordered one way or the other by due date then creation time |
| TasksService.PrecedesTransitive | backend/services/tasks.service.js:35 | the listing order is transitive |
| TasksService.Insert | backend/services/tasks.service.js:35 | inserting into a sorted sequence keeps it sorted and adds exactly the element |
| TasksService.SortForListing | backend/services/tasks.service.js:35 | `sort({dueDate: -1, createdAt: -1})`: a sorted permutation of the input |
| TasksService.SortKeepsMembers | backend/services/tasks.service.js:35 | sorting neither adds nor loses a task |
| TasksService.Offset | backend/services/tasks.service.js:16 | the skip count is `(page - 1) * limit` and never negative |
| TasksService.Window | backend/services/tasks.service.js:36-37 | `skip` then `limit`: at most `limit` items, the contiguous slice starting at `skip`, empty past the end |
| TasksService.CeilDiv | backend/services/tasks.service.js:42 | `Math.ceil(n / d)`: the least count of pages of size `d` holding `n` items; 0 exactly when `n` is 0 |
| TasksService.Listing | backend/services/tasks.service.js:15-48 | the items are exactly the `limit`-sized window at offset `(page − 1) * limit` of the sorted listed tasks; at most `limit` items, all live, listed and from the store, sorted; `totalCount` counts every listed task; `totalPages` is its ceiling by `limit`; a page past the end is empty |
| TasksService.ListTasks | backend/services/tasks.service.js:15-48 | the service as written, search on `text`, returns exactly `Listing` |
| TasksService.SoftDeletedInvisible | backend/services/tasks.service.js:18 | adding a soft-deleted task changes neither the items nor the counts |
| TasksService.PageSize | backend/services/tasks.service.js:16-42 | a page holds `limit` items, or the remainder on the last page, or nothing past the end; it is non-empty exactly when `page <= totalPages` |
| TasksService.WindowSize | backend/services/tasks.service.js:36-42 | the same size rule for any sorted sequence cut with `skip`/`limit` |
| TasksService.WindowSorted | backend/services/tasks.service.js:36-42 | a window cut from a sorted listing is still sorted |
| TasksService.PastLastPage | backend/services/tasks.service.js:15-48 | five matches, page 2 of 10 per page: no items, total 5, one page |
| TasksService.SearchOnTextFindsNothing | backend/services/tasks.service.js:30-33 | as written, any non-empty search gives no items, count 0, pages 0 |
| TasksService.ListingIntended | backend/services/tasks.service.js:30-33 | corrected: the search is on the title; every listed task is live and its title matches |
| TasksService.IntendedSearchFindsTitles | backend/services/tasks.service.js:30-33 | corrected: a live task whose title matches is counted and the first page is not empty |
| Pagination.RangeTo | frontend/src/components/Pagination.jsx:16 | the last shown item is `min(page * limit, total)`: never beyond the total or `page * limit`, and equal to one of them |
| Pagination.RangeFrom | frontend/src/components/Pagination.jsx:15 | the first shown item is 0 when there are no items, and at least 1 otherwise |
| Pagination.RangeDescribesListedPage | frontend/src/components/Pagination.jsx:15-16 | on a page within `totalPages`, 1 ≤ from ≤ to ≤ total, `to − from + 1` is the number of items the service returned, and item `k` of the page is item `from + k` (counting from 1) of the sorted listing |
| Pagination.WindowRange | frontend/src/components/Pagination.jsx:15-16 | for any sequence cut into pages, from and to bound the page's window, span its length, and place its items |
| Pagination.NavigationMatchesListing | frontend/src/components/Pagination.jsx:12-13 | "next" is enabled exactly when the next page of the listing has items; "previous" is disabled exactly on page 1 and, within the existing pages, leads to a page with items |
| Pagination.WindowBounds | frontend/src/components/Pagination.jsx:22-26 | the window lies within 1..totalPages, holds `min(5, totalPages)` pages, contains the current page and is centred on it away from the ends |
| Pagination.Run | frontend/src/components/Pagination.jsx:32 | the buttons `lo..hi`, one per page in order |
| Pagination.Pages | frontend/src/components/Pagination.jsx:19-38 | the memo's pushes produce exactly `PageItems` |
| Pagination.SinglePage | frontend/src/components/Pagination.jsx:20 | with at most one page (or none) the list is `[1]` |
| Pagination.PageItemsContents | frontend/src/components/Pagination.jsx:19-38 | page `p` has a button exactly when it is 1, the last page or in the window; the gap markers sit where the window leaves a gap |
| Pagination.PageItemsAt | frontend/src/components/Pagination.jsx:28-35 | each entry comes from the head, the window or the tail |
| Pagination.NeighboursConsecutive | frontend/src/components/Pagination.jsx:28-35 | neighbouring buttons are consecutive pages |
| Pagination.GapsMarkSkips | frontend/src/components/Pagination.jsx:29-35 | every "…" stands between two buttons that skip at least one page |
| Pagination.PageItemsShape | frontend/src/components/Pagination.jsx:19-38 | with two or more pages, the list starts at 1, ends at the last page, and is well shaped |
| Pagination.PageItemsIncreasing | frontend/src/components/Pagination.jsx:19-38 | page numbers are strictly increasing |
| NewTaskDialog.WithField | frontend/src/components/NewTaskDialog.jsx:56-58 | the named field takes the value and every other field is unchanged |
| NewTaskDialog.TitleError | frontend/src/components/NewTaskDialog.jsx:45-52 | "required" exactly for a blank title, "too short" for 1-2 trimmed characters, "too long" above 120, and no error exactly for 3 to 120 |
| NewTaskDialog.ValidIffNoError | frontend/src/components/NewTaskDialog.jsx:54 | `isValid` holds exactly when no error is recorded |
| NewTaskDialog.Dialog.constructor | frontend/src/components/NewTaskDialog.jsx:18-19 | the initial form, nothing touched, nothing sent |
| NewTaskDialog.Dialog.Open | frontend/src/components/NewTaskDialog.jsx:38-43 | opening resets the form and the touched set |
| NewTaskDialog.Dialog.UpdateField | frontend/src/components/NewTaskDialog.jsx:56-58 | only the named field changes |
| NewTaskDialog.Dialog.MarkTouched | frontend/src/components/NewTaskDialog.jsx:60-62 | adds the field to the touched set |
| NewTaskDialog.Dialog.HandleCancel | frontend/src/components/NewTaskDialog.jsx:64-66 | one close request, nothing else changes |
| NewTaskDialog.Dialog.HandleSubmit | frontend/src/components/NewTaskDialog.jsx:74-92 | marks title, status, priority and due date touched; an invalid form sends nothing and stays open; a valid one sends the payload once, title trimmed, and asks to close |
| NewTaskDialog.SubmittedTitleAccepted | frontend/src/components/NewTaskDialog.jsx:84-90 | a submitted title is trimmed, 3 to 120 characters long, and accepted by the backend's create schema and by the Task document |
| NewTaskDialog.TitleErrorIgnoresPadding | frontend/src/components/NewTaskDialog.jsx:45-52 | surrounding whitespace does not change the title check |
| NewTaskDialog.InitialFormDefaults | frontend/src/components/NewTaskDialog.jsx:6-12 | the initial form is invalid with "Title is required." and carries status todo and priority medium |
| TasksList.Merge | frontend/src/components/TasksList.jsx:70 | `{ ...t, ...patch }`: the id is kept and each patched field replaces the row's |
| TasksList.Patched | frontend/src/components/TasksList.jsx:68-72 | same length and ids; rows with the id are merged, the others are unchanged |
| TasksList.Without | frontend/src/components/TasksList.jsx:74-76 | exactly the rows whose id differs |
| TasksList.TaskList.constructor | frontend/src/components/TasksList.jsx:38-64 | the three seed rows, no title being edited |
| TasksList.TaskList.UpdateTask | frontend/src/components/TasksList.jsx:68-72 | the rows become `Patched`; the title editing state is kept |
| TasksList.TaskList.DeleteTask | frontend/src/components/TasksList.jsx:74-76 | the rows become `Without` |
| TasksList.TaskList.AddTask | frontend/src/components/TasksList.jsx:110-121 | a "New task" row is prepended |
| TasksList.TaskList.StartEditTitle | frontend/src/components/TasksList.jsx:78-81 | editing starts on the row with its title as the draft |
| TasksList.TaskList.SetDraftTitle | frontend/src/components/TasksList.jsx:164 | only the draft changes |
| TasksList.TaskList.CommitTitle | frontend/src/components/TasksList.jsx:83-88 | the row with the id gets the trimmed draft as title; editing ends |
| TasksList.TaskList.CancelTitle | frontend/src/components/TasksList.jsx:90-93 | editing ends and the rows are kept |
| TasksList.PatchIdempotent | frontend/src/components/TasksList.jsx:68-72 | the same patch applied twice equals once |
| TasksList.WithoutAppend | frontend/src/components/TasksList.jsx:74-76 | deletion keeps order and distributes over concatenation |
| TasksList.WithoutAbsent | frontend/src/components/TasksList.jsx:74-76 | deleting an id no row has changes nothing |
| TasksList.DeleteAfterPatch | frontend/src/components/TasksList.jsx:68-76 | a patch followed by a delete of the same id is the delete alone |
| TasksList.AddThenDelete | frontend/src/components/TasksList.jsx:110-121 | deleting a freshly added row's id removes it again |
| TasksList.CommittedTitleTrimmed | frontend/src/components/TasksList.jsx:83-88 | a committed title equals the trimmed draft and has no whitespace at either end |
| TasksList.FooterCounts | frontend/src/components/TasksList.jsx:276 | the footer starts with the row count in decimal and ends in " task" exactly for one row, " tasks" otherwise |
| TaskFilter.Override | frontend/src/components/TaskFilter.jsx:27-34 | each emitted filter is the override when one is given and the current value otherwise; with no overrides the current filters are emitted unchanged |
| TaskFilter.Toggled | frontend/src/components/TaskFilter.jsx:48-56 | the chip value becomes the chip or "", and "" exactly when the chip was already selected |
| TaskFilter.ToggleTwice | frontend/src/components/TaskFilter.jsx:48-56 | two clicks on a chip leave it selected if it was selected, otherwise unselected |
| TaskFilter.ToggleTwiceFromNone | frontend/src/components/TaskFilter.jsx:48-56 | from no selection, two clicks leave no selection |
| TaskFilter.FilterPanel.HasActiveFilters | frontend/src/components/TaskFilter.jsx:82-84 | true exactly when some field is non-empty |
| TaskFilter.FilterPanel.constructor | frontend/src/components/TaskFilter.jsx:16-24 | every field empty, nothing emitted |
| TaskFilter.FilterPanel.EmitChange | frontend/src/components/TaskFilter.jsx:26-37 | emits and remembers the current fields with the overrides applied; the fields do not change |
| TaskFilter.FilterPanel.HandleSearchChange | frontend/src/components/TaskFilter.jsx:40-46 | the search field changes; nothing is emitted before the timer |
| TaskFilter.FilterPanel.ToggleStatusChip | frontend/src/components/TaskFilter.jsx:48-56 | the status toggles and the new filters are emitted and remembered |
| TaskFilter.FilterPanel.TogglePriorityChip | frontend/src/components/TaskFilter.jsx:58-67 | the priority toggles and the new filters are emitted and remembered |
| TaskFilter.FilterPanel.HandleDateFrom | frontend/src/components/TaskFilter.jsx:72-75 | the from date changes and the new filters are emitted |
| TaskFilter.FilterPanel.HandleDateTo | frontend/src/components/TaskFilter.jsx:77-80 | the to date changes and the new filters are emitted |
| TaskFilter.FilterPanel.ClearAll | frontend/src/components/TaskFilter.jsx:86-94 | every field empties, no filter is active, the empty filters are emitted, `latestFilters` is not updated |
| TaskFilter.ClickStatusTwice | frontend/src/components/TaskFilter.jsx:48-56 | two clicks from no selection emit twice, first with the chip selected, then cleared |
| TasksApi.Prune | frontend/src/api/tasks.api.js:6-8 | exactly the entries whose value passes the test |
| TasksApi.PruneAppend | frontend/src/api/tasks.api.js:6-8 | pruning keeps order and distributes over concatenation |
| TasksApi.PruneKeepsAll | frontend/src/api/tasks.api.js:6-8 | when every value passes, nothing is dropped or changed |
| TasksApi.ListTasksParams | frontend/src/api/tasks.api.js:3-8 | the params object passed to `API.get` holds no undefined value and at most seven parameters |
| TasksApi.ListTasksParamsSteps | frontend/src/api/tasks.api.js:4-8 | the parameters, in the order page, limit, q, priority, status, to, from, each kept exactly when defined |
| TasksApi.ListKeepsFalsyValues | frontend/src/api/tasks.api.js:7 | null, 0, "" and false are kept in the params object passed to `API.get`; only undefined is dropped |
| TasksApi.ListAllDefined | frontend/src/api/tasks.api.js:3-8 | with every parameter defined, all seven are kept in the params object unchanged and in order |
| TasksApi.CreateTaskParams | frontend/src/api/tasks.api.js:24-27 | exactly the fields whose value is a non-empty string or array |
| TasksApi.CreateDropsEmptyAndLengthless | frontend/src/api/tasks.api.js:26 | an empty string, a number and null are all dropped |
| TasksApi.PayloadSent | frontend/src/api/tasks.api.js:24-27 | a dialog payload is sent with its title, and with its description or due date exactly when that field is not empty |

## Left out

- The schema library's type conversion. Raw values are taken as they stand after it. A value of the wrong kind stands for one that did not convert.
- Message templates: only the library's default English templates are written out.
- TasksValidator.ToViolations: `to: date().min(ref('from'))` is checked against `from` only when `from` is a valid date. When `from` is absent or is not a date, the library resolves the reference to something that is not a date and reports `any.ref` on `to`. The model reports nothing on `to` in that case, taking the unresolved reference as no bound. Reference resolution is not modelled.
- Wiring, which lies outside the core files:
  - only `GET /` is validated, with the list schema (backend/routes/tasks.route.js:8);
  - `createTaskBodySchema` is not used by any route;
  - backend/server.js:10-17 never registers the error middleware: it registers only the JSON parser, the task routes and the health route;
  - the controllers read `req.validated`, which the validation middleware never sets;
  - the controllers pass `listTasks` one object where it takes seven positional arguments.

  Each operation is modelled as its own file defines it.
- The controller's `getTask`, `updateTask` and `deleteTask` are unimplemented stubs. The service exports no `createTask`. Neither is modelled; the store's own check on a saved document is `TaskModel.CreateDocument`.
- Error logging and the deployment-mode configuration: the mode is a parameter of `ErrorMiddleware.Respond`.
- ErrorMiddleware.Respond: a thrown `null` or `undefined`, which makes the handler itself throw, is not modelled. The handler's input is always an error object.
- ApiErrors.NewApiError: the stack capture is a runtime facility. The trace is a parameter.
- The store itself: it is a sequence of documents. Its regular-expression engine is a parameter (`Matcher`); pattern syntax and escaping are not modelled.
- TasksService.SortForListing: a missing due date ranks below every date, so it comes last in descending order. Ties on both keys keep store order. The store guarantees neither, so the model proves sortedness and permutation, not one particular order among equal keys.
- TaskModel.CreateDocument: `createdAt` is an ordinary field. The schema (backend/models/Task.js:33) writes `timestamp: true`, which does not turn on store-managed timestamps; the store library may even refuse `true` as the type of a path named `timestamp` when the model is loaded. Neither outcome is modelled; the model keeps the other paths of the schema.
- Text.Trim: strings are sequences of code points. JavaScript counts UTF-16 code units, so lengths differ for characters outside the Basic Multilingual Plane.
- TaskFilter.FilterPanel.HandleSearchChange: the debounce timer is left out, because time is not modelled, so the delayed `emitChange({search})` is not modelled either. The same goes for the `clearTimeout` in `ClearAll` and on unmount.
- NewTaskDialog.Dialog.HandleSubmit: the focus call on an invalid form is left out. The early `return` is written as an if-else with the same effect.
- The optional calls `onSubmit?.()` and `onClose?.()` are recorded as made. The dialog's native open and close, focusing the title and the backdrop click are browser effects.
- NewTaskDialog.Dialog.UpdateField: it takes one of the five form fields. The source accepts any name, but its inputs only ever pass these five.
- React rendering, CSS and the HTTP calls themselves: `API.get`, `API.post`, `deleteTask`, `updateTask` and the response data are not part of this model.
- TasksApi.CreateTaskParams: it takes the payload's entries in the order the dialog builds them.
- TasksApi.ListKeepsFalsyValues: the model stops at the params object handed to `API.get`. The HTTP client then serialises it into the query string and leaves out null-valued parameters as well as undefined ones, so a null parameter is kept in the object but never reaches the server. That serialisation is not modelled.
- Three behaviours of the code as written, which the model keeps:
  - a title rejected by the store is answered 500, not 400 (see the Findings);
  - the store checks the title untrimmed, since the schema does not trim (`TaskModel.TitleNotTrimmed`);
  - `5xx` answers are not logged: the code has no logging.

## Findings

| source | as written | input that shows it | evidently intended | confidence | as-written member | corrected member |
|---|---|---|---|---|---|---|
| backend/middlewares/error.middleware.js:29-47 | `isApiError` is computed before normalisation, so a normalised store error is treated as a non-ApiError: status from `err.status` (absent, so 500), and the code and details are dropped | a store `CastError` of kind `ObjectId` (any id) is answered 500 "Invalid id format" with no `INVALID_ID` code | the normaliser's 400 `INVALID_ID` / `MODEL_VALIDATION_ERROR` answer with its details | high (not executed) | ErrorMiddleware.CastErrorAnsweredAs500 | ErrorMiddleware.IntendedCastErrorIs400 |
| backend/services/tasks.service.js:30-33 | the search conjunct is put on the path `text`, which no Task document has | any non-empty `q` with a task titled to match: the listing is empty, with count 0 and 0 pages | match the search against the title (the schema's text index is on `title`) | medium (not executed; it depends on the store's strict-query setting, which may instead drop the unknown path and ignore the search) | TasksService.SearchOnTextFindsNothing | TasksService.IntendedSearchFindsTitles |
