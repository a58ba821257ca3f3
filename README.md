# Tool-move and weld touch-up tracker, in Dafny

This project models the data layer of a factory tool-move and weld-touch-up tracker.

**Backend records.** A *tool move* records that a tool was moved, and why (a *reason*). It may name where it went: a *department*, a *line* and a *station*. It may also say that the move requires a *weld touch-up*. A *weld touch-up* records weld work on a part. Creating one sends a *notification* to every user.

**Who uses it.** Three clients read and write these records:
- the current web client (`frontend/`), which talks to the Express backend;
- an older client (`src/`), which reads and writes the tables of a hosted database directly;
- a read-only activity screen of that older client.

**Backend model.**
- The backend (`backend/src`) is a class `Store.Database`. Its fields are the collections. It has one method per route that writes.
- Each method states its new state through a pure function of the route's module: `ToolMoveRoutes`, `WeldRoutes`, `NotificationRoutes`, `LocationRoutes`, `UserRoutes` or `ReasonRoutes`.
- It keeps an invariant, `Valid`: every stored document satisfies its schema, ids are distinct and fresh, and names and emails are unique where an index makes them so.
- The schemas are in `Records`.
- The outstanding weld obligation of a tool move is in `Obligations`.

**Client model.**
- Each client screen is a class.
  - Its fields are the component's state.
  - Its methods are the component's handlers.
  - The answers of its requests are parameters.
- The pure parts are functions with lemmas about them. These are the projections, filters, comparators and payload builders.
- The pure parts shared between screens are in these modules:
  - `ActivityFeed`: the backend timeline;
  - `ActivityClient`: filtering and sorting the timeline;
  - `LocationPicker`: the dependent dropdowns and the QR scan;
  - `StationForm`: parsing bulk station names;
  - `Errors`: `getErrorMessage`.

**Modelling conventions.**
- Ids are strings, and a store mints fresh ones from a counter.
- Timestamps are integers, and the clock is a parameter.
- JavaScript truthiness of request fields is explicit: an absent field is `None`, and a boolean field is a small `Json` value.
- `Array.prototype.sort` and the database's `sort` are one stable insertion sort, `Sorting.Sort`. It is proved sorted and a permutation of its input.

## Model

| member | source | states |
|---|---|---|
| ActivityClient.NameCmpAntisymmetric | frontend/src/components/Activity.tsx:116-130 | the department/line comparison (missing names tie and go after named ones, else code-point order) is antisymmetric |
| ActivityClient.NameCmpTransitive | frontend/src/components/Activity.tsx:116-130 | the department/line comparison is transitive, missing names included |
| ActivityClient.BeforeTotal | frontend/src/components/Activity.tsx:109-137 | for every key, in either direction, the comparator handed to `sort` is a total preorder |
| ActivityClient.SelectExactly | frontend/src/components/Activity.tsx:97-107 | an item survives the filters exactly when it is in the list and matches every filter that is not 'all' (AND) |
| ActivityClient.SelectAll | frontend/src/components/Activity.tsx:95-107 | with every filter at 'all' the list is kept whole, in order |
| ActivityClient.MissingNameExcluded | frontend/src/components/Activity.tsx:101-103 | an item with a null or empty department name never passes a specific department filter |
| ActivityClient.ArrangeProperties | frontend/src/components/Activity.tsx:94-140 | the result is a permutation of the filtered items and is ordered by the comparator |
| ActivityClient.MissingNamesPlacement | frontend/src/components/Activity.tsx:116-136 | by department or line, ascending puts unnamed items after all named ones; descending negates the comparison and puts them first |
| ActivityClient.DateOrder | frontend/src/components/Activity.tsx:113-136 | by date, ascending is oldest first and descending newest first |
| ActivityClient.FilterAndSort | frontend/src/components/Activity.tsx:94-140 | the step-by-step filtering of a copy followed by the sort yields the filtered, ordered permutation above |
| ActivityClient.NextSort | frontend/src/components/Activity.tsx:142-149 | the clicked field becomes the sort key; the same field flips the direction, another field starts ascending |
| ActivityClient.ToggleTwice | frontend/src/components/Activity.tsx:142-149 | clicking the same header twice restores the direction (or leaves a new field descending) |
| ActivityClient.UniqueNamesMembers | frontend/src/components/Activity.tsx:77-82 | a name is offered exactly when it is non-empty and some item carries it |
| ActivityClient.UniqueNamesAscending | frontend/src/components/Activity.tsx:77-82 | the option list is strictly ascending: sorted, each name once |
| ActivityClient.OptionLists | frontend/src/components/Activity.tsx:77-85 | the department and line option lists are the distinct non-empty names of the loaded items |
| ActivityClient.Panel.constructor | frontend/src/components/Activity.tsx:57-68 | nothing loaded, sorted by date descending, every filter 'all', nothing selected |
| ActivityClient.Panel.Load | frontend/src/components/Activity.tsx:74-92 | a loaded timeline replaces the list and both option lists; sort, filters and selection stay |
| ActivityClient.Panel.ToggleSort | frontend/src/components/Activity.tsx:142-149 | the sort state becomes `NextSort` of the old one; nothing else changes |
| ActivityClient.Panel.ShowDetails | frontend/src/components/Activity.tsx:151-160 | an item with details selects them; one without leaves the selection |
| ActivityClient.Panel.Shown | frontend/src/components/Activity.tsx:94-140 | the table shows the filtered, sorted arrangement and leaves the stored list unchanged |
| ActivityFeed.Tag | backend/src/routes/activity.js:26-48 | the item's `type` is "tool_move" exactly for tool moves and "weld_touchup" exactly for welds |
| ActivityFeed.Resolve | backend/src/routes/activity.js:11-30 | a populated reference has a name exactly when the field is set and the referenced document exists, and then it is that document's name |
| ActivityFeed.MoveItem | backend/src/routes/activity.js:24-45 | a tool move's item keeps its id and creation date, is tagged tool_move, has description "Reason: " + the reason's name or "Unknown", null for each unresolved location name only, performedBy = movedBy, and details carrying the three weld fields |
| ActivityFeed.WeldItem | backend/src/routes/activity.js:46-67 | a weld's item is tagged weld_touchup with description "Part {partNumber} - {weldType} ({reason})" from the free-text reason, performedBy = completedBy, and details carrying status |
| ActivityFeed.Items | backend/src/routes/activity.js:23-67 | the merged list has one item per tool move, in order, followed by one per weld |
| ActivityFeed.ItemsCounts | backend/src/routes/activity.js:23-67 | the merged list holds exactly as many tool_move items as tool moves and weld_touchup items as welds |
| ActivityFeed.FeedCounts | backend/src/routes/activity.js:23-68 | the sorted answer is a permutation of the merged list, so its length and its per-tag counts equal the collection sizes |
| ActivityFeed.FeedHasEveryRecord | backend/src/routes/activity.js:23-68 | every record's projection appears in the answer |
| ActivityFeed.FeedNewestFirst | backend/src/routes/activity.js:68 | the answer is ordered by date, newest first |
| ActivityLegacy.MoveActivity | src/components/Activity.tsx:89-99 | a tool-move row's item keeps id, date and performer (moved_by), is tagged tool_move, reads "Reason: {name or 'Unknown'}", and each empty or missing joined name becomes null |
| ActivityLegacy.WeldActivity | src/components/Activity.tsx:101-111 | a weld row's item reads "Part {part} - {type} ({reason})", is tagged weld_touchup, has completed_by as performer, and null for each missing name |
| ActivityLegacy.CombinedShape | src/components/Activity.tsx:113 | the combined list is every tool move's item in query order followed by every weld's, with length the sum |
| ActivityLegacy.MoveInfoOf | src/components/Activity.tsx:202-215 | tool-move details read a missing reason as 'Unknown' and missing weld flags as false; each location name is present exactly when the join found a non-empty one, and is then that name; id, date, mover, notes and touch-up notes as stored |
| ActivityLegacy.WeldInfoOf | src/components/Activity.tsx:228-241 | weld details carry id, part, type, reason, status, completer, notes and date as stored; each location name is present exactly when the join found a non-empty one, and is then that name |
| ActivityLegacy.DetailsAgreeWithItem | src/components/Activity.tsx:202-241 | the details opened for an item agree with its row in the list: same id, date, performer, notes and location names, and the list's description is built from the details' reason (and part and type) |
| ActivityLegacy.LegacyPanel.constructor | src/components/Activity.tsx:56-67 | nothing loaded, sorted by date descending, every filter 'all', nothing selected |
| ActivityLegacy.LegacyPanel.FetchActivities | src/components/Activity.tsx:73-130 | an error from either query changes nothing; otherwise the combined list and its distinct sorted department and line names replace the old state |
| ActivityLegacy.LegacyPanel.Shown | src/components/Activity.tsx:132-178 | the table shows the items passing every non-'all' filter (AND), in comparator order, with nulls after names ascending and before them descending |
| ActivityLegacy.LegacyPanel.ToggleSort | src/components/Activity.tsx:180-187 | the same field flips the direction; another field is selected ascending |
| ActivityLegacy.LegacyPanel.ClearFilters | src/components/Activity.tsx:362-370 | every filter returns to 'all'; the list, sort and selection stay |
| ActivityLegacy.LegacyPanel.FetchDetails | src/components/Activity.tsx:189-250 | the lookup matching the item's kind selects its details; an error or a missing row leaves the selection |
| ActivityLegacy.ClearedShowsEverything | src/components/Activity.tsx:132-178 | with the filters cleared every fetched item is shown, none added or dropped |
| ActivityView.Dash | src/components/ActivityView.tsx:98-111 | a location name shows as itself when non-empty and as '-' otherwise, never as an empty string |
| ActivityView.MoveView | src/components/ActivityView.tsx:95-104 | a tool-move row shows '-' for missing names and "Reason: {name or 'N/A'}\nNote: {notes or 'N/A'}", moved_by as performer |
| ActivityView.WeldView | src/components/ActivityView.tsx:106-115 | a weld row shows '-' for missing names and "Part {p} - {w}\nReason: {r}\nNote: {notes or 'N/A'}", completed_by as performer |
| ActivityView.ByDateInTotal | src/components/ActivityView.tsx:144-148 | the screen's date comparator is a total preorder in either direction |
| ActivityView.MergedProperties | src/components/ActivityView.tsx:95-119 | the merged list holds each projected row once (a failed query contributes none) and is newest first |
| ActivityView.RefilteredProperties | src/components/ActivityView.tsx:129-148 | the shown list is exactly the stored items that every non-'all' filter accepts (AND), each as often as stored, ordered by creation time only: oldest first for 'asc', newest first for 'desc' |
| ActivityView.FilterAndSortViews | src/components/ActivityView.tsx:129-151 | narrowing a copy filter by filter and sorting it gives the refiltered list above |
| ActivityView.ViewPanel.constructor | src/components/ActivityView.tsx:17-24 | nothing loaded or shown, every filter 'all', sorted by 'date' descending |
| ActivityView.ViewPanel.FetchActivities | src/components/ActivityView.tsx:56-127 | the stored list becomes the merge and the shown list its refiltering |
| ActivityView.ViewPanel.SetFilters | src/components/ActivityView.tsx:20-36 | new filters are stored and the shown list is refiltered |
| ActivityView.ViewPanel.SetSortBy | src/components/ActivityView.tsx:144-148 | choosing a sort field changes nothing that is shown: ordering is by creation time whatever the field |
| ActivityView.ViewPanel.FlipOrder | src/components/ActivityView.tsx:24-36 | the direction flips and the shown list is refiltered |
| Records.NewToolMove | backend/src/models/ToolMove.js:3-16 | a move is stored exactly when it has a reason and a mover; both weld flags default to false, locations and notes are optional, and both timestamps are the creation time |
| Records.NewWeld | backend/src/models/WeldTouchup.js:3-16 | a weld is stored exactly when part number, weld type and reason are present (and a completer); the status defaults to "pending" and is free text |
| Records.NewNotification | backend/src/models/Notification.js:3-10 | a notification needs a user and a message, and starts unread |
| Records.NewDepartment | backend/src/models/Department.js:3-10 | a department needs a name; the status defaults to "active" |
| Records.NewLine | backend/src/models/Line.js:3-11 | a line needs a name and a department; the status defaults to "active" |
| Records.NewStation | backend/src/models/Station.js:3-11 | a station needs a name and a line; the status defaults to "active" |
| Records.NewReason | backend/src/models/Reason.js:3-10 | a reason needs a name; the status defaults to "active" |
| Records.NewUser | backend/src/models/User.js:3-12 | a user needs an email and a password hash; the email is stored lower-case and isAdmin defaults to false |
| ToolMoveRoutes.CreateFields | backend/src/routes/toolMoves.js:25-35 | absent locations become null, absent notes "", the mover falls back to the caller's email, and both flags are coerced from truthiness |
| ToolMoveRoutes.Create | backend/src/routes/toolMoves.js:21-35 | an unresolved reason gives 400 "Reason not found"; otherwise a valid move with the defaults above, stamped with the creation time |
| ToolMoveRoutes.CompletedWithoutRequirement | backend/src/routes/toolMoves.js:32-33 | a move can be created completed although it never required a touch-up |
| ToolMoveRoutes.Patch | backend/src/routes/toolMoves.js:50-61 | PATCH writes only the three weld fields the body supplies, stamps the update time and leaves every other field |
| ToolMoveRoutes.PatchIdempotent | backend/src/routes/toolMoves.js:50-61 | sending the same PATCH twice gives the same record as sending it once |
| ToolMoveRoutes.PatchKeepsValid | backend/src/models/ToolMove.js:5-10 | a PATCH cannot make a stored move lose its required fields or its id |
| ToolMoveRoutes.ListNewestFirst | backend/src/routes/toolMoves.js:11-19 | the list holds every stored move, newest first |
| WeldRoutes.Create | backend/src/routes/welds.js:18-29 | the reason is stored as given, absent locations become null, notes default to "", the completer falls back to the caller and the status to "pending" |
| WeldRoutes.MessageOfStoredWeld | backend/src/routes/welds.js:39 | for a weld that was stored, the message names its part number and reason, never the fallbacks |
| WeldRoutes.FanOut | backend/src/routes/welds.js:38-44 | one notification per user, in user order, each for that user with the message, unread |
| WeldRoutes.FanOutOnePerUser | backend/src/routes/welds.js:40-43 | with distinct users, each user gets exactly one notification of the batch |
| WeldRoutes.Patch | backend/src/routes/welds.js:50-61 | PATCH writes only status, notes and completedBy as supplied, stamps the update time and leaves every other field |
| WeldRoutes.PatchKeepsDescribed | backend/src/routes/welds.js:53-57 | a PATCH never touches part number, weld type or reason |
| WeldRoutes.PatchCanEmptyCompletedBy | backend/src/routes/welds.js:51-59 | without validators the PATCH can store an empty completer, which the schema forbids on create |
| WeldRoutes.AnyStatusAccepted | backend/src/routes/welds.js:54 | any status can replace any other, and only the status and update time change |
| WeldRoutes.PatchIdempotent | backend/src/routes/welds.js:50-61 | the same PATCH twice gives the same record as once |
| WeldRoutes.ListNewestFirst | backend/src/routes/welds.js:9-16 | the list holds every stored weld, newest first |
| NotificationRoutes.InboxProperties | backend/src/routes/notifications.js:8-14 | the inbox holds only the caller's stored notifications, newest first, at most 50, and all of them when they are 50 or fewer |
| NotificationRoutes.InboxKeepsNewest | backend/src/routes/notifications.js:10-11 | a notification of the caller's left out of the inbox means the inbox is full and holds none older |
| NotificationRoutes.NewerFirstTotal | backend/src/routes/notifications.js:10 | the newest-first order is a total preorder, so the sort is well defined |
| NotificationRoutes.MarkRead | backend/src/routes/notifications.js:17-23 | only the notification matching both id and caller becomes read; every other one is unchanged |
| NotificationRoutes.MarkReadScoped | backend/src/routes/notifications.js:18-21 | other users' notifications are untouched whatever id is sent, and marking again changes nothing more |
| UserRoutes.View | backend/src/routes/users.js:9-14 | the answer carries id, email, name, department and admin flag, never the hash |
| UserRoutes.NewerUserTotal | backend/src/routes/users.js:9 | the newest-first order on users is a total preorder |
| UserRoutes.ListProperties | backend/src/routes/users.js:8-11 | one view per stored user, newest first, and every view comes from a stored user |
| UserRoutes.Get | backend/src/routes/users.js:13-17 | an unknown id gives 404 "User not found"; otherwise the view of that user |
| UserRoutes.Create | backend/src/routes/users.js:19-26 | a taken email gives 400 "User already exists"; a missing password fails in hashing; otherwise a valid user with isAdmin as `!!isAdmin` |
| UserRoutes.CreateKeepsEmailsDistinct | backend/src/models/User.js:5 | a successful create keeps emails unique |
| UserRoutes.CreatedResponse | backend/src/routes/users.js:25 | the 201 answer holds id, email, name and admin flag only |
| UserRoutes.ApplyPatch | backend/src/routes/users.js:29-37 | email only when truthy (lower-cased), isAdmin only when boolean, name and department only when defined, hash only for a truthy password; id and creation time kept |
| UserRoutes.EmptyPatchChangesNothing | backend/src/routes/users.js:30-37 | a body with nothing to write changes only the update time |
| UserRoutes.ApplyPatchKeepsValid | backend/src/routes/users.js:38 | a patched valid user stays valid |
| UserRoutes.Patch | backend/src/routes/users.js:28-41 | an unknown id gives 404 "User not found"; an email held by another user fails the unique index; otherwise the patched user |
| UserRoutes.PatchKeepsEmailsDistinct | backend/src/models/User.js:5 | a successful PATCH keeps emails unique |
| ReasonRoutes.ByNameTotal | backend/src/routes/reasons.js:8 | ordering by name is a total preorder |
| ReasonRoutes.ListByName | backend/src/routes/reasons.js:7-10 | the list holds the stored reasons in ascending name order |
| ReasonRoutes.Create | backend/src/routes/reasons.js:12-19 | a missing name is rejected, a taken name hits the unique index, otherwise the reason with status "active" unless one is given |
| ReasonRoutes.CreateKeepsNamesDistinct | backend/src/models/Reason.js:5 | a successful create keeps reason names unique |
| LocationRoutes.TreeShape | backend/src/routes/locations.js:9-25 | one entry per department in order; each holds exactly the lines referencing it, and each line exactly the stations referencing it |
| LocationRoutes.DanglingLineHidden | backend/src/routes/locations.js:14-17 | a line whose department is not stored appears nowhere in the tree |
| LocationRoutes.CreateDepartment | backend/src/routes/locations.js:27-34 | a missing name is rejected, a taken one hits the unique index, otherwise the department with status "active" unless one is given |
| LocationRoutes.CreateKeepsNamesDistinct | backend/src/models/Department.js:5 | a successful create keeps department names unique |
| LocationRoutes.CreateLine | backend/src/routes/locations.js:43-51 | a line is created exactly when it has a name and a department, which is not looked up; status "active" unless given |
| LocationRoutes.CreateStation | backend/src/routes/locations.js:59-67 | a station is created exactly when it has a name and a line, which is not looked up; status "active" unless given |
| LocationRoutes.DeleteLineCascades | backend/src/routes/locations.js:53-57 | deleting a line removes exactly that line and the stations referencing it |
| LocationRoutes.DeleteDepartmentOrphans | backend/src/routes/locations.js:36-41 | deleting a department removes it and its lines but only stations whose line is the department id, so the deleted lines' stations stay |
| Obligations.OutstandingExactly | frontend/src/components/WeldList.tsx:64-65 | a move is outstanding exactly when it requires a touch-up that is not completed |
| Obligations.OutstandingOrder | frontend/src/pages/ActivityPage.tsx:17-19 | the outstanding list keeps input order, is a subsequence of the input, and its length counts the outstanding moves |
| Obligations.StateOf | backend/src/models/ToolMove.js:11-13 | a move is Pending exactly when outstanding, and CompletedUnrequired exactly when completed without being required |
| Obligations.MarkDoneTwice | backend/src/routes/toolMoves.js:50-61 | marking a pending move done completes it, and marking it again is no error and changes nothing more |
| Obligations.EveryTransitionAccepted | backend/src/routes/toolMoves.js:54-55 | from any state some PATCH reaches any other state; none is rejected |
| Obligations.MarkDoneLeavesQueue | src/components/WeldList.tsx:105-121 | marking one move done removes it from the outstanding list and leaves the others |
| Store.Database.CreateToolMove | backend/src/routes/toolMoves.js:21-43 | the answer is the route's result; a created move is appended and nothing else changes; a 400 stores nothing |
| Store.Database.PatchToolMove | backend/src/routes/toolMoves.js:50-61 | the move with that id gets the PATCH, no other record changes, the answer is the updated move or null for an unknown id |
| Store.Database.DeleteToolMove | backend/src/routes/toolMoves.js:45-48 | a non-admin gets 403; otherwise only the move with that id is removed |
| Store.Database.CreateWeld | backend/src/routes/welds.js:18-48 | a created weld is appended followed by one notification per stored user with the message; a rejected body stores nothing |
| Store.Database.PatchWeld | backend/src/routes/welds.js:50-61 | the weld with that id gets the PATCH, nothing else changes, the answer is the updated weld or null |
| Store.Database.DeleteWeld | backend/src/routes/welds.js:63-66 | any authenticated user removes only the weld with that id |
| Store.Database.MarkRead | backend/src/routes/notifications.js:17-23 | only the caller's notification with that id is marked read; the answer is 204 either way |
| Store.Database.CreateDepartment | backend/src/routes/locations.js:27-34 | a non-admin gets 403; otherwise the route's result, appended on success |
| Store.Database.CreateLine | backend/src/routes/locations.js:43-51 | a non-admin gets 403; otherwise the route's result, appended on success |
| Store.Database.CreateStation | backend/src/routes/locations.js:59-67 | a non-admin gets 403; otherwise the route's result, appended on success |
| Store.Database.DeleteDepartment | backend/src/routes/locations.js:36-41 | a non-admin gets 403; otherwise the three collections become the cascade as written |
| Store.Database.DeleteLine | backend/src/routes/locations.js:53-57 | a non-admin gets 403; otherwise the line and its stations go |
| Store.Database.DeleteStation | backend/src/routes/locations.js:69-72 | a non-admin gets 403; otherwise only that station goes |
| Store.Database.CreateUser | backend/src/routes/users.js:19-26 | a non-admin gets 403; otherwise the route's result, the user appended on success and answered without the hash |
| Store.Database.PatchUser | backend/src/routes/users.js:28-41 | a non-admin gets 403; otherwise the route's result, only that user updated on success |
| Store.Database.DeleteUser | backend/src/routes/users.js:43-46 | a non-admin gets 403; otherwise only the user with that id goes |
| Store.Database.CreateReason | backend/src/routes/reasons.js:12-19 | a non-admin gets 403; otherwise the route's result, appended on success |
| Store.Database.DeleteReason | backend/src/routes/reasons.js:21-24 | a non-admin gets 403; otherwise only the reason with that id goes |
| Store.Notifications | backend/src/routes/welds.js:40-43 | the loop builds exactly the fan-out batch |
| Store.FanOutFresh | backend/src/routes/welds.js:40-44 | the batch's ids are distinct and fresh, and every document is valid |
| ClientForms.ActorField | frontend/src/components/AddToolMoveForm.tsx:113 | the mover sent is the form's field when non-empty, otherwise what storage holds (possibly null) |
| ClientForms.ActorFieldStored | frontend/src/components/AddToolMoveForm.tsx:18 | with storage unchanged since mount, the backend records the stored email, or the caller's email when none is stored |
| ClientForms.ToolMovePayload | frontend/src/components/AddToolMoveForm.tsx:107-116 | the posted body carries the reason id, sends empty location ids as null, and sends the touch-up notes only when a touch-up is required (null otherwise) |
| ClientForms.ToolMovePayloadStored | frontend/src/components/AddToolMoveForm.tsx:101-123 | the backend accepts the posted move exactly when the reason id is stored, and stores the flag as ticked, not completed, with empty locations as null |
| ClientForms.ToolMoveForm.constructor | frontend/src/components/AddToolMoveForm.tsx:13-27 | every field starts empty, the mover is read from storage once, no touch-up, nothing loaded |
| ClientForms.ToolMoveForm.LoadLocations | frontend/src/components/AddToolMoveForm.tsx:45-70 | a successful fetch flattens departments, lines (each with its department) and stations (keyed by the line's `_id` only); a failure keeps the lists |
| ClientForms.ToolMoveForm.SelectDepartment | frontend/src/components/AddToolMoveForm.tsx:84-87 | choosing a department clears the line and the station |
| ClientForms.ToolMoveForm.SelectLine | frontend/src/components/AddToolMoveForm.tsx:89-91 | choosing a line keeps the department and clears the station |
| ClientForms.ToolMoveForm.SelectStation | frontend/src/components/AddToolMoveForm.tsx:16 | choosing a station keeps the department and line |
| ClientForms.ToolMoveForm.HandleQRScan | frontend/src/components/AddToolMoveForm.tsx:83-99 | the scan's note replaces the form's when supplied and the scanner closes; the selection is the handler's writes after the reset effects have run (`ScanSettled`), so a scanned line or station survives only when the department (and line) did not change |
| ClientForms.ToolMoveForm.Submit | frontend/src/components/AddToolMoveForm.tsx:101-171 | nothing is posted without a reason; otherwise the payload is posted, a failure's message becomes the error, and the spinner stops |
| ClientForms.StatusOf | frontend/src/components/AddWeldForm.tsx:303 | a ticked box gives 'completed' and a cleared one 'pending' |
| ClientForms.WeldPayload | frontend/src/components/AddWeldForm.tsx:101-111 | the posted body carries the chosen reason id, empty location ids as null, the completer (field, else storage) and the status |
| ClientForms.WeldPayloadStored | frontend/src/components/AddWeldForm.tsx:95-118 | a form the browser lets through is always stored, with the status as chosen and empty locations as null |
| ClientForms.WeldForm.constructor | frontend/src/components/AddWeldForm.tsx:13-29 | every field empty, status 'pending', completer read from storage once |
| ClientForms.WeldForm.LoadLocations | frontend/src/components/AddWeldForm.tsx:55-82 | as for the tool-move form, except that a station is keyed by `l._id || l.id` |
| ClientForms.WeldForm.SelectDepartment | frontend/src/components/AddWeldForm.tsx:37-40 | choosing a department clears the line and the station |
| ClientForms.WeldForm.SelectLine | frontend/src/components/AddWeldForm.tsx:42-44 | choosing a line clears the station |
| ClientForms.WeldForm.SelectStation | frontend/src/components/AddWeldForm.tsx:16 | choosing a station keeps the department and line |
| ClientForms.WeldForm.SelectReason | frontend/src/components/AddWeldForm.tsx:257-264 | the stored reason is the option's id, not its name |
| ClientForms.WeldForm.SetCompleted | frontend/src/components/AddWeldForm.tsx:302-303 | the status becomes the checkbox's value and stays one of 'pending' and 'completed' |
| ClientForms.WeldForm.HandleQRScan | frontend/src/components/AddWeldForm.tsx:36-90 | as in the tool-move form: note and scanner as the handler sets them, the selection as `ScanSettled` after the reset effects |
| ClientForms.WeldForm.Submit | frontend/src/components/AddWeldForm.tsx:95-118 | nothing is posted while part number, weld type or reason is empty; otherwise the payload is posted and a failure's message becomes the error |
| Errors.ErrorMessage | src/lib/errors.ts:1-11 | an Error with a non-empty message gives that message, a string is returned unchanged (even ''), and an Error with an empty message or any other value gives 'An unexpected error occurred.' |
| Errors.EmptyOnlyForEmptyText | src/lib/errors.ts:1-11 | the message is empty exactly when the thrown value is the empty string |
| Errors.MessageStable | src/lib/errors.ts:2-8 | re-throwing a reported message as a string, or as an Error when non-empty, reports the same message |
| LegacyForms.Extension | src/components/AddToolMoveForm.tsx:148 | the extension contains no dot and is the end of the name: the text after the last dot, or the whole name when there is none |
| LegacyForms.ExtensionAfterDot | src/components/AddToolMoveForm.tsx:148 | whatever precedes the last dot, the extension is exactly what follows it |
| LegacyForms.UploadName | src/components/AddToolMoveForm.tsx:149 | the stored file lives in the user's own folder (`<userId>/...`) |
| LegacyForms.UploadKeepsExtension | src/components/AddWeldForm.tsx:148-149 | the stored file keeps the photo's extension |
| LegacyForms.MoveInsertOf | src/components/AddToolMoveForm.tsx:184-197 | the inserted move keeps reason, notes, mover and user, stores empty locations as null, and keeps touch-up notes only when a touch-up is required |
| LegacyForms.MoveInsertAgreesWithPayload | src/components/AddToolMoveForm.tsx:184-197 | the older and the current client send the same reason, locations, notes and touch-up fields for the same form |
| LegacyForms.WeldInsertOf | src/components/AddWeldForm.tsx:182-197 | the inserted weld touch-up keeps part number, type, reason, notes, completer, status and photo, with empty locations as null |
| LegacyForms.Submitting | src/components/AddToolMoveForm.tsx:144-205 | without a user nothing is uploaded or inserted and "User not authenticated" is shown; a failed upload inserts nothing; otherwise the row with the photo URL (or none) is inserted and the insert's error, if any, is shown |
| LegacyForms.InsertNeedsUserAndUpload | src/components/AddWeldForm.tsx:173-205 | a row is inserted only for a signed-in user, and never after a failed upload |
| LegacyForms.ToolMoveForm.constructor | src/components/AddToolMoveForm.tsx:15-32 | every field empty, no touch-up, no photo, nothing open |
| LegacyForms.ToolMoveForm.LoadCurrentUser | src/components/AddToolMoveForm.tsx:42-51 | the mover becomes the user's email when there is one, and stays otherwise |
| LegacyForms.ToolMoveForm.HandleQRScan | src/components/AddToolMoveForm.tsx:110-116 | the supplied location ids and note replace the form's, and the scanner closes |
| LegacyForms.ToolMoveForm.HandlePhotoChange | src/components/AddToolMoveForm.tsx:118-132 | a file over 5242880 bytes is refused with the size message and the old photo stays; a smaller one becomes the photo |
| LegacyForms.ToolMoveForm.HandleCameraCapture | src/components/AddToolMoveForm.tsx:134-142 | the captured picture becomes the photo without a size check, and the camera closes |
| LegacyForms.ToolMoveForm.Submit | src/components/AddToolMoveForm.tsx:168-206 | nothing happens without a reason; otherwise the outcome is that of submitting this form's row, its error is shown and the spinner stops |
| LegacyForms.WeldForm.constructor | src/components/AddWeldForm.tsx:15-33 | every field empty, status 'pending', nothing open |
| LegacyForms.WeldForm.LoadCurrentUser | src/components/AddWeldForm.tsx:43-52 | the completer becomes the user's email when there is one |
| LegacyForms.WeldForm.SelectReason | src/components/AddWeldForm.tsx:346-352 | the stored reason is the option's name, not its id |
| LegacyForms.WeldForm.SelectStatus | src/components/AddWeldForm.tsx:432-437 | the status becomes the chosen one of pending, in_progress and completed |
| LegacyForms.WeldForm.HandleQRScan | src/components/AddWeldForm.tsx:110-116 | the supplied location ids and note replace the form's, and the scanner closes |
| LegacyForms.WeldForm.HandlePhotoChange | src/components/AddWeldForm.tsx:118-132 | a file over 5242880 bytes is refused with the size message; a smaller one becomes the photo |
| LegacyForms.WeldForm.HandleCameraCapture | src/components/AddWeldForm.tsx:134-142 | a captured picture becomes the photo with no size check, whatever its size, and the camera closes; nothing else changes |
| LegacyForms.WeldForm.Submit | src/components/AddWeldForm.tsx:168-206 | nothing happens while part number, weld type or reason is empty; otherwise the outcome is that of submitting this form's row |
| LocationPicker.LineKeyOf | frontend/src/components/AddToolMoveForm.tsx:63 | the tool-move form keys a station by the line's `_id` alone, the weld form by `_id` falling back to `id` |
| LocationPicker.FlattenLinesMembers | frontend/src/components/AddToolMoveForm.tsx:49-58 | the flattened line options are exactly the lines of every department, each tagged with its own department's id |
| LocationPicker.LineKeysAgree | frontend/src/components/AddWeldForm.tsx:68-78 | where every line has `_id`, both station keyings give the same options |
| LocationPicker.StationKeysAgree | frontend/src/components/AddToolMoveForm.tsx:59-66 | for a hierarchy whose lines all carry `_id`, both forms offer the same station options |
| LocationPicker.FilteredLinesExactly | frontend/src/components/AddToolMoveForm.tsx:75-77 | the line dropdown holds exactly the lines of the selected department, in order, and is empty when none is selected |
| LocationPicker.FilteredStationsExactly | frontend/src/components/AddToolMoveForm.tsx:79-81 | the station dropdown holds exactly the stations of the selected line, in order, and is empty when none is selected |
| LocationPicker.LineDropdownOffersChildren | frontend/src/components/AddWeldForm.tsx:55-92 | over a loaded hierarchy, the line dropdown offers exactly the lines listed under the department with the selected id |
| LocationPicker.Settle | frontend/src/components/AddToolMoveForm.tsx:83-91 | a new department clears line and station, a new line clears the station, and an unchanged selection stays |
| LocationPicker.ChooseDepartmentResets | frontend/src/components/AddWeldForm.tsx:36-40 | choosing a different department leaves nothing chosen below it and no station offered; the same one changes nothing |
| LocationPicker.ChooseLineResets | frontend/src/components/AddWeldForm.tsx:42-44 | choosing a line keeps the department, and a different line clears the station |
| LocationPicker.ChooseStationKeepsParents | frontend/src/components/AddWeldForm.tsx:16 | choosing a station changes neither department nor line |
| LocationPicker.ScanWrites | frontend/src/components/AddToolMoveForm.tsx:93-99 | each location id the scan supplies replaces the selected one and the others stay |
| LocationPicker.ScanSettledOutcome | frontend/src/components/AddToolMoveForm.tsx:83-99 | once the reset effects have run, a code naming another department leaves only that department selected, a code naming another line under the same department leaves no station, and only a code that moves neither keeps all the handler's writes |
| LocationPicker.ScanFromNothingKeepsOnlyDepartment | frontend/src/components/AddWeldForm.tsx:36-90 | from an empty form, a code carrying department, line and station ends with only the department selected, although the handler itself writes all three |
| LocationPicker.ScanIdempotent | frontend/src/components/AddWeldForm.tsx:84-90 | scanning the same code twice equals scanning once, and a code without location ids changes nothing |
| LocationsPanel.TreeKeepsNameOrder | src/components/Locations.tsx:53-82 | when each table is read ordered by name, the tree lists departments, each department's lines and each line's stations in name order |
| LocationsPanel.Toggle | src/components/Locations.tsx:92-100 | the id's membership flips and every other id keeps its membership |
| LocationsPanel.ToggleTwice | src/components/Locations.tsx:102-110 | toggling the same id twice restores the set |
| LocationsPanel.DeleteTable | src/components/Locations.tsx:118 | the delete goes to the table named by the kind plus "s": departments, lines or stations |
| LocationsPanel.LocationsPanel.constructor | src/components/Locations.tsx:39-45 | empty tree, spinner on, nothing expanded, every add form closed |
| LocationsPanel.LocationsPanel.FetchLocations | src/components/Locations.tsx:51-90 | three answers give the grouped tree; any failing read keeps the old tree; the spinner stops either way |
| LocationsPanel.LocationsPanel.ToggleDepartment | src/components/Locations.tsx:92-100 | only the expanded-department set changes, by a toggle of the id |
| LocationsPanel.LocationsPanel.ToggleLine | src/components/Locations.tsx:102-110 | only the expanded-line set changes, by a toggle of the id |
| LocationsPanel.LocationsPanel.HandleDelete | src/components/Locations.tsx:112-125 | a declined confirmation sends nothing; otherwise the delete targets the kind's table, a failure alerts "Failed to delete <kind>" and changes nothing, a success re-reads the tree |
| LocationsPanel.LocationsPanel.HandleSuccess | src/components/Locations.tsx:127-132 | every add form closes and the tree is read again |
| StationForm.StationNamesClean | frontend/src/components/AddStationForm.tsx:52-55 | the parsed names are non-empty, trimmed and comma-free, keep the list's order and number at most the commas plus one |
| StationForm.NoStationNames | frontend/src/components/AddStationForm.tsx:52-59 | an empty list yields no names |
| StationForm.StationNamesRoundTrip | frontend/src/components/AddStationForm.tsx:52-55 | clean names joined with commas parse back to the same names |
| StationForm.BulkStationsAccepted | frontend/src/components/AddStationForm.tsx:61-68 | every station the bulk mode posts for a chosen line is stored with its name, that line and the chosen status (else 'active') |
| StationForm.SubmitOutcome | frontend/src/components/AddStationForm.tsx:45-84 | the browser refuses a submission without a line or the active name field; bulk mode with no parsed names shows the "at least one" error and posts nothing; otherwise one body per name, or one body in single mode |
| StationForm.StationForm.constructor | frontend/src/components/AddStationForm.tsx:16-24 | the line is the one passed in (or empty), the status 'active', every other field empty |
| StationForm.StationForm.Submit | frontend/src/components/AddStationForm.tsx:45-84 | a refused submission changes nothing; otherwise the requests of the outcome are sent, its error shown and the spinner stopped, the typed fields kept |
| UsersView.Stored | frontend/src/components/UsersView.tsx:65-80 | a field is stored trimmed, and as null exactly when it is blank |
| UsersView.Shown | frontend/src/components/UsersView.tsx:49-50 | the edit box shows a stored field's value, or "" for null |
| UsersView.SaveThenEditShowsTrimmed | frontend/src/components/UsersView.tsx:46-92 | reopening the editor after a save shows the typed text trimmed |
| UsersView.ResaveKeepsField | frontend/src/components/UsersView.tsx:46-92 | saving again what the editor shows for a saved field stores the same value |
| UsersView.SaveChangesOnlyThatUser | frontend/src/components/UsersView.tsx:74-84 | after a save the list has the same length, the edited user keeps id and email with the stored fields, and every other user is unchanged |
| UsersView.DeleteRemovesOnlyThatUser | frontend/src/components/UsersView.tsx:112 | after a delete exactly the profiles with other ids remain, in order |
| UsersView.UsersView.constructor | frontend/src/components/UsersView.tsx:16-21 | empty list, spinner on, nobody edited, saved or deleted |
| UsersView.UsersView.FetchUsers | frontend/src/components/UsersView.tsx:27-44 | the answer's rows become the list; an error keeps the old list; the spinner stops |
| UsersView.UsersView.BeginEdit | frontend/src/components/UsersView.tsx:46-52 | the user is being edited with the stored fields shown in the boxes |
| UsersView.UsersView.CancelEdit | frontend/src/components/UsersView.tsx:54-57 | nobody is being edited and both boxes are empty |
| UsersView.UsersView.SaveUser | frontend/src/components/UsersView.tsx:59-92 | a successful update replaces that user's fields with the stored values and ends editing; a failure changes nothing; the saving marker clears |
| UsersView.UsersView.DeleteUser | frontend/src/components/UsersView.tsx:94-121 | deleting oneself is refused with an alert; a declined or failed delete changes nothing; a success removes that user and ends editing of them |
| WeldListClient.NormaliseRef | frontend/src/components/WeldList.tsx:74-77 | an absent reference gives nothing, a populated one its name (or the object itself when the name is falsy), an unpopulated id that id |
| WeldListClient.StampOf | frontend/src/components/WeldList.tsx:59-71 | the snake-case timestamp when present, else the camel-case one |
| WeldListClient.NormaliseMove | frontend/src/components/WeldList.tsx:66-77 | the id is `_id` falling back to `id`, the text and flag fields are copied, and every reference is normalised |
| WeldListClient.PendingMovesExactly | frontend/src/components/WeldList.tsx:63-79 | a normalised move is listed exactly when it comes from a fetched move that requires a touch-up not completed |
| WeldListClient.PendingMovesOrder | frontend/src/components/WeldList.tsx:64-66 | the list normalises the outstanding moves position by position, in fetched order |
| WeldListClient.NormaliseWeld | frontend/src/components/WeldList.tsx:52-60 | each weld maps one to one: id `_id` or `id`, the fields copied under their new names |
| WeldListClient.RefOf | backend/src/routes/toolMoves.js:13-16 | a reference to a stored document is sent populated with its name; a dangling or absent one is not |
| WeldListClient.OutstandingAgrees | frontend/src/components/WeldList.tsx:65 | on the JSON the backend sends, the client's truthiness test selects exactly the moves the store holds as outstanding, in store order |
| WeldListClient.PendingIdsAreOutstanding | frontend/src/components/WeldList.tsx:63-79 | the screen lists the ids of the store's outstanding moves, in order |
| WeldListClient.WeldList.constructor | frontend/src/components/WeldList.tsx:35-36 | both lists start empty |
| WeldListClient.WeldList.FetchData | frontend/src/components/WeldList.tsx:46-85 | if either request fails nothing is stored; otherwise every weld normalised and the outstanding moves normalised |
| WeldListClient.ActivityPage.constructor | frontend/src/pages/ActivityPage.tsx:8 | no requests listed at first |
| WeldListClient.ActivityPage.FetchWeldRequests | frontend/src/pages/ActivityPage.tsx:14-49 | the panel holds the outstanding moves as fetched and its count is their number; a failure keeps the old list |
| WeldListClient.WeldRequestsExactly | frontend/src/pages/ActivityPage.tsx:17-19 | the panel holds exactly the moves requiring an uncompleted touch-up, as a subsequence of the input |
| WeldListLegacy.PendingQueryExactly | src/components/WeldList.tsx:72-86 | the query answers exactly the rows with the flags true and false (a null flag matches neither), newest first |
| WeldListLegacy.CompleteRow | src/components/WeldList.tsx:112 | the update sets only weld_touchup_completed to true |
| WeldListLegacy.MarkCompleteMatchesRefetch | src/components/WeldList.tsx:110-116 | dropping the completed move from the shown list gives what the query would answer after the update |
| WeldListLegacy.DeleteMatchesRefetch | src/components/WeldList.tsx:92-98 | dropping the deleted weld from the shown list gives what the query would answer after the delete |
| WeldListLegacy.StatusLabelSpec | src/components/WeldList.tsx:282 | the label is the status with its first underscore read as a space and later ones kept |
| WeldListLegacy.WeldList.constructor | src/components/WeldList.tsx:45-47 | both lists empty and the spinner on |
| WeldListLegacy.WeldList.FetchWelds | src/components/WeldList.tsx:56-70 | the answer's rows become the list, an error keeps it, and the spinner stops |
| WeldListLegacy.WeldList.FetchToolMoves | src/components/WeldList.tsx:72-86 | the answer's rows become the pending list and an error keeps it |
| WeldListLegacy.WeldList.HandleDelete | src/components/WeldList.tsx:88-103 | a declined confirmation changes nothing; a failure alerts "Failed to delete weld touchup"; a success drops only that id |
| WeldListLegacy.WeldList.HandleMarkComplete | src/components/WeldList.tsx:105-121 | a declined confirmation changes nothing; a failure alerts "Failed to mark weld touchup as complete"; a success drops only that id from the pending list |
| WeldListLegacy.RemovalDropsOnlyThatId | src/components/WeldList.tsx:98-116 | a local removal drops exactly the rows with that id and keeps the others in order |

## Left out

- Network, database and storage I/O: every request's answer (rows, an error, a public URL) is a parameter of the method that handles it, and `populate` is a lookup in a directory of names.
- Authentication: the JWT check and the signed-in user are the `caller` parameter; the admin gate answers `Forbidden` before a writing route runs. bcrypt hashing is a foreign call whose result is the `hash` parameter.
- UserRoutes.List: the admin gate of GET /users and GET /users/:id is not part of these two read functions; the gate is modelled on the writing routes only.
- UserRoutes.Create: whether an email is taken is decided on ASCII-folded emails (`Common.Lower`), while the schema's `lowercase: true` applies JavaScript's full Unicode `toLowerCase` to stored values and to the lookup. Two emails that differ only in the case of a non-ASCII letter ("äb@x.io" and "ÄB@x.io") count as taken in the route and as distinct in the model.
- UserRoutes.Patch: the unique-email conflict uses the same ASCII folding, with the same gap for non-ASCII letters.
- UserRoutes.ApplyPatch: a new email is stored ASCII-folded (`Common.Lower`), not lowered by the full Unicode `toLowerCase` of the schema's `lowercase: true`; `Common.Lower` keeps length, which `toLowerCase` does not always do ("İ" becomes two code points).
- Records.NewUser: the stored email is ASCII-folded in the same way, so a non-ASCII capital letter is stored as given where the schema would lower it.
- Store.Database.CreateWeld: the fan-out runs after the response and its failure is caught and logged; the model runs it in sequence after the create and does not model a failing `insertMany`, since that failure only comes from I/O.
- Store.Database.CreateWeld: the routes do not agree on one Mongoose version, and the model does not pin one for the whole backend. This method follows the chained `doc.populate(...).populate(...)` of `backend/src/routes/welds.js:30-33` as if it worked, which is Mongoose 5 and earlier behaviour. From Mongoose 6 on, that chain throws once the weld is stored, so the route sends no 201 and creates no notifications. The model does not capture that outcome.
- ToolMoveRoutes.Patch: a field missing from the PATCH body is treated as unchanged. The same holds for WeldRoutes.Patch, Store.Database.PatchToolMove and Store.Database.PatchWeld. That is Mongoose 6 and later behaviour, which strips `undefined` keys from an update, and it matches the promise form `await doc.populate([...])` of `backend/src/routes/toolMoves.js:36`. Under Mongoose 5 (the version the chained populate of the weld route needs), a missing field is written as null. For example, `PATCH /tool-moves/:id {weldTouchupCompleted: true}` would also null `requiresWeldTouchup` and `weldTouchupNotes`, and `PATCH /welds/:id {status}` would null `notes` and `completedBy`; the model does not capture that.
- Ids are plain strings: a route given an id that is not a valid ObjectId answers as for an unknown id (400, null, 404 or 204), and a create with a malformed `department`, `line` or `station` stores the reference as given. In Mongoose each of these raises a CastError and the route fails with a server error.
- Concurrency: `Promise.all` in the current weld screen is modelled as two answers given together; interleavings of overlapping requests are not modelled.
- React effect scheduling: the reset effects of the current forms are folded into the transition that triggers them (`LocationPicker.Settle`); a render cycle's intermediate states are not modelled. The end state is modelled: in the current forms `ClientForms.ToolMoveForm.HandleQRScan` and `ClientForms.WeldForm.HandleQRScan` end in `ScanSettled`, which loses a scanned line and station whenever the code moves the department (`LocationPicker.ScanFromNothingKeepsOnlyDepartment`).
- The `refresh` and `userId` effect dependencies that trigger refetches are not modelled; each fetch is a method the caller invokes.
- `localeCompare` collation is modelled as lexicographic order on code points, a total order; locale rules are out. The same order stands for `Array.prototype.sort()` without a comparator, which compares UTF-16 code units; the two differ only between characters beyond U+FFFF and characters from U+E000 to U+FFFF.
- Date parsing and formatting: timestamps are integers, and the displayed date strings are not modelled.
- The order the database gives to documents that tie under `sort` is not specified; the model's stable sort keeps input order for ties.
- MongoDB's unique index is a store invariant checked by the create and PATCH functions, not an asynchronous index error.
- Users: a POST without an email is modelled as a lookup that finds nobody followed by the schema's `required` error; a POST without a password fails in hashing (`ServerError`).
- The reason and location lists of the older entry forms (plain reads of the active rows ordered by name) and the reason list of the current forms are not modelled: they only fill dropdowns; likewise the department and line option lists of the older activity screen (`fetchDepartments` and `fetchLines` in src/components/ActivityView.tsx).
- Photo previews (`FileReader`), the camera and the QR decoder are device APIs: a capture is a `File` value and a scan an already decoded `ScanData`.
- The realtime subscription and the timed dismissal of weld notifications in the older client are not modelled.
- UsersView.UsersView.DeleteUser: `editingId` is read when the delete finishes; the model reads the current field, not a value captured when the handler was created.
- The current client's own types file (frontend/src/types) is not part of this model; its record shapes are taken from the backend schemas and the JSON the routes send.
- All JSX rendering, styling, modals, the plain list screens and page wrappers are out: they display data without logic.
