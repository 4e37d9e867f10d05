# ticketcue in Dafny

This project models ticketcue, a web app that reminds users about ticket sales. The model covers the parts of the app that make decisions, and leaves out the rendering and the database plumbing. Every instant is an integer number of milliseconds.

- **Reminder evaluator.** A minute-by-minute check walks the active reminders. For each one it finds the event and compares the whole minutes left before the sale with each enabled lead time. A matching lead time shows a browser notification and, for ten minutes or less, raises an urgent in-app alert.
- **Client stores.** Two stores live in browser storage:
  - the reminder list, upserted and deleted by id;
  - the "tickets secured" flags, one entry per (event, user) pair.
- **Reminder-list hook.** It holds the reminders fetched from the server and patches the list after each create, update and delete.
- **Reminders route.** GET lists the caller's reminders, newest first. POST validates a body and keeps at most one active reminder per (user, event).
- **Events route.** The listing endpoint validates the query and filters, orders and pages the event table.
- **Time helpers:**
  - the countdown split;
  - the "time ago" buckets;
  - the two-minute send window;
  - the interval labels;
  - the browser-permission guards.
- **Calendar.** The 42-cell month grid, month navigation, same-day and same-month matching, and the month counters.
- **List pages.** The filters and sorts of the reminders page, the dashboard, the events page and the home page.
- **Reminder card and dialog.** The card's urgency and badge, and the dialog's switches and Save.
- **Route protection.** The page middleware, and the `authorized` and credentials `authorize` callbacks.

The calendar is a concrete proleptic Gregorian calendar. `Civil.MakeDate` reproduces the month and day overflow of `new Date(year, month, day)`. The time zone is a parameter, `local: Instant -> CivilDate`, which turns an instant into the local calendar date.

Parts of the source that change state step by step are modelled as classes whose methods are proved against specification functions. These are the two stores, the hook, the route database, the dialog, the calendar page and the notification provider. The rest is modelled as functions and lemmas.

Three consequences of the source, read from the code and not executed:

- The notification provider and the dashboard both call `useEvents(1, 200)` (`components/providers/notification-provider.tsx:13`, `app/dashboard/page.tsx:18`). The listing route refuses any limit above 100 with 400 (`app/api/events/route.ts:7`, `EventsApi.TwoHundredPerPageSeesNothing`). The hook's fetch then fails, its data stay null, and both see no events (`hooks/use-events.ts:40-64`). With no events the provider never runs its reminder check (`NotificationProvider.Provider.OnEventsLoaded`), and the dashboard joins no reminder (`Dashboard.JoinedWithoutEvents`).
- The listing route's `findMany` loads no related rows (`app/api/events/route.ts:46-51`), so the events it sends carry no `updates`. The dashboard's "Latest News" is then always empty (`Dashboard.NoUpdatesNoNews`).
- `middleware.ts:2` wraps the `auth` of `lib/auth-edge.ts`, which sets no callbacks. The `authorized` callback of `lib/auth.ts:69-81` therefore never decides a page request; the page decision is `Middleware.Decide`.

Each module corresponds to one source file:

| module | file |
|---|---|
| `NotificationProvider` | `components/providers/notification-provider.tsx` |
| `ReminderStorage` | `lib/reminder-storage.ts` |
| `EventStatusStorage` | `lib/event-status-storage.ts` |
| `UseReminders` | `hooks/use-reminders.ts` |
| `RemindersApi` | `app/api/reminders/route.ts` |
| `DateUtils` | `lib/date-utils.ts` |
| `NotificationUtils` | `lib/notification-utils.ts` |
| `CalendarGrid` | `components/calendar/calendar-grid.tsx` |
| `RemindersPage` | `app/reminders/page.tsx` |
| `Dashboard` | `app/dashboard/page.tsx` |
| `ReminderCard` | `components/reminders/reminder-card.tsx` |
| `ReminderModal` | `components/reminders/reminder-modal.tsx` |
| `EventsApi` | `app/api/events/route.ts`, and the reply handling of `hooks/use-events.ts` |
| `EventSearch` | `app/events/page.tsx` and `app/page.tsx` |
| `CalendarPage` | `app/calendar/page.tsx` |
| `Middleware` | `middleware.ts` |
| `Auth` | `lib/auth.ts` |

Supporting modules:

- `Types` holds the records of `types/index.ts`.
- `Civil` is the calendar.
- `Seqs` has filters, counts and lookups.
- `Sorting` is a stable insertion sort by key, with missing keys last.
- `Decimal` renders numbers as text.
- `Arith` holds arithmetic lemmas.
- `Wrappers` holds `Option` and `Result`.

## Model

| member | source | states |
|---|---|---|
| Types.PresaleOrTicketSale | app/dashboard/page.tsx:39-40 | The pages' sale instant is the presale date when there is one, else the ticket-sale date, and it is absent only when both are. Without a presale date it is the ticket-sale date. |
| Types.LookupEvent | components/providers/notification-provider.tsx:23 | Looking an id up in the map built from the event list finds an event with that id. With duplicate ids it finds the last one. It finds nothing exactly when no event has the id. |
| Sorting.SortByStable | app/dashboard/page.tsx:38-44 | The sort is stable: the elements with any one key appear in the output in their input order. |
| Types.SaleKey | app/reminders/page.tsx:72-78 | The sort key of a joined item is missing exactly when the event has no sale instant. Otherwise it is that instant. |
| NotificationProvider.InWindow | components/providers/notification-provider.tsx:46-47 | The window test `minutesUntil <= m && minutesUntil > m - 1` holds exactly when `minutesUntil == m`. |
| NotificationProvider.KeyMatchesIff | components/providers/notification-provider.tsx:43-48 | Among the walked lead times, a lead time produces a match exactly when its flag is set and the whole minutes left equal its length. |
| NotificationProvider.KeyMatchesFields | components/providers/notification-provider.tsx:43-49 | Every match carries the reminder, its event, and the message of its lead time, and its lead time fired. |
| NotificationProvider.KeyMatchesSound | components/providers/notification-provider.tsx:43 | Every match's lead time is one of the lead times walked. |
| NotificationProvider.KeyMatchesComplete | components/providers/notification-provider.tsx:43-48 | A walked lead time whose flag is set and whose window holds the minutes left produces a match. |
| NotificationProvider.KeyMatchesUnrolled | components/providers/notification-provider.tsx:36-41 | The lead times are walked in the order two hours, one hour, thirty minutes, ten minutes. |
| NotificationProvider.ReminderMatchesIff | components/providers/notification-provider.tsx:25-48 | A lead time of a reminder fires exactly when all of these hold: the reminder is active, its event is loaded, the lead time's flag is set, and `floor(((ticketSaleDate or else date) - now) / 60000)` equals its minutes. Each match carries the loaded event and its message. |
| NotificationProvider.AtMostOneMatchPerReminder | components/providers/notification-provider.tsx:36-48 | A reminder produces at most one match per check, because the lead times differ. |
| NotificationProvider.NoFlagsNeverFires | components/providers/notification-provider.tsx:45 | A reminder with every interval flag off never produces a match. |
| NotificationProvider.WindowInMilliseconds | components/providers/notification-provider.tsx:32-33 | Lead time `m` fires while the time left is at least `m` minutes and under `m + 1` minutes. |
| NotificationProvider.Messages | components/providers/notification-provider.tsx:49 | The four alert texts are "Ticket sale starts in 2 hours!", "... 1 hour!", "... 30 minutes!" and "... 10 minutes!". |
| NotificationProvider.TagsDistinct | components/providers/notification-provider.tsx:59 | Tags `reminder-<id>-<key>` of different reminders or of different lead times never collide, since lead-time names contain no `-`. |
| NotificationProvider.TagParts | components/providers/notification-provider.tsx:59 | A tag is `reminder-`, then the id, then `-`, then the lead time's name. |
| NotificationProvider.DispatchesSpec | components/providers/notification-provider.tsx:52-64 | A notification is shown only for a match whose reminder has browser push on, only while permission is granted, and only where constructing a notification does not throw. It carries the event title, the match's message and the match's tag. With permission granted and construction succeeding, every push-enabled match is shown. |
| NotificationProvider.DispatchesCount | components/providers/notification-provider.tsx:52-55 | With permission granted and construction succeeding, the number shown equals the number of push-enabled matches. Otherwise none is shown. |
| NotificationProvider.DispatchesContent | components/providers/notification-provider.tsx:56-59 | Every notification shown comes from a push-enabled match and carries that match's event title, message and tag. |
| NotificationProvider.AfterMatchesIsLastUrgent | components/providers/notification-provider.tsx:68-71 | After a check, the urgent alert is that of the last match of ten minutes or less. With no such match it is the prior alert. |
| NotificationProvider.OneHourScenario | components/providers/notification-provider.tsx:31-48 | A sale 60.5 minutes away, with the default flags, gives exactly one match: the one-hour match. |
| NotificationProvider.OneHourTick | components/providers/notification-provider.tsx:49-71 | In that scenario, with push on and permission granted, one notification is shown with the one-hour message and tag `reminder-<id>-oneHour`, and the alert is untouched. |
| NotificationProvider.AlreadyCrossedScenario | components/providers/notification-provider.tsx:44-48 | A sale nine minutes away, for a reminder with only the ten-minute flag, fires nothing. |
| NotificationProvider.Notify | components/providers/notification-provider.tsx:52-64 | The dispatch step shows the match's notification exactly when push is on, permission is granted and constructing the notification does not throw. It shows nothing otherwise. |
| NotificationProvider.Provider.constructor | components/providers/notification-provider.tsx:11-12 | The provider starts with no urgent event and an empty message. |
| NotificationProvider.Provider.CheckInterval | components/providers/notification-provider.tsx:44-71 | One lead time's dispatches and new alert are those of its match, if it fires. |
| NotificationProvider.Provider.CheckIntervals | components/providers/notification-provider.tsx:43-73 | The loop over the four lead times shows the dispatches of their matches and leaves the alert those matches produce. |
| NotificationProvider.Provider.CheckReminder | components/providers/notification-provider.tsx:25-73 | One reminder is skipped unless it is active and its event is loaded. Otherwise its lead times are checked. |
| NotificationProvider.Provider.CheckReminders | components/providers/notification-provider.tsx:20-75 | One check produces exactly the outcome of the tick function: the notifications shown and the new alert. |
| NotificationProvider.Provider.OnEventsLoaded | components/providers/notification-provider.tsx:16-17 | With no events loaded nothing is checked and the alert is unchanged. Otherwise one check runs. |
| NotificationProvider.Provider.OnOpenChange | components/providers/notification-provider.tsx:92-97 | Closing the alert clears both the event and the message. Opening it changes nothing. |
| ReminderStorage.UpsertSpec | lib/reminder-storage.ts:27-30 | After a save, exactly one entry has the reminder's id: the reminder itself, in last place. The other entries are the old entries with other ids, in their old order. The length is the old length, less the entries with that id, plus one. |
| ReminderStorage.RemoveIdSpec | lib/reminder-storage.ts:40-42 | A delete keeps exactly the entries with other ids, in order. The length drops by the number of entries with the id. An absent id leaves the list unchanged. |
| ReminderStorage.UserIdOrDefault | lib/reminder-storage.ts:77 | A missing or empty user id falls back to `default-user`. |
| ReminderStorage.CreateReminder | lib/reminder-storage.ts:53-71 | `createReminder` builds an active reminder for the event with the default user, the intervals one hour and ten minutes, and browser push. It stores nothing. |
| ReminderStorage.BuildReminder | lib/reminder-storage.ts:73-89 | `addReminder` builds its reminder from the options and falls back to the defaults for each missing one. The status is active. |
| ReminderStorage.AddDefaultsAreCreateDefaults | lib/reminder-storage.ts:53-89 | With no options given, `addReminder` builds the same reminder as `createReminder`. |
| ReminderStorage.ReminderStore.constructor | lib/reminder-storage.ts:3 | The store holds the contents of its storage key. |
| ReminderStorage.ReminderStore.GetReminderByEventId | lib/reminder-storage.ts:48-51 | The result is the first stored reminder for the event that is active. It is nothing exactly when there is none. |
| ReminderStorage.ReminderStore.SaveReminder | lib/reminder-storage.ts:5-34 | In a browser the stored list becomes the upsert of the reminder, and reading the list back gives that upsert. Outside a browser nothing changes. |
| ReminderStorage.ReminderStore.DeleteReminder | lib/reminder-storage.ts:36-46 | In a browser the stored list loses the entries with the id, and reading it back gives that list. Outside a browser nothing changes. |
| ReminderStorage.ReminderStore.AddReminder | lib/reminder-storage.ts:73-94 | Builds the reminder from the options and the defaults, saves it, and returns it. In a browser, reading the list back gives the upsert of that reminder. |
| EventStatusStorage.FindPair | lib/event-status-storage.ts:25-28 | The result is the first entry for the (event, user) pair, or nothing when the pair has no entry. |
| EventStatusStorage.PutSpec | lib/event-status-storage.ts:34-45 | A pair without an entry gets the saved status appended, and the length grows by one exactly then. Otherwise only the pair's first entry is overwritten in place; any later entry for the pair stays. Entries for other pairs keep their places. A lookup of the pair finds the saved entry. |
| EventStatusStorage.PutKeepsUnique | lib/event-status-storage.ts:35-43 | If no pair occurs twice before a save, none occurs twice after it. |
| EventStatusStorage.RemovePairSpec | lib/event-status-storage.ts:67-72 | A delete removes exactly the pair's entries and keeps the rest in order. The length drops by the number of the pair's entries. |
| EventStatusStorage.SecuredAfterPut | lib/event-status-storage.ts:51-61 | Reading the flag back after recording it gives the flag recorded. |
| EventStatusStorage.NotSecuredWithoutEntry | lib/event-status-storage.ts:78-81 | With no entry for the pair, the flag reads false. |
| EventStatusStorage.EventStatusStore.constructor | lib/event-status-storage.ts:5 | The store holds the contents of its storage key. |
| EventStatusStorage.EventStatusStore.SaveEventStatus | lib/event-status-storage.ts:30-49 | In a browser the stored list becomes the put of the status, and reading it back gives that list. Outside a browser nothing changes. |
| EventStatusStorage.EventStatusStore.UpdateTicketsSecured | lib/event-status-storage.ts:51-61 | Saves a fresh status with the flag and the time for the pair, and returns it. |
| EventStatusStorage.EventStatusStore.DeleteEventStatus | lib/event-status-storage.ts:63-76 | In a browser the pair's entries are removed, and reading the list back gives what remains. Outside a browser nothing changes. |
| UseReminders.Normalize | hooks/use-reminders.ts:18-23 | Normalising changes only the creation time, which is parsed from its text. |
| UseReminders.NormalizeSerialize | hooks/use-reminders.ts:18-23 | When the date text parses back, normalising the serialised reminder gives the reminder back. |
| UseReminders.ApplyCreated | hooks/use-reminders.ts:72-77 | After a create, the created reminder is first. |
| UseReminders.ApplyCreatedSpec | hooks/use-reminders.ts:72-77 | After the head, the list holds no active reminder for the created reminder's event. It holds every other old item, and keeps the old order. Its length is one plus the old length, less the active reminders for that event. |
| UseReminders.ApplyUpdated | hooks/use-reminders.ts:94 | After an update, the length is unchanged. Each item with the id is replaced and every other item stays in place. |
| UseReminders.ApplyUpdatedAbsent | hooks/use-reminders.ts:94 | Updating an id that is not in the list changes nothing. |
| UseReminders.ApplyRemovedSpec | hooks/use-reminders.ts:108 | A delete drops exactly the items with the id and keeps the others in order. |
| UseReminders.ErrorText | hooks/use-reminders.ts:67-68 | A failed call reports the server's error message, or the fallback when the body has none. |
| UseReminders.RemindersHook.constructor | hooks/use-reminders.ts:26-28 | The hook starts with an empty list, loading, and no error. |
| UseReminders.RemindersHook.FetchReminders | hooks/use-reminders.ts:30-53 | A 401 empties the list. An ok list body replaces the list with the normalised items. A failed request, a non-ok status or a body that is not a list records an error and keeps the list. Loading ends in every case. |
| UseReminders.RemindersHook.CreateReminder | hooks/use-reminders.ts:59-79 | On success the list becomes the created-list transform, and the created reminder is returned. On failure the list is unchanged and the error text is returned. |
| UseReminders.RemindersHook.UpdateReminder | hooks/use-reminders.ts:81-96 | On success every item with the id is replaced. On failure the list is unchanged. |
| UseReminders.RemindersHook.RemoveReminder | hooks/use-reminders.ts:98-109 | On success the items with the id are dropped. On failure the list is unchanged. |
| RemindersApi.MemberSpec | app/api/reminders/route.ts:69 | A JSON object member is found exactly when the object has a member under that key. Non-objects have none. |
| RemindersApi.ParseIntervals | app/api/reminders/route.ts:6-11 | An interval object is accepted exactly when its four members are booleans, and it is read back as those booleans. |
| RemindersApi.ParseMethods | app/api/reminders/route.ts:13-16 | A method object is accepted exactly when its two members are booleans, and it is read back as those booleans. |
| RemindersApi.ParseCreate | app/api/reminders/route.ts:18-22 | A create body is accepted exactly when its event id is a non-empty string and both flag objects are accepted. The input then holds that event id and the two parsed flag objects. |
| RemindersApi.ParseIntervalsJson | app/api/reminders/route.ts:6-11 | The interval object the client sends is read back as sent. |
| RemindersApi.IntervalsJsonMember | app/api/reminders/route.ts:6-11 | The interval object sends each switch once, under its own name. |
| RemindersApi.ParseMethodsJson | app/api/reminders/route.ts:13-16 | The method object the client sends is read back as sent. |
| RemindersApi.ParseCreateBody | app/api/reminders/route.ts:18-22 | Every client body with a non-empty event id is accepted as sent. There is no rule requiring at least one flag. |
| RemindersApi.AllFlagsOffAccepted | app/api/reminders/route.ts:18-22 | A body with every interval and every method off is accepted. |
| RemindersApi.EmptyEventIdRefused | app/api/reminders/route.ts:19 | A body with an empty event id is refused. |
| RemindersApi.CurrentUserId | app/api/reminders/route.ts:24-37 | No session email, or an empty one, gives no user. Otherwise the result is the user found by that email. |
| RemindersApi.UpsertSpec | app/api/reminders/route.ts:88-137 | A POST that finds an active row for the pair answers 200. It overwrites the first such row in place, keeping its id and creation time and setting its update time to now. Otherwise it answers 201 and appends one row with the fresh id, created and updated now. Either way the answered row is active and has the requested flags, and no other row changes. |
| RemindersApi.UpsertKeepsActiveUnique | app/api/reminders/route.ts:88-137 | POST keeps at most one active reminder per (user, event). |
| RemindersApi.ReminderDb.constructor | app/api/reminders/route.ts:79-82 | The database holds the reminder rows and the ids of the events table that POST looks up. |
| RemindersApi.ReminderDb.Get | app/api/reminders/route.ts:39-66 | Without a user the answer is 401. Otherwise it is 200 with exactly the caller's rows, newest first. The rows do not change. |
| RemindersApi.ReminderDb.Post | app/api/reminders/route.ts:68-146 | The answers, in order of the checks: 401 without a user; 500 for a body that is not JSON; 400 for a body the schema refuses; 404 for an unknown event. Only a body that passes every check reaches the upsert and changes the rows. |
| RemindersApi.ReminderDb.Store | app/api/reminders/route.ts:88-137 | The rows become the upsert's rows, and the answer is the upsert's answer. |
| DateUtils.GetTimeUntil | lib/date-utils.ts:50-70 | Once the target has passed, every field is zero. Before that, `total` is the time left and the hours are in 0..23. The minutes and seconds are in 0..59. Days, hours, minutes, seconds and the leftover milliseconds add back up to the time left. |
| DateUtils.RelativeTimeBuckets | lib/date-utils.ts:21-48 | Under a minute, including the future, is "just now". Under an hour is whole minutes, and under a day is whole hours. Exactly one whole day is "yesterday", and under a week is whole days. From seven days on, the full date is shown. |
| DateUtils.UpcomingPastExclusive | lib/date-utils.ts:72-78 | No instant is both upcoming and past. An instant is neither exactly when it is now. |
| NotificationUtils.GetNotificationPermission | lib/notification-utils.ts:19-24 | Without the notification API the permission is "denied". "Granted" is reported only when the platform grants it. |
| NotificationUtils.RequestNotificationPermission | lib/notification-utils.ts:27-56 | The user is prompted exactly when the API exists and the permission is still undecided. Otherwise the current permission is returned. A failed prompt counts as "denied". |
| NotificationUtils.SendBrowserNotification | lib/notification-utils.ts:59-91 | A notification is shown exactly when the permission is granted and constructing it does not throw. It has the given title, body, tag and click target. Its icon is the given one when that is non-empty, and the app icon otherwise. It has the app badge and requires interaction. |
| NotificationUtils.ShouldSendWindow | lib/notification-utils.ts:125-135 | The whole minutes left are within two of the interval exactly when the time left runs from two minutes before the interval up to, but not including, three minutes after it. |
| NotificationUtils.FormatMinutes | lib/notification-utils.ts:138-141 | Below 60 minutes, the label is the minute count in decimal. It is the singular "1 minute" exactly for one minute. |
| NotificationUtils.FormatHours | lib/notification-utils.ts:138-144 | From 60 minutes on, the label is the whole hours rounded down. It is the singular "1 hour" exactly below 120 minutes. |
| NotificationUtils.FormatExamples | lib/notification-utils.ts:138-144 | 90 minutes reads "1 hour", 45 reads "45 minutes", and 1 reads "1 minute". |
| Civil.DayZeroOfNextMonth | components/calendar/calendar-grid.tsx:35 | Day 0 of the following month is the last day of this month. |
| CalendarGrid.GetDaysInMonth | components/calendar/calendar-grid.tsx:32-36 | The result is the Gregorian length of the month, leap Februaries included. |
| CalendarGrid.GetFirstDayOfMonth | components/calendar/calendar-grid.tsx:38-42 | The result is the weekday of the first of the month, from 0 for Sunday to 6. |
| CalendarGrid.CalendarDays | components/calendar/calendar-grid.tsx:55-82 | The three loops build exactly the grid specification. |
| CalendarGrid.PreviousMonthTail | components/calendar/calendar-grid.tsx:61-69 | The first loop pushes one cell per weekday before the first of the month. Each cell is the grid's cell at its position. |
| CalendarGrid.AppendCurrentMonth | components/calendar/calendar-grid.tsx:71-75 | The second loop appends the month's days. The cells so far are the grid's first `first + daysInMonth` cells. |
| CalendarGrid.AppendNextMonthHead | components/calendar/calendar-grid.tsx:77-82 | The third loop fills the grid up to exactly 42 cells. |
| CalendarGrid.LeadingCell | components/calendar/calendar-grid.tsx:62-68 | A leading cell is day `prevMonthDays - i` of the previous month and is not marked current. |
| CalendarGrid.MiddleCell | components/calendar/calendar-grid.tsx:72-74 | A middle cell is day `day` of the current month and is marked current. |
| CalendarGrid.TrailingCell | components/calendar/calendar-grid.tsx:79-81 | A trailing cell is day `day` of the next month and is not marked current. |
| CalendarGrid.GridSegments | components/calendar/calendar-grid.tsx:55-82 | The grid has 42 cells in three segments. The first `firstDayOfMonth` cells are the previous month's last days in ascending order. Next come days 1 to `daysInMonth` of the month. The rest are the next month's days from 1. Only the middle segment is marked current. |
| CalendarGrid.GridCurrentMonth | components/calendar/calendar-grid.tsx:68-81 | Every cell is a valid date. A cell is marked current exactly when it lies in the displayed month. |
| CalendarGrid.GridConsecutive | components/calendar/calendar-grid.tsx:55-82 | The cells are consecutive days. Cell `i` is `i - firstDayOfMonth` days after the first of the month. |
| CalendarGrid.GridWeekdays | components/calendar/calendar-grid.tsx:55-82 | Cell `i` falls on weekday `i % 7`, so every column of the grid is one weekday. |
| CalendarGrid.GetEventsForDate | components/calendar/calendar-grid.tsx:44-53 | The result keeps exactly the events dated on the same local year, month and day, in their order, one for each such event. |
| CalendarGrid.IsSelected | components/calendar/calendar-grid.tsx:93-100 | With no selected date the result is false. Otherwise it is true exactly for the same day. |
| CalendarGrid.CellDots | components/calendar/calendar-grid.tsx:163-177 | A cell shows one dot for each of at most the first three events of its day. A dot is green when tickets are secured, else inverted on the selected day, else plain. |
| RemindersPage.KeptSpec | app/reminders/page.tsx:39-70 | The kept items are exactly the reminders whose event is loaded and passes the filters, each paired with that event, one item for each such reminder. |
| RemindersPage.FilterRemindersSpec | app/reminders/page.tsx:35-79 | For whatever reminders it is given (the page passes the active ones), the list holds exactly those that meet all of these: the event is loaded; it has a presale or ticket-sale date; the date is in the future unless past sales are shown; the category matches; the date is inside the time window. There is one item for each such reminder, and the list is ascending by that date. |
| RemindersPage.PastSwitchIrrelevantWithWindow | app/reminders/page.tsx:52-70 | With any window but "all", the show-past switch makes no difference, because past sales fail the window. |
| RemindersPage.StatsOrdered | app/reminders/page.tsx:176-208 | "Next 24h" never exceeds "This Week", and "This Week" never exceeds the number listed. The number listed never exceeds "Total Active". "Completed" counts over all reminders, not only the active ones. |
| Dashboard.JoinedSpec | app/dashboard/page.tsx:31-37 | The joined items are exactly the active reminders with a loaded event, each paired with that event, one item for each such reminder. |
| Dashboard.ReminderEventsSpec | app/dashboard/page.tsx:31-44 | `reminderEvents` is a permutation of the joined items. It is ascending by sale date, and items without a sale date come after every item with one. |
| Dashboard.JoinedWithoutEvents | app/dashboard/page.tsx:31-37 | With no events loaded, no reminder is joined. |
| Dashboard.UpcomingSalesSpec | app/dashboard/page.tsx:46-52 | An upcoming sale has a sale date at most 168 hours ahead, with no lower bound. The upcoming sales keep the `reminderEvents` order, and every qualifying item is among them. Their number, shown under "This Week", is the count of qualifying items. |
| Dashboard.PastSaleIsUpcoming | app/dashboard/page.tsx:46-52 | A sale that has already started counts as upcoming. |
| Dashboard.ShownSales | app/dashboard/page.tsx:107 | The dashboard shows the first three upcoming sales, or all of them when there are fewer. |
| Dashboard.LatestNewsSpec | app/dashboard/page.tsx:54-59 | `latestNews` has at most five updates, newest first. They are taken from the events' updates without repetition: their multiset is contained in that of all updates. No update left out is newer than one shown. |
| Dashboard.NoUpdatesNoNews | app/dashboard/page.tsx:54-59 | When no event carries updates, as with the events the listing route sends, `latestNews` is empty. |
| ReminderCard.RenderCard | components/reminders/reminder-card.tsx:27-28 | A card is rendered exactly when the event has a presale or ticket-sale date, and the presale date takes precedence. |
| ReminderCard.UrgencyLevel | components/reminders/reminder-card.tsx:30-38 | Two hours or less is urgent, past sales included. A day or less is soon, and anything later is normal. |
| ReminderCard.UrgencyMonotone | components/reminders/reminder-card.tsx:30-38 | Urgency grows as the sale nears, and a past sale is urgent. |
| ReminderCard.DaysRoundedUp | components/reminders/reminder-card.tsx:120 | The days badge is the time left in whole days, rounded up. |
| ReminderCard.NormalBadgeAtLeastTwoDays | components/reminders/reminder-card.tsx:118-120 | A normal-urgency badge counts at least two days. |
| ReminderCard.BadgeText | components/reminders/reminder-card.tsx:118-120 | The badge text for each urgency level: the fire text for urgent, the fixed "Sale in 2 Days" for soon, and the rounded-up days for normal. |
| ReminderCard.SaleLabel | components/reminders/reminder-card.tsx:126 | The label is "Presale Access" exactly when there is a presale date, else "Ticket Sale". |
| ReminderModal.FlipInterval | components/reminders/reminder-modal.tsx:47-52 | An interval toggle flips exactly the chosen switch. |
| ReminderModal.FlipMethod | components/reminders/reminder-modal.tsx:54-59 | A method toggle flips exactly the chosen switch. |
| ReminderModal.FlipIntervalTwice | components/reminders/reminder-modal.tsx:47-52 | Toggling the same interval switch twice restores the settings. |
| ReminderModal.FlipIntervalCommutes | components/reminders/reminder-modal.tsx:47-52 | Toggling two interval switches gives the same result in either order. |
| ReminderModal.FlipMethodTwice | components/reminders/reminder-modal.tsx:54-59 | Toggling the same method switch twice restores the settings. |
| ReminderModal.CanSaveIff | components/reminders/reminder-modal.tsx:81-83 | Saving is allowed exactly when some interval switch and some method switch are on. |
| ReminderModal.DefaultsCanSave | components/reminders/reminder-modal.tsx:33-43 | The dialog opens with settings it can save. |
| ReminderModal.FlipLastIntervalDisablesSave | components/reminders/reminder-modal.tsx:47-52 | Switching off the only enabled interval disables Save. |
| ReminderModal.Modal.constructor | components/reminders/reminder-modal.tsx:33-45 | The dialog opens with the intervals one hour and ten minutes, browser push, and no save running. |
| ReminderModal.Modal.ToggleInterval | components/reminders/reminder-modal.tsx:47-52 | The intervals become their flip. Nothing else in the dialog changes. |
| ReminderModal.Modal.ToggleMethod | components/reminders/reminder-modal.tsx:54-59 | The methods become their flip. Nothing else in the dialog changes. |
| ReminderModal.Modal.HandleSave | components/reminders/reminder-modal.tsx:61-79 | Saving stores the `addReminder` result for the event with the current switches, returns it, and closes the dialog with no save running. |
| ReminderModal.Modal.Close | components/reminders/reminder-modal.tsx:201 | Cancel closes the dialog and leaves the switches unchanged. |
| EventsApi.PositiveParam | app/api/events/route.ts:6-7 | A missing parameter takes its default. A non-integer is refused. An integer is accepted exactly when it is positive and at most the maximum, and it is kept as given. |
| EventsApi.ParseQuery | app/api/events/route.ts:5-11 | The query is valid exactly when the page is a positive integer and the limit is an integer in 1..100, each or missing. The page defaults to 1 and the limit to 10, and the text filters are kept as given. |
| EventsApi.SkipStartsPage | app/api/events/route.ts:20 | A page starts at a multiple of the limit. |
| EventsApi.Pages | app/api/events/route.ts:67 | The page count is `ceil(total / limit)`, and it is 0 for no rows. |
| EventsApi.PageNonEmptyIff | app/api/events/route.ts:20 | A page holds some row exactly when its number is at most the page count. |
| EventsApi.NoFiltersMatchAll | app/api/events/route.ts:25-40 | Without any filter, every row matches. |
| EventsApi.NullArtistNeverMatches | app/api/events/route.ts:33-39 | A row with no artist can match a search only through its title, venue or location. |
| EventsApi.Ordered | app/api/events/route.ts:46-50 | The matching rows are ordered by date ascending. |
| EventsApi.OrderedMembers | app/api/events/route.ts:46-50 | A row is in the ordered result exactly when it is in the table and matches. |
| EventsApi.PageRows | app/api/events/route.ts:46-51 | A page has at most `limit` rows, each a matching row, in date order. |
| EventsApi.RowOnItsPage | app/api/events/route.ts:20 | The row at position `q * limit + k` of the order is row `k` of page `q + 1`, and that page is within the page count. |
| EventsApi.IsoOrNull | app/api/events/route.ts:58-59 | An absent sale date is serialised as null. A present one is serialised as its ISO text. |
| EventsApi.Serialize | app/api/events/route.ts:53-59 | A serialised row keeps the id, title, artist, venue, location, category, image, description, ticket link and status. Its date becomes ISO text and its sale dates become ISO text or null. |
| EventsApi.LimitAboveHundredRefused | app/api/events/route.ts:7 | A limit above 100 is answered with 400, whatever the other parameters. |
| EventsApi.FetchedEvents | hooks/use-events.ts:40-64 | A reply that is not OK leaves the caller with no events. An OK reply gives its events. |
| EventsApi.TwoHundredPerPageSeesNothing | components/providers/notification-provider.tsx:13-14 | The request for page 1 with 200 events is answered with 400, so its caller sees no events. |
| EventsApi.Get | app/api/events/route.ts:13-78 | An invalid query answers 400. Otherwise the answer lists the page's rows, serialised, at most `limit` of them. The pagination gives the page, the limit, the number of matching rows and the page count. |
| EventSearch.CategoryParam | app/events/page.tsx:31 | Category "all" sends no category. Any other category sends its name. |
| EventSearch.SearchParam | app/events/page.tsx:32 | An empty search box sends no search. |
| EventSearch.PageFilters | app/page.tsx:28-31 | The pages send the category and the search, and no status. |
| EventSearch.ClientFilter | app/events/page.tsx:35-44 | Without data the list is empty, and an empty query returns the fetched events. Otherwise an event is kept exactly when the lower-cased "title artist location" contains the lower-cased query. The number kept, shown as "N events found", is the count of such events. |
| EventSearch.ClientFilterIsSubseq | app/page.tsx:33-42 | The search keeps the order of the fetched events and only removes some of them. |
| EventSearch.QueryCaseIgnored | app/page.tsx:39-40 | Letter case in the query makes no difference. |
| EventSearch.VenueOnlyMatchDropped | app/page.tsx:39 | An event the endpoint returns for its venue alone is dropped again by the page's search, since the venue is not searched there. |
| EventSearch.ReminderEventIds | app/events/page.tsx:46-49 | The set is exactly the event ids of the active reminders. |
| CalendarPage.MonthAfter | app/calendar/page.tsx:32-34 | Moving some months away lands on the first of the month, with the year rolling over. |
| CalendarPage.MonthChangeRoundTrip | app/calendar/page.tsx:32-34 | Going forward and back by the same number of months lands on the first of the starting month. |
| CalendarPage.DecemberRollsOver | app/calendar/page.tsx:32-34 | One month forward from December is January of the next year. |
| CalendarPage.JanuaryRollsBack | app/calendar/page.tsx:32-34 | One month back from January is December of the previous year. |
| CalendarPage.ChangeMonth | app/calendar/page.tsx:27-36 | Nothing changes before the page is initialised. An increment of 0 resets to today. Any other increment moves to the first of the month that many months away. |
| CalendarPage.MonthEvents | app/calendar/page.tsx:178-184 | The events counted are exactly those dated in the displayed month and year, one for each such event. |
| CalendarPage.MonthSales | app/calendar/page.tsx:190-197 | The sales counted are exactly the events whose presale or ticket-sale date falls in the displayed month. Events without a sale date never count. There is one for each such event. |
| CalendarPage.Page.constructor | app/calendar/page.tsx:15-16 | The month and the selected day start unset. |
| CalendarPage.Page.Initialize | app/calendar/page.tsx:21-25 | After mounting, both the month and the selected day are today. |
| CalendarPage.Page.OnEventsLoaded | app/calendar/page.tsx:19 | The events are the fetched events, or none without data. |
| CalendarPage.Page.HandleMonthChange | app/calendar/page.tsx:27-36 | The month becomes the month-change result. The selected day is unchanged. |
| CalendarPage.Page.SelectDate | app/calendar/page.tsx:69 | Clicking a day selects it. |
| CalendarPage.Page.SelectedEvents | app/calendar/page.tsx:38-48 | With no selected day the list is empty. Otherwise it holds exactly the events on that day, in fetch order, one for each. |
| CalendarPage.Page.TotalEvents | app/calendar/page.tsx:173-184 | No count is shown before initialisation. Otherwise the count is the number of events dated in the displayed month. |
| CalendarPage.Page.TicketSales | app/calendar/page.tsx:173-197 | No count is shown before initialisation. Otherwise the count is the number of events whose sale date falls in the displayed month. |
| Middleware.Decide | middleware.ts:6-24 | A signed-out request for a protected path redirects to `/login` with `callbackUrl` set to the path plus the query. A signed-in request for a `/login` or `/register` path redirects to `/dashboard`. Everything else passes through. |
| Middleware.AuthPagesUnprotected | middleware.ts:4-9 | A sign-in or registration path is never protected. |
| Middleware.RedirectsSettle | middleware.ts:12-21 | Following either redirect passes through. |
| Middleware.ProtectedNeedsSignIn | middleware.ts:12-16 | A signed-in user reaches every protected page, and a signed-out user reaches none. |
| Auth.Authorized | lib/auth.ts:69-81 | A request is refused exactly when its path starts with one of `/dashboard`, `/reminders`, `/api/reminders` or the literal `/api/events/*/status` and no user is signed in. |
| Auth.GuardsCompared | lib/auth.ts:69-81 | A signed-in user passes `authorized` on every path. For a signed-out user, compared with the page middleware (middleware.ts:4-23): `/dashboard` and `/reminders` paths are refused by both; `/api/reminders` and `/api/events/*/status` paths are refused by `authorized` while the middleware passes them through; `/events` and `/calendar` paths are redirected to sign-in by the middleware while `authorized` lets them through. |
| Auth.StarIsLiteral | lib/auth.ts:74 | The starred prefix is compared literally, so a concrete event-status path is let through without a user. |
| Auth.EventsGuardedOnlyByMiddleware | lib/auth.ts:71-74 | `/events` is guarded by the page middleware but not by `authorized`. |
| Auth.Authorize | lib/auth.ts:29-54 | A user is returned exactly when all of these hold: email and password are present, the user exists, the user has a password hash, and the comparison succeeds. The result is the user's id, email and name. |
| Auth.NoPasswordNoUser | lib/auth.ts:30-32 | Without a password no lookup result signs the user in. |

## Left out

- **Timers.** The one-minute `setInterval` of the provider is not modelled (`components/providers/notification-provider.tsx:81-83`). Each check is one call with `now` as a parameter. `scheduleNotification`'s timer (`lib/notification-utils.ts:94-101`) is left out.
- **Console, toasts and the simulated 500 ms save delay.** These are effects without decisions (`lib/notification-utils.ts:104-122`, `components/reminders/reminder-modal.tsx:65`).
- **The window focus and navigation** of a notification click are left out. Only the target path is kept.
- **Locale formatting.** `formatDate`, `formatTime` and `formatDateTime` are locale formatting. The full-date bucket of `formatRelativeTime` is rendered through a parameter.
- **Time zones.** The local calendar date of an instant is a parameter, because the time zone is not modelled.
- **Case folding** is ASCII only. Non-ASCII case mapping and Unicode normalisation are not modelled.
- **Oracles.** The clock, generated ids, `Math.random`, database ids and the text form of dates are parameters. So are the session lookup, the user lookup and the bcrypt comparison.
- **NextAuth, OAuth providers and the middleware matcher configuration.** These are library plumbing (`middleware.ts:26-35`). Only the decision functions are modelled.
- **The URL encoding of `callbackUrl`.** The model keeps the unencoded path plus query.
- **Requests, loading flags and `useEvents`.** Fetches, loading state, and the conversion of the wire events back into dates are not modelled. The pages receive their event list as a value. The outcome of the 200-event request is modelled by `EventsApi.TwoHundredPerPageSeesNothing`.
- **Query-string coercion.** `z.coerce.number()` is modelled by its outcome: a missing value, an integer, or a non-integer.
- **Validation messages.** The texts of the zod messages are left out. Only the 400 answer is kept.
- **Database failures.** Exceptions other than validation (the 500 answers) are left out. The exception is the reminders POST's unparsable body, which is modelled.
- **Row order for ties.** Rows with equal dates keep table order in the model, whereas the database gives no such guarantee.
- **`createdAt` and `updatedAt`** of events are not part of the event record, so the listing's ISO forms of them are not modelled.
- **The reminders page sort.** Its comparator is inconsistent for two items without a sale date. Such items never reach the sort, because the filter drops them.
- **Dashboard sort.** The dashboard sort uses the same comparator. The model's stable sort keeps items without a sale date in input order, after all dated items.
- **The card's two clock reads.** The urgency level and the days badge each read the clock. The model uses one `now` for both.
- RemindersPage.PageStats: uses one `now` for the "This Week" and "Next 24h" counters and the filter, whereas the page reads `Date.now()` again for each counter (`app/reminders/page.tsx:186`, `app/reminders/page.tsx:197`).
- **Failed storage writes.** A `localStorage.setItem` that throws is caught and logged, leaving the old contents (`lib/reminder-storage.ts:26-33`, `lib/reminder-storage.ts:39-45`, `lib/event-status-storage.ts:33-48`, `lib/event-status-storage.ts:66-75`). The model's writes always succeed.
- Civil.MakeDate: does not model that `new Date(year, month, day)` reads a year from 0 to 99 as 1900 plus that year. Every year is taken as written.
- **Pages and routes outside the listed files.** Event detail, reminder settings, login, registration, the per-id reminder routes, the session routes and the seed data are not part of this model.
- **Rendering.** Markup, styling and icons are not modelled.
