# lbv-checker, modelled in Dafny

lbv-checker watches the appointment site of the Berlin vehicle registration
office (LBV) for free slots and tells Telegram users about them. It does this
several times over, in code paths that grew side by side:

- a Selenium script clicks through the booking pages (browser_manager/browser.py).
  On the location page it counts the "auswählen" buttons, reads each slot's date,
  and alerts or quietly refreshes each subscribed chat according to that chat's
  preferred date window;
- a simpler page scan (bot/browser.py) serves a `/check` command bot (bot/bot.py);
- the availability ladders and the calendar check of the two `BookingChecker`
  classes (selenium/actions.py, browser_manager/actions.py);
- `SlotChecker` (core/slot_checker.py) polls the calendar at randomised intervals
  and decides between an alert and a status update;
- the history file and the six-hour quiet period for negative notices
  (booking_monitor.py);
- two Telegram bots: telegram_bot/bot.py with its error budget, and
  telegram/bot.py with its scheduler thread. Both parse Russian and English
  commands and run the monitoring loop;
- the Telegram helpers (utils/notification.py). They truncate and split captions
  and remember the last message of each chat so they can edit it in place;
- the retrying `NotificationManager` (core/notifications.py), `retry_on_exception`
  (utils/helpers.py), the `.env` loading and validation (config/config.py), and
  date parsing with the window test (utils/date_utils.py).

Each Python module is a Dafny module of its own:

| Dafny module | file | Python |
|---|---|---|
| `Common` | common.dfy | the Python built-ins the code relies on: `randint`, `str.lower`, `str.strip`, `str.replace`, slicing, `str.join`, the one-second and five-second stop-polling sleeps, and a digit test that stands for `str.isdigit` and the `\d` of `re` restricted to the ASCII digits |
| `DateUtils` | date_utils.dfy | utils/date_utils.py |
| `BookingMonitor` | booking_monitor.dfy | booking_monitor.py |
| `SlotChecker` | slot_checker.dfy | core/slot_checker.py |
| `SlotScan` | slot_scan.dfy | bot/browser.py |
| `BrowserManager` | browser_manager.dfy | browser_manager/browser.py |
| `BookingActions` | booking_actions.dfy | selenium/actions.py, browser_manager/actions.py |
| `Notification` | notification.dfy | utils/notification.py |
| `NotificationManager` | notification_manager.dfy | core/notifications.py |
| `MonitorBot` | monitor_bot.dfy | telegram_bot/bot.py |
| `SchedulerBot` | scheduler_bot.dfy | telegram/bot.py |
| `AppointmentBot` | appointment_bot.dfy | bot/bot.py |
| `Helpers` | helpers.dfy | utils/helpers.py |
| `Config` | config.dfy | config/config.py |

How the world outside the process is modelled:

- **The browser.** Whatever the browser finds is an observation datatype passed in as a parameter: which buttons are displayed and enabled, what a row's text says, which `data-date` attributes are present, which wait times out, and which call raises.
- **Telegram.** A send or an edit is a response parameter. The message a bot sends is a value in a returned event sequence.
- **Files and the database.** The JSON files and the database handler become fields of a class (`BookingFiles`, `MessageRegistry`, `ChatRegistry`, the bots' `checkingStatus`). A flag parameter says whether the read or write succeeded.
- **Clocks.** `datetime.now()` is a parameter: microseconds since 0001-01-01 00:00. A parsed date stands for its midnight.
- **Randomness.** `random.randint(a, b)` is `RandInt(a, b, draw)`, which maps any draw into `[a, b]` and reaches every value there.
- **Loops.** Each `while True`/`while not stop_event.is_set()` loop becomes a method. It runs over a finite sequence of rounds that carry their observations. A stop from another thread is a per-round field: the tick of the interruptible wait at which the flag is seen.
- **Python exceptions.** These are modelled as values. `Option` or a result datatype carries the error text, and the model takes the branch the `except` clause takes.

Every loop in the code is a Dafny `method` with a `while` loop. Each method is proved against a recursive specification function (`Monitor`, `Sched`, `Run`, `RunNotices`, `RunFiles`, `HistoryAfter`, `Hunt`, `ScanDates`, `ActiveDates`, `ChatActions`, `Env`). The properties the code promises are lemmas about those functions.

Where the code and the project's description of its intended design disagree, the model follows the code:

- **Dates that do not parse.** When every date fails to parse, `check_if_dates_in_range` answers `False`, not the fail-open `True` the design describes. An empty date list and an unknown range still answer `True` (`DateUtils.NothingParsesGivesFalse`, `DateUtils.EmptyListMatchesByDefault`).
- **What the quiet period measures.** The six-hour period of booking_monitor.py runs from the last notification of any kind, positive ones included. A positive result is always sent.
- **Failure budgets.**
  - Only telegram_bot/bot.py has one. Its failure notice goes out when the loop comes round after the third consecutive failure and its 30-second back-off.
  - A failed `save_check_result` counts as a failure, even though the browser run succeeded.
  - telegram/bot.py retries every 60 seconds for ever. core/slot_checker.py has no counter at all.
- **Stopping.** A stop only sets flags. No handler waits for the monitoring thread to end, and one `is_checking` flag per bot, not one per subscriber, says whether a monitor runs.
- **A missing calendar.** `wait_for_element` of core/browser.py raises on a timeout, so `SlotChecker._check_availability` never returns `(False, [])` for a missing calendar. The model turns that case into a `SlotCheckException` and an error notice.

## Model

| member | source | states |
|---|---|---|
| `Common.RandInt` | booking_monitor.py:133 | a drawn interval always lies within the inclusive bounds of `randint` |
| `Common.RandIntCovers` | booking_monitor.py:133 | every value of the inclusive range can be drawn |
| `Common.WaitTicks` | telegram_bot/bot.py:391-394 | the interruptible wait sleeps the full time unless a stop is seen first, and then ends at the tick where it is seen |
| `DateUtils.ParseDate` | utils/date_utils.py:5-20 | a parsed date is a valid calendar date and the input was exactly ten characters long |
| `DateUtils.ParseDateSound` | utils/date_utils.py:8-14 | whatever parses is the `DD.MM.YYYY` or `YYYY-MM-DD` spelling of the date it yields |
| `DateUtils.ParseDateComplete` | utils/date_utils.py:8-14 | every valid date in either spelling parses back to itself |
| `DateUtils.TrailingCharactersRejected` | utils/date_utils.py:9-14 | the prefix match does not let trailing characters through, because `strptime` rejects them |
| `DateUtils.AnyInWindow` | utils/date_utils.py:54-63 | the scan answers true exactly when some date parses and falls in the inclusive window |
| `DateUtils.CheckIfDatesInRange` | utils/date_utils.py:22-63 | an empty list, `any` or an unknown range match; otherwise the answer is true exactly when some date lies between now and now plus 7, 14 or 31 days |
| `DateUtils.NothingParsesGivesFalse` | utils/date_utils.py:53-63 | when no date parses, a known range does not match |
| `DateUtils.AddingDatesKeepsMatch` | utils/date_utils.py:54-60 | one matching date is enough, wherever more dates are added |
| `DateUtils.EmptyListMatchesByDefault` | utils/date_utils.py:33-34 | no dates match by default, but an unparseable date does not |
| `DateUtils.WideningKeepsMatch` | utils/date_utils.py:40-46 | a match for a week is one for two weeks, and that is one for a month |
| `DateUtils.TodayMatchesOnlyAtMidnight` | utils/date_utils.py:36-58 | today's date is in the window only when now is exactly midnight, since the comparison is against the current time |
| `DateUtils.LastDayOfWindowMatches` | utils/date_utils.py:41-58 | the window's end is inclusive: the date `days` later matches at midnight |
| `DateUtils.WeekExample` | utils/date_utils.py:22-63 | example: 15.03.2025 lies in the week from 10 March 2025 and 15.04.2025 does not |
| `BookingMonitor.CapHistory` | booking_monitor.py:39-41 | at most 100 entries are kept, and they are the newest ones |
| `BookingMonitor.SaveKeepsNewestEntries` | booking_monitor.py:32-41 | after a save, the new entry is the last of at most 100, preceded by the newest of the old ones |
| `BookingMonitor.ShouldSendNotification` | booking_monitor.py:51-73 | a positive result is always sent, as is any result when there is no record or the record is unreadable; a negative one is sent only six hours or more after the last notice |
| `BookingMonitor.NextLastNotice` | booking_monitor.py:102-113 | the recorded time changes only when a notice went out and its time was written, and then it is now |
| `BookingMonitor.NoticesAreChecks` | booking_monitor.py:102-113 | every notice comes from a check |
| `BookingMonitor.NegativeNoticesSpaced` | booking_monitor.py:51-86 | over chronological checks whose times are written, any two notices of which the later is negative are at least six hours apart |
| `BookingMonitor.PositiveChecksAlwaysNotify` | booking_monitor.py:53-55 | every positive check yields a notice |
| `BookingMonitor.BookingFiles.constructor` | booking_monitor.py:17-22 | no history and no notification record |
| `BookingMonitor.BookingFiles.SaveBookingStatus` | booking_monitor.py:24-49 | a stored status is appended and the history capped; a failed write leaves the history as it was and answers `False` |
| `BookingMonitor.BookingFiles.SaveNotificationTime` | booking_monitor.py:75-86 | the record becomes now exactly when the write succeeds |
| `BookingMonitor.BookingFiles.CheckBookingAvailabilityAsWritten` | booking_monitor.py:88-121 | as written: whenever a notice is due, the one-argument send raises and the time is never recorded |
| `BookingMonitor.BookingFiles.CheckBookingAvailability` | booking_monitor.py:88-121 | corrected: the result is returned, the history updated, the notice text sent exactly when due, and its time recorded |
| `BookingMonitor.AsWrittenNeverRecordsTime` | booking_monitor.py:112-113 | example: with no record, a negative check is due for a notice, and so is one a second later |
| `BookingMonitor.CorrectedSuppressesSecondNegative` | booking_monitor.py:59-68 | example: with the send corrected, a second negative check one second after the first is not notified |
| `BookingMonitor.PauseAfter` | booking_monitor.py:133-143 | 120-240 seconds after a check, 60 seconds after an error |
| `BookingMonitor.MonitorRoundAsWritten` | booking_monitor.py:128-144 | as written: one round's pause is 60 seconds when its check raises, the send's `TypeError` included, and a `randint(120, 240)` draw otherwise; the record stays as it was |
| `BookingMonitor.RunMonitoringAsWritten` | booking_monitor.py:123-144 | as written: every round's pause is the one its outcome calls for, so 60 seconds whenever a notice is due; the notice record never changes and the history takes every stored check |
| `BookingMonitor.AsWrittenRestartsEveryMinute` | booking_monitor.py:102-144 | as written, with no record or an unreadable one, every round ends in an exception and the 60-second restart |
| `BookingMonitor.RunNoticesAreNotices` | booking_monitor.py:88-137 | round by round, the loop sends exactly the notices the quiet-period rule lets through among the rounds' checks, and leaves the record those checks leave |
| `BookingMonitor.MonitorRound` | booking_monitor.py:128-144 | corrected: one round's pause, notice text and files are those the round's check calls for |
| `BookingMonitor.RunMonitoring` | booking_monitor.py:123-144 | corrected: one pause per round, 60 seconds after a probe exception and 120-240 seconds after a check; the notices sent are the texts of the quiet-period fold over the rounds' checks, to which `NegativeNoticesSpaced` applies; record and history end as the checks leave them |
| `SlotChecker.ActiveDates` | core/slot_checker.py:102-109 | the non-empty `data-date` values of the active days, each of them and no other |
| `SlotChecker.CalendarResult` | core/slot_checker.py:80-113 | a missing calendar is an error; otherwise slots are available exactly when some active day has a date |
| `SlotChecker.CheckAvailability` | core/slot_checker.py:80-113 | the loop over the active days gives the calendar's result |
| `SlotChecker.CheckDatesInRange` | core/slot_checker.py:115-122 | it is the window test of utils/date_utils.py |
| `SlotChecker.GetRangeText` | core/slot_checker.py:168-176 | one of four labels, with the "any period" label for every range it does not know |
| `SlotChecker.GetRandomDelay` | core/slot_checker.py:178-181 | the delay is within 60 seconds of the check interval |
| `SlotChecker.StatusText` | core/slot_checker.py:145-166 | a status always starts with the status header, and names dates exactly when there are some |
| `SlotChecker.Decide` | core/slot_checker.py:36-63 | alert exactly when slots are available and match the range; update with dates when they do not match; update with no slots otherwise |
| `SlotChecker.OutOfRangeUpdateNamesDates` | core/slot_checker.py:43-63 | alerts are never silenced, and out-of-range slots produce a status update naming their dates |
| `SlotChecker.EmptyCalendarIsSilent` | core/slot_checker.py:58-63 | a calendar without dates gives a status update that names no dates |
| `SlotChecker.RunHasNoFailureCap` | core/slot_checker.py:31-72 | corrected: every round produces one action, a failed one an error notice, with no limit on failures |
| `SlotChecker.AsWrittenAgreesWithoutErrors` | core/slot_checker.py:25-74 | while no check fails, the loop as written does what the corrected one does |
| `SlotChecker.AsWrittenStopsAtFirstError` | core/slot_checker.py:64-67 | as written: the first failed check ends monitoring with an `AttributeError` |
| `SlotChecker.SlotMonitor.constructor` | core/slot_checker.py:19-23 | no stop requested |
| `SlotChecker.SlotMonitor.StopMonitoring` | core/slot_checker.py:76-78 | a stop is requested |
| `SlotChecker.SlotMonitor.CheckRound` | core/slot_checker.py:30-63 | one round's action is the action its calendar calls for |
| `SlotChecker.SlotMonitor.StartMonitoring` | core/slot_checker.py:25-74 | corrected: the actions are the run over the rounds, an error round giving an error notice and the loop going on, and every delay stays within 60 seconds of the interval |
| `SlotScan.FindDate` | bot/browser.py:86 | the leftmost position at which a `DD.MM.YYYY` pattern starts |
| `SlotScan.FirstDateMatch` | bot/browser.py:86-88 | the date found is the leftmost ten-character match, or there is none anywhere |
| `SlotScan.DateAfterLabelFound` | bot/browser.py:83-88 | after a label without digits, the first date in the row text is the one found |
| `SlotScan.ClickableCount` | bot/browser.py:79-80 | the clickable buttons are never more than the buttons |
| `SlotScan.DatesBoundedByClickable` | bot/browser.py:77-91 | there are never more dates than clickable buttons, and every date is a `DD.MM.YYYY` string |
| `SlotScan.UnreadableRowStillCounts` | bot/browser.py:80-91 | a clickable button whose row cannot be read still counts, and adds no date |
| `SlotScan.ScanButtons` | bot/browser.py:77-91 | the loop counts the clickable buttons and collects their dates in page order |
| `SlotScan.CheckSlots` | bot/browser.py:68-102 | slots are found exactly when a button is clickable; the message lists the dates, else the count, else says none, or carries the error |
| `BrowserManager.TruncateStepName` | browser_manager/browser.py:142-143 | only an error step name longer than 100 characters is cut, to its first 100 characters plus the suffix |
| `BrowserManager.TruncateStepNameIdempotent` | browser_manager/browser.py:142-143 | cutting twice is cutting once |
| `BrowserManager.RouteFor` | browser_manager/browser.py:160-166 | a chat's screenshot is edited in place exactly when an integer-keyed message id is stored for it |
| `BrowserManager.StringKeysNeverEdited` | browser_manager/browser.py:160-166 | with only the string keys loaded from file, every chat gets a new photo, and only the chats sent to get integer keys |
| `BrowserManager.TakeScreenshotAndUpdate` | browser_manager/browser.py:138-171 | the caption is the truncated step name; without a screenshot nothing is sent; otherwise each chat is routed in order and the registry updated |
| `BrowserManager.IsPreferred` | browser_manager/browser.py:442-448 | no dates, or the `any` range, always count as preferred |
| `BrowserManager.PreferenceRulesAgree` | browser_manager/browser.py:442-448 | the preference test is the window test of core/slot_checker.py |
| `BrowserManager.NoPreferenceMeansAlert` | browser_manager/browser.py:436-492 | a chat with no stored preference gets an alert |
| `BrowserManager.ActionsStayWithChats` | browser_manager/browser.py:436-492 | at most one action per chat, and only for the chats given |
| `BrowserManager.RefreshAll` | browser_manager/browser.py:495-509 | one status refresh per chat, in order |
| `BrowserManager.ChatActionFor` | browser_manager/browser.py:438-492 | a chat whose preference lookup raised gets no action; every other chat gets exactly one, addressed to it, and a chat with no stored preference gets the alert |
| `BrowserManager.ActionForChat` | browser_manager/browser.py:438-492 | one pass of the per-chat loop yields exactly the action `ChatActionFor` specifies |
| `BrowserManager.NotifyChats` | browser_manager/browser.py:436-492 | the loop over the chats yields the actions the preferences call for |
| `BrowserManager.CheckSlotsOnLocationPage` | browser_manager/browser.py:397-509 | slots are found exactly when a button is clickable; then each chat is alerted or refreshed; otherwise every chat gets the no-slots or error status |
| `BrowserManager.FirstFailure` | browser_manager/browser.py:196-387 | the first failing step of 4 to 12, all earlier ones having succeeded |
| `BrowserManager.RunSteps` | browser_manager/browser.py:215-380 | steps 4 to 12 stop at the first failing step, the one `FirstFailure` finds, whose error caption is the last one posted; no caption posted is long enough to be cut |
| `BrowserManager.RunFromModal` | browser_manager/browser.py:201-380 | from step 3 on: a failing step ends the run with its message and no chat action; otherwise the location page decides: the slot summary and per-chat actions when found, else the no-slots or error message with a status refresh for every chat |
| `BrowserManager.RunSideScript` | browser_manager/browser.py:173-391 | no driver, a failure in steps 1-2 or the first failing step of 4-12 ends the run with `False`, its message and no chat action; otherwise the location page decides, with the found, no-slots and error messages and actions of `CheckSlotsOnLocationPage`, for the given chats or those on file |
| `BookingActions.Present` | selenium/actions.py:152-153 | the present `data-date` values, each of them and no other |
| `BookingActions.FirstNone` | selenium/actions.py:96-98 | the first day with no `data-date`, if any |
| `BookingActions.CheckAvailability` | selenium/actions.py:74-115 | the banner means `False`; an empty calendar means `False`; a calendar whose days all carry dates means `True` with the dates listed; a missing `data-date` makes `join` raise, giving `None`; no calendar defers to the dates element |
| `BookingActions.BannerHidesRest` | selenium/actions.py:81-86 | with the no-slots banner shown, nothing else on the page matters and the answer is negative |
| `BookingActions.ListedDatesAreTheDays` | selenium/actions.py:95-98 | a positive answer lists exactly the active days' dates |
| `BookingActions.SelectService` | browser_manager/actions.py:38-53 | the service is selected only by the class that stores its service type, and only when the button becomes clickable |
| `BookingActions.ManagerNeverSelectsService` | browser_manager/actions.py:10-12 | the class of browser_manager/actions.py never stores `service_type`, so selecting always fails |
| `BookingActions.FillForm` | selenium/actions.py:41-72 | the form counts as filled only when all four elements are found and nothing raises |
| `BookingActions.PerformFullCheck` | selenium/actions.py:117-132 | the steps run in order up to the first failure, which gives its own message and `None`; the ladder runs only after all three succeed |
| `BookingActions.FullCheckReachesLadder` | selenium/actions.py:117-129 | the page is inspected exactly when all three steps succeed, and a positive answer needs a positive ladder |
| `BookingActions.CheckCalendar` | selenium/actions.py:134-164 | an undefined selector table gives the `NameError` message; a positive answer needs a loaded calendar with days, and lists their dates |
| `BookingActions.CalendarCheckAlwaysNameError` | selenium/actions.py:139 | as written: the calendar check never finds slots and always reports the `NameError` |
| `BookingActions.ConfigSelectorsLackCalendar` | config/config.py:59-69 | even the table of config/config.py lacks `calendar_container`, so importing it would give a `KeyError` |
| `BookingActions.CalendarListsPresentDates` | selenium/actions.py:136-162 | corrected: a timeout is reported; a loaded calendar is positive exactly when it has active days, and lists exactly their present dates |
| `Notification.TruncateMessage` | utils/notification.py:77-83 | short or empty text is unchanged; longer text becomes a prefix of itself followed by the truncation mark |
| `Notification.TruncateIdempotent` | utils/notification.py:77-83 | a truncated caption fits the limit and truncating it again changes nothing |
| `Notification.SplitCaption` | utils/notification.py:121-124 | the parts concatenate to the caption, each is non-empty and at most 4000 characters, and there are as many as the length requires |
| `Notification.TruncatedCaptionIsOnePart` | utils/notification.py:89-124 | a caption truncated to the photo limit is always sent as a single text part |
| `Notification.LoadChatIds` | utils/notification.py:187-197 | the stored list, or no chats when the file is missing, unreadable or has no list |
| `Notification.KeysNeverCollide` | utils/notification.py:209-220 | an id stored under an integer key never equals one loaded under a string key |
| `Notification.MessageRegistry.constructor` | utils/notification.py:12-13 | no message ids are known |
| `Notification.MessageRegistry.SendTelegramNotification` | utils/notification.py:15-61 | the sent message's id is returned, and remembered under the chat's string key only when a screenshot went with it |
| `Notification.MessageRegistry.SendPhotoWithCaption` | utils/notification.py:85-131 | success as the response and the text fallback decide; the id is stored only for an accepted photo; on the "caption is too long" fallback a non-empty caption is posted as one text part, the truncated caption, and on every other path no text is posted |
| `Notification.MessageRegistry.UpdateMessageWithPhoto` | utils/notification.py:148-185 | an accepted edit succeeds unchanged; a too-long caption falls back to a new photo; every other failure changes nothing |
| `Notification.MessageRegistry.LoadLastMessageIds` | utils/notification.py:209-220 | a readable file replaces the registry with its entries under string keys; otherwise nothing changes |
| `Notification.MessageRegistry.UpdateLastMessage` | utils/notification.py:222-289 | with no stored id a new message is sent; with one, an edit is tried and a new message sent on failure; the chat's key is stored exactly when a screenshot went out with a sent message |
| `NotificationManager.NotificationManager.constructor` | core/notifications.py:15-17 | no message ids, and the configured attempts and delay |
| `NotificationManager.NotificationManager.SendNotification` | core/notifications.py:19-52 | success exactly when one of the allowed attempts returns a truthy value, stopping at the first; a sleep follows every failed attempt but the last |
| `NotificationManager.NotificationManager.UpdateMessage` | core/notifications.py:54-84 | an unknown chat gets a fresh send; a known one an edit, whose raising counts as failure |
| `NotificationManager.NotificationManager.SaveMessageId` | core/notifications.py:86-88 | exactly the chat's entry is set |
| `NotificationManager.NotificationManager.SendThenUpdate` | core/notifications.py:19-62 | since sending never stores an id, an update after a send is always a second send |
| `Helpers.RetryOnException` | utils/helpers.py:14-39 | at most `max_attempts` calls, all failed but the last with a retried exception; the first value is returned, or the last exception raised; one sleep between calls |
| `MonitorBot.Normalise` | telegram_bot/bot.py:360-363 | a pair is taken as it is; anything else is a negative result with the unknown-result message |
| `MonitorBot.Failures` | telegram_bot/bot.py:396-399 | failed rounds are never more than the rounds |
| `MonitorBot.FailureNoticeIsLast` | telegram_bot/bot.py:341-349 | the failure notice, if sent, ends the run |
| `MonitorBot.FailureNeedsFailedRounds` | telegram_bot/bot.py:341-399 | the failure notice needs at least three failures in total |
| `MonitorBot.ThreeFailuresEndRun` | telegram_bot/bot.py:341-399 | three failures in a row give three back-offs and then the notice |
| `MonitorBot.StartedNoticeAtMostOnce` | telegram_bot/bot.py:374-381 | the "monitoring started" notice goes out at most once, and never once the first run is over |
| `MonitorBot.StartedNoticeFollowsFirstSave` | telegram_bot/bot.py:366-381 | the started notice comes right after the first saved result |
| `MonitorBot.ShortWaitEndsRun` | telegram_bot/bot.py:388-394 | waits never exceed 420 seconds, and one shorter than 240 ends the run |
| `MonitorBot.SuccessForgetsEarlierErrors` | telegram_bot/bot.py:366 | after a saved result, the earlier error count no longer matters |
| `MonitorBot.CheckRound` | telegram_bot/bot.py:340-399 | one round's events, error count and first-run flag are those the round calls for |
| `MonitorBot.CommandWordListsDisjoint` | telegram_bot/bot.py:120-130 | no word belongs to two commands, so the order of the tests does not matter |
| `MonitorBot.Classify` | telegram_bot/bot.py:108-142 | a message is a command exactly when its lower-cased, stripped text is one of that command's words |
| `MonitorBot.ClassifyIgnoresCase` | telegram_bot/bot.py:108 | case does not change the command |
| `MonitorBot.ClassifyIgnoresLeadingBlank` | telegram_bot/bot.py:108 | leading whitespace does not change the command |
| `MonitorBot.NormaliseRange` | telegram_bot/bot.py:281-296 | a known range is kept, and anything else becomes `any` |
| `MonitorBot.KeyboardRangesRoundTrip` | telegram_bot/bot.py:240-279 | every keyboard button's data gives back its range, even with the prefix doubled, since `replace` removes every copy |
| `MonitorBot.TelegramBot.constructor` | telegram_bot/bot.py:14-23 | not checking, no stop, no stored state |
| `MonitorBot.TelegramBot.StopChecking` | telegram_bot/bot.py:150-163 | a running check is stopped and the stop signalled; a second stop only replies that it is already stopped |
| `MonitorBot.TelegramBot.RunBackgroundMonitoring` | telegram_bot/bot.py:223-236 | while a check runs, only a refusal; otherwise the range prompt, and the user is marked as starting |
| `MonitorBot.TelegramBot.HandleMessage` | telegram_bot/bot.py:105-148 | each command's replies and state change, with the state left alone by every other command; a stop while idle leaves the stop signal as it was |
| `MonitorBot.TelegramBot.MonitoringThread` | telegram_bot/bot.py:322-403 | the thread's events are the run over the rounds, and at the end the flag is down and the chat's status cleared |
| `MonitorBot.TelegramBot.StartMonitoringWithRange` | telegram_bot/bot.py:309-320 | a previous stop is cleared, and the whole run follows |
| `MonitorBot.TelegramBot.ButtonCallback` | telegram_bot/bot.py:269-307 | a range button edits the message, stores the normalised range and runs the monitor; any other data changes nothing |
| `SchedulerBot.StartedReply` | telegram/bot.py:133 | the interval is shown in whole minutes |
| `SchedulerBot.Classify` | telegram/bot.py:90-114 | exactly the four Russian words, lower-cased and stripped, are commands |
| `SchedulerBot.ClassifyIgnoresSurroundingBlanks` | telegram/bot.py:90 | a leading space and a trailing newline do not change the command |
| `SchedulerBot.PauseTicks` | telegram/bot.py:281-285 | the pause is polled in five-second ticks covering 120-240 seconds |
| `SchedulerBot.AsWrittenNeverNotifies` | telegram/bot.py:263-274 | as written: no notification ever goes out and the time is never recorded |
| `SchedulerBot.AsWrittenRetriesEveryMinute` | telegram/bot.py:263-292 | as written: with no record, every check ends in the send error and a one-minute retry |
| `SchedulerBot.CorrectedSecondNegativeSilent` | telegram/bot.py:260-288 | example, corrected: a second negative check one second later is not notified |
| `SchedulerBot.CorrectedNoticesFollowRule` | telegram/bot.py:247-294 | corrected: the loop's notices are exactly those the quiet-period rule lets through among its checks, up to the round in which a stop arrives |
| `SchedulerBot.CorrectedNegativeNoticesSpaced` | telegram/bot.py:260-288 | corrected: over chronological checks whose times are written, a negative notice of the loop comes six hours or more after every earlier notice and after the one on record |
| `SchedulerBot.ErrorsNeverEndLoop` | telegram/bot.py:290-292 | with no stop, every round completes, errors included: the loop has no failure cap |
| `SchedulerBot.PausesAreBounded` | telegram/bot.py:281-288 | pauses are multiples of five seconds up to 240, and a short one ends the run |
| `SchedulerBot.TelegramBot.constructor` | telegram/bot.py:12-21 | not checking, no stop, empty logs |
| `SchedulerBot.TelegramBot.StartChecking` | telegram/bot.py:116-134 | a check is started unless one runs, and the reply says which |
| `SchedulerBot.TelegramBot.StopChecking` | telegram/bot.py:138-149 | a running check is stopped and the stop signalled; a second stop only replies |
| `SchedulerBot.TelegramBot.RunBackgroundMonitoring` | telegram/bot.py:228-245 | while a check runs, only a reply; otherwise monitoring starts and the user is marked as checking |
| `SchedulerBot.TelegramBot.ExecuteCommand` | telegram/bot.py:98-114 | each command's effect, with the fields it does not touch unchanged and the stop signal left alone by a stop while idle; the check command raises, because the method it calls does not exist |
| `SchedulerBot.TelegramBot.HandleMessage` | telegram/bot.py:88-114 | users outside a non-empty allowlist are refused with no change; otherwise the command's effect, with the same unchanged fields as `ExecuteCommand` |
| `SchedulerBot.TelegramBot.SendAvailabilityNotification` | telegram/bot.py:193-215 | one log entry per active user in order, and delivery exactly to the reachable ones |
| `SchedulerBot.TelegramBot.PerformCheck` | telegram/bot.py:168-191 | a check is logged; a positive one keeps the old notification log as a prefix and appends one entry per active user, in order, and reaches exactly the reachable ones; a negative one or an error only to the requester |
| `SchedulerBot.TelegramBot.CheckNow` | telegram/bot.py:158-166 | the requester first hears that the check is under way, then gets its answer |
| `SchedulerBot.TelegramBot.MonitorRound` | telegram/bot.py:249-292 | one round's events and file state are those the round calls for |
| `SchedulerBot.TelegramBot.MonitoringThread` | telegram/bot.py:247-294 | the thread's events are the run over the rounds up to the stop, the files end as that run leaves them, and the flag is down |
| `AppointmentBot.HuntSleepsThenReplies` | bot/bot.py:47-69 | the loop sleeps a minute after every page without slots, and its only message ends it |
| `AppointmentBot.HuntFindsFirstSlots` | bot/bot.py:47-63 | the first page with slots is reported after one sleep per earlier page |
| `AppointmentBot.AppointmentBot.constructor` | bot/bot.py:15-22 | not checking and no driver |
| `AppointmentBot.AppointmentBot.StopCommand` | bot/bot.py:77-91 | a running check is stopped and its driver closed; otherwise a refusal or nothing |
| `AppointmentBot.AppointmentBot.CheckCommand` | bot/bot.py:33-75 | a second start is refused; otherwise the hunt runs, and whichever way it ends the flag is down and the driver closed once |
| `Config.ClassifyLine` | config/config.py:14-18 | blank and comment lines are skipped; a line without `=` is malformed; otherwise it splits at the first `=` |
| `Config.ReadEnvFile` | config/config.py:10-21 | a missing file gives no variables; otherwise the loop's result is the fold of the classified lines |
| `Config.MalformedLineEndsReading` | config/config.py:17-21 | a line without `=` stops the reading, and later lines are lost |
| `Config.SkippedLineIgnored` | config/config.py:15-16 | blank and comment lines change nothing |
| `Config.LastEntryWins` | config/config.py:18 | a later entry for a key overrides an earlier one |
| `Config.GetEnv` | config/config.py:23-25 | the file wins over the environment, which wins over the default |
| `Config.MissingVars` | config/config.py:28-37 | exactly the required names whose value is empty or absent |
| `Config.MissingVarsKeepsOrder` | config/config.py:35 | the missing names keep the order and repetitions of the list: the names of a split list are those of its first part followed by those of its second |
| `Config.MissingVarOfOne` | config/config.py:35 | a single name is listed exactly when its value is empty or absent |
| `Config.TokenError` | config/config.py:46-52 | a token is accepted exactly when it has a `:` with a non-empty run of digits before the first one |
| `Config.HeadlessSpellings` | config/config.py:92 | example: `true`, `TRUE` and `True` turn headless mode on; `false`, `1` and `yes` do not |
| `Config.LoadedSettingsAreValid` | config/config.py:28-80 | settings load exactly when no required value is missing, the token is well formed and the email has `@` |
| `Config.ChatRegistry.constructor` | config/config.py:111 | no chat ids |
| `Config.ChatRegistry.AddChatId` | config/config.py:105-126 | a new id is appended once and the file rewritten; the list never gains a duplicate; a file error leaves it unchanged |

## Left out

- Selenium itself: element lookups, waits, clicks, scrolling, highlighting, JavaScript and screenshots. Only what they find or raise is modelled, as observations.
- The Telegram Bot API and HTTP. A send, edit or photo upload is given as its response. Markdown and HTML parse modes are not interpreted.
- Threads and their races. A stop from another handler is modelled as the round or tick at which the flag is seen. `check_thread.join(1)` and the `schedule` library loop of telegram/bot.py:217-226 are left out.
- `cmd_start`, `cmd_help`, `check_status` beyond its reply text, `error_handler`, `start`/`stop` of the bot applications, logging, Prometheus metrics, start_bot.py and main.py. These are start-up and reporting code.
- `perform_full_check` and the first `check_availability` of browser_manager/actions.py. Both only call `BrowserHandler.check_booking_availability`, which runs the script modelled by `BrowserManager.RunSideScript`.
- `run_single_check` and `perform_single_check` of telegram_bot/bot.py. The thread they start passes the wrong number of arguments, so only the replies before it are modelled.
- The `if calendar_container:` else-branch of selenium/actions.py. `find_element` returns a truthy element or raises, so that branch cannot be taken.
- The `int()` conversions of `SELENIUM_TIMEOUT` and `CHECK_INTERVAL` in config/config.py, and the defaults of config/settings.py. They are parameters here.
- Time zones and daylight saving. Times are naive local microseconds.
- `Common.LowerChar`: lower-cases ASCII and basic Cyrillic only. `Common.IsSpace` knows the ASCII and Latin-1 blanks only. Other Unicode case pairs and spaces are not modelled.
- `create_project_dirs` of utils/helpers.py. It is file-system set-up.
- `BookingMonitor.RunMonitoring` and `BookingMonitor.RunMonitoringAsWritten`: the restart after an exception is a call of `run_monitoring` from inside its own `except` handler, and the call never returns. After about a thousand restarts, Python's default recursion limit, a `RecursionError` ends monitoring. The model restarts without limit. The 5-second sleep and the browser close of the `finally` block are not modelled either.
- `Common.IsDigit`: accepts the ASCII digits `0`-`9` only. Python's `\d` in `re.match` and `re.search`, `strptime`'s numeric fields and `str.isdigit` also accept other Unicode decimal digits, such as Arabic-Indic digits. So `DateUtils.ParseDate` (through `DateUtils.DayFirstPrefix` and `DateUtils.IsoPrefix`), `SlotScan.FindDate` and `Config.TokenError` reject inputs with such digits that the source accepts.
- `BrowserManager.RunSideScript`: states the last caption of a failed step and that no caption is cut, not the whole sequence of progress captions.
- `BrowserManager.RunFromModal` and `BrowserManager.RunSteps`: the same limits as `RunSideScript`; they state the last caption of a failed step and a bound on every caption, not the whole sequence.
- `SchedulerBot.TelegramBot.CheckNow`: states the first reply and the check log, not the text of the answer. That is stated by `PerformCheck`.
- `while True` loops run over a finite sequence of rounds. What happens after the last given round is not modelled.

## Findings

| source | as written | input that shows it | evidently intended | confidence | as-written member | corrected member |
|---|---|---|---|---|---|---|
| booking_monitor.py:112 | `send_telegram_notification(notification_text)` passes one argument to a function that needs `chat_id` and `message` | any check with no notification record: a notice is due, the call raises `TypeError`, `save_notification_time` never runs, and `run_monitoring` restarts after 60 s | send the notice, then record its time, so that negative notices are six hours apart | not executed; high | `BookingMonitor.BookingFiles.CheckBookingAvailabilityAsWritten` | `BookingMonitor.BookingFiles.CheckBookingAvailability` |
| telegram/bot.py:273 | the same one-argument call inside the monitoring thread | two negative checks one second apart with no record: each raises, no notice is ever sent, and the loop retries every minute | notify, record the time, and keep the second negative silent | not executed; high | `SchedulerBot.AsWrittenRetriesEveryMinute` | `SchedulerBot.CorrectedNegativeNoticesSpaced` |
| core/slot_checker.py:67 | the error path calls `self._notify_error`, which no class defines | a first round whose calendar is missing: `AttributeError` ends `start_monitoring` | send an error notice to the chat and keep monitoring | not executed; high | `SlotChecker.AsWrittenStopsAtFirstError` | `SlotChecker.RunHasNoFailureCap` |
| selenium/actions.py:139 | `SELECTORS` is used but never imported | any call of `check_calendar_availability`: `NameError`, reported as "Ошибка: name 'SELECTORS' is not defined" | look the calendar selectors up in a table that has them, and list the present dates | not executed; high | `BookingActions.CalendarCheckAlwaysNameError` | `BookingActions.CalendarListsPresentDates` |
| telegram/bot.py:105 | the "проверить" command calls `self.run_single_check`, which the class does not define | an allowed user sending "проверить": `AttributeError`, and no reply | start the single check of `check_now` | not executed; high | `SchedulerBot.TelegramBot.ExecuteCommand` | `SchedulerBot.TelegramBot.CheckNow` |
