# Doctor appointment watcher: the watch and reconcile engine

This project models the engine of the navstevalekara.sk appointment watcher. A watcher is a
doctor's profile plus a set of target dates. Every few minutes one check cycle runs:

- it works out which 7-day blocks counted from today hold a target date that is not in the
  past, and fetches the doctor's calendar page for each of those week offsets;
- it picks the bookable slots out of each page (the anchors whose `onclick` carries a
  `get_order('date', n, 'time'` call) and keeps the slots on target dates;
- it notifies the watcher's owner about the slots not yet recorded, by Telegram or by e-mail,
  and records them once the message went out;
- it forgets recorded slots that are no longer offered and stamps the check time.

The model also covers the checks run before a watcher is stored. These are the doctor code
taken from the profile URL, the target dates (deduplicated), the notification channel with its
credentials and e-mail address, and the parser of the free-text date field, which takes exact
dates or a range of week numbers.

The modules follow the program's parts:

- `Strings`: the text primitives used (ASCII `\s`, `strip`, `split`, `str(n)`, `int(...)`).
- `WeekOffsets`: `calculate_week_offsets_for_dates`.
- `SlotParser`: `parse_available_slots` and its regular expression, written as a token
  matcher with a leftmost `re.search`.
- `Notify`: the Telegram message, the e-mail subject and plain-text body, the Mailjet
  configuration check, and whether a message is sent.
- `Reconcile`: `check_watcher_job`. It is a specification function `CheckWatcher` over the two
  tables, plus a class `WatchDatabase` whose method runs the cycle step by step and is proved
  equal to it.
- `ReconcileProperties`: what one cycle and two successive cycles do to the notified-slot
  table.
- `Validation`: `extract_doctor_code`, the target-date and notification checks of
  `create_watcher`, and `parse_date_input`.

Calendar days are integers (day 0 is Thursday 1970-01-01). Parsing a `YYYY-MM-DD` text
(`strptime`) is a parameter `parseDate` that gives `None` where `strptime` raises. Formatting a
day (`strftime`) is a parameter `formatDate`. The clock, the remote calendar and the outcome of
each transport request are fields of an `Environment` value.

Two faults of the source are modelled as written and also corrected; see "## Findings". The
cycle takes a `Policy`: `AsWritten` follows the code, `Corrected` applies both corrections.

## Model

| member | source | states |
|---|---|---|
| WeekOffsets.Weekday | app.py:481 | `date.weekday()` is in 0..6 |
| WeekOffsets.MondayOf | app.py:481-482 | the Monday starting a day's week is on or before the day, less than seven days before it, and is a Monday |
| WeekOffsets.SortedElements | app.py:130 | `sorted(set)` is strictly ascending, has exactly the set's elements, and has as many entries as the set |
| WeekOffsets.CalculateWeekOffsets | app.py:108-130 | the loop gives the week-offset function's value: `None` when a date fails to parse (`strptime` raising), otherwise the sorted offsets |
| WeekOffsets.OffsetSetSnoc | app.py:115-128 | one more date adds its offset exactly when it is not in the past |
| WeekOffsets.BlockOfDistance | app.py:117-122 | floor division by 7 puts a day in block `w` exactly when it lies in the seven days starting `origin + 7w` |
| WeekOffsets.WeekOffsetsSpec | app.py:108-130 | the result is `None` iff some date does not parse; otherwise it is strictly ascending and `w` is in it iff some target date on or after today lies in the seven days starting `origin + 7w` |
| WeekOffsets.WeekOffsetsBounds | app.py:124-128 | with an origin not after today no offset is negative, and when every date is past the list is empty |
| WeekOffsets.CalendarWeekOfOffset | app.py:119-121 | counted from the Monday of the current week, offset `w` is exactly the calendar week `w` weeks after the current one |
| WeekOffsets.NextMondayCheckedOnSunday | app.py:117-122 | on a Sunday, a target on the next day gets offset 0 as written, while its calendar week is week 1 |
| WeekOffsets.SortedSingleton | app.py:130 | a one-element set sorts to that element alone |
| SlotParser.FirstMatchFrom | app.py:191 | the position `re.search` reports is a match and no earlier position from the start matches |
| SlotParser.MatchCallComplete | app.py:191 | every text of the form `get_order('date',  digits,  'time'…` with quote-free non-empty fields and whitespace runs matches, capturing that date and time |
| SlotParser.MatchCallSound | app.py:191 | every match has that form, with the captured date and time as its quoted fields |
| SlotParser.MatchImpliesCallName | app.py:188-191 | a text the pattern matches always contains `get_order`, so the containment pre-test never hides a match |
| SlotParser.ElementSlotSpec | app.py:182-202 | an element gives a slot iff it is an `a` with `href="javascript:;"` whose `onclick` the pattern matches; the slot is that match's date and time with `datetime` = date, a space, time |
| SlotParser.ParseAvailableSlots | app.py:168-204 | the two loops give every day column's slots in document order, and none for an empty page |
| SlotParser.ColumnLinkSlots | app.py:182-202 | the inner loop gives one column's slots in order |
| SlotParser.ColumnSlotsSpec | app.py:182-202 | a column gives one slot per element that yields one, each well formed and coming from an element of the column |
| SlotParser.ColumnsSlotsSpec | app.py:177-204 | a page gives one slot per slot-yielding element over all columns, each well formed and from some element |
| SlotParser.ColumnsSlotsAppend | app.py:179 | the slots of two column lists in sequence are the slots of the first followed by those of the second |
| SlotParser.ColumnSlotsAppend | app.py:184 | the same within one column |
| SlotParser.ReservedMarkerIgnored | app.py:180-182 | inserting an element that is not a booking link (a reserved `span`) into a column does not change its slots |
| Notify.SortByDatetime | app.py:219 | `sorted(slots, key=datetime)` is in ascending `datetime` order and a permutation of the slots |
| Notify.InsertByDatetime | app.py:219 | one insertion step keeps the order and adds exactly the new slot |
| Notify.AppendBullets | app.py:219-220 | the `+=` loop appends one bullet line per slot, in order |
| Notify.BuildEmailText | app.py:294-305 | the `+=` construction gives the plain-text body: heading, slot lines in `datetime` order, booking link |
| Notify.EmailTextSpec | app.py:294-305 | the body starts with the doctor name and a blank line, ends with the booking line, and lists every slot |
| Notify.EmailTextEnds | app.py:298-304 | the body's first and last parts |
| Notify.BulletsListEverySlot | app.py:301-302 | the slot list holds the line of each slot it was built from |
| Notify.SortedBulletsListEverySlot | app.py:296-302 | sorting loses no slot from the listing |
| Notify.BulletLineNamesSlot | app.py:220 | a slot's line shows its date and time |
| Notify.TelegramTextSpec | app.py:213-220 | the Telegram text starts with the Markdown doctor link and shows the date and time of every slot, for one slot and for several |
| Notify.SendTelegramNotification | app.py:207-236 | the function builds the Markdown message to the Bot API URL; success is the transport's, and an empty list sends nothing and succeeds |
| Notify.SendEmailNotification | app.py:239-279 | the function sends nothing when the list is empty (success), fails without a request when a Mailjet setting is missing, and otherwise sends subject and text body |
| Notify.EmailSubjectCount | app.py:253 | the subject opens with the slot count in decimal, followed by a space |
| Notify.EmptyListSendsNothing | app.py:209-210 | both senders succeed on an empty list without any request |
| Notify.EmailSendSpec | app.py:241-246 | with slots, a request is made iff the Mailjet settings are complete; success iff complete and the transport succeeds; the subject is the counted one |
| Notify.ValidateMailjetConfig | app.py:34-36 | Mailjet counts as configured iff the API key, the secret key and the sender address are each set and non-empty |
| Notify.MailjetConfigFrom | app.py:28-31 | the sender name defaults to "Doctor Appointment Watcher" only when the variable is unset; the other settings are read as they are |
| Reconcile.FilterTargets | app.py:341 | a slot is kept iff it is among the page's slots and its date is a target date |
| Reconcile.GatherSlots | app.py:334-342 | the fetch loop gives the target-date slots of each fetched week, week by week, each fetch made with the doctor code, the doctor URL (the `Referer`) and the week offset; a failed or empty response adds none |
| Reconcile.SelectNewSlots | app.py:345-354 | the loop gives the gathered slots that have no row yet, in order |
| Reconcile.PendingRows | app.py:379-386 | the rows to insert are exactly those of the new slots; the insert conflicts iff two new slots share date and time |
| Reconcile.AvailableKeys | app.py:391-393 | the set of `date_time` keys of the slots offered now |
| Reconcile.PruneRows | app.py:396-410 | the watcher's rows whose key is no longer offered are deleted; the others and other watchers' rows stay |
| Reconcile.RowsSnoc | app.py:379-385 | one more slot adds exactly its row |
| Reconcile.DuplicateSnoc | app.py:89 | a list gains a duplicate row exactly when its new last slot repeats an earlier one |
| Reconcile.WatchDatabase.constructor | app.py:54-90 | the tables start as given |
| Reconcile.WatchDatabase.CheckWatcherJob | app.py:309-421 | the step-by-step cycle leaves the tables in the state the cycle function gives, returning its outcome and the request it made |
| ReconcileProperties.NewSlotsSpec | app.py:345-354 | every new slot was gathered and has no row, every unrecorded gathered slot is among them, as written literally so; corrected, no two share date and time |
| ReconcileProperties.AsWrittenKeepsDuplicates | app.py:345-354 | as written, an unrecorded slot gathered twice is a new slot twice |
| ReconcileProperties.NothingNewWhenRecorded | app.py:353-357 | when every gathered slot has a row there is nothing new |
| ReconcileProperties.NewSlotsCongruent | app.py:347-351 | the new slots depend only on which gathered slots have rows |
| ReconcileProperties.GatherSpec | app.py:334-342 | every gathered slot is on a target date and well formed |
| ReconcileProperties.GatherFields | app.py:334-342 | gathering reads only the watcher's target dates, doctor code and doctor URL |
| ReconcileProperties.KeySeparator | app.py:393 | the `_` of a key follows the date when the date has none |
| ReconcileProperties.KeyInjective | app.py:393 | for underscore-free dates, equal keys mean equal date and time, and conversely |
| ReconcileProperties.CycleOutcomes | app.py:309-421 | a cycle is skipped iff the watcher is missing, inactive or has no week to fetch; a cycle that does not complete changes nothing; a request is made only with new slots; delivery iff new slots, a working transport and, for e-mail, complete Mailjet settings |
| ReconcileProperties.CycleFrame | app.py:309-421 | a cycle keeps the set of watchers, every other watcher and every other watcher's rows; a completed one changes only the check time of its watcher |
| ReconcileProperties.CycleStore | app.py:377-411 | after a completed cycle a row of the watcher remains iff its key is offered now and it was stored before or was just notified |
| ReconcileProperties.CycleRecordsOffered | app.py:377-411 | when the notification went out or nothing was new, the watcher's rows afterwards are exactly the slots offered now |
| ReconcileProperties.SecondCycleQuiet | app.py:345-388 | after such a cycle, the same calendar gives a completed cycle with nothing new, no request and the same rows |
| ReconcileProperties.FailedSendRetried | app.py:377-386 | a notification that failed is offered again with the same slots in the next cycle, and the same request when the settings are unchanged |
| ReconcileProperties.DispatchIgnoresCheckTime | app.py:361-375 | the request sent does not depend on the check time |
| ReconcileProperties.DuplicateResentAsWritten | app.py:89 | as written, a slot listed twice makes the commit fail after the message was sent; the state stays as it was, and the next cycle sends the same message again |
| ReconcileProperties.CorrectedRecordsDelivered | app.py:377-386 | corrected, a cycle fails only on an unparsable date, and every delivered slot is recorded |
| Validation.BeforeFinalNewline | app.py:436 | the text `$` anchors at is the text, or the text without one final newline |
| Validation.ExtractDoctorCode | app.py:432-439 | the only error is the fixed "must end with '-dXXX.html'" message |
| Validation.ExtractDoctorCodeSpec | app.py:432-439 | a code is found iff the URL ends with `-d`, digits and `.html` (optionally followed by one newline), and then it is exactly those digits |
| Validation.CodeBeforeHtmlSound | app.py:436 | a code found is non-empty digits, and `-d` code `.html` ends the text |
| Validation.CodeBeforeHtmlComplete | app.py:436 | a text ending in `-d` digits `.html` gives those digits |
| Validation.CodeAfterMarker | app.py:436 | the digit run after `-d` is the whole final digit run |
| Validation.ValidateTargetDates | app.py:533-545 | the loop's result equals the target-date function's value |
| Validation.FirstInvalidKept | app.py:534-542 | entries after the first invalid one do not change which one is reported |
| Validation.FirstInvalidDateSpec | app.py:534-542 | the entry reported is the first non-empty one that is not a date, and none is reported iff every non-empty entry is a date |
| Validation.DistinctSpec | app.py:539-540 | the stored dates are exactly the non-empty entries, each once |
| Validation.TargetDatesSpec | app.py:533-545 | accepted iff every non-empty entry is a date and one exists; the stored list is then the non-empty entries without repeats; the "choose at least one date" error iff every entry is empty |
| Validation.IsEmailAddressSpec | app.py:560-562 | the address check accepts exactly local part, `@`, domain, `.` and two or more letters (allowing one final newline) |
| Validation.MatchesEmailSound | app.py:560 | an accepted address splits at the first `@` and the last `.` |
| Validation.MatchesEmailComplete | app.py:560 | any such split of a text makes it accepted |
| Validation.NotificationSettingsSpec | app.py:550-562 | Telegram is accepted iff both credentials are non-empty; e-mail iff the address is non-empty and well formed; any other type is refused with its own message |
| Validation.ParseDateInput | app.py:468-500 | the function returns what the date-field function gives: the week-range days, the digit-limit error of `int`, the overflow past 9999-12-31, or the stripped lines, or the invalid-format message |
| Validation.ListWeekDays | app.py:485-488 | the nested loops list seven formatted days per week of the range, in order, and stop with the overflow error at the first day past 9999-12-31 |
| Validation.StrippedLines | app.py:491 | the comprehension gives the non-blank lines, stripped, in order |
| Validation.FindInvalidDate | app.py:494-498 | the loop stops at the first entry that is not a date |
| Validation.WeekRangeShape | app.py:476 | a stripped text is a week range iff it is two digit runs around one dash |
| Validation.TooManyDigitsSpec | app.py:477 | in a week range split at its dash, `int` refuses a number iff its digit run is longer than 4300 digits |
| Validation.WeekRangeRoundTrip | app.py:476-477 | reading back two rendered week numbers gives them |
| Validation.WeekRangeOutcomeSpec | app.py:484-488 | a week range is listed iff none of its days is past 9999-12-31, and then gives exactly its days; otherwise the error is the overflow and some day is past that date |
| Validation.WeekInputSpec | app.py:474-488 | a week-range field fails with the digit-limit error iff one of its numbers has more than 4300 digits; otherwise it succeeds iff no listed day is past 9999-12-31, giving the days from the Monday of week `start` |
| Validation.WeekRangeDatesSpec | app.py:478-488 | a range lists every day from the Monday of its first week to the Sunday of its last, consecutively, with week 0 the calendar week of today |
| Validation.NonBlankStrippedSpec | app.py:491 | no entry is blank, every entry is some line stripped, and every non-blank line is there |
| Validation.CheckedDatesSpec | app.py:493-498 | non-empty entries are kept whole when each is a date; otherwise the error names the first that is not |
| Validation.DateLinesSpec | app.py:489-500 | outside the week-range form, the field is accepted iff every non-blank line is a date once stripped, giving those lines in order; otherwise the error names the first line that is not a date |
| Strings.StripSpec | app.py:472 | `strip()` removes exactly leading and trailing whitespace |
| Strings.Split | app.py:491 | `split` gives at least one part and no part holds the separator |
| Strings.JoinSplit | app.py:491 | joining the parts back gives the text |
| Strings.NatToString | app.py:218 | `str(n)` is a non-empty run of digits without a leading zero |
| Strings.DigitsValueOfNatToString | app.py:477 | `int(str(n)) == n` |

## Left out

- The HTTP routes, the Jinja templates and the rich HTML e-mail body (`build_email_html`) are
  presentation. The model keeps the plain-text body the e-mail also carries.
- The HTTP status codes of the `create_watcher` rejections are not modelled; only their
  messages are. Every rejection raised inside its `try` block is caught by its
  `except Exception` (app.py:610-612) and answered with status 500.
- The Telegram Bot API request and the Mailjet client, with its status code and exceptions, are
  a success boolean in the environment.
- The calendar POST of `check_appointments` is the environment's `fetch` function. It takes
  the doctor code, the doctor URL (sent as the `Referer` header) and the week offset, and
  gives the parsed page or nothing. The other headers and the form fields are constants of
  the request and are not modelled.
- The model records the request a sender would hand its transport (URL, recipient, subject,
  text), not its headers.
- The HTML tokenizer (BeautifulSoup) is replaced by its result: a page is its text and the
  document-order elements of each `div.day-col`.
- `extract_doctor_name_from_page` and the doctor-name fallback built from the URL
  (`replace`, `.title()`) are not part of this model. They need the network and Unicode case
  mapping.
- `strptime` and `strftime` are the parameters `parseDate` and `formatDate`. The model does
  not check the `YYYY-MM-DD` calendar rules.
- Python's Unicode `\s`, `\d`, `str.strip` and `int` are restricted to ASCII whitespace and
  ASCII digits.
- The database engine, sessions and transactions are abstracted:
  - the two tables are a map and a set;
  - a commit is an assignment;
  - the only failing commit modelled is the unique-constraint violation of app.py:89.
- The scheduler and the process that runs cycles concurrently are not modelled. Each cycle is
  atomic here.
- The clock (`datetime.now`, `utcnow`) is a field of the environment.
- The JSON text of the stored target dates is the list itself.
- Notify.SortByDatetime: stability of Python's `sorted` is not stated. The contract says
  sorted and a permutation.
- Reconcile.WatchDatabase.CheckWatcherJob: runs the fetch loop, the new-slot loop, the insert
  loop and the pruning loop as separate methods, each proved against its own function.
- ReconcileProperties.KeyInjective: equal keys imply equal slots only when dates hold no `_`.
  The properties built on it (CycleRecordsOffered) carry that condition; dates the calendar
  reports are `YYYY-MM-DD`.
- Validation.ParseDateInput: the digit limit of `int` and the `OverflowError` of `date` past
  9999-12-31 are the error kinds `DigitLimit` and `DateOverflow`, without Python's message
  texts. No lower date bound is checked: week numbers are non-negative and today is a real
  date.
- Validation.IsEmailAddressSpec: states the pattern over the ASCII classes it names. Python's
  `re` with these explicit classes agrees.

## Findings

| source | as written | input that shows it | evidently intended | confidence | as-written member | corrected member |
|---|---|---|---|---|---|---|
| app.py:117-122 | week offset is the distance from today divided by 7, so offsets count seven-day blocks starting today | on a Sunday, a target on the next day (Monday) has distance 1 and gets offset 0; week 0 of the calendar is the current Monday-to-Sunday week, so the week holding the target is never fetched | offset 0 is the calendar week containing today, as the comment at app.py:119-121 says and as app.py:481-482 computes: count from the Monday of the current week | medium, not executed | WeekOffsets.NextMondayCheckedOnSunday | WeekOffsets.CalendarWeekOfOffset |
| app.py:345-386 | new slots are selected by one database lookup per gathered slot, so a slot listed twice is a new slot twice, and both rows are inserted | one page listing the same `get_order('2025-12-30', 2, '09:00'` link twice, not yet recorded: the message is sent, the commit fails on the unique constraint of app.py:89 and is rolled back, so the next cycle sends it again, every cycle | each new slot is notified and recorded once | low, not executed | ReconcileProperties.DuplicateResentAsWritten | ReconcileProperties.CorrectedRecordsDelivered |
