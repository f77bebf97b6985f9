# lotto-web in Dafny

This project models the front-end core of **lotto-web**, the Next.js site of a 2D lottery. The lottery runs two products:

- **Lucky Draw (LD)**: one number per bid, with a bid count.
- **Jackpot (JP)**: a combination of six numbers.

The model covers the rules the site applies itself. The backend services it calls are treated as oracles.

- **Bid page**: parses the "#"-separated number and count lists, validates the form, and manages the LD and JP carts (batch add, edit, delete, clear a date-and-slot partition). It computes totals and submits a partition in order, clearing it only when every call succeeds.
- **Reusable table**: the three-state sort cycle, a stable sort on a copy with nulls last, pagination, page clamping and header clickability.
- **Time conversions**:
  - 12- and 24-hour text in the time picker and the slot manager;
  - Malaysia (UTC+8) wall-clock to UTC instants;
  - the countdown and polling rules of the home page's Make a Bid panel;
  - the next draw time.
- **Results pages and live draws**:
  - today's winner and the history grouped by date, on the Lucky Draw and Jackpot results pages;
  - bid history rows with Winner/Lost/Pending;
  - slot choice, winning-value preview and the announce gate for live draws.
- **Access decisions**: the request middleware (refresh, redirects, role rules), the layout's navbar rule and the `app_user` cookie reader.
- **Administration and agent pages**:
  - the settings form and the draw-times store;
  - agents, commission editing, commission and winning settlement;
  - the agent wallet, the profile page and the report page with its CSV export.

Modelling conventions:

- Each source file becomes one module.
- State that a page updates in place (React state, the zustand store) becomes a `class` whose methods state the whole new state.
- Pure logic becomes functions, with lemmas about them.
- Instants are integers (milliseconds or minutes) and calendar days are abstract keys.
- Money and percentages are whole integers.
- Backend calls (`createBid`, `updateSlot`, `announceResult`, the refresh endpoint, the wallet and report services), `Date.now`, `decodeURIComponent`, `JSON.parse`, `window.confirm` and the locale formatters are parameters of the model. `TIME_SLOT` is a parameter too.

## Model

| member | source | states |
|---|---|---|
| Layout.LayoutByArea | lotto-web/components/Navigation/LayoutWrapper.tsx:15-17 | every path under /admin or /agent, and /sign-in and /sign-up, hides the navbar and footer; paths under /bid or /profile, and "/", show them |
| Layout.ExactBarePages | lotto-web/components/Navigation/LayoutWrapper.tsx:17 | the three bare pages are matched exactly: /forgot-password hides the layout, "/sign-in/" and /results do not |
| Layout.PublicPagesShowLayout | lotto-web/components/Navigation/LayoutWrapper.tsx:15-23 | every path that is neither guarded nor an auth page, other than /forgot-password, shows navbar and footer |
| GetUser.NoUser | lotto-web/utils/getUser.ts:2-8 | without a document, or when no "; "-separated row starts with "app_user=", the user is null |
| GetUser.FirstRowRead | lotto-web/utils/getUser.ts:4-15 | the first "app_user=" row is the one read; its raw value is URI-decoded then JSON-parsed, and a failure of either gives null |
| GetUser.RawValueBetweenEquals | lotto-web/utils/getUser.ts:11 | the raw value is the text between the first and the second "=" of the row |
| GetTime.SlotDates | lotto-web/components/Reusable/GetTime.tsx:8 | each listed draw time becomes the instant at that offset from today's midnight, in list order |
| GetTime.NextDrawAfterNow | lotto-web/components/Reusable/GetTime.tsx:8-17 | for a non-empty list the next draw is always strictly after now |
| GetTime.NextDrawIsSlot | lotto-web/components/Reusable/GetTime.tsx:8-15 | the answer is always one of the listed times, today or tomorrow |
| GetTime.NextDrawIsFirstAhead | lotto-web/components/Reusable/GetTime.tsx:8-11 | the answer is the first time in list order that is still ahead today |
| GetTime.NextDrawTomorrow | lotto-web/components/Reusable/GetTime.tsx:13-17 | when every time has passed the answer is the first listed time one day later |
| GetTime.ListOrderNotTimeOrder | lotto-web/components/Reusable/GetTime.tsx:11 | with an unsorted list a later time listed first is chosen over an earlier time also ahead |
| DrawTimesStore.AcceptLd | lotto-web/store/useTimeSlotStore.ts:38-42 | the LD times are the loaded list when it has exactly four entries, else the four defaults; always four |
| DrawTimesStore.AcceptJp | lotto-web/store/useTimeSlotStore.ts:45-49 | the JP time is the first loaded entry when there is one, else ["00:15"]; always one entry |
| DrawTimesStore.DrawTimes.constructor | lotto-web/store/useTimeSlotStore.ts:25-29 | the initial state holds the default LD and JP times, loading true and no error |
| DrawTimesStore.DrawTimes.BeginFetch | lotto-web/store/useTimeSlotStore.ts:32 | a fetch first sets loading and clears the error, keeping the times |
| DrawTimesStore.DrawTimes.FinishFetch | lotto-web/store/useTimeSlotStore.ts:34-64 | a loaded answer installs the validated times; a failure restores the defaults with error "Using default draw times"; loading ends false either way |
| DrawTimesStore.DrawTimes.FetchTimes | lotto-web/store/useTimeSlotStore.ts:31-66 | the whole fetch: an error is set exactly when the fetch failed, the times follow the answer or the defaults, loading ends false |
| DrawTimesStore.LdAllOrNothing | lotto-web/store/useTimeSlotStore.ts:38-42 | the LD times are never a mix: either the loaded list or the defaults, and a list of any other length gives the defaults |
| TimePicker.SplitTime24 | lotto-web/components/Reusable/TimePicker.tsx:21 | an "HH:mm" value splits on ":" into the padded hour and the minute |
| TimePicker.HourTextPad | lotto-web/components/Reusable/TimePicker.tsx:27 | an hour below 100 is shown padded to two digits |
| TimePicker.ConvertTo12HourOfTime | lotto-web/components/Reusable/TimePicker.tsx:20-31 | for "HH:mm" with HH in 00..23 the face is hour mod 12 (12 for 0), padded, the minute is passed through, and the period is PM exactly when the hour is at least 12 |
| TimePicker.MidnightAndNoon | lotto-web/components/Reusable/TimePicker.tsx:23-25 | hour 0 reads 12 AM and hour 12 reads 12 PM |
| TimePicker.HourOfFace | lotto-web/components/Reusable/TimePicker.tsx:33-39 | 12 AM gives 0, a PM face other than 12 gives face + 12, other faces are kept; the result is below 24 |
| TimePicker.ClockHourInverse | lotto-web/components/Reusable/TimePicker.tsx:20-39 | an hour read as face and period and back is the same hour |
| TimePicker.Hour12Inverse | lotto-web/components/Reusable/TimePicker.tsx:20-39 | a face and period read as an hour and back are the same face and period |
| TimePicker.ConvertTo24HourOfFace | lotto-web/components/Reusable/TimePicker.tsx:33-41 | a padded face, a minute and a period give the zero-padded "HH:mm" of the converted hour with the minute verbatim |
| TimePicker.RoundTrip24 | lotto-web/components/Reusable/TimePicker.tsx:20-41 | every "HH:mm" with HH in 00..23 survives 24h to 12h and back unchanged |
| TimePicker.RoundTrip12 | lotto-web/components/Reusable/TimePicker.tsx:20-41 | every face, minute and period chosen in the selects survives 12h to 24h and back unchanged |
| TimePicker.FormatTime12HourOfTime | lotto-web/components/Reusable/TimePicker.tsx:43-46 | the button label is "hh:mm AM" or "hh:mm PM" of the value |
| TimePicker.PicksChangeOnePart | lotto-web/components/Reusable/TimePicker.tsx:64-111 | picking an hour, a minute or a period changes that part of the value and keeps the other two |
| TimePicker.MissingMinute | lotto-web/components/Reusable/TimePicker.tsx:21-69 | a value without ":" has no minute, so picking an hour writes the converted hour with a missing minute |
| TimePicker.UndefinedMinute | lotto-web/components/Reusable/TimePicker.tsx:40 | a missing minute is written out as ":undefined" |
| TimePicker.UnparsableHour | lotto-web/components/Reusable/TimePicker.tsx:21-25 | a first field with no leading digit shows the hour "NaN" with period AM |
| ManageSlots.MalaysiaToUtcOfClock | lotto-web/components/Admin/ManageSlots/ManageSlotsContent.tsx:62-79 | the UTC instant of a Malaysian "HH:mm" on a day is that wall-clock minute less 8 hours |
| ManageSlots.MalaysiaToUtcShift | lotto-web/components/Admin/ManageSlots/ManageSlotsContent.tsx:62-79 | hours below 8 fall on the previous UTC day and the rest on the same day; the UTC clock reads hour - 8 modulo 24 with the same minutes |
| ManageSlots.MalaysiaToUtcRejects | lotto-web/components/Admin/ManageSlots/ManageSlotsContent.tsx:63-78 | a value whose hour field is not a number, or that has no minute field, yields no instant (the ISO conversion throws) |
| ManageSlots.ConvertTo24HourOfDisplay | lotto-web/components/Admin/ManageSlots/ManageSlotsContent.tsx:260-270 | "hh:mm AM/PM" becomes zero-padded "HH:mm": 12 AM gives 00, PM with an hour other than 12 adds 12, other hours are kept |
| ManageSlots.ConvertsPickerLabel | lotto-web/components/Admin/ManageSlots/ManageSlotsContent.tsx:260-270 | converting the time picker's label of an "HH:mm" value back gives that value |
| ManageSlots.ConvertTo24HourRejects | lotto-web/components/Admin/ManageSlots/ManageSlotsContent.tsx:262-269 | a display time without ":" cannot be converted (the missing minute throws) |
| ManageSlots.FiltersAreListed | lotto-web/components/Admin/ManageSlots/ManageSlotsContent.tsx:116-146 | the shown list holds exactly, with multiplicity, the slots passing the type, OPEN and day filters |
| ManageSlots.VisibleExactly | lotto-web/components/Admin/ManageSlots/ManageSlotsContent.tsx:116-140 | a slot is shown iff it is in the list, has the active type, is OPEN when "active only" is set and is on the chosen day when one is set |
| ManageSlots.VisibleNewestFirst | lotto-web/components/Admin/ManageSlots/ManageSlotsContent.tsx:142-146 | the shown list runs newest first by date and time |
| ManageSlots.FormatSlots | lotto-web/components/Admin/ManageSlots/ManageSlotsContent.tsx:165-203 | one formatted row per server slot, in order |
| ManageSlots.LoadedRows | lotto-web/components/Admin/ManageSlots/ManageSlotsContent.tsx:159-213 | a failed or non-array answer gives an empty list; otherwise one row per slot keeping id, type and status, with missing bid prize, winning prize and units read as 0 |
| ManageSlots.WithStatus | lotto-web/components/Admin/ManageSlots/ManageSlotsContent.tsx:229-233 | a status change keeps the list length |
| ManageSlots.WithStatusOnlyMatching | lotto-web/components/Admin/ManageSlots/ManageSlotsContent.tsx:229-233 | only slots whose id matches change, and only in their status |
| ManageSlots.WithStatusIdempotent | lotto-web/components/Admin/ManageSlots/ManageSlotsContent.tsx:229-233 | setting the same status twice equals setting it once |
| ManageSlots.ClosedSlotHidden | lotto-web/components/Admin/ManageSlots/ManageSlotsContent.tsx:125-127 | with "active only" on, a slot set to any status other than OPEN drops out of the shown list |
| ManageSlots.DefaultClocks | lotto-web/components/Admin/ManageSlots/ManageSlotsContent.tsx:506-517 | the default times are 12:00 with close 11:30 for LD, and 20:00 with close 19:30 for JP |
| ManageSlots.DefaultsCloseHalfHourBefore | lotto-web/components/Admin/ManageSlots/ManageSlotsContent.tsx:240-245 | both default times convert, bidding closes 30 minutes before the draw, and the draw is at 04:00 UTC for LD and 12:00 UTC for JP |
| ManageSlots.CreateRequestOf | lotto-web/components/Admin/ManageSlots/ManageSlotsContent.tsx:240-255 | the create request is sent iff both times convert, and it carries the type, both converted instants and both prizes |
| ManageSlots.EditFormOfDisplayed | lotto-web/components/Admin/ManageSlots/ManageSlotsContent.tsx:272-279 | a slot displayed with well-formed 12-hour times opens an edit form with both times back in 24-hour form and its prizes |
| ManageSlots.ManageSlotsPage.constructor | lotto-web/components/Admin/ManageSlots/ManageSlotsContent.tsx:83-110 | the page starts empty on the lucky tab, with no filters, a new LD slot at 12:00 closing 11:30, and an edit form of "00:00" times |
| ManageSlots.ManageSlotsPage.Refilter | lotto-web/components/Admin/ManageSlots/ManageSlotsContent.tsx:116-149 | the filter effect sets the shown list to the filtered and sorted slots and changes nothing else |
| ManageSlots.ManageSlotsPage.FetchSlots | lotto-web/components/Admin/ManageSlots/ManageSlotsContent.tsx:151-217 | loading replaces the slot list with the loaded rows and ends not loading |
| ManageSlots.ManageSlotsPage.HandleStatusChange | lotto-web/components/Admin/ManageSlots/ManageSlotsContent.tsx:226-238 | after a successful update only the matching slot's status changes; on an error the list is unchanged |
| ManageSlots.ManageSlotsPage.ChooseType | lotto-web/components/Admin/ManageSlots/ManageSlotsContent.tsx:506-517 | choosing a type sets the type and both default times and changes nothing else |
| ManageSlots.ManageSlotsPage.HandleEditClick | lotto-web/components/Admin/ManageSlots/ManageSlotsContent.tsx:272-282 | the clicked slot becomes the edited slot, and the dialog opens with the converted form when both times convert |
| ManageSlots.ManageSlotsPage.OpenEditDialog | lotto-web/components/Admin/ManageSlots/ManageSlotsContent.tsx:274-280 | a built form is installed and the dialog opened; nothing else changes |
| Settings.FieldsFree | lotto-web/app/admin/settings/page.tsx:29-34 | a formatted time is two ":"-free fields joined by one ":" |
| Settings.FormattedShape | lotto-web/app/admin/settings/page.tsx:29-34 | a formatted time splits on ":" into exactly its two fields ("00:00" for the empty text) |
| Settings.DropsSeconds | lotto-web/app/admin/settings/page.tsx:31-33 | "HH:mm" is kept unchanged and "HH:mm:ss" loses its seconds |
| Settings.FormatIdempotent | lotto-web/app/admin/settings/page.tsx:29-34 | formatting a time twice equals formatting it once |
| Settings.NormalizeShape | lotto-web/app/admin/settings/page.tsx:43-52 | every numeric setting becomes a number, an unreadable text becomes 0, and normalising again changes nothing |
| Settings.LoadedLdDefaults | lotto-web/app/admin/settings/page.tsx:57-63 | after a load there are exactly four LD times, each the formatted loaded entry or, when that is missing or empty, the default for its index |
| Settings.LoadedLdFormatted | lotto-web/app/admin/settings/page.tsx:57-63 | every loaded LD time is already in formatted "HH:mm" form |
| Settings.JpTimeShape | lotto-web/app/admin/settings/page.tsx:66 | a missing or empty first JP time gives "20:00", and the loaded JP time is formatted |
| Settings.LdTimeAtShape | lotto-web/app/admin/settings/page.tsx:59-62 | one LD time is formatted, and a missing or empty entry takes the default of its index |
| Settings.DefaultsFormatted | lotto-web/app/admin/settings/page.tsx:13-14 | the built-in LD and JP times are already in "HH:mm" form |
| Settings.SaveAfterLoad | lotto-web/app/admin/settings/page.tsx:98-110 | saving what was loaded sends the normalised numbers, all four LD times and exactly one JP time |
| Settings.SettingsPage.constructor | lotto-web/app/admin/settings/page.tsx:17-22 | the page starts loading, not saving, with an empty form and the default times |
| Settings.SettingsPage.FetchSettings | lotto-web/app/admin/settings/page.tsx:36-72 | a load replaces the form and both times with their normalised forms; a failure keeps them; loading ends false |
| Settings.SettingsPage.HandleLdTimeChange | lotto-web/app/admin/settings/page.tsx:81-87 | only the entry at the index changes, to the formatted value; length and everything else are kept |
| Settings.SettingsPage.HandleJpTimeChange | lotto-web/app/admin/settings/page.tsx:89-91 | the JP time becomes the formatted value and nothing else changes |
| Settings.SettingsPage.HandleSave | lotto-web/app/admin/settings/page.tsx:93-124 | the payload is built from the form and the times with one JP time; after an accepted save the settings are reloaded; saving ends false |
| DataTable.NextSort | lotto-web/components/Reusable/DataTable.tsx:51-59 | a different key sorts ascending by it; the same key while ascending turns descending; the same key while descending removes sorting |
| DataTable.NextSortCycle | lotto-web/components/Reusable/DataTable.tsx:49-60 | three clicks on a new header go ascending, descending, unsorted, and the fourth starts the cycle again |
| DataTable.BaseCompare | lotto-web/components/Reusable/DataTable.tsx:82-90 | two texts compare by localeCompare, 0 exactly when equal; any other pair compares the numeric readings of both values (a text read by Number), sign for sign, and ties when either reading is NaN |
| DataTable.DigitTextComparesByValue | lotto-web/components/Reusable/DataTable.tsx:89 | a digit text against a number compares by its decimal value in either order, so "10" sorts after 5 |
| DataTable.Compare | lotto-web/components/Reusable/DataTable.tsx:73-93 | a missing value sorts after a present one when ascending and before it when descending; two missing values are equal |
| DataTable.CompareDescNegatesAsc | lotto-web/components/Reusable/DataTable.tsx:92 | the descending comparison is exactly the negated ascending one for every pair |
| DataTable.CompareAntisymmetric | lotto-web/components/Reusable/DataTable.tsx:77-92 | swapping the arguments negates the comparison |
| DataTable.CompareAscTransitive | lotto-web/components/Reusable/DataTable.tsx:77-90 | on values of one kind the ascending comparison is transitive |
| DataTable.CompareTransitive | lotto-web/components/Reusable/DataTable.tsx:77-92 | on values of one kind the comparison is transitive in both directions |
| DataTable.RowCompareConsistent | lotto-web/components/Reusable/DataTable.tsx:68-93 | on a column without mixed kinds the row comparator is a consistent total preorder, so the sort result is defined |
| DataTable.FindColumn | lotto-web/components/Reusable/DataTable.tsx:65 | the found column is the first carrying the key; none is found only when no column has it |
| DataTable.SortedData | lotto-web/components/Reusable/DataTable.tsx:62-94 | the result is a permutation of the rows, and the rows are returned as they are without a key, without the column or when it is marked sortable false |
| DataTable.SortedDataOrdered | lotto-web/components/Reusable/DataTable.tsx:73-93 | with a sortable column whose values are of one kind the rows come out ordered by the comparator |
| DataTable.MissingLastAscending | lotto-web/components/Reusable/DataTable.tsx:79-80 | in an ascending sort no present value follows a missing one |
| DataTable.MissingFirstDescending | lotto-web/components/Reusable/DataTable.tsx:79-80 | in a descending sort no missing value follows a present one |
| DataTable.TotalPages | lotto-web/components/Reusable/DataTable.tsx:96 | the page count is the ceiling of rows over page size: zero only for no rows, enough pages for every row, and no empty last page |
| DataTable.Slice | lotto-web/components/Reusable/DataTable.tsx:99 | the slice has at most end - start rows, is the subsequence when the bounds fit, and is empty past the end |
| DataTable.PageRows | lotto-web/components/Reusable/DataTable.tsx:97-99 | a page holds at most the page size of rows |
| DataTable.PageRowsOfValidPage | lotto-web/components/Reusable/DataTable.tsx:96-99 | every page up to the page count is non-empty and holds the rows from (page - 1) times the page size, in order |
| DataTable.ClampPage | lotto-web/components/Reusable/DataTable.tsx:101-103 | the page is clamped into 1..totalPages, a valid page is kept, and the result is 1 even when there are no pages |
| DataTable.ShownRangeCountsPageRows | lotto-web/components/Reusable/DataTable.tsx:177-181 | on a valid page the pager's "Showing a to b" numbers count exactly the rows on that page |
| DataTable.HeaderIgnoresExplicitSortable | lotto-web/components/Reusable/DataTable.tsx:112 | the header test as written refuses a rendered column explicitly marked sortable true |
| DataTable.HeaderSortableOverrides | lotto-web/components/Reusable/DataTable.tsx:17 | under the documented rule an explicit flag wins and otherwise columns without render sort; it differs from the written test exactly on rendered columns marked sortable true |
| DataTable.TableState.constructor | lotto-web/components/Reusable/DataTable.tsx:40-47 | the table starts on page 1 sorted by the default key (an empty key means none) in the default order |
| DataTable.TableState.HandleSort | lotto-web/components/Reusable/DataTable.tsx:49-60 | sorting returns to page 1 and takes one step of the sort cycle |
| DataTable.TableState.ClickHeader | lotto-web/components/Reusable/DataTable.tsx:112-123 | a click sorts and returns to page 1 exactly when the header passes the written test sortable !== false and no render; on any other header, including a rendered one marked sortable true, nothing changes |
| DataTable.TableState.GoToPage | lotto-web/components/Reusable/DataTable.tsx:101-103 | the current page becomes the clamped page and the sort is kept |
| DataTable.TableState.CurrentData | lotto-web/components/Reusable/DataTable.tsx:96-99 | the current page holds at most the page size of rows, all taken from the data |
| MakeaBid.ActiveDayShape | lotto-web/components/Home/MakeaBid.tsx:62-76 | the active slots are all of today's Malaysian-day slots in list order when there is one, and otherwise all of tomorrow's |
| MakeaBid.AutoSelect | lotto-web/components/Home/MakeaBid.tsx:87-95 | the selected slot is the first whose close time (window close, else slot time) is after now, else the last active slot |
| MakeaBid.CountdownFields | lotto-web/components/Home/MakeaBid.tsx:125-127 | for an open window the minutes and seconds are below 60 and the three fields add up to the whole seconds left |
| MakeaBid.CountdownReadsBack | lotto-web/components/Home/MakeaBid.tsx:119-128 | the countdown text splits on ":" into the padded hours, minutes and seconds left, and each reads back as its number |
| MakeaBid.CountdownHidden | lotto-web/components/Home/MakeaBid.tsx:120-128 | the countdown reads "00:00:00" exactly when less than one second is left, including every closed window |
| MakeaBid.MinutesUntil | lotto-web/components/Home/MakeaBid.tsx:15-19 | the minutes to the slot are rounded down |
| MakeaBid.PollGate | lotto-web/components/Home/MakeaBid.tsx:140-149 | results are polled exactly while less than 31 minutes are left and the slot has no result yet |
| MakeaBid.WinnerShown | lotto-web/components/Home/MakeaBid.tsx:168-181 | the winner shows as other than "??" exactly when the selected slot's first result has a non-zero number; a number up to 99 shows padded to two digits |
| MakeaBid.LinkRule | lotto-web/components/Home/MakeaBid.tsx:317-332 | the link goes to /bid exactly when bidding is open and there is no result; the label is "Result Announced" with a result, else "Make a Bid" when open, else "Bidding Closed" |
| MakeaBid.SlotLabelReading | lotto-web/components/Home/MakeaBid.tsx:230-235 | a slot button reads its Malaysian time with hour 0 as 12 AM, 12 as 12 PM, a later hour less 12 with PM, and two-digit minutes |
| MakeaBid.Panel.constructor | lotto-web/components/Home/MakeaBid.tsx:24-29 | the panel starts empty and loading, with no selection, "00:00:00" and "??" |
| MakeaBid.Panel.Load | lotto-web/components/Home/MakeaBid.tsx:38-56 | the load keeps only Lucky Draw slots and results, a failure keeps what was there, and loading ends false |
| MakeaBid.Panel.AutoSelectSlot | lotto-web/components/Home/MakeaBid.tsx:82-103 | with active slots the auto-selected slot is chosen; without any the selection is kept |
| MakeaBid.Panel.Choose | lotto-web/components/Home/MakeaBid.tsx:299 | a click selects the slot and changes nothing else |
| MakeaBid.Panel.Tick | lotto-web/components/Home/MakeaBid.tsx:109-129 | a tick sets the countdown to the selected slot's close time less now, and without a selection changes nothing |
| MakeaBid.Panel.Poll | lotto-web/components/Home/MakeaBid.tsx:150-159 | a successful poll replaces the results with the Lucky Draw ones; a failure keeps them |
| MakeaBid.Panel.ShowWinner | lotto-web/components/Home/MakeaBid.tsx:168-181 | the winner text follows the selected slot's first result and is not "??" exactly when a number was announced |
| BidHistory.PendingUnlessDecided | lotto-web/components/Agents/BidHistoryContent.tsx:116-135 | a bid is other than Pending exactly when its slot is COMPLETED with a winner and it is an LD bid, or a JP bid with a numbers array |
| BidHistory.LdWinnerIffEqual | lotto-web/components/Agents/BidHistoryContent.tsx:120-122 | an LD bid on a decided slot wins exactly when its number equals the winning number read with Number, and otherwise loses |
| BidHistory.WinTokensTrimmed | lotto-web/components/Agents/BidHistoryContent.tsx:126-129 | every token left after splitting on runs of "-", "," and whitespace is already trimmed |
| BidHistory.SortSome | lotto-web/components/Agents/BidHistoryContent.tsx:131 | sorting winning tokens that are all numbers with a - b is sorting the numbers |
| BidHistory.SortedKeysAgree | lotto-web/components/Agents/BidHistoryContent.tsx:125-133 | two number lists give the same sorted ","-joined text exactly when they hold the same numbers with the same multiplicities |
| BidHistory.JpWinnerIffSameNumbers | lotto-web/components/Agents/BidHistoryContent.tsx:124-134 | a JP bid on a decided slot wins exactly when its numbers and the winning numbers are equal as multisets, order ignored, and otherwise loses |
| BidHistory.PaddedPairs | lotto-web/components/Agents/BidHistoryContent.tsx:150 | each JP number is shown padded to two characters, in the order given |
| BidHistory.LdNumberFourDigits | lotto-web/components/Agents/BidHistoryContent.tsx:147-148 | an LD number below 10000 shows as exactly four digits that read back as the number |
| BidHistory.JpNumbersAsPairs | lotto-web/components/Agents/BidHistoryContent.tsx:149-151 | JP numbers 0..99 show as two-digit fields joined by " · ", five characters apart, in the order given |
| BidHistory.ShownJpNumbersOrder | lotto-web/components/Agents/BidHistoryContent.tsx:124-125 | the in-place `sort` of the winner check leaves a JP bid on a decided slot holding the same numbers in ascending order; any other bid keeps the order the answer sent |
| BidHistory.DecidedJpRowAscending | lotto-web/components/Agents/BidHistoryContent.tsx:124-151 | the bid-number text of a decided JP bid with numbers 0..99 is one two-digit field per number, five characters apart, in ascending order, holding exactly the bid's numbers |
| BidHistory.UndecidedJpRowInBidOrder | lotto-web/components/Agents/BidHistoryContent.tsx:149-151 | a JP row the winner check did not sort shows its numbers in the order the answer sent them |
| BidHistory.RowDefaults | lotto-web/components/Agents/BidHistoryContent.tsx:139-156 | the count is 1 exactly when missing, 0 or 1, the amount is 0 exactly when missing or 0, the status is the bid's status, and a row without a slot time shows "—" and no time |
| BidHistory.Rows | lotto-web/components/Agents/BidHistoryContent.tsx:108-157 | one row per bid, in answer order, each the row of its bid; a decided JP bid shows its numbers as the in-place sort left them |
| BidHistory.RecentRows | lotto-web/components/Agents/BidHistoryContent.tsx:159-167 | the days filter keeps exactly the rows passing it, "all" keeps every row in order, and otherwise every kept row has a date |
| BidHistory.TablesPartition | lotto-web/components/Agents/BidHistoryContent.tsx:169-170 | when every row is LD or JP the two tables together hold every row exactly once |
| BidHistory.BidHistoryPage.constructor | lotto-web/components/Agents/BidHistoryContent.tsx:96-98 | the page starts loading with both tables empty |
| BidHistory.BidHistoryPage.FetchData | lotto-web/components/Agents/BidHistoryContent.tsx:101-176 | an answer replaces both tables with the filtered rows of their type in answer order (a decided JP bid showing its numbers ascending); a failure keeps them; loading ends false |
| LiveDraw.SortByTimeOrdered | lotto-web/components/Admin/LiveDraws/LiveDrawContents.tsx:108-111 | sorting the fetched slots gives the same slots in ascending time order |
| LiveDraw.AutoSelectChoice | lotto-web/components/Admin/LiveDraws/LiveDrawContents.tsx:116-125 | the choice is always a listed slot's id; with non-empty ids it is the first CLOSED slot whose time has come, else the first OPEN slot still to come, else the first slot |
| LiveDraw.SortGroups | lotto-web/components/Admin/LiveDraws/LiveDrawContents.tsx:174-176 | each group keeps its day and has its slots sorted by time |
| LiveDraw.GroupedSlotsShape | lotto-web/components/Admin/LiveDraws/LiveDrawContents.tsx:152-179 | every group holds slots of its own day only, that day passes the calendar filter, the days are distinct and each group runs in ascending time |
| LiveDraw.GroupedSlotsPermutation | lotto-web/components/Admin/LiveDraws/LiveDrawContents.tsx:152-179 | the groups together hold exactly the filtered slots, with multiplicity |
| LiveDraw.FlattenSortGroups | lotto-web/components/Admin/LiveDraws/LiveDrawContents.tsx:174-176 | sorting inside the groups loses and adds no slot |
| LiveDraw.GroupSlots | lotto-web/components/Admin/LiveDraws/LiveDrawContents.tsx:161-178 | the forEach loop that fills the map and sorts each group builds exactly the grouped slots |
| LiveDraw.ManualLd | lotto-web/components/Admin/LiveDraws/LiveDrawContents.tsx:531-534 | the manual LD field keeps only digits, at most two |
| LiveDraw.ManualLdFirstDigits | lotto-web/components/Admin/LiveDraws/LiveDrawContents.tsx:533 | the kept text is the first two digit characters of the input in order, or all of them when there are fewer |
| LiveDraw.ManualLdTyping | lotto-web/components/Admin/LiveDraws/LiveDrawContents.tsx:531-534 | typing a digit while fewer than two are held appends it; typing a third digit or any other character leaves the field unchanged |
| LiveDraw.ManualLdExample | lotto-web/components/Admin/LiveDraws/LiveDrawContents.tsx:533 | "a1b2c3" is cleaned to "12" |
| LiveDraw.ManualLdIdempotent | lotto-web/components/Admin/LiveDraws/LiveDrawContents.tsx:531-534 | cleaning the manual LD field twice equals cleaning it once |
| LiveDraw.ManualLdValue | lotto-web/components/Admin/LiveDraws/LiveDrawContents.tsx:186 | a non-empty manual LD entry reads as a number 0..99 |
| LiveDraw.TruthyNumbers | lotto-web/components/Admin/LiveDraws/LiveDrawContents.tsx:193-194 | no kept number is 0 (zeros and NaN dropped) |
| LiveDraw.TruthyNumbersKept | lotto-web/components/Admin/LiveDraws/LiveDrawContents.tsx:193-194 | exactly the tokens whose Number is neither NaN nor 0 are kept, in order, each as its number |
| LiveDraw.ComboNumbers | lotto-web/components/Admin/LiveDraws/LiveDrawContents.tsx:189 | a picked combo reads as Number of each "-" piece, in order |
| LiveDraw.LdPreview | lotto-web/components/Admin/LiveDraws/LiveDrawContents.tsx:184-187 | for an LD slot the preview is the picked number when there is one, otherwise no value exactly when the manual entry is blank, and never a combo |
| LiveDraw.ManualJpPreview | lotto-web/components/Admin/LiveDraws/LiveDrawContents.tsx:188-197 | without a picked combo a non-blank manual JP entry gives a value exactly when it holds six non-zero numbers, and that value is those numbers in ascending order |
| LiveDraw.LdAnnounceRange | lotto-web/components/Admin/LiveDraws/LiveDrawContents.tsx:207-219 | for an LD slot a request goes out exactly when the slot is CLOSED and the value is a whole number in 1..37; other values that pass the gate are refused as invalid before any call; without the gate nothing happens |
| LiveDraw.ManualLdOutOfRange | lotto-web/components/Admin/LiveDraws/LiveDrawContents.tsx:215-218 | a manual LD entry of 0, 00 or 38..99 passes the gate and is then refused as invalid |
| LiveDraw.PickedComboAnnounced | lotto-web/components/Admin/LiveDraws/LiveDrawContents.tsx:189-222 | picking a summary combo on a CLOSED JP slot announces exactly that combo joined with "-" |
| LiveDraw.PickedComboPreview | lotto-web/components/Admin/LiveDraws/LiveDrawContents.tsx:189 | a picked combo text reads back as its numbers |
| LiveDraw.NothingChosen | lotto-web/components/Admin/LiveDraws/LiveDrawContents.tsx:182-198 | with no pick and both manual fields empty there is no value to announce |
| LiveDraw.LiveDrawPage.constructor | lotto-web/components/Admin/LiveDraws/LiveDrawContents.tsx:62-83 | the page starts with no slots, no selection, loading slots, no summary, empty winning-value fields and the calendar on today |
| LiveDraw.LiveDrawPage.FetchSlots | lotto-web/components/Admin/LiveDraws/LiveDrawContents.tsx:102-131 | loaded slots are stored sorted by time and, when nothing is selected, the automatic choice is selected; a failure keeps list and selection |
| LiveDraw.LiveDrawPage.FetchSummary | lotto-web/components/Admin/LiveDraws/LiveDrawContents.tsx:133-149 | loading a summary clears all four winning-value selections, so there is no preview, and stores the answer or nothing |
| LiveDraw.LiveDrawPage.TypeManualLd | lotto-web/components/Admin/LiveDraws/LiveDrawContents.tsx:531-534 | typing in the manual LD field stores the cleaned text and changes nothing else |
| LiveDraw.LiveDrawPage.DoAnnounce | lotto-web/components/Admin/LiveDraws/LiveDrawContents.tsx:210-237 | without the gate nothing happens; an invalid LD value sends nothing; otherwise the request is sent and, when accepted, the slots are fetched again and the dialog closes; announcing ends false |
| DrawResults.FindSlot | lotto-web/components/Results/JackpotResults.tsx:56 | the slot found for an id is the first listed slot with that id, and none is found only when no slot has it |
| DrawResults.Lookup | lotto-web/components/Results/JackpotResults.tsx:92 | a date's group is found exactly when some group carries that date, and it is that group's list |
| DrawResults.GroupByDate | lotto-web/components/Results/JackpotResults.tsx:63-78 | the forEach into per-date arrays followed by the newest-first sort of the entries builds exactly the date groups |
| DrawResults.DateGroupsShape | lotto-web/components/Results/JackpotResults.tsx:63-78 | each date appears once, the dates strictly decrease, every group holds only entries of its date, and the groups together hold every entry exactly as often as the input |
| DrawResults.EntryInItsGroup | lotto-web/components/Results/JackpotResults.tsx:66-72 | every entry is found in the group of its own date |
| DrawResults.LookupDate | lotto-web/components/Results/JackpotResults.tsx:91-92 | a group found for a date holds only that date's entries, and no group is found only when no entry has that date |
| DrawResults.LookupAbsentDate | lotto-web/components/Results/JackpotResults.tsx:92 | a date without entries has no group |
| JackpotResults.PadTexts | lotto-web/components/Results/JackpotResults.tsx:14 | each number of the combination is shown padded to two characters, in order |
| JackpotResults.ComboBalls | lotto-web/components/Results/JackpotResults.tsx:12-15 | there are always six balls: six "?" for a missing combination or one whose length is not 6, else each number 0..99 padded to two digits that read back as the number |
| JackpotResults.TodayJackpotFirst | lotto-web/components/Results/JackpotResults.tsx:48-58 | there is a jackpot today exactly when some result is dated today; it is the first such result with the slot found for it |
| JackpotResults.TodayBallsFormatted | lotto-web/components/Results/JackpotResults.tsx:115-132 | the six balls shown for today are always the formatted combination of today's result, six "?" without one |
| JackpotResults.HistoryEntries | lotto-web/components/Results/JackpotResults.tsx:66-72 | every result is kept with the slot found for it, a result without a slot included, in order |
| JackpotResults.EveryResultGrouped | lotto-web/components/Results/JackpotResults.tsx:63-78 | every result, with or without a slot, is listed under its own date |
| JackpotResults.DisplayAll | lotto-web/components/Results/JackpotResults.tsx:91-93 | without a selected date every result is displayed exactly once |
| JackpotResults.DisplaySelected | lotto-web/components/Results/JackpotResults.tsx:91-92 | with a selected date only that date's results are displayed, and nothing when it has none |
| JackpotResults.Page.constructor | lotto-web/components/Results/JackpotResults.tsx:18-21 | the page starts empty and loading, with no selected date |
| JackpotResults.Page.Load | lotto-web/components/Results/JackpotResults.tsx:25-45 | only Jackpot slots and results are kept, a failure keeps what was there, and loading ends false |
| JackpotResults.Page.SelectDate | lotto-web/components/Results/JackpotResults.tsx:87-89 | a calendar pick sets the selected date and nothing else |
| JackpotResults.Page.Displayed | lotto-web/components/Results/JackpotResults.tsx:91-93 | the list shown is the display of the history for the selected date |
| LuckyDrawResults.WinningTextCases | lotto-web/components/Results/LuckyDrawResults.tsx:124 | a missing winning number renders "0?", and a number 0..99 renders as two digits that read back as it |
| LuckyDrawResults.SlotMapGet | lotto-web/components/Results/LuckyDrawResults.tsx:52-57 | the Map lookup finds a slot exactly when some slot has the id, and it is the last such slot |
| LuckyDrawResults.WithSlots | lotto-web/components/Results/LuckyDrawResults.tsx:55-58 | each of today's results is paired, in order, with the slot from the Map |
| LuckyDrawResults.TodayOrderAsWritten | lotto-web/components/Results/LuckyDrawResults.tsx:47-49 | sorting by the time text puts a 10:00PM result before a 4:00PM one |
| LuckyDrawResults.ClockMinutesOf | lotto-web/components/Results/LuckyDrawResults.tsx:49 | a time written as "h:mmAM" or "h:mmPM" reads as its minute of the day |
| LuckyDrawResults.TodayResultsChronological | lotto-web/components/Results/LuckyDrawResults.tsx:42-59 | the corrected list holds every one of today's results and no other, each with its Map slot, in clock order |
| LuckyDrawResults.TodayOrderCorrected | lotto-web/components/Results/LuckyDrawResults.tsx:47-49 | in the corrected order the 4:00PM result comes before the 10:00PM one |
| LuckyDrawResults.HistoryEntries | lotto-web/components/Results/LuckyDrawResults.tsx:65-73 | every result whose slot is found is kept with that slot, and results without a slot are skipped |
| LuckyDrawResults.HistorySkipsMissingSlots | lotto-web/components/Results/LuckyDrawResults.tsx:66-67 | every history entry has its slot, comes from the results and sits under its own date |
| LuckyDrawResults.HistoryKeepsFoundSlots | lotto-web/components/Results/LuckyDrawResults.tsx:62-79 | a result whose slot is found is listed under its date |
| LuckyDrawResults.DisplaySelectedOneKey | lotto-web/components/Results/LuckyDrawResults.tsx:92-94 | a selected date always gives exactly one group under that date, holding only its results and empty when it has none |
| LuckyDrawResults.Page.constructor | lotto-web/components/Results/LuckyDrawResults.tsx:12-16 | the page starts empty and loading, with no selected date |
| LuckyDrawResults.Page.Load | lotto-web/components/Results/LuckyDrawResults.tsx:19-39 | only Lucky Draw slots and results are kept, a failure keeps what was there, and loading ends false |
| LuckyDrawResults.Page.SelectDate | lotto-web/components/Results/LuckyDrawResults.tsx:88-90 | a calendar pick sets the selected date and nothing else |
| LuckyDrawResults.TodayResultsByText | lotto-web/components/Results/LuckyDrawResults.tsx:42-59 | the list the page shows holds every one of today's results and no other, each with its Map slot, ordered by localeCompare of the time texts |
| LuckyDrawResults.Page.TodayWinners | lotto-web/components/Results/LuckyDrawResults.tsx:47-49 | today's winners are shown as the page sorts them, by the text of their times, and all are dated today |
| LuckyDrawResults.Page.Displayed | lotto-web/components/Results/LuckyDrawResults.tsx:92-94 | the groups shown are the display of the history for the selected date |
| Proxy.RefreshAccessToken | lotto-web/proxy.ts:14-41 | no refresh is attempted without a non-empty refresh cookie, and new cookies come back exactly when the call is answered with a 2xx status |
| Proxy.PublicPassesThrough | lotto-web/proxy.ts:71-77 | a public page and the refresh and logout endpoints pass through with no cookies set |
| Proxy.MissingTokenRefresh | lotto-web/proxy.ts:84-112 | a protected page without an access token passes with the refreshed cookies forwarded when the refresh succeeds, and otherwise redirects to /sign-in deleting the four session cookies |
| Proxy.ProtectedNotPublic | lotto-web/proxy.ts:63-77 | a path under /bid, /profile, /admin or /agent never takes the pass-through branch |
| Proxy.RefreshOnlyWhenCalled | lotto-web/proxy.ts:15-16 | the backend's refresh answer changes nothing unless the refresh call is made |
| Proxy.TokenWithoutUser | lotto-web/proxy.ts:119-121 | with an access token but no usable user cookie a guarded path redirects to /sign-in |
| Proxy.UserCookieFailures | lotto-web/proxy.ts:48-60 | a user cookie that is missing or empty, fails to decode, fails to parse or is not an object gives no user, and an object is kept as it parsed |
| Proxy.AdminRoles | lotto-web/proxy.ts:123-138 | under /admin with a token and a user, AGENT goes to /agent/dashboard, USER goes to /sign-in and any other role passes |
| Proxy.AdminNotAuthRoute | lotto-web/proxy.ts:66-68 | an /admin path is never the sign-in or sign-up page |
| Proxy.AuthRouteRedirect | lotto-web/proxy.ts:147-153 | on /sign-in or /sign-up a signed-in ADMIN goes to /admin, while other signed-in roles and visitors without a token stay |
| Proxy.AuthRouteNotProtected | lotto-web/proxy.ts:63-68 | the sign-in and sign-up pages are neither protected nor passed through |
| Proxy.RedirectTargets | lotto-web/proxy.ts:84-153 | every redirect goes to /sign-in, /agent/dashboard or /admin, and only the failed refresh of a protected page deletes cookies |
| BidPage.FindOpen | lotto-web/app/bid/page.tsx:168-175 | the slot found is the first one that is OPEN with its window still ahead (or OPEN with an unreadable window), and none is found only when no slot passes |
| BidPage.AutoSelectSlot | lotto-web/app/bid/page.tsx:161-178 | no slot is selected exactly when the day has no slot of the active type, and a selected slot is one of them |
| BidPage.AutoSelectPicksFirstEnabled | lotto-web/app/bid/page.tsx:161-188 | the automatic choice is the first slot the list shows as enabled, and only when every slot is disabled is it the first, disabled, slot |
| BidPage.FormatTimeDisplay | lotto-web/app/bid/page.tsx:190-195 | a time without a colon has no display since its minute is missing |
| BidPage.FormatTimeDisplayOfClock | lotto-web/app/bid/page.tsx:190-195 | a well-formed HH:mm time displays as the unpadded 12-hour hour, the two-digit minute and AM from 00:00 to 11:59, PM from 12:00 |
| BidPage.Hour12Determines | lotto-web/app/bid/page.tsx:192-193 | the 12-hour face and the period determine the hour, so distinct slot hours display differently |
| BidPage.Validate | lotto-web/app/bid/page.tsx:300-366 | the form is valid exactly when no message is set; a Lucky Draw form exactly when the name is not blank, the phone is ten digits, the number reads as 0..37 and the count as 1..80; a Jackpot form when every one of its numbers reads as 0..37 |
| BidPage.ValidateAcceptsWellFormedLd | lotto-web/app/bid/page.tsx:317-347 | a named Lucky Draw form with a ten-digit phone, a number 0..37 and a count 1..80 passes the check |
| BidPage.ValidateReadsLeadingNumberOnly | lotto-web/app/bid/page.tsx:331-332 | the form check reads only the leading number of a list such as 5#40, which it accepts, while the list check refuses it with the range message |
| BidPage.CheckValues | lotto-web/app/bid/page.tsx:368-404 | a list is accepted exactly when every value read is a number within the bounds, then in order; otherwise a NaN gives the numbers-only message and an out-of-range value the range message |
| BidPage.ParseListRoundTrip | lotto-web/app/bid/page.tsx:368-385 | numbers typed joined by # within the bounds read back as exactly those numbers |
| BidPage.ParseListRejectsOutOfRange | lotto-web/app/bid/page.tsx:380-382 | numbers typed joined by # with one outside the bounds are refused with the range message |
| BidPage.PiecesOfJoin | lotto-web/app/bid/page.tsx:369-372 | splitting numbers joined by # at the separator, trimming and dropping empty pieces gives back their texts |
| BidPage.KeyInjective | lotto-web/app/bid/page.tsx:247-249 | for dates of one width the date-time cart key determines the date and the time |
| BidPage.ClearSplitsCart | lotto-web/app/bid/page.tsx:254-255 | the cart is exactly the lines of the selected slot together with the lines of other slots |
| BidPage.ReplaceLd | lotto-web/app/bid/page.tsx:445-447 | every line with the edited id becomes the new line, the others stay in place |
| BidPage.ReplaceJp | lotto-web/app/bid/page.tsx:510-513 | every Jackpot line with the edited id becomes the new line, the others stay in place |
| BidPage.LdIdDeterminesTimeAndIndex | lotto-web/app/bid/page.tsx:482 | a Lucky Draw line id gives back the timestamp and position it was made with |
| BidPage.NewLdBatch | lotto-web/app/bid/page.tsx:481-490 | one submission adds one line per number, in order, each with its count, the selected slot, date and time and the form's customer |
| BidPage.NewLdBatchIdsDistinct | lotto-web/app/bid/page.tsx:479-490 | the lines of one batch have pairwise distinct ids and none repeats the id of a batch made at another instant |
| BidPage.UnitPrice | lotto-web/app/bid/page.tsx:259-264 | a missing or zero price counts as 1, any other price as itself |
| BidPage.LdTotalIsPriceTimesUnits | lotto-web/app/bid/page.tsx:254-261 | the Lucky Draw total is the unit price times the units bid in the selected slot |
| BidPage.JpTotalIsPriceTimesLines | lotto-web/app/bid/page.tsx:262-266 | the Jackpot total is the unit price times the number of Jackpot lines in the selected slot |
| BidPage.ReplaceEditedLd | lotto-web/app/bid/page.tsx:433-447 | an edit keeps the Jackpot cart, the messages, the slot and the date, clears the forms and edit mode, and keeps the number of lines |
| BidPage.ReplaceEditedLdValues | lotto-web/app/bid/page.tsx:433-447 | the line with the edited id keeps that id and takes the form's name and phone, the parsed number and count, the selected slot and its time and the date; every other line stays as it was |
| BidPage.AddLdLines | lotto-web/app/bid/page.tsx:452-493 | adding lines changes neither the Jackpot cart nor the date, slot or tab |
| BidPage.PutJpLine | lotto-web/app/bid/page.tsx:499-514 | a new Jackpot line is appended after the existing ones and an edited one keeps the number of lines; the Lucky Draw cart is untouched and the forms are cleared |
| BidPage.PutJpLineValues | lotto-web/app/bid/page.tsx:499-514 | the new line carries the form's name, phone and parsed numbers, the selected slot and date and one unit; an edit changes only the line with the edited id, which keeps its id and takes the form's values |
| BidPage.SubmitTouchesActiveCartOnly | lotto-web/app/bid/page.tsx:406-533 | a submission changes at most the cart of the active tab and never the date, slot or tab |
| BidPage.SubmitRejectedKeepsCart | lotto-web/app/bid/page.tsx:413 | a form that fails its check leaves both carts, both forms and edit mode alone and sets a message |
| BidPage.SubmitLdAddAppendsValidatedLines | lotto-web/app/bid/page.tsx:406-494 | a Lucky Draw submission in add mode either changes only the messages, setting one, or appends lines of the selected slot with numbers 0..37 and counts 1..80 after the existing ones and clears the form |
| BidPage.AddLdLinesOutcome | lotto-web/app/bid/page.tsx:452-493 | once the form check holds, the add mode either sets a message and changes nothing else, or appends checked lines of the selected slot |
| BidPage.AddLdLinesAccepts | lotto-web/app/bid/page.tsx:468-493 | two lists that pass and match in length are appended as one non-empty batch of checked lines |
| BidPage.AddLdLinesRejects | lotto-web/app/bid/page.tsx:455-477 | a list that fails its check, or lists of different lengths, leave everything but the messages as it was and set one |
| BidPage.EditThenSubmitRestoresLine | lotto-web/app/bid/page.tsx:433-552 | loading a valid line into the form and submitting it unchanged gives back the same cart and leaves edit mode |
| BidPage.DeleteRemovesExactlyId | lotto-web/app/bid/page.tsx:554-575 | after a delete no line of the active cart carries the id, every other line stays, the other cart is untouched and an edit of that line is abandoned |
| BidPage.ClearAllEmptiesSlotOnly | lotto-web/app/bid/page.tsx:577-592 | clearing empties the selected slot's lines of the active tab and its total while every line of another slot stays |
| BidPage.LdPayloads | lotto-web/app/bid/page.tsx:606-614 | each Lucky Draw line is sent as its customer, slot, number and count, without date or time |
| BidPage.JpPayloads | lotto-web/app/bid/page.tsx:615-627 | each Jackpot line is sent as its customer, slot and six numbers, without date or time |
| BidPage.FirstRejected | lotto-web/app/bid/page.tsx:605-631 | the calls before the one found all succeed and the one found, if any, fails |
| BidPage.SendSequentially | lotto-web/app/bid/page.tsx:605-631 | the calls are made in order and the first failure stops them; the count returned is the number that succeeded, all of them exactly when it reports success |
| BidPage.ConfirmClearsOnlyOnFullSuccess | lotto-web/app/bid/page.tsx:595-645 | on the Lucky Draw tab the slot is cleared only when every call succeeds; after a failure the cart is unchanged, including the lines the backend already accepted |
| BidPage.ConfirmClearsOnlyOnFullSuccessJp | lotto-web/app/bid/page.tsx:595-645 | the same on the Jackpot tab: cleared only when every call succeeds, and the Jackpot cart is unchanged after a failure |
| BidPage.BidPageState.constructor | lotto-web/app/bid/page.tsx:57-102 | the page opens on today, the Lucky Draw tab, no slot, empty carts, forms and messages |
| BidPage.BidPageState.AutoSelect | lotto-web/app/bid/page.tsx:161-178 | the automatic choice sets the selected slot and nothing else |
| BidPage.BidPageState.HandleSubmit | lotto-web/app/bid/page.tsx:406-533 | the new page state is the submission of the old one |
| BidPage.BidPageState.PutJp | lotto-web/app/bid/page.tsx:499-529 | the new page state puts the Jackpot line into the old one |
| BidPage.BidPageState.ReplaceEdited | lotto-web/app/bid/page.tsx:433-447 | the new page state replaces the edited line of the old one |
| BidPage.BidPageState.AddLines | lotto-web/app/bid/page.tsx:452-493 | the new page state adds the form's lines to the old one or sets a message |
| BidPage.BidPageState.AppendBatch | lotto-web/app/bid/page.tsx:479-529 | the new cart is the old cart followed by the batch, with the forms cleared |
| BidPage.BidPageState.HandleEdit | lotto-web/app/bid/page.tsx:535-552 | the new page state has the line in the form of its tab and is in edit mode for it |
| BidPage.BidPageState.HandleDelete | lotto-web/app/bid/page.tsx:554-575 | the new page state is the old one with the line deleted |
| BidPage.BidPageState.HandleClearAll | lotto-web/app/bid/page.tsx:577-592 | the new page state is the old one with the selected slot's lines cleared |
| BidPage.BidPageState.HandleConfirmBid | lotto-web/app/bid/page.tsx:595-645 | the calls are made in order, the count returned is the calls that succeeded, and the new page state is the confirmation of the old one |
| Agents.Capitalized | lotto-web/components/Admin/Agents/AgentsContent.tsx:56-57 | the gender keeps its first character and lower-cases the rest, with the length unchanged |
| Agents.CapitalizedIdempotent | lotto-web/components/Admin/Agents/AgentsContent.tsx:56-57 | formatting an already formatted gender changes nothing |
| Agents.InfoOf | lotto-web/components/Admin/Agents/AgentsContent.tsx:53-60 | a row keeps the id and phone, joins first and last name with a space and shows the formatted gender |
| Agents.PartitionAgents | lotto-web/components/Admin/Agents/AgentsContent.tsx:51-72 | every agent lands in exactly one of the two tables and nothing else does: approved agents in the first, pending ones in the second |
| Agents.ApprovedRowShape | lotto-web/components/Admin/Agents/AgentsContent.tsx:62-67 | an approved agent shows its commission followed by a percent sign and the status Completed |
| Agents.FilterDataShape | lotto-web/components/Admin/Agents/AgentsContent.tsx:114-127 | an empty query keeps every row, and otherwise a row is kept exactly when the query is found in its name, phone or id |
| Agents.SearchCaseBlind | lotto-web/components/Admin/Agents/AgentsContent.tsx:120-125 | a query finds the same rows as its lower-cased form |
| Agents.AgentsPage.constructor | lotto-web/components/Admin/Agents/AgentsContent.tsx:32-37 | the page starts with empty tables, loading, no query and no delete pending |
| Agents.AgentsPage.FetchAgents | lotto-web/components/Admin/Agents/AgentsContent.tsx:43-81 | a successful fetch replaces both tables by the partition of the users, a failure keeps them, and loading ends false |
| Agents.AgentsPage.OpenDeleteConfirm | lotto-web/components/Admin/Agents/AgentsContent.tsx:83-86 | the id is remembered and the dialog opens, the tables untouched |
| Agents.AgentsPage.HandleDelete | lotto-web/components/Admin/Agents/AgentsContent.tsx:88-102 | nothing happens without an id; after a delete the tables are fetched again, after a failure they are kept, and the dialog closes with the id cleared |
| Agents.AgentsPage.HandleApprove | lotto-web/components/Admin/Agents/AgentsContent.tsx:104-111 | after an approval the tables are fetched again, after a failure they are kept |
| Agents.AgentsPage.VisibleApproved | lotto-web/components/Admin/Agents/AgentsContent.tsx:114-127 | the approved rows shown are those the search keeps |
| Agents.AgentsPage.VisiblePending | lotto-web/components/Admin/Agents/AgentsContent.tsx:114-127 | the pending rows shown are those the search keeps |
| Commission.Formatted | lotto-web/components/Admin/Commission/CommissionContents.tsx:39-46 | every column is copied and a missing percentage becomes 0 |
| Commission.FormatAll | lotto-web/components/Admin/Commission/CommissionContents.tsx:39-46 | the list keeps its length and order, each agent formatted |
| Commission.UpdatePctShape | lotto-web/components/Admin/Commission/CommissionContents.tsx:70-74 | after a save the agents with the id carry the new percentage, and order, length and every other agent and column are unchanged |
| Commission.UpdatePctIdempotent | lotto-web/components/Admin/Commission/CommissionContents.tsx:70-74 | saving the same percentage twice is the same as saving it once |
| Commission.UpdatePctAbsent | lotto-web/components/Admin/Commission/CommissionContents.tsx:70-74 | saving for an id no agent has changes nothing |
| Commission.SaveUnchangedValue | lotto-web/components/Admin/Commission/CommissionContents.tsx:61-74 | saving a row with the value it already showed leaves the list as it was |
| Commission.SearchShape | lotto-web/components/Admin/Commission/CommissionContents.tsx:91-101 | an empty query shows every agent, and otherwise exactly the agents whose first name, last name, phone or id contains it |
| Commission.PhoneFound | lotto-web/components/Admin/Commission/CommissionContents.tsx:97 | a query that is part of an agent's phone always finds that agent |
| Commission.CommissionPage.constructor | lotto-web/components/Admin/Commission/CommissionContents.tsx:21-27 | the page starts with no agents, loading, no query and no row in edit |
| Commission.CommissionPage.LoadAgents | lotto-web/components/Admin/Commission/CommissionContents.tsx:34-52 | a successful load replaces the list by the formatted agents, a failure keeps it, and loading ends false |
| Commission.CommissionPage.HandleEdit | lotto-web/components/Admin/Commission/CommissionContents.tsx:61-64 | the row and its value enter edit mode, nothing else changes |
| Commission.CommissionPage.HandleInput | lotto-web/components/Admin/Commission/CommissionContents.tsx:132-134 | the edited value becomes the number typed, 0 when it cannot be read |
| Commission.CommissionPage.HandleSave | lotto-web/components/Admin/Commission/CommissionContents.tsx:66-81 | the edited value is sent; once accepted the agent carries it and editing ends, after a refusal nothing changes |
| Commission.CommissionPage.HandleCancel | lotto-web/components/Admin/Commission/CommissionContents.tsx:83-86 | editing ends and the edited value returns to 0 |
| Commission.CommissionPage.SetSearchQuery | lotto-web/components/Admin/Commission/CommissionContents.tsx:24 | the query is replaced and nothing else changes |
| CommissionSettlement.FilteredRowsShape | lotto-web/app/admin/wallet/commission/page.tsx:29-38 | a search of only white space keeps every row, and any other keeps exactly the rows whose name or phone contains it, ignoring case |
| CommissionSettlement.ActionFor | lotto-web/app/admin/wallet/commission/page.tsx:97-130 | a negative wallet locks the row whatever is pending, a non-negative wallet with nothing pending shows No Pending, and otherwise the button settles the pending amount to the agent under a COMM- transaction id at the commission endpoint |
| CommissionSettlement.AmountCell | lotto-web/app/admin/wallet/commission/page.tsx:72-92 | a positive pending or locked amount is shown as it is, anything else as RM 0 |
| CommissionSettlement.Page.constructor | lotto-web/app/admin/wallet/commission/page.tsx:15-16 | the page starts with no rows and an empty search |
| CommissionSettlement.Page.Load | lotto-web/app/admin/wallet/commission/page.tsx:18-22 | the rows become the summary returned and the search is kept |
| CommissionSettlement.Page.SetSearch | lotto-web/app/admin/wallet/commission/page.tsx:16 | the search is replaced and the rows are kept |
| CommissionSettlement.Page.ClickSettle | lotto-web/app/admin/wallet/commission/page.tsx:113-128 | a request is sent only for a row whose action is Settle, and it is that action's request; the rows are loaded again only after the call succeeds |
| WinningSettlement.FilteredRowsShape | lotto-web/app/admin/wallet/winning-payment/page.tsx:88-95 | the empty search keeps every row, and any search keeps exactly the rows whose name or phone contains it, ignoring case |
| WinningSettlement.SpaceSearchHides | lotto-web/app/admin/wallet/winning-payment/page.tsx:89-94 | a search of one space is applied as typed and hides a row whose name has no space and which has no phone |
| WinningSettlement.ActionFor | lotto-web/app/admin/wallet/winning-payment/page.tsx:61-83 | nothing pending shows No Pending whatever the wallet, something pending with a negative wallet is locked, and otherwise the button settles the pending amount under a WIN- transaction id at the winning endpoint |
| WinningSettlement.CheckOrderDiffers | lotto-web/app/admin/wallet/winning-payment/page.tsx:61-83 | with a negative wallet and nothing pending the commission page says Locked where this page says No Pending; whenever something is pending the two agree on locking |
| WinningSettlement.Page.constructor | lotto-web/app/admin/wallet/winning-payment/page.tsx:29-30 | the page starts with no rows and an empty search |
| WinningSettlement.Page.Load | lotto-web/app/admin/wallet/winning-payment/page.tsx:33-36 | the rows become the pending list returned and the search is kept |
| WinningSettlement.Page.SetSearch | lotto-web/app/admin/wallet/winning-payment/page.tsx:105-106 | the search is replaced and the rows are kept |
| WinningSettlement.Page.ClickSettle | lotto-web/app/admin/wallet/winning-payment/page.tsx:66-79 | a request is sent only for a row whose action is Settle, and it is that action's request; the rows are loaded again only after the call succeeds |
| AgentWallet.TotalPages | lotto-web/app/agent/wallet/page.tsx:194 | the page count is the least whole number of 20-row pages that holds the total |
| AgentWallet.PagerShownIff | lotto-web/app/agent/wallet/page.tsx:274 | the pager is drawn exactly when the total exceeds one page of 20 rows |
| AgentWallet.PagerStaysInRange | lotto-web/app/agent/wallet/page.tsx:274-285 | from a page in range Previous and Next step by one and never leave the range, and the end buttons do nothing |
| AgentWallet.PendingWinningsShape | lotto-web/app/agent/wallet/page.tsx:195-197 | the count is the rows that are winning credits not yet settled, never more than the rows, and zero exactly when no row has a Settle button |
| AgentWallet.PendingBadge | lotto-web/app/agent/wallet/page.tsx:213-218 | the badge is hidden exactly when nothing is pending and reads 1 Pending Winning for one |
| AgentWallet.ActionFor | lotto-web/app/agent/wallet/page.tsx:164-181 | a row has a Settle button exactly when it is an unsettled winning credit, and otherwise shows its status or Completed |
| AgentWallet.AmountOf | lotto-web/app/agent/wallet/page.tsx:172 | an amount text with a leading number prefills that number, and one without prefills 0 |
| AgentWallet.AmountOfDigits | lotto-web/app/agent/wallet/page.tsx:172 | an amount written in plain digits prefills its decimal value |
| AgentWallet.WinPayloadOf | lotto-web/app/agent/wallet/page.tsx:88-93 | the settlement sent carries the amount, transaction id, proof and note of the dialog |
| AgentWallet.DepositPayloadOf | lotto-web/app/agent/wallet/page.tsx:114-119 | the deposit request carries the number read from the amount text, the transaction id, file and note |
| AgentWallet.DepositAmountDigits | lotto-web/app/agent/wallet/page.tsx:115 | an amount typed as plain digits is sent as that number |
| AgentWallet.DepositGuardNonBlank | lotto-web/app/agent/wallet/page.tsx:109 | an amount that passes the guard has a visible character |
| AgentWallet.WinResetRefused | lotto-web/app/agent/wallet/page.tsx:82-101 | a reset settlement dialog is refused until it is filled in again |
| AgentWallet.DepositResetRefused | lotto-web/app/agent/wallet/page.tsx:109-125 | a reset deposit dialog is refused until it is filled in again |
| AgentWallet.WalletPage.constructor | lotto-web/app/agent/wallet/page.tsx:38-58 | the page starts on page 1 with no balance, no rows, loading and both dialogs closed and empty |
| AgentWallet.WalletPage.LoadWallet | lotto-web/app/agent/wallet/page.tsx:60-75 | a load sets the balance, the rows (none when missing) and the total (0 when missing), a failure keeps the old data, and loading ends false |
| AgentWallet.WalletPage.ClickPrev | lotto-web/app/agent/wallet/page.tsx:276 | the page steps back unless it is the first or the pager is hidden |
| AgentWallet.WalletPage.ClickNext | lotto-web/app/agent/wallet/page.tsx:282 | the page steps forward unless it is the last or the pager is hidden |
| AgentWallet.WalletPage.ClickSettleWinning | lotto-web/app/agent/wallet/page.tsx:170-174 | an unsettled winning is selected with its amount prefilled and the dialog opens |
| AgentWallet.WalletPage.SetWinAmount | lotto-web/app/agent/wallet/page.tsx:300 | the dialog amount becomes the number typed, 0 when it cannot be read |
| AgentWallet.WalletPage.HandleWinSubmit | lotto-web/app/agent/wallet/page.tsx:81-106 | a zero amount or blank transaction id sends nothing; an accepted settlement closes and resets the dialog and loads the wallet again, and a refusal keeps everything |
| AgentWallet.WalletPage.HandleDepositSubmit | lotto-web/app/agent/wallet/page.tsx:108-130 | a blank amount or transaction id sends nothing; an accepted request closes and resets the dialog and loads the wallet again, and a refusal keeps everything |
| Profile.OrEmpty | lotto-web/app/profile/page.tsx:83-85 | a present field is kept as it is and a missing one becomes empty |
| Profile.DatePartShape | lotto-web/app/profile/page.tsx:86 | the date put in the form never holds a T |
| Profile.DatePartOfTimestamp | lotto-web/app/profile/page.tsx:86 | of a timestamp date T time the form shows the date |
| Profile.DatePartOfDate | lotto-web/app/profile/page.tsx:86 | a value that is only a date is kept as it is |
| Profile.InitialForm | lotto-web/app/profile/page.tsx:82-87 | the form holds the user's first name, last name and gender, empty when missing, and the date part of the birth date |
| Profile.WithField | lotto-web/app/profile/page.tsx:111-114 | typing into an input changes that field of the form and no other |
| Profile.ChangeBack | lotto-web/app/profile/page.tsx:102-114 | typing back the original value of the only changed field gives back the original form, so nothing is left to save |
| Profile.PayloadShape | lotto-web/app/profile/page.tsx:125-134 | each name is sent trimmed and left out when blank, the gender is left out when empty, and the birth date is sent only when filled in, as the ISO text of its local midnight |
| Profile.PayloadIgnoresPadding | lotto-web/app/profile/page.tsx:126-127 | names that differ only in surrounding white space send the same update |
| Profile.TrimIdempotent | lotto-web/app/profile/page.tsx:126-127 | trimming a trimmed name changes nothing |
| Profile.RevokedShape | lotto-web/app/profile/page.tsx:157 | after a revoke exactly the devices with other ids remain, and an id no device has changes nothing |
| Profile.DeviceIconOf | lotto-web/app/profile/page.tsx:163-174 | a phone icon exactly when the lower-cased agent mentions mobile, android or iphone, a tablet icon when it mentions only tablet or ipad, otherwise a laptop |
| Profile.MobileIpadIsPhone | lotto-web/app/profile/page.tsx:165-170 | a user agent that mentions mobile gets the phone icon even when it also mentions ipad |
| Profile.MergeShape | lotto-web/app/profile/page.tsx:138 | the fields the update returns replace the profile's and every other field is kept |
| Profile.ProfilePage.constructor | lotto-web/app/profile/page.tsx:44-63 | the page starts loading with no profile, wallet or devices, and two equal empty forms |
| Profile.ProfilePage.LoadData | lotto-web/app/profile/page.tsx:68-100 | a load sets the profile, wallet and devices (none when missing) and fills both forms equally so that nothing is changed; a failure keeps everything, and loading ends false |
| Profile.ProfilePage.HandleChange | lotto-web/app/profile/page.tsx:111-114 | the named field takes the value typed and nothing else changes |
| Profile.ProfilePage.HandleGenderChange | lotto-web/app/profile/page.tsx:116-118 | the gender takes the value chosen and nothing else changes |
| Profile.ProfilePage.HandleSave | lotto-web/app/profile/page.tsx:120-148 | nothing is sent without a change; otherwise the update payload of the form is sent, and once accepted the answer is merged into the profile and the form becomes the new original, while a refusal keeps both |
| Profile.ProfilePage.HandleDeviceRevoke | lotto-web/app/profile/page.tsx:150-161 | nothing is called without confirmation; after a successful revoke only that device leaves the list, and after a failure the list is kept |
| Report.NumberOf | lotto-web/components/Admin/Report/ReportContents.tsx:49-62 | a missing number reads as 0, a number as itself, and a text as the number it spells or NaN |
| Report.MapFiguresShape | lotto-web/components/Admin/Report/ReportContents.tsx:49-62 | each of the twelve figures is read on its own |
| Report.MissingFiguresAreZero | lotto-web/components/Admin/Report/ReportContents.tsx:49-62 | a row without any figures reads as all zeros |
| Report.NormalizeAdminReport | lotto-web/components/Admin/Report/ReportContents.tsx:39-63 | the identity columns and winning values are copied and every figure is read as a number |
| Report.NormalizeAll | lotto-web/components/Admin/Report/ReportContents.tsx:105-118 | the rows keep their order and number, each normalised |
| Report.NormalizeResultsByDate | lotto-web/components/Admin/Report/ReportContents.tsx:65-95 | the Lucky Draw entries come before the Jackpot ones, a missing list counting as empty, each as a row without figures |
| Report.ByDateLdFirst | lotto-web/components/Admin/Report/ReportContents.tsx:70 | the Lucky Draw entries come first, in their order |
| Report.ByDateJpAfter | lotto-web/components/Admin/Report/ReportContents.tsx:70 | the Jackpot entries follow, in their order |
| Report.ByDateEntryShape | lotto-web/components/Admin/Report/ReportContents.tsx:71-93 | each by-date row keeps its identity and winning number, with no combination and every figure 0 |
| Report.RequestFor | lotto-web/components/Admin/Report/ReportContents.tsx:97-125 | a picked date asks for that Malaysian date, otherwise a range asks for its number of days, otherwise all time |
| Report.WinningCell | lotto-web/components/Admin/Report/ReportContents.tsx:153-155 | a Lucky Draw row shows its number or -, any other row its combination joined with - or - |
| Report.FormatNumber | lotto-web/components/Admin/Report/ReportContents.tsx:33-36 | NaN shows as 0.00 and a whole amount with two decimals |
| Report.CsvRow | lotto-web/components/Admin/Report/ReportContents.tsx:148-164 | every row has thirteen cells starting with slot id, type, date, time and winning cell |
| Report.HeadersCount | lotto-web/components/Admin/Report/ReportContents.tsx:133-147 | the header has thirteen names, as many as each row has cells |
| Report.CsvLines | lotto-web/components/Admin/Report/ReportContents.tsx:166 | the file has one line per row after the header line |
| Report.Csv | lotto-web/components/Admin/Report/ReportContents.tsx:166-169 | the exported text starts with a byte-order mark |
| Report.CsvReadsBack | lotto-web/components/Admin/Report/ReportContents.tsx:148-169 | without a comma or line break in any cell the export splits back into the header line and one line per row, each into its thirteen cells |
| Report.FieldsPerLine | lotto-web/components/Admin/Report/ReportContents.tsx:166 | the cells are not quoted, so a line reads back as one field per cell plus one per comma inside a cell |
| Report.FilenameTag | lotto-web/components/Admin/Report/ReportContents.tsx:170-178 | the file name names the picked date, the range in days, or All_Time |
| Report.FilenameMatchesRequest | lotto-web/components/Admin/Report/ReportContents.tsx:97-178 | the file name says All_Time exactly when the all-time report was requested |
| Report.ReportPage.constructor | lotto-web/components/Admin/Report/ReportContents.tsx:28-31 | the page starts empty, loading, with the range all and no date picked |
| Report.ReportPage.SelectDate | lotto-web/components/Admin/Report/ReportContents.tsx:302-305 | picking a date resets the range to all, so at most one filter is active |
| Report.ReportPage.SelectRange | lotto-web/components/Admin/Report/ReportContents.tsx:320-323 | a range button clears the picked date |
| Report.ReportPage.FetchData | lotto-web/components/Admin/Report/ReportContents.tsx:97-125 | the request is the one the filters select, the rows are the normalised answer, a failure empties the table, and loading ends false |
| Report.ReportPage.ExportCsv | lotto-web/components/Admin/Report/ReportContents.tsx:132-180 | the export is the CSV text of the rows under the file name of the filters |
| Sorting.SortBy | lotto-web/components/Results/LuckyDrawResults.tsx:47-49 | the sorted list holds exactly the elements of the input, as often as they occur there |
| Sorting.SortBySorted | lotto-web/components/Results/JackpotResults.tsx:75-77 | with a comparator consistent on the input the result is sorted by it and a permutation of the input |
| Sorting.StrCmpAntisymmetric | lotto-web/components/Results/JackpotResults.tsx:76 | comparing the other way round negates the result, and it is zero exactly for equal texts |
| Sorting.StrCmpTransitive | lotto-web/components/Results/JackpotResults.tsx:76 | the string order is transitive |
| Sorting.StrCmpPrefix | lotto-web/components/Results/LuckyDrawResults.tsx:49 | a proper prefix sorts before the text it begins |
| Sorting.FirstKeys | lotto-web/components/Results/JackpotResults.tsx:70 | each key is listed once, every item's key is listed and only keys of items are |
| Sorting.GroupBy | lotto-web/components/Results/JackpotResults.tsx:66-72 | pushing each item into the array of its key builds exactly the groups of the items, keys in first-appearance order |
| Sorting.GroupedContainsEveryItem | lotto-web/components/Results/JackpotResults.tsx:66-72 | every item is found in the group of its own key |
| Sorting.FlattenGrouped | lotto-web/components/Results/JackpotResults.tsx:63-72 | the groups together hold exactly the items, as often as they occur |
| Sorting.NewestFirstShape | lotto-web/components/Results/JackpotResults.tsx:75-77 | the sorted groups are the same groups, each key once and keys strictly decreasing |
| Common.PadStart | lotto-web/components/Results/JackpotResults.tsx:14 | the text is padded at the front with the fill character to the length asked for, and a longer text is kept as it is |
| Common.NumberOrZero | lotto-web/components/Admin/Commission/CommissionContents.tsx:44 | a number is kept, a missing value is 0, and a text is its number or 0 when it spells none |

## Left out

- Floating point: `toFixed`, `formatRM`/`formatAmount`/`formatNumber`, and the report's summary sums and average profit percentage. Money, prices and commission percentages are whole integers, so a fractional commission is not modelled.
- JavaScript number parsing: `parseInt` and `Number` are modelled on decimal digit strings. An optional leading sign ("+" or "-") is read; fractions, hex and exponent forms are not. Because of this, "3.5"-style inputs that pass the range checks in lotto-web/app/bid/page.tsx are not captured.
- Time zones and locale: `toZonedTime`, `formatInTimeZone`, `toLocaleString` and `toLocaleDateString` are parameters or abstract day keys. Where the code reads local `Date` fields, the browser is taken to be on Malaysia time.
- lotto-web/constants/Time (`TIME_SLOT`) is not part of this model. The slot list is a parameter of the next-draw-time functions.
- Text: `toLowerCase` is modelled on ASCII letters only. `trim` treats only the ASCII whitespace characters and the common Unicode spaces as blank; the remaining Unicode space separators are not listed. `localeCompare` is code-unit order.
- I/O and timers: `setInterval`/`setTimeout` polling, the `<video>` element and its `sessionStorage` flags, `localStorage`, `window.location` redirects, and the XLSX/file-saver export with its header-styling loop. The CSV text itself is modelled.
- Concurrency: the 401 refresh queue in lotto-web/lib/api.ts (`isRefreshing`, `failedQueue`). Interleavings of React state updates are not modelled either: each handler runs to completion.
- Services: the files under lotto-web/services are thin HTTP wrappers. Each call is an oracle that succeeds with a value or fails.
- Rendering and widgets: components/ui, Navbar, Header, Sidebar, Footer, Hero, charts (Chart.tsx uses `Math.random`), confetti, the lottery machine, `AdminProfitCards`/`AdminProfitCharts` and the dropdown key handling. `DaysFilterContext` and `normalizeDays` have no behaviour of their own.
- Profile.ProfilePage.HandleSave: `toIso` is a total function, while `new Date(dob).toISOString()` (lotto-web/app/profile/page.tsx:133) throws on an invalid date; the date input only yields valid dates, so the throw is not modelled.
- Profile: the `JSON.stringify` comparison of form and original is modelled as inequality of the two form records. Both come from the same construction, so key order agrees.
- AgentWallet.WalletPage.ClickPrev: only changes the page; the effect that reloads the history whenever the page changes (lotto-web/app/agent/wallet/page.tsx:77-79) is the separate LoadWallet call.
- AgentWallet.WalletPage.ClickNext: the same; the reload on a page change is the separate LoadWallet call.
- Settings.SettingsPage.HandleLdTimeChange: requires the index to be within the four LD times. Assigning past the end of a JavaScript array would extend it, but the page only ever passes indices 0 to 3.
- WinningSettlement: the winning-payment page (lotto-web/app/admin/wallet/winning-payment/page.tsx) imports `useEffect` but never calls `load`, so its rows stay empty until a settlement reloads them. The model's `Page.Load` is the page's own `load` function, which is never triggered on mount.
- Report: `normalizeResultsByDate` (lotto-web/components/Admin/Report/ReportContents.tsx:65-95) is modelled, but the page never calls it. By-date data also goes through `normalizeAdminReport`.
- The valid range of a drawn or bid number is inconsistent across the code and is not reconciled:
  - the bid validator accepts 0 to 37 (lotto-web/app/bid/page.tsx:332, 356, 380);
  - the Jackpot bid form's input allows at most 32 (lotto-web/components/Bid/JackpotBidForm.tsx:75);
  - live-draw announcement accepts 1 to 37 (lotto-web/components/Admin/LiveDraws/LiveDrawContents.tsx:217).

  The model uses each file's own bounds.
- The default Jackpot time is "20:00" on the settings page (lotto-web/app/admin/settings/page.tsx:14) but "00:15" in the draw-times store (lotto-web/store/useTimeSlotStore.ts:22). Each module keeps its own default.

## Findings

| source | as written | input that shows it | evidently intended | confidence | as-written member | corrected member |
|---|---|---|---|---|---|---|
| lotto-web/components/Reusable/DataTable.tsx:112 | a header is clickable only when `sortable !== false && !render`, so an explicit `sortable: true` on a column with a `render` function is ignored | a rendered column marked `sortable: true`, such as the Name column at lotto-web/components/Admin/Commission/CommissionContents.tsx:109-113 | the column's documented rule: an explicit `sortable` flag wins, otherwise columns without `render` sort | not executed | DataTable.HeaderIgnoresExplicitSortable | DataTable.HeaderSortableOverrides |
| lotto-web/components/Results/LuckyDrawResults.tsx:47-49 | today's results are sorted by `localeCompare` of the "h:mmAM" time text | results at "4:00PM" and "10:00PM" on the same day: "10:00PM" sorts first | today's winners listed in clock order | not executed | LuckyDrawResults.TodayOrderAsWritten | LuckyDrawResults.TodayResultsChronological |
