# HelixNexus notebook: a verified model of its state logic

HelixNexus is a browser-based electronic lab notebook for a molecular-biology lab. It is a
single-page application with one shell and several views. This project models the logic behind
those screens and proves properties of it:

- **The shell** (`Navigation`): which view is showing, and the three things it passes down.
  Those are the inventory tab, whether the experiment view opens its create dialog, and which
  experiment it opens on. It also holds the navigation handler every view calls and the choice
  of screen.
- **The header** (`Notifications`): the notification feed and its "smart" grouping. Unread
  notifications are gathered into one row per category (a cluster when a category has several),
  sorted newest first, and followed by the read notifications, newest first.
  - The three mutators of the list: mark some read, mark all read, clear the read ones.
  - The relative-time label ("Just now", "5m ago", "3h ago", "2d ago").
  - The search suggestions: experiments, then samples, then machines, at most six.
  - The recent-search list: at most five, newest first, no repeats.
- **The experiment view** (`ExperimentList`): toggling a protocol step of the selected
  experiment, applying a rewritten text, and creating an experiment.
  - A created experiment gets the id `EXP-<year>-<nnn>`, default title and author, parsed tags
    and numbered steps.
  - The create form can be filled by hand, from a template, or from a generated plan.
  - Dictation goes into the content or into the suggestion under review.
- **The inventory view and the counters** (`LabInventory`):
  - booking a machine (the bookings are re-sorted by start);
  - the booking card with its "+N more";
  - the bookings listed for a date;
  - adding a sample;
  - the dashboard and analytics counters, stated over any list (the program applies them to its static seed lists).

Supporting modules:

- `Types`: the shared records.
- `JsString`: the JavaScript string operations the code relies on (`trim`, `split`, `join`,
  `includes`, `startsWith`, `toLowerCase`, `padStart`, decimal text of a number).
- `Seqs`: `filter` and a stable sort, as a function and as an in-place insertion sort on an array.

React's state setters are modelled as classes whose fields are the component's state. Each
handler is a method that writes the result of a pure transform into those fields. The
transforms are functions, and the properties are lemmas about them. Inputs the environment
supplies become parameters:

- the clock (`now`, the year, ISO text of the current instant);
- date parsing and formatting (`parseLocal`, `isoOf`, `instantOf`);
- random barcodes;
- the response of the text-generation service.

## Model

| member | source | states |
|---|---|---|
| JsString.Trim | components/ExperimentView.tsx:176 | the result has no leading or trailing whitespace and is the middle slice of the input; everything cut off at either end is whitespace |
| JsString.TrimOfTrimmed | components/ExperimentView.tsx:176 | trimming text that is already trimmed changes nothing |
| JsString.TrimSpacePrefix | components/ExperimentView.tsx:132 | a leading space never survives `trim` |
| JsString.Split | components/ExperimentView.tsx:176 | `split` always yields at least one piece |
| JsString.SplitPiecesOmitSeparator | components/ExperimentView.tsx:176 | no piece of a split contains the separator |
| JsString.JoinSplit | components/ExperimentView.tsx:602 | joining the pieces of a split with the separator gives back the text (the protocol textarea's `join('\n')` of its `split('\n')`) |
| JsString.SplitAtSeparator | components/ExperimentView.tsx:214 | the first separator ends the first piece and the rest is split on |
| JsString.ToLowerIdempotent | components/Layout.tsx:240-252 | lower-cased text holds no capital letter, and lower-casing it again changes nothing |
| JsString.ContainsToLower | components/Layout.tsx:240-252 | a text that contains the query also contains it once both are lower-cased |
| JsString.NatToString | components/ExperimentView.tsx:169 | the decimal text of a number is non-empty digits, one digit exactly for numbers below ten |
| JsString.DigitsValueOfNatToString | components/ExperimentView.tsx:169 | the decimal text of a number reads back as that number |
| JsString.NatToStringInjective | components/ExperimentView.tsx:169 | different numbers have different decimal texts |
| JsString.PadStart | components/ExperimentView.tsx:169 | `padStart` reaches the target length (or keeps a longer text), ends with the text, and fills the front with the pad character |
| JsString.PaddedNumber | components/ExperimentView.tsx:169 | zero-padding the decimal text keeps it all digits and keeps the number it denotes |
| Seqs.Filter | components/Layout.tsx:280-281 | a filter keeps only elements that pass, all of them, and is no longer than its input |
| Seqs.FilterPrepend | components/OtherViews.tsx:196 | filtering a list with one element in front gives that element's verdict followed by the filter of the rest |
| Seqs.FilterIdempotent | components/Layout.tsx:334 | filtering twice with the same predicate is filtering once |
| Seqs.FilterAscending | components/OtherViews.tsx:443-445 | a filter keeps the order of what it keeps |
| Seqs.SortedByPermutesAndOrders | components/Layout.tsx:318 | the stable sort's result is a permutation of its input, with keys ascending |
| Seqs.SortedByOfAscending | components/OtherViews.tsx:170 | sorting an ordered list leaves it as it is |
| Seqs.SortedByIdempotent | components/Layout.tsx:318 | sorting twice is sorting once |
| Seqs.SortedByDistinct | components/Layout.tsx:318 | elements that differ under a projection still differ after sorting |
| Seqs.InsertInPlace | components/Layout.tsx:318 | one insertion step of the in-place sort: the prefix up to `i` becomes the ordered insertion of `a[i]`; the rest of the array is untouched |
| Seqs.SortInPlace | components/Layout.tsx:318 | the array ends as the stable sort of its old contents |
| Notifications.UnreadCount | components/Layout.tsx:277 | the badge number never exceeds the number of notifications |
| Notifications.OfCategoryMembers | components/Layout.tsx:284-288 | a category's list holds exactly the notifications of the list that belong to it |
| Notifications.CategoriesFacts | components/Layout.tsx:284-293 | a category is a key of the grouping record exactly when it has a notification, and is listed once |
| Notifications.ClusterCtaTargets | components/Layout.tsx:296-299 | a cluster has a call to action unless it is a system cluster; experiment clusters open the experiment list, inventory clusters the inventory, equipment clusters the equipment tab |
| Notifications.EntryFor | components/Layout.tsx:293-315 | the row of a category belongs to that category and stands for exactly its unread notifications |
| Notifications.EntryShape | components/Layout.tsx:294-313 | a category gets a cluster exactly when it has more than one unread notification; the cluster counts its items, is named `cluster-<category>`, and takes the time, severity and call to action of its first item and category; a lone notification is shown as it is |
| Notifications.EntriesOf | components/Layout.tsx:293-315 | the k-th row built is the row of the k-th category |
| Notifications.GroupedPushKnown | components/Layout.tsx:285-288 | pushing a notification of a known category keeps the grouping record right for the longer prefix |
| Notifications.GroupedPushNew | components/Layout.tsx:285-288 | a notification of a new category gets a new key, last in key order, and keeps the record right |
| Notifications.GroupByCategory | components/Layout.tsx:284-288 | the category record after the loop: keys in first-seen order, each holding its category's unread notifications in list order |
| Notifications.RowsOf | components/Layout.tsx:290-315 | the rows emitted by the `Object.entries` loop are the rows of the categories in key order |
| Notifications.SortNewestFirst | components/Layout.tsx:318 | sorting the rows in an array gives the newest-first stable sort |
| Notifications.GetSmartNotifications | components/Layout.tsx:279-321 | the component's grouping, row building, sorting and concatenation compute the feed: the sorted unread rows followed by the sorted read notifications |
| Notifications.MembersSorted | components/Layout.tsx:318 | sorting rows moves them but not the notifications they stand for |
| Notifications.MembersOfSingles | components/Layout.tsx:281 | the read rows stand for exactly the read notifications, in order |
| Notifications.TotalSizeIsMembers | components/Layout.tsx:306 | when every cluster's count is its number of items, the counts add up to the number of notifications the rows stand for |
| Notifications.GatherGrows | components/Layout.tsx:285-288 | adding one notification to its category's list adds it to what gathering the listed categories yields, and nothing else |
| Notifications.GatherCategories | components/Layout.tsx:284-293 | gathering the lists of every category present gives back the unread notifications |
| Notifications.EntriesMembers | components/Layout.tsx:290-315 | the unsorted rows stand for every unread notification exactly once |
| Notifications.UnreadBlockRows | components/Layout.tsx:293-318 | every row of the unread block is its category's row |
| Notifications.UnreadBlockHasEntries | components/Layout.tsx:293-318 | every category with an unread notification has its row in the unread block |
| Notifications.UnreadBlockCategories | components/Layout.tsx:284-318 | a category has a row in the unread block exactly when it has an unread notification |
| Notifications.UnreadBlockMembers | components/Layout.tsx:277-318 | the unread block stands for every unread notification once, and its counts add up to the badge number |
| Notifications.UnreadBlockOrder | components/Layout.tsx:293-318 | the unread block has at most one row per category and is newest first |
| Notifications.UnreadBlockIsUnread | components/Layout.tsx:280-315 | no read notification is inside a row of the unread block |
| Notifications.ReadBlockMembers | components/Layout.tsx:281 | the read block holds every read notification once |
| Notifications.ReadBlockOrder | components/Layout.tsx:281 | the read block is as long as the read list, newest first |
| Notifications.ReadBlockRows | components/Layout.tsx:281 | read notifications are never clustered: each read row is one read notification |
| Notifications.UnreadAndRead | components/Layout.tsx:280-281 | the unread and the read notifications together are the whole list |
| Notifications.FeedConservesNotifications | components/Layout.tsx:279-321 | every notification appears in the feed exactly once, in a cluster or as a row of its own |
| Notifications.OfCategoryAscending | components/Layout.tsx:285-288 | a category's list keeps the newest-first order of the notification list |
| Notifications.RowTimeIsNewest | components/Layout.tsx:308-309 | when the list is newest first (as prepending keeps it), a row's time is that of its newest member |
| Notifications.IdsMembers | components/Layout.tsx:473-479 | an id is in the id list exactly when some notification of the list has it |
| Notifications.ClickMarksRowMembers | components/Layout.tsx:473-479 | after clicking a row, a notification is read exactly when it was read before or shares its id with one of the row's notifications |
| Notifications.RowIds | components/Layout.tsx:473-479 | a click on a row marks the notification's own id, or the ids of every member of the cluster |
| Notifications.MarkedRead | components/Layout.tsx:325-327 | exactly the notifications whose id is listed become read; nothing else about any notification changes |
| Notifications.AllMarkedRead | components/Layout.tsx:329-331 | every notification becomes read, with everything else kept |
| Notifications.AllMarkedReadIsMarkedReadOfAll | components/Layout.tsx:325-331 | marking all read is marking every id of the list |
| Notifications.MarkAllClearsBadge | components/Layout.tsx:277-331 | after marking all read the badge is zero, nothing is grouped, and the feed has one row per notification |
| Notifications.MarkingCategoryEmptiesIt | components/Layout.tsx:325-327 | marking the ids of every unread notification of a category leaves it nothing unread |
| Notifications.ClickDismissesRow | components/Layout.tsx:473-479 | clicking a row of the unread block removes its category from the unread block |
| Notifications.ClearReadIdempotent | components/Layout.tsx:333-335 | clearing the read notifications keeps the badge, and a second clear changes nothing |
| Notifications.ClearReadKeepsUnreadBlock | components/Layout.tsx:333-335 | after clearing, the feed is the unread block as it was, with no read rows behind it |
| Notifications.Header.constructor | components/Layout.tsx:152-159 | the header starts with the given notifications, the three seed recent searches, an empty search box and both dropdowns closed |
| Notifications.Header.MarkAsRead | components/Layout.tsx:325-327 | the notification list is replaced by the marked list; the rest of the header state is kept |
| Notifications.Header.MarkAllAsRead | components/Layout.tsx:329-331 | the notification list becomes all read; the rest is kept |
| Notifications.Header.ClearRead | components/Layout.tsx:333-335 | only the unread notifications remain; the rest is kept |
| Notifications.Header.ClickRow | components/Layout.tsx:473-479 | a row click marks the row's notifications read |
| Notifications.Header.FollowCta | components/Layout.tsx:510-515 | a call-to-action button marks the row read, closes the dropdown and returns the row's navigation request; a row without one has no button and changes nothing |
| Notifications.Header.SelectSuggestion | components/Layout.tsx:257-272 | choosing a suggestion records its term, keeps the recent list bounded and free of repeats, clears and closes the search box, and returns the intended route |
| Notifications.AgoLabelInjective | components/Layout.tsx:340-342 | two labels are equal only for the same number and the same unit |
| Notifications.FormatTime | components/Layout.tsx:337-339 | "Just now" exactly when less than a minute has passed |
| Notifications.MinutesLabel | components/Layout.tsx:340 | under an hour, the label gives the whole minutes elapsed |
| Notifications.HoursLabel | components/Layout.tsx:341 | under a day, the label gives the whole hours elapsed |
| Notifications.DaysLabel | components/Layout.tsx:342 | from a day on, the label gives the whole days elapsed |
| Notifications.FormatTimeReadsBack | components/Layout.tsx:337-343 | two ages of a minute or more with the same label are in the same bucket (under an hour, under a day, or a day or more), and have the same whole minutes, hours or days |
| Notifications.ExperimentHits | components/Layout.tsx:242-244 | every experiment hit is an experiment whose title or id contains the query ignoring case, and every such experiment is a hit |
| Notifications.SampleHits | components/Layout.tsx:246-248 | every sample hit has a name containing the query ignoring case or a barcode containing it as typed, and every such sample is a hit |
| Notifications.MachineHits | components/Layout.tsx:250-252 | every machine hit has a name containing the query ignoring case, and every such machine is a hit |
| Notifications.AllHitsBlocks | components/Layout.tsx:254 | the concatenation is the experiment block, then the sample block, then the machine block |
| Notifications.AllHitsRanked | components/Layout.tsx:254 | the matches come in rank order |
| Notifications.Suggestions | components/Layout.tsx:238-255 | an empty query suggests nothing; otherwise at most six suggestions, each a match of the lower-cased query, in rank order |
| Notifications.SuggestionsIgnoreQueryCase | components/Layout.tsx:238-255 | the suggestions for a query and for its lower-cased form are the same |
| Notifications.ExperimentFoundIgnoringCase | components/Layout.tsx:240-244 | an experiment whose title contains the query as typed is matched |
| Notifications.SuggestionsComplete | components/Layout.tsx:238-255 | with fewer than six suggestions, every match is suggested |
| Notifications.SuggestionsPriority | components/Layout.tsx:254 | the cap cuts from the end: a sample is suggested only when every matching experiment is, a machine only when every matching sample is |
| Notifications.RememberSearch | components/Layout.tsx:258-261 | a new term goes in front and the list keeps at most five; a known term changes nothing; the term is always in the list afterwards |
| Notifications.RememberSearchKeepsBound | components/Layout.tsx:259-261 | the recent searches stay at most five and free of repeats |
| Notifications.SuggestionTarget | components/Layout.tsx:265-271 | an experiment opens the experiment view on its id; a sample opens the inventory list with its name as the search; a machine opens the equipment tab with its name |
| Notifications.SampleSelectionAsWritten | components/Layout.tsx:246-271 | a sample whose own `type` is not one of the three kind names is not routed anywhere by the handler as written, although the intended route is the inventory |
| Notifications.MachineSelectionAsWritten | components/Layout.tsx:250-271 | the same for a machine, whose own `type` is never a kind name in practice |
| Notifications.SelectTargetAgrees | components/Layout.tsx:242-271 | where the kind survives the spread, the handler as written routes as intended |
| ExperimentList.FirstMatch | components/ExperimentView.tsx:92 | `find` by id: the first experiment carrying the selected id, or none when no experiment does |
| ExperimentList.FirstMatchSameIds | components/ExperimentView.tsx:92 | `find` depends only on the ids |
| ExperimentList.ToggledSteps | components/ExperimentView.tsx:244-246 | the steps with the id flip `completed`; every other step and field is kept |
| ExperimentList.ToggledStepsTwice | components/ExperimentView.tsx:244-246 | flipping the same step twice restores the steps |
| ExperimentList.StepToggled | components/ExperimentView.tsx:241-253 | with nothing selected nothing changes; otherwise every experiment carrying the selected experiment's id gets its steps with the step flipped |
| ExperimentList.ToggleStepFrame | components/ExperimentView.tsx:241-253 | with unique ids, only the selected experiment changes, and only its steps |
| ExperimentList.ToggleStepTwice | components/ExperimentView.tsx:241-253 | toggling the same step twice restores the list, when ids are unique |
| ExperimentList.SuggestionApplied | components/ExperimentView.tsx:157-162 | with a selection and a suggestion, the experiments with the selected id take the suggestion as content and the suggestion is cleared; otherwise nothing changes |
| ExperimentList.ApplySuggestionKeepsAllButContent | components/ExperimentView.tsx:157-162 | applying a suggestion changes contents only |
| ExperimentList.ExperimentIdInjective | components/ExperimentView.tsx:169 | in one year, lists of different lengths give different ids |
| ExperimentList.CounterAfterPrefixInjective | components/ExperimentView.tsx:169 | after a shared prefix, different counters give different ids |
| ExperimentList.ExperimentIdShape | components/ExperimentView.tsx:169 | the id starts with "EXP-" and is the year's prefix followed by the counter |
| ExperimentList.IdCounterValue | components/ExperimentView.tsx:169 | the counter has at least three digits and reads back as the new list length |
| ExperimentList.CleanTagsFacts | components/ExperimentView.tsx:176 | at most one tag per piece, none empty; trimmed, separator-free pieces give trimmed, separator-free tags |
| ExperimentList.ParseTagsClean | components/ExperimentView.tsx:176 | every parsed tag is non-empty, trimmed and free of commas, and there are no more tags than pieces |
| ExperimentList.NumberedStepsFacts | components/ExperimentView.tsx:178-182 | one open step without notes per protocol line, in order, under pairwise different ids |
| ExperimentList.NewExperimentHeader | components/ExperimentView.tsx:168-177 | a new experiment is a draft by the current author with the form's content; its title is the form's, or "Untitled Experiment" when that is empty; its id starts with "EXP-" and its counter reads back as the new list length |
| ExperimentList.NewExperimentBody | components/ExperimentView.tsx:176-182 | a new experiment has one open step per protocol line, under different ids, and clean tags |
| ExperimentList.NewExperimentDate | components/ExperimentView.tsx:174 | the date is the calendar part of the ISO instant |
| ExperimentList.FormFromPlan | components/ExperimentView.tsx:199-204 | the plan's title, content and steps are taken as they are, and a missing one becomes empty; the tag field is the plan's tags joined with ", ", or empty when the plan has none |
| ExperimentList.SplitJoinedTags | components/ExperimentView.tsx:176-201 | splitting the ", "-joined tags on commas gives the first tag and the others each with a leading space |
| ExperimentList.CleanTagsOfPieces | components/ExperimentView.tsx:176 | when each piece cleans to its non-empty tag, cleaning yields exactly those tags |
| ExperimentList.PlanTagsRoundTrip | components/ExperimentView.tsx:176-201 | the tags of a generated plan survive the join into the form and the re-parse at creation, when each is non-empty, trimmed and comma-free |
| ExperimentList.TemplateForm | components/ExperimentView.tsx:210-227 | a template always gives four protocol steps; the tag field never holds a ':'; a value without ':' becomes the tag field whole, with an empty title |
| ExperimentList.TemplateFormOfOption | components/ExperimentView.tsx:214-225 | for the option "category:item" the title is the item, the tag field the category, the second step names the item and the content opens with its heading |
| ExperimentList.TemplateTagsOnCreate | components/ExperimentView.tsx:176-218 | a template's category becomes the created experiment's only tag |
| ExperimentList.DictationAppends | components/ExperimentView.tsx:132 | dictating into tidy text appends the phrase after one space, or starts the text with it |
| ExperimentList.Dictated | components/ExperimentView.tsx:128-135 | only the first experiment with the selected id gets the phrase; without a match the list is unchanged |
| ExperimentList.ExperimentView.constructor | components/ExperimentView.tsx:34-75 | the view opens on the seed list; the selection is the requested id when non-empty; the create dialog is open as requested; the form is empty |
| ExperimentList.ExperimentView.Select | components/ExperimentView.tsx:272 | picking an experiment (or none, at line 330) sets the selection, and a change drops the suggestion |
| ExperimentList.ExperimentView.DiscardSuggestion | components/ExperimentView.tsx:164-166 | the suggestion is dropped; nothing else changes |
| ExperimentList.ExperimentView.ToggleStep | components/ExperimentView.tsx:241-253 | the list becomes the toggled list; nothing else changes |
| ExperimentList.ExperimentView.ApplySuggestion | components/ExperimentView.tsx:157-162 | the list and the suggestion become the applied pair |
| ExperimentList.ExperimentView.CreateExperiment | components/ExperimentView.tsx:168-192 | callable only with a title that is not blank, as the Create button (lines 627-629) is disabled otherwise; the new experiment goes first, keeps the form's title and is selected, the dialog closes, the form and the prompt reset, and the suggestion is dropped when the selection changes |
| ExperimentList.ExperimentView.Commit | components/ExperimentView.tsx:185-191 | the state updates once the experiment is built |
| ExperimentList.ExperimentView.GenerateWithAI | components/ExperimentView.tsx:194-208 | callable only with a prompt that is not blank, as the Generate button (lines 543-545) is disabled otherwise; the form is filled from the plan with the defaults and the dialog shows the manual form |
| ExperimentList.ExperimentView.TemplateSelect | components/ExperimentView.tsx:210-227 | the placeholder option changes nothing; any other option fills the form from the template |
| ExperimentList.ExperimentView.Dictate | components/ExperimentView.tsx:119-137 | with a suggestion under review the phrase goes to the suggestion; otherwise the list is copied and the first experiment with the selected id gets the phrase |
| LabInventory.BookingEndsAfterStart | components/OtherViews.tsx:154-162 | a booking made with an offered duration ends that many minutes, and at least half an hour, after it starts |
| LabInventory.Booked | components/OtherViews.tsx:166-174 | every machine with the target id takes the booking with its list re-sorted; every other machine is kept |
| LabInventory.BookedChangesOneMachine | components/OtherViews.tsx:166-174 | with unique ids, booking changes only the target machine, and only its bookings |
| LabInventory.BookedUnknownMachine | components/OtherViews.tsx:166-174 | booking an id that no machine has changes nothing |
| LabInventory.WithBookingBookings | components/OtherViews.tsx:170 | the machine's new list is its old list plus the booking, one longer, in order of start |
| LabInventory.WithBookingInOrder | components/OtherViews.tsx:170 | adding to a list already in order inserts the booking and moves nothing else |
| LabInventory.SortByStart | components/OtherViews.tsx:170 | sorting the bookings in an array gives the stable sort by start |
| LabInventory.BookInto | components/OtherViews.tsx:166-174 | the `map` over the machines computes the booked list |
| LabInventory.BookingCard | components/OtherViews.tsx:308-319 | no bookings shows "no upcoming"; otherwise the first two are shown, with "+N more" exactly when there are more than two |
| LabInventory.BookingCardAccountsForAll | components/OtherViews.tsx:310-319 | the shown bookings plus N account for every booking |
| LabInventory.MoreIsPositive | components/OtherViews.tsx:319 | "+N more" never says "+0 more", and it comes with two shown bookings |
| LabInventory.BookingsOnExactly | components/OtherViews.tsx:443-445 | a booking is listed for the date exactly when it is the machine's and its start text begins with the date |
| LabInventory.BookingsOnInOrder | components/OtherViews.tsx:443-445 | the day's bookings are in order of start when the machine's are |
| LabInventory.NewSample | components/OtherViews.tsx:185-193 | the sample takes the form's fields; an empty expiration or barcode gets the supplied default |
| LabInventory.StatusCount | components/OtherViews.tsx:16-17 | a status count never exceeds the number of experiments |
| LabInventory.LowStockCount | components/OtherViews.tsx:19 | the low-stock count never exceeds the number of samples |
| LabInventory.TypeCount | components/OtherViews.tsx:681-685 | a type count never exceeds the number of samples |
| LabInventory.StatusCountsPartition | components/OtherViews.tsx:674-679 | the counts of the five statuses add up to the number of experiments |
| LabInventory.StatusSlicesCoverUnarchived | components/OtherViews.tsx:674-679 | the four status slices of the analytics chart cover exactly the experiments that are not archived |
| LabInventory.TypeCountsBounded | components/OtherViews.tsx:681-685 | the three sample-type bars together count each sample at most once |
| LabInventory.NewDraftKeepsDashboard | components/OtherViews.tsx:16-17 | a draft put in front of a list of experiments leaves the list's active and pending counts unchanged |
| LabInventory.InventoryView.constructor | components/OtherViews.tsx:123-148 | the view opens on the requested tab, with no machine selected, the empty item form and today's date, 09:00 and one hour in the booking form |
| LabInventory.InventoryView.OpenBooking | components/OtherViews.tsx:332-334 | "Book Now" selects the machine; nothing else changes; the button is disabled for a machine under maintenance, so one is never selected |
| LabInventory.InventoryView.ChooseDuration | components/OtherViews.tsx:413-424 | the duration picker takes one of the offered durations |
| LabInventory.InventoryView.BookMachine | components/OtherViews.tsx:150-181 | without a selection nothing changes; otherwise the machines become the booked list with the booking from the form, the dialog closes and the purpose and start time reset; the booked machine is not under maintenance, and when the clock functions read their own ISO text back the booking ends the chosen number of minutes, at least 30, after it starts |
| LabInventory.InventoryView.AddItem | components/OtherViews.tsx:183-206 | the new sample goes first, the dialog closes and the form resets |
| Navigation.Navigate | App.tsx:13-34 | the view becomes the target; the selection is set only for the experiment list with a non-empty id; the create flag only for the experiment list with the flag; the tab changes only for the inventory with a tab |
| Navigation.NavigateIdempotent | App.tsx:13-34 | navigating to the same place twice is navigating once |
| Navigation.NavigateForgetsAllButTab | App.tsx:13-34 | only the tab survives a navigation |
| Navigation.PlainNavigation | components/Layout.tsx:36 | a sidebar link shows the view with nothing selected and no dialog, and keeps the tab |
| Navigation.Render | App.tsx:36-53 | the screen is the current view's; the experiment screen gets the create flag and the selection, the inventory screen the tab |
| Navigation.RenderSeparatesViews | App.tsx:36-53 | different views render different screens |
| Navigation.NavigateThenRender | App.tsx:13-53 | after a navigation the target view's screen shows, with the request's flag and id for the experiment list |
| Navigation.ClusterCtaScreens | components/Layout.tsx:296-299 | experiment clusters open the list with nothing selected, equipment clusters the equipment tab, inventory clusters the tab used last |
| Navigation.SuggestionScreens | components/Layout.tsx:265-271 | an experiment suggestion opens that experiment, a sample the inventory list, a machine the equipment tab |
| Navigation.SuggestionSelectsExperiment | components/Layout.tsx:266 | the experiment view opened by a suggestion starts on that experiment, without the dialog |
| Navigation.App.constructor | App.tsx:8-11 | the shell starts on the dashboard, list tab, no dialog and no selection |
| Navigation.App.HandleNavigate | App.tsx:13-34 | the shell's fields, set one after another, end as the navigation function says |
| Navigation.App.RenderView | App.tsx:36-53 | the screen rendered is that of the current view |
| Navigation.OpenExperiments | App.tsx:41 | the experiment view mounted after a navigation opens on the requested experiment and dialog |

## Left out

- Rendering, styling, icons, charts, the sidebar layout and the dropdowns' outside-click handling are left out. The search box's own text is modelled only where a handler resets it.
- The live notification generator (a 15-second timer adding random notifications) is left out because it is randomness on a timer. Its only effect on the list is to prepend, which is what `RowTimeIsNewest` assumes.
- `Date` objects are not modelled. Timestamps are whole milliseconds. The current time, the local year, ISO text of an instant, local date parsing and reading back ISO text are parameters.
- Notifications.FormatTime: does not model the floating-point division by 1000 and 60. The buckets are computed on whole milliseconds, so rounding in the last place of a double is not modelled.
- The cluster's time and severity are those of its first item in list order, as the code takes `items[0]`, not the newest. `RowTimeIsNewest` proves that they are the newest only when the list is newest first.
- JsString.ToLower: folds ASCII letters only. Unicode case mapping is left out.
- JsString.Trim: whitespace is the set of characters JavaScript's `trim` removes, taken one UTF-16 code unit at a time. There is no Unicode normalisation.
- The recent-search click (`setSearchQuery(term)`, components/Layout.tsx:378-380) only types into the search box. It is left out with the box's text.
- Notifications.SearchTerm: takes an experiment's title even when it is empty, where the code would fall back to `item.name` (undefined for experiments). That ill-defined case is not modelled.
- The `search` parameter of a suggestion's navigation request is carried in the model, but the shell drops it, as App.tsx:13-34 does. It is not passed to the inventory view.
- The views' remounting is left out: the inventory is keyed by its tab and remounts when the tab changes, and a repeated navigation to the experiment view re-runs its props effect. `OpenExperiments` models the first mount only.
- renderView's `default` branch (App.tsx:50-51) cannot be reached because the view type is an enumeration. It is left out.
- The text-generation service (services/geminiService.ts) is not part of this model. Its plan is a parameter, and a protocol step of a plan is reduced to its instruction. The refine call (components/ExperimentView.tsx:144-155) and the busy flags `isGenerating`, `isRefining` and `isSaving` are left out with it.
- The speech-recognition plumbing (starting, stopping and the recogniser's callbacks) is left out as I/O. `Dictate` takes the phrase as a parameter.
- ExperimentList.ExperimentView.Dictate: builds its copy of the list in an array and changes the first matching element there. The code mutates the found experiment object in place, and that object is shared with the previous state; this aliasing is not modelled. The state is captured when listening starts.
- The save button, the AI side panel and the chat bot are left out: each only sets busy flags or calls a remote service.
- Inventory's cold-chain tab, the freezer-alert card (a temperature reading compared with −70 °C, components/OtherViews.tsx:21), the molecular tools (plasmid maps with floating-point geometry), the analytics charts' drawing and the audit log are left out as display code over static data.
- LabInventory.StatusCount, LabInventory.ActiveCount, LabInventory.PendingCount, LabInventory.LowStockCount and LabInventory.TypeCount are stated over any list. The dashboard and the analytics page apply them only to the static seed lists (components/OtherViews.tsx:13-19 and 674-685). A sample added in the inventory or an experiment created in the experiment view never reaches a counter, so no lemma connects the two.
- ExperimentList.NewExperiment: keeps the "Untitled Experiment" default of the handler, but the dialog cannot reach it. `CreateExperiment` requires a title that is not blank, because that is when the Create button is enabled (components/ExperimentView.tsx:629).
- ExperimentList.TemplateForm: is stated for any value. Every option of the template picker has the value `category:item` (components/ExperimentView.tsx:567), so the no-colon case never occurs. In that case the code would leave the title undefined, where the model gives "".
- LabInventory.InventoryView.BookMachine and LabInventory.InventoryView.AddItem: are modelled without the browser's `required` checks on their forms. These are the booking's date, time and purpose, and the date picker's lower bound of today (components/OtherViews.tsx:395-396, 407, 433) and the sample's name, quantity and location (components/OtherViews.tsx:489, 516, 528). The model also accepts a submission with one of them empty.
- LabInventory.BookingsOnExactly: compares text as the code does, and the code compares a UTC ISO start time with a local calendar date. Whether a booking near midnight is listed under the intended day depends on the time zone, which is not modelled.
- The booking and sample ids come from `Date.now()`, and the default barcode and the one-year-ahead expiration come from `Math.random` and the clock. All four are parameters.
- LabInventory.InventoryView.ChooseDuration: requires one of the offered durations because the picker offers no other value. A `parseInt` of anything else cannot happen.

## Findings

| source | as written | input that shows it | evidently intended | confidence | as-written member | corrected member |
|---|---|---|---|---|---|---|
| components/Layout.tsx:246-271 | each suggestion is built as `{ type: 'Sample', ...s }` (and `'Equipment'` for machines), so the record's own `type` field, spread after the kind, overwrites it; the selection handler then dispatches on `item.type` and finds no branch | the seed sample "Lipofectamine 3000" (SMP-002, type "Reagent"), or any machine (type "PCR System", "Centrifuge", …): choosing it records the term and closes the box but navigates nowhere | a sample opens the inventory list and a machine the equipment tab, with its name as the search | not executed | Notifications.SampleSelectionAsWritten | Notifications.SuggestionTarget |
