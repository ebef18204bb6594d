# Mood tracker core in Dafny

This project models the logic of a personal mental-health assistant. Users log
their moods with an intensity, activities, tags and notes. A React client keeps
them in stores, filters and counts them on several pages, and can detect a mood
from a webcam picture. Two further pages serve therapists and their patients.
A Django server stores the entries, validates them, lists them by date window,
analyses them into insights and manages accounts.

There is one module per source file of the core:

- Client stores, as classes whose methods change the store's fields:
  - `MoodStore` (`moodStore.ts`)
  - `NotificationStore` (`notificationStore.ts`)
  - `InsightStore` (`insightStore.ts`)
  - `AuthStore` (`authStore.ts`)
- Client pages:
  - `MoodHistory`, `MoodLogger`, `MoodLogPage` and `InsightsPage`.
  - `MoodDetector` (`MoodDetector.tsx`).
  - `TherapistDashboard` (`TherapistDashboardPage.tsx`) and `TherapistPage` (`TherapistPage.tsx`).
  - `Avatar` (`Avatar.tsx`).
- Server:
  - `Engine` (`moods/ai/engine.py`)
  - `Serializers` (`moods/serializers.py`)
  - `MoodViews` (`moods/views.py`)
  - `UserViews` (`users/views.py`)

Shared modules hold the entry record and JSON bodies (`Types`). They also hold
the civil calendar of JavaScript `Date` (`Calendar`), insertion-ordered counts
(`Tally`), a stable sort (`Sorting`), sequence helpers (`Seqs`), ASCII text
helpers (`Text`) and `Option`/`Result` (`Wrappers`).

State the source keeps in component or store fields is a `class` whose methods
state the whole new state. Pure filters, counts and decisions are functions,
with lemmas relating them to independent definitions. Loops of the source are
methods with loop invariants, proved equal to those functions:
- the activity counts, the correlation presence lists and the suggestion list of the analyser;
- the mood and activity counts of the insights page;
- the filter chain of the history list.

The following outside inputs are parameters:
- **The network.** Each store call's reply is an input: a body, a non-2xx answer with a body, or a thrown message.
- **The clock.** `now`, local wall-clock readings, and "today" as a day number.
- **Random values.** Random ids, the token key a new token would get, and the two `Math.random` draws of the simulated detector.
- **The correlation coefficient.** A function parameter `pearson` gives the rounded coefficient of two vectors that are not constant. When either vector is constant, `pearsonr` gives NaN; the model decides that case itself.

## Model

| member | source | states |
|---|---|---|
| MoodStore.QueryParams | frontend/src/store/moodStore.ts:30-33 | at most three parameters, none empty; `date_filter`, `mood` and `search` are present exactly when their filter is given and non-empty, with its value |
| MoodStore.ParamValueAppend | frontend/src/store/moodStore.ts:30-33 | looking up a parameter in two appended lists finds the first list's value first |
| MoodStore.AddEntryBody | frontend/src/store/moodStore.ts:64-69 | the posted body is the draft with falsy `activities`/`tags` replaced by `[]`; truthy values and all other keys are kept |
| MoodStore.UpdateById | frontend/src/store/moodStore.ts:100-105 | the length is kept; entries with the id get the response spread over them; all others are unchanged |
| MoodStore.UpdateByIdLaws | frontend/src/store/moodStore.ts:100-105 | an update whose response keeps or omits the id leaves every id in place, and repeating it changes nothing more |
| MoodStore.DeleteById | frontend/src/store/moodStore.ts:124-127 | no entry with the id remains; every other entry stays |
| MoodStore.DeleteByIdSpec | frontend/src/store/moodStore.ts:124-127 | the result is a subsequence in the original order, shorter by exactly the number of entries with that id |
| MoodStore.DeleteCount | frontend/src/store/moodStore.ts:124-127 | the new length is the old one less the number of entries with that id |
| MoodStore.FailureMessage | frontend/src/store/moodStore.ts:41-50 | the stored error is the thrown message, or the action's own message for a non-2xx answer |
| MoodStore.Store.StartRequest | frontend/src/store/moodStore.ts:28 | loading is set, the error cleared, the entries kept |
| MoodStore.Store.Fail | frontend/src/store/moodStore.ts:49-50 | the entries are kept, the error is set and loading ends |
| MoodStore.Store.FetchEntries | frontend/src/store/moodStore.ts:27-52 | the parameters sent are QueryParams; on success the entries are the array body, else `results`, else empty; on failure the entries are unchanged and the error is set |
| MoodStore.Store.AddEntry | frontend/src/store/moodStore.ts:55-82 | posts AddEntryBody; on success the returned entry is at index 0, followed by all the previous entries in order; on failure the entries are unchanged |
| MoodStore.Store.UpdateEntry | frontend/src/store/moodStore.ts:85-109 | on success the entries are UpdateById of the old ones; on failure they are unchanged and the error is set |
| MoodStore.Store.DeleteEntry | frontend/src/store/moodStore.ts:112-131 | on success the entries are DeleteById of the old ones; on failure they are unchanged and the error is set |
| MoodStore.Store.constructor | frontend/src/store/moodStore.ts:21-24 | no entries, not loading, no error |
| NotificationStore.MockNotificationsFacts | frontend/src/store/notificationStore.ts:26-76 | the four fetched notifications belong to the user, are newest first, and exactly two are unread |
| NotificationStore.MarkWhere | frontend/src/store/notificationStore.ts:89-91 | exactly the selected notifications become read; every other field and notification is unchanged |
| NotificationStore.MarkRead | frontend/src/store/notificationStore.ts:89-91 | exactly the notifications with the id become read; every other field and notification is unchanged |
| NotificationStore.MarkReadIdempotent | frontend/src/store/notificationStore.ts:88-100 | marking the same id twice equals marking it once |
| NotificationStore.MarkReadCount | frontend/src/store/notificationStore.ts:93-99 | the unread count drops by exactly the unread notifications with that id |
| NotificationStore.MarkAllFor | frontend/src/store/notificationStore.ts:112-115 | exactly the user's notifications become read; the others are unchanged |
| NotificationStore.MarkAllForLeavesNoneUnreadIff | frontend/src/store/notificationStore.ts:112-118 | after marking one user's notifications, none is unread exactly when every notification was read already or belongs to that user |
| NotificationStore.MarkAllForOtherUserKeepsUnread | frontend/src/store/notificationStore.ts:112-118 | a concrete list where the stored count becomes 0 while one notification stays unread |
| NotificationStore.Remove | frontend/src/store/notificationStore.ts:131-133 | no notification with the id remains; every other one stays |
| NotificationStore.RemoveSpec | frontend/src/store/notificationStore.ts:131-141 | the others keep their order, and the unread count drops by exactly the unread notifications with that id |
| NotificationStore.RemoveCount | frontend/src/store/notificationStore.ts:131-141 | the unread count drops by exactly the unread notifications with that id |
| NotificationStore.Store.constructor | frontend/src/store/notificationStore.ts:16-20 | an empty list, a count of 0 that agrees with the flags, not loading, no error |
| NotificationStore.Store.StartRequest | frontend/src/store/notificationStore.ts:23 | loading is set, the error cleared, the list and count kept |
| NotificationStore.Store.Fail | frontend/src/store/notificationStore.ts:77-79 | the list and count are kept, the error is set, loading ends |
| NotificationStore.Store.FetchNotifications | frontend/src/store/notificationStore.ts:22-80 | on success the list is the four mocks, the count is 2 and agrees with the flags; on failure the list and count are untouched and the error is set |
| NotificationStore.Store.MarkAsRead | frontend/src/store/notificationStore.ts:82-104 | on success the list is MarkRead and the count equals the number of unread notifications; on failure nothing but the error and loading changes |
| NotificationStore.Store.MarkAllAsRead | frontend/src/store/notificationStore.ts:106-122 | on success the list is MarkAllFor and the count is 0; the count agrees with the flags exactly when every unread notification belonged to the user |
| NotificationStore.Store.DeleteNotification | frontend/src/store/notificationStore.ts:124-146 | on success the list is Remove and the count equals the number of unread notifications; on failure nothing but the error and loading changes |
| InsightStore.InsightsBelongToUser | frontend/src/store/insightStore.ts:24-115 | the generated insight and both fetched insights carry the user's id and exactly three suggestions; the fetched ones have ids '1' and '2' |
| InsightStore.Store.constructor | frontend/src/store/insightStore.ts:13-16 | no insights, not loading, no error |
| InsightStore.Store.StartRequest | frontend/src/store/insightStore.ts:19 | loading is set, the error cleared, the insights kept |
| InsightStore.Store.Fail | frontend/src/store/insightStore.ts:54-55 | the insights are kept, the error is set, loading ends |
| InsightStore.Store.GenerateInsights | frontend/src/store/insightStore.ts:18-57 | on success exactly one insight is appended after the old ones; on failure the list is unchanged; loading ends either way |
| InsightStore.Store.FetchInsights | frontend/src/store/insightStore.ts:59-119 | on success the list is replaced by the two fixed insights; on failure it is unchanged; loading ends either way |
| AuthStore.ErrorMessage | frontend/src/store/authStore.ts:33-46 | the error is the body's `error` when present, else the fallback; for a thrown call, the thrown message |
| AuthStore.Store.constructor | frontend/src/store/authStore.ts:15-20 | no user, not authenticated, not loading, no error, the persisted token as found |
| AuthStore.Store.SignIn | frontend/src/store/authStore.ts:21-77 | on success the token is stored, the user set, authenticated and not loading; on failure the token is removed, the error set, and the user and authentication kept |
| AuthStore.Store.Login | frontend/src/store/authStore.ts:21-48 | as SignIn, with the message 'Login failed' |
| AuthStore.Store.Register | frontend/src/store/authStore.ts:50-77 | as SignIn, with the message 'Registration failed' |
| AuthStore.Store.Logout | frontend/src/store/authStore.ts:79-107 | an earlier error is not cleared at the start; on success the token is removed, the user is null and not authenticated; on failure the token, user and authentication stay and the error is set |
| AuthStore.Store.ResetPassword | frontend/src/store/authStore.ts:109-111 | no state changes |
| MoodHistory.DateCutoffSpec | frontend/src/components/mood/MoodHistory.tsx:54-73 | each cutoff is at or before now; 'today' is midnight today, 'week' seven whole days back, 'month' as many days back as the previous month has, and any other value is now |
| MoodHistory.MonthCutoffOverflows | frontend/src/components/mood/MoodHistory.tsx:66-68 | on March 31st of a common year the month cutoff is March 3rd, because `setMonth` overflows February 31st |
| MoodHistory.FilterEntries | frontend/src/components/mood/MoodHistory.tsx:45-87 | the result is the entries accepted by all switched-on filters together, in their original order; each filter keeps an entry iff its condition holds; with 'all', 'all' and no search the result is the input |
| MoodHistory.UniqueMoods | frontend/src/components/mood/MoodHistory.tsx:140 | each mood of the entries exactly once and nothing else |
| MoodHistory.UniqueMoodsOrder | frontend/src/components/mood/MoodHistory.tsx:140 | the moods come in order of first occurrence |
| MoodHistory.MoodEmoji | frontend/src/components/mood/MoodHistory.tsx:124-138 | a vocabulary mood gets its own emoji, anything else the thinking face |
| MoodHistory.MoodEmojiInjective | frontend/src/components/mood/MoodHistory.tsx:124-138 | different vocabulary moods get different emoji |
| MoodHistory.EditPayload | frontend/src/components/mood/MoodHistory.tsx:105-109 | the edit body has exactly the keys mood, intensity and notes, with the edited values |
| MoodHistory.EditDialog.constructor | frontend/src/components/mood/MoodHistory.tsx:24-31 | the dialog is closed, with no selected entry, an empty mood and notes and intensity 3 |
| MoodHistory.EditDialog.EditClick | frontend/src/components/mood/MoodHistory.tsx:89-95 | the dialog opens on the entry, its mood, intensity and notes |
| MoodHistory.EditDialog.SaveEdit | frontend/src/components/mood/MoodHistory.tsx:102-113 | without a selected entry nothing happens; otherwise EditPayload is sent through the store's update of that entry, and the dialog closes whatever the outcome |
| InsightsPage.FilteredEntries | frontend/src/pages/InsightsPage.tsx:66-70 | exactly the entries whose timestamp is at or after `now` minus the range, in their original order |
| InsightsPage.FilteredEntriesSpec | frontend/src/pages/InsightsPage.tsx:66-70 | a shorter range keeps a subsequence of what a longer one keeps |
| InsightsPage.MoodCounts | frontend/src/pages/InsightsPage.tsx:73-76 | each mood's count is its number of entries, the keys are the distinct moods, and the counts sum to the number of entries |
| InsightsPage.ActivityCounts | frontend/src/pages/InsightsPage.tsx:79-84 | each activity's count is its number of occurrences over all entries' lists, so duplicates within one entry count twice |
| InsightsPage.SortedActivitiesSpec | frontend/src/pages/InsightsPage.tsx:87-89 | at most five pairs (all of them when there are fewer), each a pair of the table, in non-increasing count order |
| InsightsPage.SortedActivitiesTop | frontend/src/pages/InsightsPage.tsx:87-89 | no pair left out has a larger count than a pair kept |
| InsightsPage.SortedActivitiesStable | frontend/src/pages/InsightsPage.tsx:87-88 | pairs of equal count keep their table order |
| Tally.CountAllSpec | frontend/src/pages/InsightsPage.tsx:73-84 | an insertion-ordered count table gives each key its number of occurrences, has the distinct keys in first-seen order, and totals the input length |
| Tally.SortedCountsSpec | backend/mental_health_backend/moods/ai/engine.py:61-66 | the table sorted by count is in non-increasing count order, has exactly the input's keys with their occurrences, and totals the input length |
| Sorting.SortSpec | backend/mental_health_backend/moods/ai/engine.py:66 | the stable sort by decreasing key is ordered, a permutation, and keeps the order of equal keys |
| MoodLogger.WithTag | frontend/src/components/mood/MoodLogger.tsx:45-50 | the trimmed input is appended iff it is not blank and not already a tag; otherwise the tags are unchanged |
| MoodLogger.WithTagValid | frontend/src/components/mood/MoodLogger.tsx:45-50 | adding a tag keeps the tags duplicate-free, trimmed and non-blank |
| MoodLogger.RemoveTagValid | frontend/src/components/mood/MoodLogger.tsx:52-54 | removing a tag removes every copy, keeps the others in order, and keeps the tags valid |
| MoodLogger.WithActivity | frontend/src/components/mood/MoodLogger.tsx:56-61 | the untrimmed input is appended iff it is non-empty and absent, so the list stays duplicate-free |
| MoodLogger.Toggle | frontend/src/components/mood/MoodLogger.tsx:67-73 | an absent activity is appended; a present one is removed everywhere, the rest keeping their order |
| MoodLogger.ToggleTwice | frontend/src/components/mood/MoodLogger.tsx:67-73 | toggling twice restores membership, and toggling keeps the list duplicate-free |
| MoodLogger.ToggleTwiceAbsent | frontend/src/components/mood/MoodLogger.tsx:67-73 | selecting an absent activity twice gives back the very same list |
| MoodLogger.SubmitDraftSent | frontend/src/components/mood/MoodLogger.tsx:80-87 | the draft has exactly the six entry fields, holding the user id and the form's mood, intensity, activities, notes and tags; the form always sends arrays, so the store posts the draft unchanged |
| MoodLogger.Form.constructor | frontend/src/components/mood/MoodLogger.tsx:36-42 | an empty form with intensity 3 |
| MoodLogger.Form.AddTag | frontend/src/components/mood/MoodLogger.tsx:45-50 | the tags become WithTag, and the field is cleared only when a tag was added |
| MoodLogger.Form.RemoveTag | frontend/src/components/mood/MoodLogger.tsx:52-54 | every copy of the tag is removed; the other tags keep their order |
| MoodLogger.Form.AddActivity | frontend/src/components/mood/MoodLogger.tsx:56-61 | the activities become WithActivity, and the field is cleared only when an activity was added |
| MoodLogger.Form.RemoveActivity | frontend/src/components/mood/MoodLogger.tsx:63-65 | every copy of the activity is removed; the others keep their order |
| MoodLogger.Form.SelectActivity | frontend/src/components/mood/MoodLogger.tsx:67-73 | the activities become Toggle of the old ones |
| MoodLogger.Form.Submit | frontend/src/components/mood/MoodLogger.tsx:75-95 | without a user nothing happens; otherwise the draft goes to the store and the form resets to mood '', intensity 3 and empty lists and notes |
| MoodLogPage.DaysSpec | frontend/src/pages/MoodLogPage.tsx:51-53 | every day from the first of the month up to the first of the next month, each once, in increasing order |
| MoodLogPage.EntriesForDay | frontend/src/pages/MoodLogPage.tsx:55-61 | exactly the entries with a timestamp on that day: a subsequence of the list, so in its order, as long as the number of entries on that day |
| MoodLogPage.EntryInOneCell | frontend/src/pages/MoodLogPage.tsx:55-61 | an entry with a timestamp in the shown month is in the cell of its own day and in no other; any other entry is in none |
| MoodLogPage.LeadingBlanks | frontend/src/pages/MoodLogPage.tsx:115 | the blanks before the first day are its weekday, 0 to 6, Sunday first |
| MoodLogPage.TrailingBlanks | frontend/src/pages/MoodLogPage.tsx:151 | the blanks after the last day are six less its weekday, 0 to 6 |
| MoodLogPage.WeekdayShift | frontend/src/pages/MoodLogPage.tsx:114-151 | adding whole weeks keeps the weekday |
| MoodLogPage.GridFillsWeeks | frontend/src/pages/MoodLogPage.tsx:114-151 | leading blanks, days and trailing blanks fill whole rows of seven, with the first day under its weekday's column |
| MoodLogPage.PreviousMonthDate | frontend/src/pages/MoodLogPage.tsx:63-65 | the first of the previous month at midnight, rolling over to December of the year before |
| MoodLogPage.NextMonthDate | frontend/src/pages/MoodLogPage.tsx:67-69 | the first of the next month at midnight, rolling over to January of the year after |
| MoodLogPage.NavigationRoundTrip | frontend/src/pages/MoodLogPage.tsx:63-69 | back then forward, or forward then back, returns to the first of the shown month |
| MoodLogPage.CalendarView.constructor | frontend/src/pages/MoodLogPage.tsx:18 | the shown date is `now` |
| MoodLogPage.CalendarView.PreviousMonth | frontend/src/pages/MoodLogPage.tsx:63-65 | the shown date becomes PreviousMonthDate |
| MoodLogPage.CalendarView.NextMonth | frontend/src/pages/MoodLogPage.tsx:67-69 | the shown date becomes NextMonthDate |
| Calendar.PrevMonth | frontend/src/pages/MoodLogPage.tsx:64 | `new Date(y, m - 1, 1)`: the month before, a valid month, December of the year before for January |
| Calendar.NextMonth | frontend/src/pages/MoodLogPage.tsx:68 | `new Date(y, m + 1, 1)`: the month after, a valid month, January of the year after for December |
| Calendar.PrevNextInverse | frontend/src/pages/MoodLogPage.tsx:63-69 | the two are inverse |
| Calendar.MonthsAreConsecutive | frontend/src/pages/MoodLogPage.tsx:51-53 | the next month starts the day after this one ends, across year ends too |
| Calendar.Weekday | frontend/src/pages/MoodLogPage.tsx:115 | `getDay`: a weekday in 0..6, Sunday = 0 |
| MoodDetector.MapMoodSpec | frontend/src/components/ai/MoodDetector.tsx:136-142 | every detector label maps to a mood of the entry model, different labels to different moods, and only 'surprised' is renamed; other labels map to themselves |
| MoodDetector.Round | frontend/src/components/ai/MoodDetector.tsx:145 | `Math.round`: the nearest integer, halves rounded up |
| MoodDetector.IntensitySpec | frontend/src/components/ai/MoodDetector.tsx:145 | the intensity is in 1..5, never decreases as the confidence grows, is 4 or 5 for a confidence in [0.7, 1.0], and 5 from 0.9 |
| MoodDetector.Detect | frontend/src/components/ai/MoodDetector.tsx:112-113 | the label is one of the five emotions and the confidence lies in [0.7, 1.0) |
| MoodDetector.DetectCovers | frontend/src/components/ai/MoodDetector.tsx:112 | every label is detected for some draw |
| MoodDetector.NotesTrimmed | frontend/src/components/ai/MoodDetector.tsx:152 | the note has no surrounding white space, so the server stores it as sent |
| MoodDetector.AddEntryBodyKeeps | frontend/src/store/moodStore.ts:64-69 | the store posts a draft with truthy lists unchanged |
| MoodDetector.ReadDraft | frontend/src/components/ai/MoodDetector.tsx:147-155 | the serializer reads every field of the draft, and the flag only under its own key |
| MoodDetector.DraftAccepted | frontend/src/components/ai/MoodDetector.tsx:147-155 | the posted draft is accepted, with the mapped mood, the intensity, no activities, the note and the tag |
| MoodDetector.AsWrittenLosesFlag | frontend/src/components/ai/MoodDetector.tsx:154 | with the flag sent as `isAutoDetected`, the entry is created (201) but stored as not detected |
| MoodDetector.SavedEntry | frontend/src/components/ai/MoodDetector.tsx:132-158 | with the flag under the serializer's key, the created entry belongs to the requester and has the mapped mood, the intensity, no activities, the note, the 'auto-detected' tag and the detected flag |
| MoodDetector.Detector.constructor | frontend/src/components/ai/MoodDetector.tsx:15-22 | no image, mood, confidence 0, no model, no error |
| MoodDetector.Detector.LoadModel | frontend/src/components/ai/MoodDetector.tsx:28-70 | the model becomes available; nothing else changes |
| MoodDetector.Detector.CheckCameraPermission | frontend/src/components/ai/MoodDetector.tsx:73-85 | a refused camera records the error; a granted one changes nothing else |
| MoodDetector.Detector.CaptureImage | frontend/src/components/ai/MoodDetector.tsx:87-94 | with a mounted webcam its screenshot becomes the image; otherwise nothing changes |
| MoodDetector.Detector.DetectMood | frontend/src/components/ai/MoodDetector.tsx:96-123 | without an image or a model nothing changes; otherwise the detected mood and confidence are those of Detect |
| MoodDetector.Detector.ResetCapture | frontend/src/components/ai/MoodDetector.tsx:125-130 | the image, mood and error are cleared and the confidence is 0 |
| MoodDetector.Detector.SaveMoodEntry | frontend/src/components/ai/MoodDetector.tsx:132-158 | without a user or a detection nothing happens; otherwise the draft, with the flag under `isAutoDetected` as the page sends it, goes through the store's add, and the capture is reset whatever the reply |
| TherapistDashboard.FilteredPatientsSpec | frontend/src/pages/TherapistDashboardPage.tsx:179-189 | an empty term lists every patient; otherwise exactly the patients whose name, email or a concern contains the lower-cased term, in their order |
| TherapistDashboard.SearchIgnoresCase | frontend/src/pages/TherapistDashboardPage.tsx:179-189 | a term and its lower-case form list the same patients |
| TherapistDashboard.FilteredAppointmentsSpec | frontend/src/pages/TherapistDashboardPage.tsx:191-198 | 'upcoming' keeps exactly the scheduled appointments, 'past' exactly the completed ones, any other value all; the lengths are the matching counts |
| TherapistDashboard.CountsSpec | frontend/src/pages/TherapistDashboardPage.tsx:251-267 | the cards count exactly the unread messages and the scheduled appointments: 0 iff none, the whole list iff all |
| TherapistDashboard.RequiringAttentionSpec | frontend/src/pages/TherapistDashboardPage.tsx:411-414 | exactly the patients whose trend is declining, in their order |
| TherapistDashboard.ConversationsSpec | frontend/src/pages/TherapistDashboardPage.tsx:1006 | one row per patient with messages, none twice, ordered by each patient's first message |
| TherapistDashboard.ConversationsSnoc | frontend/src/pages/TherapistDashboardPage.tsx:1006 | a new message keeps the rows and opens one at the end only for a patient without one |
| TherapistDashboard.SentMessageNotUnread | frontend/src/pages/TherapistDashboardPage.tsx:204-216 | a sent message is read, so the unread count does not change |
| TherapistDashboard.Dashboard.constructor | frontend/src/pages/TherapistDashboardPage.tsx:158-164 | the given data, no selection, empty search, status filter 'all', no content |
| TherapistDashboard.Dashboard.SelectPatient | frontend/src/pages/TherapistDashboardPage.tsx:175-177 | the patient is selected; the data are unchanged |
| TherapistDashboard.Dashboard.SendMessage | frontend/src/pages/TherapistDashboardPage.tsx:200-217 | nothing for blank content or no patient; otherwise exactly one read message from the therapist to that patient is appended and the input cleared |
| TherapistPage.ListsSpec | frontend/src/pages/TherapistPage.tsx:501-504 | the upcoming list holds exactly the scheduled appointments, the past list exactly the completed ones, none is in both and a cancelled one is in neither |
| TherapistPage.CountDisjoint | frontend/src/pages/TherapistPage.tsx:501-504 | two exclusive conditions count no more than the list |
| TherapistPage.TimeOptionsSpec | frontend/src/pages/TherapistPage.tsx:754-760 | every slot of every day is offered and nothing else; a further day adds its slots at the end |
| TherapistPage.BookingIsUpcoming | frontend/src/pages/TherapistPage.tsx:189-201 | a booked appointment joins the end of the upcoming list and leaves the past list alone |
| TherapistPage.Page.constructor | frontend/src/pages/TherapistPage.tsx:151-160 | the given data, no selection, closed forms, empty fields, the 'find' tab |
| TherapistPage.Page.OpenBooking | frontend/src/pages/TherapistPage.tsx:175-178 | the therapist is selected and the booking form opens |
| TherapistPage.Page.OpenMessage | frontend/src/pages/TherapistPage.tsx:180-183 | the therapist is selected and the message form opens |
| TherapistPage.Page.SubmitBooking | frontend/src/pages/TherapistPage.tsx:185-206 | nothing unless date and time are set; otherwise one scheduled 50-minute video appointment with the selected therapist is appended, the fields reset, the form closed and the appointments tab shown |
| TherapistPage.Page.SubmitMessage | frontend/src/pages/TherapistPage.tsx:208-225 | nothing for blank content; otherwise one unread message from 'user1' to the selected therapist is appended, the input cleared, the form closed and the messages tab shown |
| Avatar.Head | frontend/src/components/ui/Avatar.tsx:31 | a part contributes at most one character |
| Avatar.HeadsSplit | frontend/src/components/ui/Avatar.tsx:29-32 | the parts' first characters are none iff the name is all separators; the first is the first non-separator; each is a non-separator of the name |
| Avatar.InitialsSpec | frontend/src/components/ui/Avatar.tsx:28-35 | at most two characters, none lower-case, a prefix of the upper-cased first characters; empty iff the name is all spaces; otherwise starting with its first non-space, upper-cased |
| Avatar.InitialsOfTwoWords | frontend/src/components/ui/Avatar.tsx:28-35 | a first and a last name give their two upper-cased first letters |
| Avatar.ExtraSpacesIgnored | frontend/src/components/ui/Avatar.tsx:29-32 | extra spaces between words change nothing |
| Avatar.RenderSpec | frontend/src/components/ui/Avatar.tsx:39-62 | the image is shown iff the source is non-empty; otherwise the initials of a non-empty name, '?' without one, at most two characters |
| Engine.LoadDataSpec | backend/mental_health_backend/moods/ai/engine.py:17-30 | the rows are exactly the user's entries from the window start on, each as often as in the table, newest first |
| Engine.MoodDistributionSpec | backend/mental_health_backend/moods/ai/engine.py:32-37 | each mood has its number of rows, most frequent first; the moods are exactly those of the rows; the counts sum to the number of rows; empty iff there are no rows |
| Engine.ActivityStats | backend/mental_health_backend/moods/ai/engine.py:56-66 | the loop computes the activity counts sorted by decreasing count |
| Engine.ActivityStatsSpec | backend/mental_health_backend/moods/ai/engine.py:56-66 | each activity has its total occurrences, in non-increasing order with ties in first-seen order; the counts sum to all listed activities |
| Engine.PresenceSum | backend/mental_health_backend/moods/ai/engine.py:82-88 | the presence vector sums to the number of rows listing the activity |
| Engine.UniqueActivities | backend/mental_health_backend/moods/ai/engine.py:73-77 | every activity of the rows once |
| Engine.AppendNew | backend/mental_health_backend/moods/ai/engine.py:75-76 | the inner loop adds one row's activities not seen yet, giving the distinct activities of all rows so far |
| Engine.ActivityPresence | backend/mental_health_backend/moods/ai/engine.py:79-84 | each activity's list has one slot per row, 1 where the row lists it |
| Engine.CoefficientsSpec | backend/mental_health_backend/moods/ai/engine.py:86-94 | a pair exactly for each activity present in at least three rows whose coefficient is a number (neither its presence vector nor the intensities constant), once each |
| Engine.CorrelationTableSpec | backend/mental_health_backend/moods/ai/engine.py:68-95 | nothing below four rows; otherwise exactly the activities of the rows present in at least three rows with a numeric coefficient, once each |
| Engine.Correlations | backend/mental_health_backend/moods/ai/engine.py:68-95 | the loops compute the correlation table of numeric coefficients, and flag a NaN exactly when the table cannot be stored |
| Engine.Coefficient | backend/mental_health_backend/moods/ai/engine.py:88-92 | an activity in fewer than three rows adds nothing; otherwise a numeric coefficient joins the table, and a NaN one (a constant presence vector or constant intensities) is flagged |
| Engine.UnstorableIff | backend/mental_health_backend/moods/ai/engine.py:86-92 | the table holds a NaN exactly when there are four or more rows and an activity present in at least three of them is present in every row, or all rows have one intensity |
| Engine.AlwaysListedUnstorable | backend/mental_health_backend/moods/ai/engine.py:86-92 | four or more rows that all list one activity give a NaN coefficient |
| Engine.ModeAmongSpec | backend/mental_health_backend/moods/ai/engine.py:108 | the chosen candidate is most frequent, and the smallest string among those equally frequent |
| Engine.DominantMoodSpec | backend/mental_health_backend/moods/ai/engine.py:108 | the dominant mood is a mood of the rows, none is more frequent, and it is the smallest of the equally frequent ones |
| Engine.MaxOf | backend/mental_health_backend/moods/ai/engine.py:111 | an element no smaller than any |
| Engine.MinOf | backend/mental_health_backend/moods/ai/engine.py:112 | an element no larger than any |
| Engine.StatsOrdered | backend/mental_health_backend/moods/ai/engine.py:109-113 | min is at most the mean, and the mean at most max |
| Engine.FirstMaxIndex | backend/mental_health_backend/moods/ai/engine.py:144-148 | Python's `max` with a key: a largest count, and the first one |
| Engine.FirstMaxOfCounts | backend/mental_health_backend/moods/ai/engine.py:144-148 | in a table of values with their occurrence counts, the pair `max` picks holds a value of the list with its count, and no value outnumbers it |
| Engine.TopOfDistribution | backend/mental_health_backend/moods/ai/engine.py:143-148 | the pair picked holds a most frequent mood of the rows and its count |
| Engine.TopMoodSuggestionSpec | backend/mental_health_backend/moods/ai/engine.py:143-150 | a non-empty distribution gives exactly one most-frequent-mood suggestion naming a most frequent mood and its count |
| Engine.CorrelationSuggestionsSpec | backend/mental_health_backend/moods/ai/engine.py:153-158 | one suggestion per correlation beyond ±0.4: 'keep up' above 0.4, 'consider reducing' below -0.4, none in between |
| Engine.CorrelationSuggestionsSnoc | backend/mental_health_backend/moods/ai/engine.py:153-158 | the suggestions of a longer table extend those of the shorter one |
| Engine.SuggestFromCorrelations | backend/mental_health_backend/moods/ai/engine.py:153-158 | the loop appends exactly the correlation suggestions, in table order, after those already made |
| Engine.LowIntensityIff | backend/mental_health_backend/moods/ai/engine.py:161-164 | the rounded mean is below 2.5 iff 20 × sum < 49 × count |
| Engine.GenerateSuggestions | backend/mental_health_backend/moods/ai/engine.py:138-172 | the loop builds the suggestions in creation order: mood, correlations, low intensity |
| Engine.GenerateInsights | backend/mental_health_backend/moods/ai/engine.py:97-136 | None iff there are no rows in the window or the correlation table holds a NaN, which the insight's JSON field refuses; otherwise an insight for the user over the window with the distribution, activity stats, correlations, dominant mood, stats and suggestions of the rows |
| Engine.Analyse | backend/mental_health_backend/moods/ai/engine.py:103-122 | past the empty check: nothing exactly when the correlation table holds a NaN, otherwise the insight of the rows |
| Engine.Build | backend/mental_health_backend/moods/ai/engine.py:108-118 | the dominant mood, the statistics, and the insight object with its suggestions, together exactly the insight of the rows |
| Serializers.ValidateIntensity | backend/mental_health_backend/moods/serializers.py:18-21 | accepted iff 1 ≤ value ≤ 5, and then unchanged; otherwise the range message |
| Serializers.ParseMood | backend/mental_health_backend/moods/models/entries.py:8-19 | accepted iff a string among the model's mood choices |
| Serializers.ParseIntensitySpec | backend/mental_health_backend/moods/serializers.py:18-21 | accepted iff the value is 1 to 5 as a number or its numeric string; the range check never fails after the choice check |
| Serializers.ParseNotes | backend/mental_health_backend/moods/serializers.py:11-15 | a string is accepted and trimmed; a number is accepted as text; anything else is refused |
| Serializers.ParseList | backend/mental_health_backend/moods/serializers.py:11-15 | accepted iff a list of strings, unchanged |
| Serializers.ParseFlag | backend/mental_health_backend/moods/serializers.py:11-15 | accepted iff a boolean or one of the boolean field's true or false words |
| Serializers.ReadFieldSpec | backend/mental_health_backend/moods/serializers.py:11-16 | a field is bad iff its value does not parse, or it is required, missing and the update is not partial |
| Serializers.ValidateSpec | backend/mental_health_backend/moods/serializers.py:11-21 | a body is accepted iff every present field passes and, for a create, mood and intensity are present; a rejected body has errors under exactly its rejected fields: a present value that fails its field, or mood or intensity missing from a create |
| Serializers.ErrorKeys | backend/mental_health_backend/moods/serializers.py:11-21 | the validation errors are keyed by exactly the rejected fields |
| Serializers.ValidatePatch | backend/mental_health_backend/moods/serializers.py:16 | an accepted body never sets id, user or timestamp, and carries a field iff the body has its key, each valid |
| Serializers.ValidateValues | backend/mental_health_backend/moods/serializers.py:11-21 | each field carried is the parsed value of the body's key |
| Serializers.IgnoresOtherKeys | backend/mental_health_backend/moods/serializers.py:11-16 | a key the serializer does not read does not change the validation |
| Serializers.NewEntry | backend/mental_health_backend/moods/views.py:38-39 | the created entry belongs to the requester, with its new id and the current time, and the validated fields or their defaults |
| Serializers.CreateFromValidBody | backend/mental_health_backend/moods/serializers.py:11-16 | a valid create body gives an entry of the requester with a valid mood and intensity |
| Serializers.ImpactSpec | backend/mental_health_backend/moods/serializers.py:46-47 | the same activities in the same order, each value the magnitude of the correlation, never negative; idempotent |
| Serializers.SerializeInsightSpec | backend/mental_health_backend/moods/serializers.py:27-59 | the id, period, dominant mood, intensity statistics, mood distribution and top activities pass through; the correlations pass through twice, the impact has their activities, and every suggestion is shown once, the last created first, typed 'auto_generated' with a null confidence score |
| Serializers.DateRepresentation | backend/mental_health_backend/moods/serializers.py:38 | a `DateField` shows a date as its day and refuses a datetime |
| Serializers.SerializeInstance | backend/mental_health_backend/moods/serializers.py:27-59 | an instance is shown iff both periods are dates, and then as the stored insight with those days |
| MoodViews.DateWindowSpec | backend/mental_health_backend/moods/views.py:24-34 | the window keeps exactly the entries its filter admits, in their order: today; from today − 7; from today − 30; all for absent or unknown values |
| MoodViews.ListEntriesSpec | backend/mental_health_backend/moods/views.py:20-36 | only the requester's entries, exactly those the window admits, each once as in the table, newest first |
| MoodViews.WindowsNest | backend/mental_health_backend/moods/views.py:24-34 | today ⊆ week ⊆ month ⊆ no filter |
| MoodViews.Create | backend/mental_health_backend/moods/views.py:38-39 | 201 iff the body is valid, appending one entry of the requester with the new id and time; 400 with errors and no change otherwise |
| MoodViews.CreateIgnoresClaimedOwner | backend/mental_health_backend/moods/views.py:38-39 | a `user` key in the body changes nothing; the owner is the requester |
| MoodViews.Lookup | backend/mental_health_backend/moods/views.py:46-47 | a found entry is the requester's with that id; none is found iff the requester has no entry with the id |
| MoodViews.LookupOnlyOwn | backend/mental_health_backend/moods/views.py:46-47 | another user's entry is never found |
| MoodViews.PartialUpdate | backend/mental_health_backend/moods/views.py:41-47 | 404 iff not found; 400 for an invalid patch; on 200 the entry is patched in place and keeps its owner and id |
| MoodViews.Destroy | backend/mental_health_backend/moods/views.py:41-47 | 404 iff not found; on 204 the entry leaves the table and the others keep their order |
| MoodViews.InsightResponse | backend/mental_health_backend/moods/views.py:68-79 | 400 with the 'not enough data' detail iff there are no rows in the window or the table holds a NaN; otherwise the serializer's view of the insight built from the rows, with 200 when there is one and 500 when the serializer refuses a period |
| MoodViews.GenerateInsight | backend/mental_health_backend/moods/views.py:68-79 | as written: 400 with the 'not enough data' detail iff there are no rows in the window or the table holds a NaN; otherwise always 500 with no view, because the insight still holds datetime periods |
| MoodViews.GenerateInsightDated | backend/mental_health_backend/moods/views.py:68-79 | with the periods taken as dates: 400 iff there are no rows or the table holds a NaN; otherwise 200 with exactly the serialized insight the analyser builds from the window's rows |
| MoodViews.OneEntryServerError | backend/mental_health_backend/moods/ai/engine.py:126-129 | one entry of the requester inside the window gives the analyser rows and a storable insight, and the serializer refuses the periods of the insight it returns |
| UserViews.RegisterDecisionOrder | backend/mental_health_backend/users/views.py:10-45 | 405 for a non-POST method, 500 for a body that is not an object, 400 for a missing field before a taken email, 201 only for a new email with every field |
| UserViews.RegisterThenAgain | backend/mental_health_backend/users/views.py:19-42 | after a registration the same email cannot register again, and can log in with its password |
| UserViews.LoginDecisionOrder | backend/mental_health_backend/users/views.py:47-79 | 405, then 500 for a bad body, then 400 for missing fields, then 400 for wrong credentials, else 200 |
| UserViews.RepeatedLoginSameToken | backend/mental_health_backend/users/views.py:63 | later logins answer the stored token, whatever new key they would make |
| UserViews.Backend.constructor | backend/mental_health_backend/users/views.py:26-31 | empty user and token tables |
| UserViews.Backend.Register | backend/mental_health_backend/users/views.py:10-45 | the status is RegisterStatus; on 201 one account with username = email and one token are added and returned; otherwise the tables are unchanged |
| UserViews.Backend.Login | backend/mental_health_backend/users/views.py:47-79 | the status is LoginStatus; on 200 the answer carries the account and its get-or-create token; otherwise the tables are unchanged |
| UserViews.Backend.Logout | backend/mental_health_backend/users/views.py:83-91 | 405 with the method error for a non-POST method, otherwise 200 with the logged-out message; it changes no table, so the token stays valid |

## Left out

- Network plumbing, headers, `localStorage` I/O, timers and async interleaving. Replies are inputs, and the token is a field.
- `_calculate_mood_timeseries`. It relies on pandas resampling and forward filling.
- Floating-point arithmetic.
  - The average is exact. Rounding is kept only where a decision uses it: `round(average, 1) < 2.5` becomes `20 × sum < 49 × count`.
  - The correlation coefficient is a parameter, and its rounding to two decimals is not modelled.
- The generic `except` of `generate_insights` is modelled for the one error a modelled step raises: the database refusing the `NaN` that `json.dumps` writes for an undefined coefficient. Other database failures are not modelled.
- The order of equal counts in `value_counts()` is not fixed by pandas. The model keeps first-seen order.
- The order of the set that collects the unique activities is not fixed by Python. The model uses first-seen order.
- Serializers.ParseList: the `JSONField` accepts any JSON value. The model accepts lists of strings only.
- Serializers.ParseMood: the exact texts of the choice errors are not modelled, only that there is one.
- Serializers.ParseNotes: Python's `strip` removes Unicode white space. The model trims ASCII white space.
- The `insight` foreign key of an entry is not modelled. It is always absent.
- Avatar.InitialsSpec: `toUpperCase` is Unicode-aware. The model upper-cases ASCII letters only.
- Time zones and daylight saving. Instants are local milliseconds and dates are day numbers.
- The search and filter backends of the entry list (`SearchFilter`, `DjangoFilterBackend`). These are library configuration.
- The insight list and detail endpoints. They only filter stored insights by user, and stored insights are not a table here.
- UserViews.Backend.Register: password hashing, the exceptions `create_user` can raise and the randomness of new token keys are not modelled. The key is a parameter.
- UserViews.Backend.Login: the session that `login` opens is not modelled.
- UserViews.Backend.Logout: the session that `logout` ends is not modelled.
- The detector's webcam, TensorFlow model loading and its timing. Model loading is a single step, and the detector's random draws are parameters.
- TherapistDashboard.Conversations: the latest-message preview of each row is not modelled.
- The therapists' and patients' mock data and all rendering.
- MoodViews.GenerateInsight: the insight and suggestions stored before the server error are not modelled, because stored insights are not a table here.
- Serializers.SerializeInsightSpec: the suggestions' ids and `generated_at` times are not shown in the model, because stored suggestions are not a table here.
- InsightsPage.ActivityCounts, Tally.CountAllSpec: the page counts into a plain JavaScript object, so names inherited from `Object.prototype` go wrong there. For example, `toString` and `constructor` start from a function and their counts become strings, and `__proto__` is never listed. The model counts every name as an ordinary key.
- MoodHistory.FilterEntries, TherapistDashboard.FilteredPatientsSpec, TherapistDashboard.SearchIgnoresCase: JavaScript's `toLowerCase` is Unicode-aware, but the model lower-cases ASCII letters only. So notes "ÉTÉ" match the search "été" in the page but not in the model.
- MoodLogger.WithTag, MoodLogger.Form.AddTag, TherapistDashboard.Dashboard.SendMessage, TherapistPage.Page.SubmitMessage: JavaScript's `trim` removes Unicode white space, but the model trims ASCII white space only.
- InsightsPage.MoodCounts, InsightsPage.ActivityCounts: the counts are a JavaScript object, and `Object.entries` lists integer-like keys first, in numeric order. The model keeps first-seen order for every key, so an activity named "2" can come earlier on the page than in the model before the stable sort.
- MoodViews: the views require an authenticated user. The 401 or 403 answer to an anonymous request is not modelled, and the requester is always a user id.
- Serializers: a JSON value is null, a boolean, an integer, a string or a list of strings. Floats and nested objects are not modelled. So the model cannot show `notes` accepting `3.5` as text, or `intensity` refusing `3.0` because the choice check compares the text "3.0".
- UserViews: a request body with a value that is not a string (a number, a list or an object) is not modelled.

## Findings

| source | as written | input that shows it | evidently intended | confidence | as-written member | corrected member |
|---|---|---|---|---|---|---|
| frontend/src/components/ai/MoodDetector.tsx:154 | the detected entry is sent with the key `isAutoDetected`, which the entry serializer does not read (backend/mental_health_backend/moods/serializers.py:11-15), so the entry is stored as not detected | any saved detection, e.g. 'happy' at confidence 0.8 | the flag sent as `is_auto_detected`, so the stored entry is marked detected | not executed | MoodDetector.AsWrittenLosesFlag | MoodDetector.SavedEntry |
| backend/mental_health_backend/moods/ai/engine.py:128-129 | the insight is created with `timezone.now()` datetimes for its two `DateField` periods, and the returned instance keeps them; `InsightSerializer` (backend/mental_health_backend/moods/serializers.py:38) maps the periods to DRF `DateField`s, whose representation refuses a datetime, so the view at backend/mental_health_backend/moods/views.py:78-79 ends in a server error after the insight is stored | one entry of the requester within the last 30 days | the periods passed as dates (`.date()`), so the view answers 200 with the serialized insight | not executed | MoodViews.GenerateInsight | MoodViews.GenerateInsightDated |
