# MyBest screen logic in Dafny

MyBest is a campus student-information Android app: a login screen with a
guest-mode entry, a dashboard with today's classes, and an attendance
("presensi") screen that marks a class attended and shows a generated
attendance history. This project models the decision logic of those three
screens and proves what it promises:

- **Dashboard** (`dashboard.dfy`):
  - the greeting for the hour of the day;
  - the colour of a schedule card: its Indonesian day name mapped to a `Calendar` day (Monday when unknown), its "HH:MM" end time parsed (23 and 59 for missing or non-numeric parts), and three colours in precedence order;
  - the login-status badge, the guest fallbacks for name and NIM, and the card list with its tips line.
- **Attendance screen** (`presensi.dfy`):
  - the history generator, with the random draws and today's date passed in;
  - the schedule lookup that turns a fault into "no schedule";
  - the attend button and the attendance write.
- **Login screen** (`login.dfy`):
  - validation of the trimmed NIM and the untrimmed password, with early return;
  - the remember-me writes;
  - guest mode and the flags written by the delayed callbacks.
- **Shared pieces**:
  - `entities.dfy` holds the schedule, user and preference records, and the schedule table as a map from id to row;
  - `kotlin_text.dfy` holds the Kotlin library behaviour the rules depend on: `split(":")`, `toIntOrNull()`, `Int.toString()` and `trim()`.

The screens are classes whose methods update their fields, as the activities
and the fragment do. The rules they apply are pure functions, and lemmas prove
their properties. The clock, the random generator and the database results
are parameters.

Two behaviours of the code that a reader might not expect, both kept in the model:

- The first generated attendance record is dated one week before today, not today. The calendar is moved back seven days before each record is formatted.
- The screen's own copy of the schedule is not reloaded after attendance is recorded. Only the stored row and the button change.

## Model

| member | source | states |
|---|---|---|
| KotlinText.Split | app/src/main/java/com/ubsi/mybest/ui/dashboard/DashboardFragment.kt:205 | at least one part; no part holds ':'; joining the parts with ':' gives the input back; a single part exactly when the input has no ':' |
| KotlinText.SplitJoin | app/src/main/java/com/ubsi/mybest/ui/dashboard/DashboardFragment.kt:205 | splitting delimiter-free parts joined by ':' gives the same parts back |
| KotlinText.ToIntOrNull | app/src/main/java/com/ubsi/mybest/ui/dashboard/DashboardFragment.kt:206-207 | digits alone, or after one '+' or '-', give their value when it fits in 32 bits and null when it does not; any other text (empty, a sign alone, a stray character) gives null |
| KotlinText.IntToStringRoundTrip | app/src/main/java/com/ubsi/mybest/ui/dashboard/DashboardFragment.kt:163 | parsing `Int.toString()` of any integer gives it back when it fits in 32 bits and null when it does not |
| KotlinText.PlusSignRoundTrip | app/src/main/java/com/ubsi/mybest/ui/dashboard/DashboardFragment.kt:206-207 | digits after a '+' read as their value ("+7" is 7), null when out of range |
| KotlinText.IntToString | app/src/main/java/com/ubsi/mybest/ui/dashboard/DashboardFragment.kt:163 | never empty; starts with '-' exactly for a negative number |
| KotlinText.LeadingZero | app/src/main/java/com/ubsi/mybest/ui/dashboard/DashboardFragment.kt:206-207 | a leading zero does not change the parsed value ("07" reads as 7) |
| KotlinText.Trim | app/src/main/java/com/ubsi/mybest/ui/login/LoginActivity.kt:52 | never longer than the input; a non-empty result neither starts nor ends with whitespace |
| KotlinText.TrimStartSpec | app/src/main/java/com/ubsi/mybest/ui/login/LoginActivity.kt:52 | the result is a suffix of the input; everything removed is whitespace; it does not start with whitespace |
| KotlinText.TrimEndSpec | app/src/main/java/com/ubsi/mybest/ui/login/LoginActivity.kt:52 | the result is a prefix of the input; everything removed is whitespace; it does not end with whitespace |
| KotlinText.TrimEmptyIff | app/src/main/java/com/ubsi/mybest/ui/login/LoginActivity.kt:52-56 | a NIM trims to empty exactly when every character is whitespace |
| KotlinText.TrimIdempotent | app/src/main/java/com/ubsi/mybest/ui/login/LoginActivity.kt:52 | trimming twice gives the same result as trimming once |
| Dashboard.GreetingFor | app/src/main/java/com/ubsi/mybest/ui/dashboard/DashboardFragment.kt:77-82 | morning exactly for 0..10, afternoon for 11..14, evening for 15..18, night for every other hour |
| Dashboard.GreetingCoversDay | app/src/main/java/com/ubsi/mybest/ui/dashboard/DashboardFragment.kt:76-82 | each hour 0..23 gets the greeting of an independent 24-entry table, so the four ranges cover the day without gap or overlap |
| Dashboard.GreetingBoundaries | app/src/main/java/com/ubsi/mybest/ui/dashboard/DashboardFragment.kt:77-82 | 0 and 10 give morning, 11 and 14 afternoon, 15 and 18 evening, 19 and 23 night |
| Dashboard.ScheduleDay | app/src/main/java/com/ubsi/mybest/ui/dashboard/DashboardFragment.kt:192-202 | the result is a calendar day 1..7; a name outside the seven keys gives Monday |
| Dashboard.DayNameRoundTrip | app/src/main/java/com/ubsi/mybest/ui/dashboard/DashboardFragment.kt:192-200 | the seven names and the seven calendar days correspond one to one |
| Dashboard.ParseEndTime | app/src/main/java/com/ubsi/mybest/ui/dashboard/DashboardFragment.kt:205-207 | with no ':' the whole text is the hour (23 if it is not an integer) and the minute is 59; a parsed part lies in the 32-bit range |
| Dashboard.ParseHourMinute | app/src/main/java/com/ubsi/mybest/ui/dashboard/DashboardFragment.kt:205-207 | for "h:rest", h is the hour (23 if not an integer) and the text of rest before its next ':' is the minute (59 if not), so "10:30:00" is 10:30 |
| Dashboard.TwoDigitsParse | app/src/main/java/com/ubsi/mybest/ui/dashboard/DashboardFragment.kt:206-207 | a zero-padded two-digit field parses to its number |
| Dashboard.ParseFormatTime | app/src/main/java/com/ubsi/mybest/ui/dashboard/DashboardFragment.kt:205-207 | every well-formed "HH:MM" end time parses back to its hour and minute |
| Dashboard.ScheduleColor | app/src/main/java/com/ubsi/mybest/ui/dashboard/DashboardFragment.kt:186-213 | always one of the three colours; red exactly when the schedule's day is not today; gray exactly when it is today and the clock is lexicographically past the end time |
| Dashboard.PassedIsLaterMinuteOfDay | app/src/main/java/com/ubsi/mybest/ui/dashboard/DashboardFragment.kt:211 | on the same day, with minutes below 60, gray exactly when the clock's minute of the day exceeds the end's |
| Dashboard.ExactEndMinuteIsToday | app/src/main/java/com/ubsi/mybest/ui/dashboard/DashboardFragment.kt:211-212 | at the exact end minute the colour is green, not gray |
| Dashboard.UnparseableEndTimeNeverPassed | app/src/main/java/com/ubsi/mybest/ui/dashboard/DashboardFragment.kt:205-212 | when neither hour nor minute parses, no real clock reading makes the card gray |
| Dashboard.OtherDayIsRed | app/src/main/java/com/ubsi/mybest/ui/dashboard/DashboardFragment.kt:210 | a "Senin" schedule seen on a Tuesday is red whatever the times |
| Dashboard.TenOClockExamples | app/src/main/java/com/ubsi/mybest/ui/dashboard/DashboardFragment.kt:209-213 | a class ending "10:00" today is green at 09:59 and 10:00 and gray at 10:01 |
| Dashboard.IfEmpty | app/src/main/java/com/ubsi/mybest/ui/dashboard/DashboardFragment.kt:96-97 | a non-empty stored value is kept unchanged; an empty one is replaced by the default |
| Dashboard.TipsText | app/src/main/java/com/ubsi/mybest/ui/dashboard/DashboardFragment.kt:160-164 | the no-class text exactly when there are no classes; otherwise a longer text built around the count |
| Dashboard.TipsCountReadable | app/src/main/java/com/ubsi/mybest/ui/dashboard/DashboardFragment.kt:163 | the class count can be parsed back out of the tips text |
| Dashboard.CardFor | app/src/main/java/com/ubsi/mybest/ui/dashboard/DashboardFragment.kt:168-184 | the card opens its schedule, shows its subject and room, shows the "start - end" time line, takes the schedule's colour `ScheduleColor` (one of three, red exactly for another day), and has a top margin exactly when it is not the first |
| Dashboard.DashboardView.constructor | app/src/main/java/com/ubsi/mybest/ui/dashboard/DashboardFragment.kt:34-41 | a new dashboard has nothing loaded |
| Dashboard.DashboardView.SetupGreeting | app/src/main/java/com/ubsi/mybest/ui/dashboard/DashboardFragment.kt:75-84 | the greeting field holds the greeting for the hour |
| Dashboard.DashboardView.LoadUserData | app/src/main/java/com/ubsi/mybest/ui/dashboard/DashboardFragment.kt:86-108 | shows the current user's name and NIM; with no user, shows the stored ones with "Guest User" and "00000000" as fallbacks, never empty |
| Dashboard.DashboardView.LoadAppStatus | app/src/main/java/com/ubsi/mybest/ui/dashboard/DashboardFragment.kt:110-128 | the login badge is valid and green exactly when logged in or in guest mode; the web badge always reads yes |
| Dashboard.DashboardView.LoadTodayClasses | app/src/main/java/com/ubsi/mybest/ui/dashboard/DashboardFragment.kt:130-166 | one card per schedule of today, in order, with a top margin on all but the first; the no-classes card shows exactly for an empty day; the tips line matches the count |
| Dashboard.DashboardView.SetupUI | app/src/main/java/com/ubsi/mybest/ui/dashboard/DashboardFragment.kt:68-73 | all four loaders' results hold together: the greeting, the name and NIM with their fallbacks, both badges with their text and tint, the card list and the tips line |
| Presensi.StatusOf | app/src/main/java/com/ubsi/mybest/ui/presensi/PresensiActivity.kt:121-135 | HADIR exactly for a draw below 85, IZIN for 85..94, ALPHA from 95 on |
| Presensi.StatusTint | app/src/main/java/com/ubsi/mybest/ui/presensi/PresensiActivity.kt:122-135 | HADIR, IZIN and ALPHA each get their own colour: success, warning and error |
| Presensi.CountInPrefix | app/src/main/java/com/ubsi/mybest/ui/presensi/PresensiActivity.kt:120-135 | among draws 0..hi-1: min(hi,85) HADIR, min(max(hi-85,0),10) IZIN and max(hi-95,0) ALPHA |
| Presensi.StatusDistribution | app/src/main/java/com/ubsi/mybest/ui/presensi/PresensiActivity.kt:120-135 | of the hundred draws 0..99, 85 give HADIR, 10 IZIN and 5 ALPHA |
| Presensi.TallySum | app/src/main/java/com/ubsi/mybest/ui/presensi/PresensiActivity.kt:109-135 | the three counters add up to the number of records |
| Presensi.ViewsUpToShape | app/src/main/java/com/ubsi/mybest/ui/presensi/PresensiActivity.kt:116-161 | after k of n iterations there are 2k children, or 2n-1 once k = n; record j is at position 2(j-1) and a divider is at every odd position |
| Presensi.HistoryLayout | app/src/main/java/com/ubsi/mybest/ui/presensi/PresensiActivity.kt:113-162 | the finished history has 2n-1 children (15 to 27); record j shows number j, PTM j and the date 7j days back; dividers are exactly at the odd positions; the last child is a record |
| Presensi.GetScheduleById | app/src/main/java/com/ubsi/mybest/ui/presensi/PresensiActivity.kt:187-194 | the row for the id when it exists and the lookup does not fail; otherwise null |
| Presensi.FaultLooksLikeMissing | app/src/main/java/com/ubsi/mybest/ui/presensi/PresensiActivity.kt:187-194 | a failing lookup gives the same null as a lookup of a missing row |
| Presensi.PresensiActivity.constructor | app/src/main/java/com/ubsi/mybest/ui/presensi/PresensiActivity.kt:45-58 | the id comes from the intent extra, -1 when it is missing; the button starts enabled |
| Presensi.PresensiActivity.GenerateAttendanceList | app/src/main/java/com/ubsi/mybest/ui/presensi/PresensiActivity.kt:101-168 | the container is cleared, then holds exactly the records and dividers that `ViewsUpTo` lays out; the summary counters are the per-status tallies of the draws |
| Presensi.DetailsOf | app/src/main/java/com/ubsi/mybest/ui/presensi/PresensiActivity.kt:82-87 | the header shows the subject, the day first in the time line, the lecturer, room and code after their labels, and an SKS count that parses back to the schedule's |
| Presensi.PresensiActivity.LoadScheduleData | app/src/main/java/com/ubsi/mybest/ui/presensi/PresensiActivity.kt:76-99 | with a schedule: header filled, button disabled with the "already" text if attended (else untouched), history generated; with none: nothing else changes |
| Presensi.PresensiActivity.PerformPresensi | app/src/main/java/com/ubsi/mybest/ui/presensi/PresensiActivity.kt:170-185 | only with the attend button enabled, as its click listener needs; with a loaded schedule its row is marked attended at the given time and the button disabled; without one, neither store nor button changes |
| Entities.ScheduleStore.UpdateAttendance | app/src/main/java/com/ubsi/mybest/ui/presensi/PresensiActivity.kt:173 | overwrites both attendance fields of that row, leaves every other row as it was, and does nothing for an unknown id |
| Login.Validate | app/src/main/java/com/ubsi/mybest/ui/login/LoginActivity.kt:51-68 | rejects the NIM exactly when it is all whitespace; otherwise rejects the password exactly when it is empty |
| Login.BlankPasswordAccepted | app/src/main/java/com/ubsi/mybest/ui/login/LoginActivity.kt:53-63 | a password of spaces passes, because it is not trimmed |
| Login.RememberPrefs | app/src/main/java/com/ubsi/mybest/ui/login/LoginActivity.kt:70-77 | remember-me set to the checkbox; the saved NIM is the trimmed NIM when checked and "" otherwise; the other preferences are unchanged |
| Login.LoginActivity.constructor | app/src/main/java/com/ubsi/mybest/ui/login/LoginActivity.kt:19-28 | a fresh form over the stored preferences, with the saved credentials loaded |
| Login.LoginActivity.LoadSavedCredentials | app/src/main/java/com/ubsi/mybest/ui/login/LoginActivity.kt:44-49 | with remember-me stored, the NIM field gets the saved NIM and the box is checked; otherwise the form is unchanged |
| Login.LoginActivity.AttemptLogin | app/src/main/java/com/ubsi/mybest/ui/login/LoginActivity.kt:51-90 | only while not loading, since loading disables the login button; a blank NIM sets only the NIM error; an empty password clears the NIM error and sets the password error; neither touches preferences; success clears both errors, writes the remember-me preferences and posts the login callback |
| Login.LoginActivity.StartGuestMode | app/src/main/java/com/ubsi/mybest/ui/login/LoginActivity.kt:105-116 | guest mode is switched on and no other preference is written; guest data is requested and the finishing callback posted |
| Login.LoginActivity.RunDelayed | app/src/main/java/com/ubsi/mybest/ui/login/LoginActivity.kt:84-115 | either callback hides loading and navigates; the login one sets guest mode off and logged-in on; the guest one writes no preference |
| Login.RememberMeRoundTrip | app/src/main/java/com/ubsi/mybest/ui/login/LoginActivity.kt:44-77 | after an accepted login, a fresh login screen shows the trimmed NIM with remember-me checked, or an empty field without it; a rejected login leaves the preferences unchanged |

## Left out

- The database singleton, its destructive-migration setting and its locking (`data/AppDatabase.kt`) are framework configuration and thread synchronisation.
- The Room DAOs and their flows are not part of this model:
  - the schedule table is a map from id to row, with an unknown id on update affecting nothing;
  - the results of `getCurrentUser().firstOrNull()` and `getAllSchedules()` are parameters.
- Several helpers are not part of this model:
  - `DummyDataGenerator.getTodaySchedules` — the dashboard takes today's schedules as a parameter;
  - `StringUtils.getInitials` and `StringUtils.formatNim` — the dashboard records the name and the raw NIM handed to them;
  - `DataInitializer.initializeGuestData` — recorded as a flag;
  - `PreferenceManager` storage — a plain record.
- `Random.nextInt`, `Calendar.getInstance()` and `System.currentTimeMillis()` are parameters.
- Dates are day numbers; the `SimpleDateFormat` text and time zones are not modelled.
- The UI plumbing is not modelled:
  - view inflation, layout parameters and colour parsing;
  - resource strings, which are enumeration values here;
  - Toast and Snackbar, including the forgot-password message;
  - the Tugas (assignments) button's navigation, intents and activity finishing, of which navigation is a flag;
  - coroutine launching;
  - the swipe-refresh spinner.
- The 1500 ms and 500 ms delays are not modelled. Posted callbacks may run in any order, so a guest-mode callback and a login callback pending together are both covered.
- The initial states of views are assumed, not read from the layout: an enabled attend button with its normal label, nothing loaded on the dashboard, and a login form with an empty NIM field, an empty password field and an unchecked remember-me box.
- KotlinText.ToIntOrNull: accepts only ASCII digits. The JVM's `Character.digit` also accepts other Unicode decimal digits, so an end time written in, say, Arabic-Indic digits parses in the app but falls back to 23 or 59 here.
